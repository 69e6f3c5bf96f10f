/** When the store and the in-memory state agree: what a store call needs so that its update runs. */
module RefreshAgreement {
  import opened Wrappers
  import opened RefreshProtocol
  import opened RefreshInvariant
  import opened RefreshResults

  // ---------------------------------------------------------------- when a landed call's update runs

  /** The events after which a publication in flight is refused. */
  predicate Disturbs(e: Event, p: ProviderId, caller: CallerId) {
    Supersedes(e, p) || e == EAbort(caller)
  }

  predicate Undisturbed(es: seq<Event>, p: ProviderId, caller: CallerId) {
    forall k | 0 <= k < |es| :: !Disturbs(es[k], p, caller)
  }

  /** The events hold no answer of the store to publication `i`. */
  predicate Unanswered(es: seq<Event>, i: PubId) {
    forall k | 0 <= k < |es| :: !(es[k].EStore? && es[k].i == i)
  }

  ghost predicate Pending(s: State, i: PubId) {
    InRange(s, i) && s.pubs[i].stage.Mutating?
  }

  /** What never changes about a publication. */
  ghost predicate SamePub(s: State, t: State, i: PubId)
    requires InRange(s, i)
  {
    && InRange(t, i) && t.pubs[i].op == s.pubs[i].op && t.pubs[i].provider == s.pubs[i].provider
    && t.pubs[i].persist == s.pubs[i].persist
    && t.ops[s.pubs[i].op].caller == s.ops[s.pubs[i].op].caller
    && t.ops[s.pubs[i].op].provider == s.ops[s.pubs[i].op].provider
    && t.ops[s.pubs[i].op].generation == s.ops[s.pubs[i].op].generation
  }

  /** Nothing of a publication but its stage changes, and nothing of an operation but its flags. */
  ghost predicate SameRecords(s: State, t: State) {
    && |s.pubs| <= |t.pubs| && |s.ops| <= |t.ops|
    && (forall i | 0 <= i < |s.pubs| :: t.pubs[i] == s.pubs[i].(stage := t.pubs[i].stage))
    && (forall o | 0 <= o < |s.ops| ::
          t.ops[o].provider == s.ops[o].provider && t.ops[o].generation == s.ops[o].generation &&
          t.ops[o].caller == s.ops[o].caller)
  }

  lemma {:induction false} CatalogKeepsRecords(s: State, e: Event)
    requires Enabled(s, e) && (e.ESet? || e.EDelete? || e.EClear? || e.EBegin?)
    ensures SameRecords(s, Step(s, e)) && Step(s, e).pubs == s.pubs
  {
    assert SameRecords(s, Supersede(s, if e.EClear? then s.providers + s.controllers.Keys else {e.p}));
  }

  /** Only the stage of publication `i` differs. */
  ghost predicate Staged(s: State, t: State, i: PubId) {
    i < |s.pubs| && |t.pubs| == |s.pubs| && t.ops == s.ops &&
    t.pubs == s.pubs[i := s.pubs[i].(stage := t.pubs[i].stage)]
  }

  lemma {:induction false} StagedKeepsRecords(s: State, t: State, i: PubId)
    requires Staged(s, t, i)
    ensures SameRecords(s, t) && forall j | 0 <= j < |s.pubs| && j != i :: t.pubs[j] == s.pubs[j]
  {}

  lemma {:induction false} StoreKeepsRecords(s: State, e: Event)
    requires Enabled(s, e) && (e.EResume? || e.ELand? || e.EStore?)
    ensures SameRecords(s, Step(s, e)) && |Step(s, e).pubs| == |s.pubs|
    ensures forall i | 0 <= i < |s.pubs| && i != e.i :: Step(s, e).pubs[i] == s.pubs[i]
  {
    assert Staged(s, Step(s, e), e.i);
    StagedKeepsRecords(s, Step(s, e), e.i);
  }

  lemma {:induction false} StepKeepsRecords(s: State, e: Event)
    requires Enabled(s, e)
    ensures SameRecords(s, Step(s, e))
  {
    if e.ESet? || e.EDelete? || e.EClear? || e.EBegin? {
      CatalogKeepsRecords(s, e);
    } else if e.EResume? || e.ELand? || e.EStore? {
      StoreKeepsRecords(s, e);
    }
  }

  lemma {:induction false} StepSamePub(s: State, e: Event, i: PubId)
    requires Enabled(s, e) && InRange(s, i)
    ensures SamePub(s, Step(s, e), i)
  {
    StepKeepsRecords(s, e);
  }

  lemma {:induction false} StaysPending(s: State, e: Event, i: PubId)
    requires Enabled(s, e) && Pending(s, i) && !(e.EStore? && e.i == i)
    ensures Pending(Step(s, e), i)
  {}

  /** The operation's provider is registered while the publication is live. */
  lemma {:induction false} LiveIsRegistered(s: State, i: PubId)
    requires Inv(s) && InRange(s, i) && Live(s, i)
    ensures s.pubs[i].provider in s.providers && s.ops[s.pubs[i].op].provider == s.pubs[i].provider
  {
    assert PubOk(s, i) && OpOk(s, s.pubs[i].op);
  }

  /** A superseding advances a registered provider's generation and no other. */
  lemma {:induction false} StepGeneration(s: State, e: Event, p: ProviderId)
    requires Enabled(s, e) && p in s.providers && p in s.generations
    ensures p in Step(s, e).generations
    ensures Generation(Step(s, e), p) == Generation(s, p) + if Supersedes(e, p) then 1 else 0
  {}

  /** The providers an event of the catalog supersedes. */
  function Ids(s: State, e: Event): set<ProviderId>
    requires e.ESet? || e.EDelete? || e.EClear? || e.EBegin?
  {
    if e.EClear? then s.providers + s.controllers.Keys else {e.p}
  }

  lemma {:induction false} CatalogSignal(s: State, e: Event, o: OpId)
    requires (e.ESet? || e.EDelete? || e.EClear? || e.EBegin?) && Enabled(s, e) && o < |s.ops|
    ensures o < |Step(s, e).ops| && Step(s, e).ops[o] == Supersede(s, Ids(s, e)).ops[o]
    ensures SignalAborted(s, o) ==> SignalAborted(Step(s, e), o)
    ensures !SignalAborted(s, o) && SignalAborted(Step(s, e), o) ==> s.ops[o].provider in Ids(s, e)
  {}

  lemma {:induction false} OtherSignal(s: State, e: Event, o: OpId)
    requires !(e.ESet? || e.EDelete? || e.EClear? || e.EBegin?) && Enabled(s, e) && o < |s.ops|
    ensures o < |Step(s, e).ops|
    ensures SignalAborted(Step(s, e), o) <==> SignalAborted(s, o) || e == EAbort(s.ops[o].caller)
  {
    if e.EResume? || e.ELand? || e.EStore? {
      assert Staged(s, Step(s, e), e.i);
    }
  }

  /** Signals stay aborted; only a superseding or its caller's abort aborts an operation's signal. */
  lemma {:induction false} StepSignal(s: State, e: Event, o: OpId)
    requires Enabled(s, e) && o < |s.ops|
    ensures o < |Step(s, e).ops|
    ensures SignalAborted(s, o) ==> SignalAborted(Step(s, e), o)
    ensures !SignalAborted(s, o) && SignalAborted(Step(s, e), o) ==> Disturbs(e, s.ops[o].provider, s.ops[o].caller)
    ensures e == EAbort(s.ops[o].caller) ==> SignalAborted(Step(s, e), o)
  {
    if e.ESet? || e.EDelete? || e.EClear? || e.EBegin? {
      CatalogSignal(s, e, o);
    } else {
      OtherSignal(s, e, o);
    }
  }

  /** Only a superseding or the caller's abort ends a publication's liveness, and each of them does. */
  lemma {:induction false} StepLive(s: State, e: Event, i: PubId)
    requires Inv(s) && Enabled(s, e) && InRange(s, i) && Live(s, i)
    ensures InRange(Step(s, e), i)
    ensures Live(Step(s, e), i) <==> !Disturbs(e, s.pubs[i].provider, s.ops[s.pubs[i].op].caller)
  {
    StepSamePub(s, e, i);
    LiveIsRegistered(s, i);
    StepGeneration(s, e, s.pubs[i].provider);
    StepSignal(s, e, s.pubs[i].op);
  }

  lemma {:induction false} GenerationsGrow(s: State, e: Event, p: ProviderId)
    requires Enabled(s, e)
    ensures Generation(s, p) <= Generation(Step(s, e), p)
    ensures p in s.generations ==> p in Step(s, e).generations
  {}

  lemma {:induction false} StepDead(s: State, e: Event, i: PubId)
    requires Inv(s) && Enabled(s, e) && InRange(s, i) && !Live(s, i)
    ensures InRange(Step(s, e), i) && !Live(Step(s, e), i)
  {
    StepSamePub(s, e, i);
    assert PubOk(s, i) && OpOk(s, s.pubs[i].op);
    StepSignal(s, e, s.pubs[i].op);
    GenerationsGrow(s, e, s.pubs[i].provider);
  }

  lemma {:induction false} RunLive(s: State, es: seq<Event>, i: PubId, p: ProviderId, caller: CallerId)
    requires Inv(s) && CanRun(s, es) && Pending(s, i) && Unanswered(es, i)
    requires p == s.pubs[i].provider && caller == s.ops[s.pubs[i].op].caller
    ensures Inv(Run(s, es)) && Pending(Run(s, es), i)
    ensures Live(Run(s, es), i) <==> Live(s, i) && Undisturbed(es, p, caller)
    decreases |es|
  {
    if |es| == 0 {
    } else {
      var t := Step(s, es[0]);
      assert forall k | 0 <= k < |es[1..]| :: es[1..][k] == es[k + 1];
      assert forall k | 0 < k < |es| :: es[k] == es[1..][k - 1];
      StepKeeps(s, es[0]);
      StepSamePub(s, es[0], i);
      StaysPending(s, es[0], i);
      if Live(s, i) {
        StepLive(s, es[0], i);
      } else {
        StepDead(s, es[0], i);
      }
      RunLive(t, es[1..], i, p, caller);
    }
  }

  lemma {:induction false} CanRunPrefix(s: State, es: seq<Event>, e: Event)
    requires CanRun(s, es + [e])
    ensures CanRun(s, es) && Enabled(Run(s, es), e) && Run(s, es + [e]) == Step(Run(s, es), e)
    decreases |es|
  {
    if |es| == 0 {
      assert es + [e] == [e] && Run(Step(s, e), [e][1..]) == Step(s, e);
    } else {
      assert (es + [e])[0] == es[0] && (es + [e])[1..] == es[1..] + [e];
      CanRunPrefix(Step(s, es[0]), es[1..], e);
    }
  }

  /**
   A store call in flight whose publication is live is followed by its update exactly when, until
   the store answers, nothing supersedes the provider and the operation's caller does not abort.
   */
  lemma {:induction false} LandedWriteUpdatesIff(s: State, es: seq<Event>, i: PubId)
    requires Inv(s) && Pending(s, i) && Live(s, i) && Unanswered(es, i) && CanRun(s, es + [EStore(i, true)])
    ensures i < |Run(s, es + [EStore(i, true)]).pubs|
    ensures Run(s, es + [EStore(i, true)]).pubs[i].stage == Settled(Updated) <==>
            Undisturbed(es, s.pubs[i].provider, s.ops[s.pubs[i].op].caller)
  {
    CanRunPrefix(s, es, EStore(i, true));
    RunLive(s, es, i, s.pubs[i].provider, s.ops[s.pubs[i].op].caller);
  }

  /** The same for every reachable state. */
  lemma {:induction false} ReachableWriteUpdatesIff(
    store: map<ProviderId, Entry>, before: seq<Event>, es: seq<Event>, i: PubId)
    requires CanRun(Initial(store), before)
    requires var s := Run(Initial(store), before);
      Pending(s, i) && Live(s, i) && Unanswered(es, i) && CanRun(s, es + [EStore(i, true)])
    ensures var s := Run(Initial(store), before);
      var t := Run(s, es + [EStore(i, true)]);
      i < |t.pubs| &&
      (t.pubs[i].stage == Settled(Updated) <==> Undisturbed(es, s.pubs[i].provider, s.ops[s.pubs[i].op].caller))
  {
    RunKeeps(Initial(store), before);
    LandedWriteUpdatesIff(Run(Initial(store), before), es, i);
  }

  // ---------------------------------------------------------------- the store follows the updates

  /** What the provider's updates have made of an entry it started with. */
  function Remembered(pubs: seq<Publication>, log: seq<Record>, p: ProviderId, start: Option<Entry>): Option<Entry>
    decreases |log|
  {
    if |log| == 0 then start else
    var before, last := Remembered(pubs, log[..|log| - 1], p, start), log[|log| - 1];
    if last.Ran? && last.pub < |pubs| && pubs[last.pub].provider == p
    then After(before, pubs[last.pub].persist) else before
  }

  function After(before: Option<Entry>, persist: Persist): Option<Entry> {
    match persist case Keep => before case Remove => None case Write(entry) => Some(entry)
  }

  ghost predicate LandedInFlight(s: State, i: PubId, p: ProviderId) {
    i < |s.pubs| && s.pubs[i].provider == p && s.pubs[i].stage == Mutating(true)
  }

  /**
   Store calls in flight are live; and unless one has already taken effect, the store holds what
   the updates have made of the first entry.
   */
  ghost predicate Agrees(s: State, p: ProviderId, start: Option<Entry>) {
    && (forall i: PubId | Pending(s, i) && s.pubs[i].provider == p :: Live(s, i))
    && ((exists i: PubId :: LandedInFlight(s, i, p)) || Stored(s, p) == Remembered(s.pubs, s.log, p, start))
  }

  /**
   An event that could part store and memory: superseding the provider or aborting a caller while a
   store call of theirs is in flight, or the failure of a call that has taken effect.
   */
  ghost predicate Parts(s: State, e: Event, p: ProviderId) {
    exists i: PubId :: PartsAt(s, e, p, i)
  }

  ghost predicate PartsAt(s: State, e: Event, p: ProviderId, i: PubId) {
    && Pending(s, i) && s.pubs[i].provider == p
    && (Disturbs(e, p, s.ops[s.pubs[i].op].caller) || (e == EStore(i, false) && s.pubs[i].stage.landed))
  }

  lemma {:induction false} SameMemory(
    pubs: seq<Publication>, pubs': seq<Publication>, log: seq<Record>, p: ProviderId, start: Option<Entry>)
    requires |pubs| <= |pubs'|
    requires forall i | 0 <= i < |pubs| :: pubs'[i].provider == pubs[i].provider && pubs'[i].persist == pubs[i].persist
    requires forall k | 0 <= k < |log| :: log[k].pub < |pubs|
    ensures Remembered(pubs', log, p, start) == Remembered(pubs, log, p, start)
    decreases |log|
  {
    if |log| == 0 {
    } else {
      SameMemory(pubs, pubs', log[..|log| - 1], p, start);
    }
  }

  lemma {:induction false} LogInRange(s: State)
    requires Inv(s)
    ensures forall k | 0 <= k < |s.log| :: s.log[k].pub < |s.pubs|
  {
    forall k | 0 <= k < |s.log| ensures s.log[k].pub < |s.pubs| {
      assert RecordOk(s, s.log[k]);
    }
  }

  lemma {:induction false} PubsStay(s: State, e: Event)
    requires Enabled(s, e)
    ensures |s.pubs| <= |Step(s, e).pubs|
    ensures forall i | 0 <= i < |s.pubs| ::
              Step(s, e).pubs[i].provider == s.pubs[i].provider && Step(s, e).pubs[i].persist == s.pubs[i].persist
  {
    StepKeepsRecords(s, e);
  }

  /** Remembering one more record. */
  lemma {:induction false} OneMoreRecord(s: State, e: Event, r: Record, p: ProviderId, start: Option<Entry>)
    requires Inv(s) && Enabled(s, e) && Step(s, e).log == s.log + [r] && r.pub < |s.pubs|
    ensures var t, before := Step(s, e), Remembered(s.pubs, s.log, p, start);
      Remembered(t.pubs, t.log, p, start) ==
      if r.Ran? && s.pubs[r.pub].provider == p then After(before, s.pubs[r.pub].persist) else before
  {
    var t := Step(s, e);
    PubsStay(s, e);
    LogInRange(s);
    SameMemory(s.pubs, t.pubs, s.log, p, start);
    assert t.log[..|t.log| - 1] == s.log;
  }

  lemma {:induction false} NoMoreRecord(s: State, e: Event, p: ProviderId, start: Option<Entry>)
    requires Inv(s) && Enabled(s, e) && Step(s, e).log == s.log
    ensures Remembered(Step(s, e).pubs, Step(s, e).log, p, start) == Remembered(s.pubs, s.log, p, start)
  {
    PubsStay(s, e);
    LogInRange(s);
    SameMemory(s.pubs, Step(s, e).pubs, s.log, p, start);
  }

  /** A store call begins for a live publication. */
  lemma {:induction false} NewlyPending(s: State, e: Event, i: PubId)
    requires Inv(s) && Enabled(s, e) && !Pending(s, i) && Pending(Step(s, e), i)
    ensures e == EResume(i) && InRange(s, i) && Live(s, i)
  {
    forall j | 0 <= j < |s.pubs| ensures InRange(s, j) {
      assert PubOk(s, j);
    }
    if e.ESet? || e.EDelete? || e.EClear? || e.EBegin? {
      CatalogKeepsRecords(s, e);
    } else if e.EResume? || e.ELand? || e.EStore? {
      StoreKeepsRecords(s, e);
    }
  }

  /** Store calls in flight stay live. */
  lemma {:induction false} StepPendingLive(s: State, e: Event, p: ProviderId, start: Option<Entry>, i: PubId)
    requires Inv(s) && Enabled(s, e) && Agrees(s, p, start) && !Parts(s, e, p)
    requires Pending(Step(s, e), i) && Step(s, e).pubs[i].provider == p
    ensures Live(Step(s, e), i)
  {
    PubsStay(s, e);
    if Pending(s, i) {
      assert !PartsAt(s, e, p, i);
      StepLive(s, e, i);
    } else {
      NewlyPending(s, e, i);
      StepLive(s, e, i);
    }
  }

  lemma {:induction false} SameInFlight(s: State, t: State, p: ProviderId)
    requires |s.pubs| <= |t.pubs| && forall i | 0 <= i < |s.pubs| :: t.pubs[i].provider == s.pubs[i].provider
    requires forall i | 0 <= i < |s.pubs| && s.pubs[i].stage == Mutating(true) :: t.pubs[i].stage == Mutating(true)
    requires exists i: PubId :: LandedInFlight(s, i, p)
    ensures exists i: PubId :: LandedInFlight(t, i, p)
  {
    var i: PubId :| LandedInFlight(s, i, p);
    assert LandedInFlight(t, i, p);
  }

  /** Events other than a publication's own steps. */
  lemma {:induction false} OtherAgrees(s: State, e: Event, p: ProviderId, start: Option<Entry>)
    requires Inv(s) && Enabled(s, e) && !e.EResume? && !e.ELand? && !e.EStore?
    requires (exists i: PubId :: LandedInFlight(s, i, p)) || Stored(s, p) == Remembered(s.pubs, s.log, p, start)
    ensures var t := Step(s, e);
      (exists i: PubId :: LandedInFlight(t, i, p)) || Stored(t, p) == Remembered(t.pubs, t.log, p, start)
  {
    var t := Step(s, e);
    PubsStay(s, e);
    OtherSince(s, e);
    NoMoreRecord(s, e, p, start);
    assert Stored(t, p) == Stored(s, p);
    assert forall i | 0 <= i < |s.pubs| :: t.pubs[i].stage == s.pubs[i].stage;
    if i: PubId :| LandedInFlight(s, i, p) {
      SameInFlight(s, t, p);
    }
  }

  /** Nothing of the provider but `i` is in flight. */
  lemma {:induction false} OnlyInFlight(s: State, i: PubId)
    requires Inv(s) && i < |s.pubs| && EarlierSettled(s, i) && !s.pubs[i].stage.Settled?
    ensures forall j: PubId | LandedInFlight(s, j, s.pubs[i].provider) :: j == i
  {
    forall j: PubId | LandedInFlight(s, j, s.pubs[i].provider) ensures j == i {
      Alone(s, i, j);
    }
  }

  /** A step of publication `i` leaves other providers' calls as they are. */
  lemma {:induction false} OthersInFlight(s: State, t: State, i: PubId, p: ProviderId)
    requires i < |s.pubs| && s.pubs[i].provider != p
    requires |t.pubs| == |s.pubs| && t.pubs == s.pubs[i := s.pubs[i].(stage := t.pubs[i].stage)]
    ensures (exists j: PubId :: LandedInFlight(s, j, p)) <==> (exists j: PubId :: LandedInFlight(t, j, p))
  {
    if j: PubId :| LandedInFlight(s, j, p) {
      assert LandedInFlight(t, j, p);
    }
    if j: PubId :| LandedInFlight(t, j, p) {
      assert LandedInFlight(s, j, p);
    }
  }

  lemma {:induction false} ResumeAgrees(s: State, i: PubId, p: ProviderId, start: Option<Entry>)
    requires Inv(s) && Enabled(s, EResume(i)) && Agrees(s, p, start)
    ensures var t := Step(s, EResume(i));
      (exists j: PubId :: LandedInFlight(t, j, p)) || Stored(t, p) == Remembered(t.pubs, t.log, p, start)
  {
    var t := Step(s, EResume(i));
    assert PubOk(s, i);
    if t.log == s.log {
      NoMoreRecord(s, EResume(i), p, start);
    } else {
      OneMoreRecord(s, EResume(i), t.log[|s.log|], p, start);
    }
    if s.pubs[i].provider == p {
      ResumeIsAlone(s, i);
      OnlyInFlight(s, i);
    } else {
      OthersInFlight(s, t, i, p);
    }
  }

  lemma {:induction false} LandAgrees(s: State, i: PubId, p: ProviderId, start: Option<Entry>)
    requires Inv(s) && Enabled(s, ELand(i)) && Agrees(s, p, start)
    ensures var t := Step(s, ELand(i));
      (exists j: PubId :: LandedInFlight(t, j, p)) || Stored(t, p) == Remembered(t.pubs, t.log, p, start)
  {
    var t := Step(s, ELand(i));
    if s.pubs[i].provider == p {
      assert LandedInFlight(t, i, p);
    } else {
      assert PubOk(s, i);
      OneMoreRecord(s, ELand(i), Landed(i), p, start);
      OthersInFlight(s, t, i, p);
      assert Stored(t, p) == Stored(s, p);
    }
  }

  lemma {:induction false} AnswerAgrees(s: State, i: PubId, ok: bool, p: ProviderId, start: Option<Entry>)
    requires Inv(s) && Enabled(s, EStore(i, ok)) && Agrees(s, p, start) && !Parts(s, EStore(i, ok), p)
    ensures var t := Step(s, EStore(i, ok));
      (exists j: PubId :: LandedInFlight(t, j, p)) || Stored(t, p) == Remembered(t.pubs, t.log, p, start)
  {
    var t := Step(s, EStore(i, ok));
    assert PubOk(s, i);
    if t.log == s.log {
      NoMoreRecord(s, EStore(i, ok), p, start);
    } else {
      OneMoreRecord(s, EStore(i, ok), t.log[|s.log|], p, start);
    }
    if s.pubs[i].provider == p {
      assert Pending(s, i) && Live(s, i) && !PartsAt(s, EStore(i, ok), p, i);
      OnlyInFlight(s, i);
    } else {
      OthersInFlight(s, t, i, p);
    }
  }

  lemma {:induction false} StepAgrees(s: State, e: Event, p: ProviderId, start: Option<Entry>)
    requires Inv(s) && Enabled(s, e) && Agrees(s, p, start) && !Parts(s, e, p)
    ensures Agrees(Step(s, e), p, start)
  {
    var t := Step(s, e);
    forall i: PubId | Pending(t, i) && t.pubs[i].provider == p ensures Live(t, i) {
      StepPendingLive(s, e, p, start, i);
    }
    if e.EResume? {
      ResumeAgrees(s, e.i, p, start);
    } else if e.ELand? {
      LandAgrees(s, e.i, p, start);
    } else if e.EStore? {
      AnswerAgrees(s, e.i, e.ok, p, start);
    } else {
      OtherAgrees(s, e, p, start);
    }
  }

  /** Nothing in the run parts store and memory. */
  ghost predicate Together(s: State, es: seq<Event>, p: ProviderId)
    requires CanRun(s, es)
    decreases |es|
  {
    |es| == 0 || (!Parts(s, es[0], p) && Together(Step(s, es[0]), es[1..], p))
  }

  lemma {:induction false} RunAgrees(s: State, es: seq<Event>, p: ProviderId, start: Option<Entry>)
    requires Inv(s) && CanRun(s, es) && Agrees(s, p, start) && Together(s, es, p)
    ensures Agrees(Run(s, es), p, start)
    decreases |es|
  {
    if |es| == 0 {
    } else {
      StepAgrees(s, es[0], p, start);
      StepKeeps(s, es[0]);
      RunAgrees(Step(s, es[0]), es[1..], p, start);
    }
  }

  /**
   In every run in which no store call is overtaken by a superseding or its caller's abort, or fails
   after taking effect, the store holds what the updates made of the first entry: that of the last
   one that persisted, whenever no call of the provider is in flight.
   */
  lemma {:induction false} StoreFollowsUpdates(store: map<ProviderId, Entry>, es: seq<Event>, p: ProviderId)
    requires CanRun(Initial(store), es) && Together(Initial(store), es, p)
    ensures var s := Run(Initial(store), es);
      (forall i: PubId | Pending(s, i) :: s.pubs[i].provider != p) ==>
        Stored(s, p) == Remembered(s.pubs, s.log, p, Stored(Initial(store), p))
  {
    var s := Run(Initial(store), es);
    RunKeeps(Initial(store), es);
    RunAgrees(Initial(store), es, p, Stored(Initial(store), p));
    if i: PubId :| LandedInFlight(s, i, p) {
      assert PubOk(s, i) && Pending(s, i);
    }
  }

  /** No event of the kinds that can part store and memory at all. */
  predicate Harmless(es: seq<Event>, p: ProviderId) {
    forall k | 0 <= k < |es| :: !Supersedes(es[k], p) && !es[k].EAbort? && !(es[k].EStore? && !es[k].ok)
  }

  lemma {:induction false} HarmlessStays(s: State, es: seq<Event>, p: ProviderId)
    requires CanRun(s, es) && Harmless(es, p)
    ensures Together(s, es, p)
    decreases |es|
  {
    if |es| == 0 {
    } else {
      assert forall k | 0 <= k < |es[1..]| :: es[1..][k] == es[k + 1];
      forall i: PubId ensures !PartsAt(s, es[0], p, i) {}
      HarmlessStays(Step(s, es[0]), es[1..], p);
    }
  }

  /** So it is after any run without such events that starts in agreement. */
  lemma {:induction false} HarmlessRunsAgree(s: State, es: seq<Event>, p: ProviderId, start: Option<Entry>)
    requires Inv(s) && CanRun(s, es) && Agrees(s, p, start) && Harmless(es, p)
    ensures Agrees(Run(s, es), p, start)
  {
    HarmlessStays(s, es, p);
    RunAgrees(s, es, p, start);
  }
}
