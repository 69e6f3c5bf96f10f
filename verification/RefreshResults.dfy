/** What every run of the refresh protocol promises. */
module RefreshResults {
  import opened Wrappers
  import opened RefreshProtocol
  import opened RefreshInvariant

  predicate InFlight(s: State, i: PubId) {
    i < |s.pubs| && !s.pubs[i].stage.Queued? && !s.pubs[i].stage.Settled?
  }

  /**
   In every reachable state: publications of one provider never overlap; store effects and
   updates of one provider follow call order with non-decreasing generations; and each update
   ran with its generation current, its signal not aborted, and the store holding exactly what
   the publication persisted.
   */
  lemma {:induction false} PublicationsAreSerial(store: map<ProviderId, Entry>, es: seq<Event>)
    requires CanRun(Initial(store), es)
    ensures var s := Run(Initial(store), es);
      && (forall i: PubId, j: PubId |
            InFlight(s, i) && InFlight(s, j) && s.pubs[i].provider == s.pubs[j].provider :: i == j)
      && (forall j, k | 0 <= j < k < |s.log| :: InOrder(s, s.log[j], s.log[k]))
      && (forall k | 0 <= k < |s.log| && s.log[k].Ran? ::
            && InRange(s, s.log[k].pub)
            && s.log[k].current == GenerationOf(s, s.log[k].pub)
            && !s.log[k].aborted
            && Holds(s.log[k].stored, s.pubs[s.log[k].pub].persist))
  {
    var s := Run(Initial(store), es);
    RunKeeps(Initial(store), es);
    forall k | 0 <= k < |s.log| ensures RecordOk(s, s.log[k]) {}
    forall i: PubId, j: PubId | InFlight(s, i) && InFlight(s, j) && s.pubs[i].provider == s.pubs[j].provider
      ensures i == j
    {
      assert PubOk(s, i) && EarlierSettled(s, i);
      Alone(s, i, j);
    }
  }

  /**
   In every reachable state: the registered controller belongs to the current generation and is
   not aborted, and an operation of an older generation whose body still runs has an aborted signal.
   */
  lemma {:induction false} StaleOperationsAreAborted(store: map<ProviderId, Entry>, es: seq<Event>)
    requires CanRun(Initial(store), es)
    ensures var s := Run(Initial(store), es);
      && (forall p | p in s.controllers ::
            && s.controllers[p] < |s.ops|
            && s.ops[s.controllers[p]].provider == p
            && s.ops[s.controllers[p]].generation == Generation(s, p)
            && !s.ops[s.controllers[p]].aborted)
      && (forall o | 0 <= o < |s.ops| && !s.ops[o].done && s.ops[o].generation < Generation(s, s.ops[o].provider) ::
            SignalAborted(s, o))
  {
    var s := Run(Initial(store), es);
    RunKeeps(Initial(store), es);
    forall p | p in s.controllers ensures ControllerOk(s, p) {}
    forall o | 0 <= o < |s.ops| && !s.ops[o].done && s.ops[o].generation < Generation(s, s.ops[o].provider)
      ensures SignalAborted(s, o)
    {
      assert OpOk(s, o);
      assert s.ops[o].provider in s.controllers ==> ControllerOk(s, s.ops[o].provider);
    }
  }

  /** What may change between a state and a later one: history only grows, and acts only with newer generations. */
  ghost predicate Since(s: State, t: State) {
    && SameOps(s, t)
    && |s.pubs| <= |t.pubs|
    && (forall i | 0 <= i < |s.pubs| :: t.pubs[i].op == s.pubs[i].op)
    && (forall p | p in s.generations :: p in t.generations && s.generations[p] <= t.generations[p])
    && |s.log| <= |t.log|
    && (forall k | |s.log| <= k < |t.log| :: ActsSince(s, t, t.log[k]))
  }

  ghost predicate ActsSince(s: State, t: State, r: Record) {
    && InRange(t, r.pub)
    && (r.Landed? || Generation(s, t.ops[t.pubs[r.pub].op].provider) <= r.current)
  }

  lemma {:induction false} SinceTransitive(s: State, t: State, u: State)
    requires Since(s, t) && Since(t, u) && t.log <= u.log
    requires forall i | 0 <= i < |t.pubs| :: InRange(t, i)
    ensures Since(s, u)
  {
    forall k | |s.log| <= k < |u.log| ensures ActsSince(s, u, u.log[k]) {
      if k < |t.log| {
        assert ActsSince(s, t, t.log[k]);
      } else {
        assert ActsSince(t, u, u.log[k]);
      }
    }
  }

  lemma {:induction false} QuietSince(t: State, u: State)
    requires SameOps(t, u) && t.pubs <= u.pubs && t.log == u.log
    requires forall p | p in t.generations :: p in u.generations && t.generations[p] <= u.generations[p]
    ensures Since(t, u)
  {
  }

  lemma {:induction false} ActSince(t: State, u: State, i: PubId, added: seq<Record>)
    requires PubOkAt(t, i) && u.ops == t.ops && u.generations == t.generations
    requires |u.pubs| == |t.pubs| && u.pubs == t.pubs[i := t.pubs[i].(stage := u.pubs[i].stage)]
    requires u.log == t.log + added
    requires forall r | r in added :: r.pub == i && (r.Landed? || r.current == Generation(t, t.pubs[i].provider))
    ensures Since(t, u) && t.log <= u.log
  {
    forall k | |t.log| <= k < |u.log| ensures ActsSince(t, u, u.log[k]) {
      assert u.log[k] == added[k - |t.log|];
    }
  }

  ghost predicate PubOkAt(s: State, i: PubId) {
    InRange(s, i) && s.ops[s.pubs[i].op].provider == s.pubs[i].provider
  }

  lemma {:induction false} UpdateSince(t: State, i: PubId)
    requires PubOkAt(t, i)
    ensures Since(t, RunUpdate(t, i)) && t.log <= RunUpdate(t, i).log
  {
    var u := RunUpdate(t, i);
    ActSince(t, u, i, u.log[|t.log|..]);
  }

  lemma {:induction false} ResumeSince(t: State, i: PubId)
    requires PubOkAt(t, i)
    ensures Since(t, Resume(t, i)) && t.log <= Resume(t, i).log
  {
    if Live(t, i) && !t.pubs[i].persist.Keep? {
      ActSince(t, Resume(t, i), i, [Began(i, Generation(t, t.pubs[i].provider))]);
    } else {
      UpdateSince(t, i);
    }
  }

  lemma {:induction false} LandSince(t: State, i: PubId)
    requires PubOkAt(t, i)
    ensures Since(t, Land(t, i)) && t.log <= Land(t, i).log
  {
    ActSince(t, Land(t, i), i, [Landed(i)]);
  }

  lemma {:induction false} SupersedeSince(t: State, ids: set<ProviderId>, u: State)
    requires u == Supersede(t, ids).(providers := u.providers)
    ensures Since(t, u) && u.log == t.log
  {
    QuietSince(t, u);
  }

  lemma {:induction false} OtherSince(t: State, e: Event)
    requires Enabled(t, e) && !e.EResume? && !e.ELand? && !e.EStore?
    ensures Since(t, Step(t, e)) && Step(t, e).log == t.log
  {
    if e.ESet? || e.EDelete? {
      SupersedeSince(t, {e.p}, Step(t, e));
    } else if e.EClear? {
      SupersedeSince(t, t.providers + t.controllers.Keys, Step(t, e));
    } else {
      if e.EBegin? {
        SupersedeSince(t, {e.p}, Supersede(t, {e.p}));
      }
      QuietSince(t, Step(t, e));
    }
  }

  lemma {:induction false} StepSince(t: State, e: Event)
    requires Inv(t) && Enabled(t, e)
    ensures Since(t, Step(t, e)) && t.log <= Step(t, e).log
  {
    match e
    case EResume(i) =>
      assert PubOk(t, i);
      ResumeSince(t, i);
    case ELand(i) =>
      assert PubOk(t, i);
      LandSince(t, i);
    case EStore(i, ok) =>
      assert PubOk(t, i);
      if ok {
        UpdateSince(t, i);
      } else {
        ActSince(t, WithStage(t, i, Settled(Failed)), i, []);
      }
    case _ =>
      OtherSince(t, e);
  }

  lemma {:induction false} RunSince(s: State, t: State, es: seq<Event>)
    requires Since(s, t) && Inv(t) && CanRun(t, es)
    ensures Since(s, Run(t, es))
    decreases |es|
  {
    if |es| == 0 {
    } else {
      forall i | 0 <= i < |t.pubs| ensures InRange(t, i) {
        assert PubOk(t, i);
      }
      StepSince(t, es[0]);
      SinceTransitive(s, t, Step(t, es[0]));
      StepKeeps(t, es[0]);
      RunSince(s, Step(t, es[0]), es[1..]);
    }
  }

  /** The calls that supersede a registered provider. */
  predicate Supersedes(e: Event, p: ProviderId) {
    match e
    case ESet(q) => q == p
    case EDelete(q) => q == p
    case EBegin(q, _) => q == p
    case EClear => true
    case _ => false
  }

  predicate LeavesAlone(es: seq<Event>, p: ProviderId) {
    forall k | 0 <= k < |es| :: !Supersedes(es[k], p)
  }

  /** An act with a generation at least the one after `e` is not an act of an operation that `e` superseded. */
  lemma {:induction false} EarlierOperationsAreBehind(s: State, e: Event, t: State, r: Record)
    requires Inv(s) && Enabled(s, e) && Since(Step(s, e), t) && ActsSince(Step(s, e), t, r)
    requires Inv(Step(s, e)) && RecordOk(t, r)
    ensures t.pubs[r.pub].op < |s.ops| && Supersedes(e, t.ops[t.pubs[r.pub].op].provider) ==> r.Landed?
  {
    var o := t.pubs[r.pub].op;
    if o < |s.ops| && Supersedes(e, t.ops[o].provider) {
      assert OpOk(s, o) && OpOk(Step(s, e), o);
    }
  }

  /**
   After setProvider, deleteProvider, a newer refresh, or clearProviders (which reaches every
   provider), no operation begun before ever starts a store call or runs an update again,
   whatever happens next.  A store call already under way may still land.
   */
  lemma {:induction false} SupersededNeverActs(s: State, e: Event, es: seq<Event>, k: nat)
    requires Inv(s) && Enabled(s, e) && CanRun(Step(s, e), es)
    requires |Step(s, e).log| <= k < |Run(Step(s, e), es).log|
    ensures var t := Run(Step(s, e), es);
      && InRange(t, t.log[k].pub)
      && (t.pubs[t.log[k].pub].op < |s.ops| && Supersedes(e, t.ops[t.pubs[t.log[k].pub].op].provider) ==>
            t.log[k].Landed?)
  {
    var u, t := Step(s, e), Run(Step(s, e), es);
    StepKeeps(s, e);
    RunKeeps(u, es);
    RunSince(u, u, es);
    assert ActsSince(u, t, t.log[k]);
    EarlierOperationsAreBehind(s, e, t, t.log[k]);
  }

  /**
   Agreement of store and memory is not promised: a write can land after its provider was
   superseded, and then its update is refused.
   */
  lemma {:induction false} WriteMayOutliveItsUpdate(p: ProviderId, entry: Entry)
    ensures exists es :: CanRun(Initial(map[]), es) && StoreAhead(Run(Initial(map[]), es), p, entry)
  {
    var es, s := WriteInFlight(p, entry);
    var start := Initial(map[]);
    SupersededWrite(s, p, entry);
    RunSnoc(start, es, ESet(p));
    var es1 := es + [ESet(p)];
    RunSnoc(start, es1, ELand(0));
    var es2 := es1 + [ELand(0)];
    RunSnoc(start, es2, EStore(0, true));
  }

  lemma {:induction false} SupersededWrite(s: State, p: ProviderId, entry: Entry)
    requires s.store == map[] && s.generations == map[p := 2] && s.ops == [Operation(p, 2, 0, false, false, false)]
    requires s.pubs == [Publication(p, 0, Write(entry), None, Mutating(false))] && s.log == [Began(0, 2)]
    ensures Enabled(SetProvider(s, p), ELand(0))
    ensures Enabled(Land(SetProvider(s, p), 0), EStore(0, true))
    ensures StoreAhead(StoreSettled(Land(SetProvider(s, p), 0), 0, true), p, entry)
  {
    var t := SetProvider(s, p);
    assert t.pubs == s.pubs && t.log == s.log && t.store == s.store && t.generations[p] == 3;
    assert t.ops[0].generation == 2;
    var u := Land(t, 0);
    assert u.log == [Began(0, 2), Landed(0)] && u.pubs[0].stage == Mutating(true);
    assert !Live(u, 0);
  }

  /** The only publication is over, its entry is in the store, and no update has run. */
  ghost predicate StoreAhead(s: State, p: ProviderId, entry: Entry) {
    && s.store == map[p := entry]
    && |s.pubs| == 1 && s.pubs[0].stage == Settled(Refused)
    && forall k | 0 <= k < |s.log| :: !s.log[k].Ran?
  }

  lemma {:induction false} WriteInFlight(p: ProviderId, entry: Entry) returns (es: seq<Event>, s: State)
    ensures CanRun(Initial(map[]), es) && s == Run(Initial(map[]), es)
    ensures s.store == map[] && s.generations == map[p := 2] && s.ops == [Operation(p, 2, 0, false, false, false)]
    ensures s.pubs == [Publication(p, 0, Write(entry), None, Mutating(false))] && s.log == [Began(0, 2)]
  {
    var start := Initial(map[]);
    var s1 := SetProvider(start, p);
    es := [ESet(p)];
    RunSnoc(start, [], ESet(p));
    assert [] + es == es;
    var s2 := Begin(s1, p, 0);
    assert s2.ops == [Operation(p, 2, 0, false, false, false)] && s2.generations == map[p := 2];
    RunSnoc(start, es, EBegin(p, 0));
    es := es + [EBegin(p, 0)];
    var s3 := Publish(s2, 0, Write(entry));
    RunSnoc(start, es, EPublish(0, Write(entry)));
    es := es + [EPublish(0, Write(entry))];
    s := Resume(s3, 0);
    RunSnoc(start, es, EResume(0));
    es := es + [EResume(0)];
  }

  lemma {:induction false} RunSnoc(s: State, es: seq<Event>, e: Event)
    requires CanRun(s, es) && Enabled(Run(s, es), e)
    ensures CanRun(s, es + [e]) && Run(s, es + [e]) == Step(Run(s, es), e)
    decreases |es|
  {
    if |es| == 0 {
      assert es + [e] == [e] && CanRun(Step(s, e), [e][1..]);
    } else {
      assert (es + [e])[1..] == es[1..] + [e];
      RunSnoc(Step(s, es[0]), es[1..], e);
    }
  }
}
