/** Every step of the refresh protocol keeps its invariant. */
module RefreshInvariant {
  import opened Wrappers
  import opened RefreshProtocol

  lemma {:induction false} SupersedeKeeps(s: State, ids: set<ProviderId>, providers: set<ProviderId>)
    requires Inv(s)
    requires s.providers - ids <= providers
    ensures Inv(Supersede(s, ids).(providers := providers))
    ensures forall o | 0 <= o < |s.ops| && s.ops[o].provider in ids ::
              Supersede(s, ids).ops[o].generation < Generation(Supersede(s, ids), s.ops[o].provider)
  {
    var t := Supersede(s, ids).(providers := providers);
    forall o | 0 <= o < |t.ops|
      ensures OpOk(t, o)
      ensures s.ops[o].provider in ids ==> t.ops[o].generation < Generation(t, s.ops[o].provider)
    {
      assert OpOk(s, o);
    }
    forall p | p in t.controllers ensures ControllerOk(t, p) {
      assert ControllerOk(s, p);
    }
    PubsFrame(s, t);
    LogFrame(s, t);
  }

  /** Operations may gain entries or change flags without disturbing publications. */
  ghost predicate SameOps(s: State, t: State) {
    && |s.ops| <= |t.ops|
    && forall o | 0 <= o < |s.ops| ::
         t.ops[o].provider == s.ops[o].provider && t.ops[o].generation == s.ops[o].generation
  }

  lemma {:induction false} PubsFrame(s: State, t: State)
    requires PubsOk(s) && SameOps(s, t) && t.pubs == s.pubs && t.chains == s.chains && t.store == s.store
    ensures PubsOk(t)
  {
    forall i | 0 <= i < |t.pubs| ensures PubOk(t, i) {
      assert PubOk(s, i);
    }
    forall p | p in t.chains ensures ChainOk(t, p) {
      assert ChainOk(s, p);
    }
  }

  lemma {:induction false} LogFrame(s: State, t: State)
    requires PubsOk(s) && LogOk(s) && SameOps(s, t) && t.pubs == s.pubs && t.log == s.log
    ensures LogOk(t)
  {
    forall i | 0 <= i < |s.pubs| ensures InRange(s, i) {
      assert PubOk(s, i);
    }
    forall k | 0 <= k < |t.log| ensures RecordOk(t, t.log[k]) {
      assert RecordOk(s, s.log[k]);
    }
    forall j, k | 0 <= j < k < |t.log| ensures InOrder(t, t.log[j], t.log[k]) {
      assert InOrder(s, s.log[j], s.log[k]);
    }
    forall k, i | 0 <= k < |t.log| && 0 <= i < |t.pubs| ensures Behind(t, t.log[k], i) {
      assert Behind(s, s.log[k], i);
    }
  }

  lemma {:induction false} BeginKeeps(s: State, p: ProviderId, caller: CallerId)
    requires Inv(s) && p in s.providers
    ensures Inv(Begin(s, p, caller))
  {
    SupersedeKeeps(s, {p}, s.providers);
    var t, u := Supersede(s, {p}), Begin(s, p, caller);
    assert t == t.(providers := s.providers);
    forall o | 0 <= o < |u.ops| ensures OpOk(u, o) {
      if o < |t.ops| {
        assert OpOk(t, o);
      }
    }
    forall q | q in u.controllers ensures ControllerOk(u, q) {
      if q != p {
        assert ControllerOk(t, q);
      }
    }
    PubsFrame(t, u);
    LogFrame(t, u);
  }

  lemma {:induction false} FlagsKeep(s: State, t: State)
    requires Inv(s) && OpsOk(t) && SameOps(s, t)
    requires t.pubs == s.pubs && t.chains == s.chains && t.store == s.store && t.log == s.log
    ensures Inv(t)
  {
    PubsFrame(s, t);
    LogFrame(s, t);
  }

  lemma {:induction false} AbortKeeps(s: State, caller: CallerId)
    requires Inv(s)
    ensures Inv(AbortCaller(s, caller))
  {
    var t := AbortCaller(s, caller);
    forall o | 0 <= o < |t.ops| ensures OpOk(t, o) {
      assert OpOk(s, o);
    }
    forall p | p in t.controllers ensures ControllerOk(t, p) {
      assert ControllerOk(s, p);
    }
    FlagsKeep(s, t);
  }

  lemma {:induction false} DoneKeeps(s: State, o: OpId)
    requires Inv(s) && o < |s.ops|
    ensures Inv(BodyDone(s, o))
  {
    var t := BodyDone(s, o);
    forall q | 0 <= q < |t.ops| ensures OpOk(t, q) {
      assert OpOk(s, q);
    }
    forall p | p in t.controllers ensures ControllerOk(t, p) {
      assert ControllerOk(s, p);
    }
    FlagsKeep(s, t);
  }

  lemma {:induction false} FinishKeeps(s: State, o: OpId)
    requires Inv(s) && Enabled(s, EFinish(o))
    ensures Inv(Finish(s, o))
  {
    var t := Finish(s, o);
    forall q | 0 <= q < |t.ops| ensures OpOk(t, q) {
      assert OpOk(s, q);
    }
    forall p | p in t.controllers ensures ControllerOk(t, p) {
      assert ControllerOk(s, p);
      assert OpOk(s, o);
    }
    FlagsKeep(s, t);
  }

  lemma {:induction false} PublishKeeps(s: State, o: OpId, persist: Persist)
    requires Inv(s) && o < |s.ops|
    ensures Inv(Publish(s, o, persist))
  {
    var t := Publish(s, o, persist);
    var p, n := s.ops[o].provider, |s.pubs|;
    OpsFrame(s, t);
    forall i | 0 <= i < |t.pubs| ensures PubOk(t, i) {
      if i < n {
        assert PubOk(s, i);
        assert t.pubs[i] == s.pubs[i];
      } else if p in s.chains {
        assert ChainOk(s, p);
      }
    }
    forall q | q in t.chains ensures ChainOk(t, q) {
      if q != p {
        assert ChainOk(s, q);
      }
    }
    PublishKeepsLog(s, o, persist);
  }

  lemma {:induction false} PublishKeepsLog(s: State, o: OpId, persist: Persist)
    requires LogOk(s) && o < |s.ops|
    ensures LogOk(Publish(s, o, persist))
  {
    var t := Publish(s, o, persist);
    forall k | 0 <= k < |t.log|
      ensures RecordOk(t, t.log[k]) && t.pubs[t.log[k].pub] == s.pubs[s.log[k].pub]
    {
      assert RecordOk(s, s.log[k]);
    }
    forall j, k | 0 <= j < k < |t.log| ensures InOrder(t, t.log[j], t.log[k]) {
      assert InOrder(s, s.log[j], s.log[k]);
    }
    forall k, i | 0 <= k < |t.log| && 0 <= i < |t.pubs| ensures Behind(t, t.log[k], i) {
      if i < |s.pubs| {
        assert Behind(s, s.log[k], i);
      }
    }
  }

  lemma {:induction false} OpsFrame(s: State, t: State)
    requires OpsOk(s) && t.ops == s.ops && t.controllers == s.controllers && t.generations == s.generations
    requires t.providers == s.providers && t.abortedCallers == s.abortedCallers
    ensures OpsOk(t)
  {
    forall o | 0 <= o < |t.ops| ensures OpOk(t, o) {
      assert OpOk(s, o);
    }
    forall p | p in t.controllers ensures ControllerOk(t, p) {
      assert ControllerOk(s, p);
    }
  }

  /** When a queued publication may resume, everything before it on its chain has settled. */
  lemma {:induction false} ResumeIsAlone(s: State, i: PubId)
    requires PubsOk(s) && Enabled(s, EResume(i))
    ensures EarlierSettled(s, i)
  {
    assert PubOk(s, i);
    if s.pubs[i].previous.Some? {
      var q := s.pubs[i].previous.value;
      assert PubOk(s, q);
      forall j | 0 <= j < i && s.pubs[j].provider == s.pubs[i].provider ensures s.pubs[j].stage.Settled? {
        if j > q {
          assert false;
        } else if j < q {
          assert EarlierSettled(s, q);
        }
      }
    }
  }

  /** No other publication of the provider is between `Queued` and `Settled`. */
  lemma {:induction false} Alone(s: State, i: PubId, j: PubId)
    requires PubsOk(s) && i < |s.pubs| && j < |s.pubs| && s.pubs[i].provider == s.pubs[j].provider
    requires EarlierSettled(s, i) && !s.pubs[i].stage.Settled? && !s.pubs[j].stage.Queued? && !s.pubs[j].stage.Settled?
    ensures i == j
  {
    assert PubOk(s, j);
    assert EarlierSettled(s, j);
    if i < j {
      assert false;
    } else if j < i {
      assert false;
    }
  }

  /** Moving one unsettled publication forward keeps the publication invariant. */
  lemma {:induction false} StageKeepsPubs(s: State, i: PubId, t: State)
    requires PubsOk(s) && i < |s.pubs| && EarlierSettled(s, i) && !s.pubs[i].stage.Settled?
    requires |t.pubs| == |s.pubs| && !t.pubs[i].stage.Queued?
    requires t.pubs == s.pubs[i := s.pubs[i].(stage := t.pubs[i].stage)]
    requires t.ops == s.ops && t.chains == s.chains
    requires forall p | p != s.pubs[i].provider :: Stored(t, p) == Stored(s, p)
    requires t.pubs[i].stage.Mutating? ==> !s.pubs[i].persist.Keep?
    requires t.pubs[i].stage == Mutating(true) ==> Holds(Stored(t, s.pubs[i].provider), s.pubs[i].persist)
    ensures PubsOk(t)
  {
    forall j | 0 <= j < |t.pubs| ensures PubOk(t, j) {
      assert PubOk(s, j);
      assert t.pubs[j].persist == s.pubs[j].persist && t.pubs[j].provider == s.pubs[j].provider;
      if j != i {
        assert t.pubs[j] == s.pubs[j];
        StillAlone(s, i, j);
      }
      if t.pubs[j].previous.None? || !t.pubs[j].stage.Queued? {
        assert EarlierSettled(t, j) by {
          assert EarlierSettled(s, j);
          assert i < j ==> s.pubs[i].provider != s.pubs[j].provider;
        }
      }
    }
    forall p | p in t.chains ensures ChainOk(t, p) {
      assert ChainOk(s, p);
    }
  }

  /** A stage change that adds no history keeps the history facts. */
  lemma {:induction false} StageKeepsLog(s: State, i: PubId, stage: Stage, t: State)
    requires LogOk(s) && i < |s.pubs| && !stage.Queued?
    requires stage.Mutating? ==> s.pubs[i].stage.Mutating?
    requires t.pubs == s.pubs[i := s.pubs[i].(stage := stage)] && t.ops == s.ops && t.log == s.log
    ensures LogOk(t)
  {
    forall k | 0 <= k < |t.log| ensures RecordOk(t, t.log[k]) {
      assert RecordOk(s, s.log[k]);
    }
    forall j, k | 0 <= j < k < |t.log| ensures InOrder(t, t.log[j], t.log[k]) {
      assert InOrder(s, s.log[j], s.log[k]);
    }
    forall k, j | 0 <= k < |t.log| && 0 <= j < |t.pubs| ensures Behind(t, t.log[k], j) {
      assert Behind(s, s.log[k], j);
    }
  }

  /** Nothing in the history is ahead of the publication whose turn it is. */
  lemma {:induction false} NothingAhead(s: State, i: PubId, k: nat)
    requires Inv(s) && InRange(s, i) && EarlierSettled(s, i) && !s.pubs[i].stage.Settled? && k < |s.log|
    requires InRange(s, s.log[k].pub) && s.pubs[s.log[k].pub].provider == s.pubs[i].provider
    requires s.pubs[i].stage.Mutating? || GenerationOf(s, i) == Generation(s, s.pubs[i].provider)
    ensures s.log[k].pub <= i && GenerationOf(s, s.log[k].pub) <= GenerationOf(s, i)
  {
    var j := s.log[k].pub;
    assert RecordOk(s, s.log[k]) && PubOk(s, j);
    assert OpOk(s, s.pubs[j].op);
    assert Behind(s, s.log[k], i);
  }

  /** A history entry by the publication whose turn it is keeps the history ordered. */
  lemma {:induction false} AppendKeepsLog(s: State, i: PubId, stage: Stage, r: Record, t: State)
    requires Inv(s) && InRange(s, i) && EarlierSettled(s, i) && !s.pubs[i].stage.Settled?
    requires !stage.Queued? && r.pub == i
    requires t.pubs == s.pubs[i := s.pubs[i].(stage := stage)] && t.ops == s.ops && t.log == s.log + [r]
    requires RecordOk(t, r)
    requires s.pubs[i].stage.Mutating? || GenerationOf(s, i) == Generation(s, s.pubs[i].provider)
    ensures LogOk(t)
  {
    forall k | 0 <= k < |t.log| ensures RecordOk(t, t.log[k]) {
      if k < |s.log| {
        assert RecordOk(s, s.log[k]);
      }
    }
    forall j, k | 0 <= j < k < |t.log| ensures InOrder(t, t.log[j], t.log[k]) {
      assert RecordOk(s, s.log[j]);
      if k < |s.log| {
        assert InOrder(s, s.log[j], s.log[k]);
      } else if s.pubs[s.log[j].pub].provider == s.pubs[i].provider {
        NothingAhead(s, i, j);
      }
    }
    forall k, j | 0 <= k < |t.log| && 0 <= j < |t.pubs| ensures Behind(t, t.log[k], j) {
      if j == i {
        if k < |s.log| && InRange(s, s.log[k].pub) && s.pubs[s.log[k].pub].provider == s.pubs[i].provider {
          NothingAhead(s, i, k);
        }
      } else if k < |s.log| {
        assert Behind(s, s.log[k], j);
      } else {
        StillAlone(s, i, j);
      }
    }
  }

  /** Any other store call in flight belongs to another provider. */
  lemma {:induction false} StillAlone(s: State, i: PubId, j: PubId)
    requires PubsOk(s) && i < |s.pubs| && EarlierSettled(s, i) && !s.pubs[i].stage.Settled?
    requires j < |s.pubs| && j != i
    ensures s.pubs[j].stage.Mutating? ==> s.pubs[j].provider != s.pubs[i].provider
  {
    if s.pubs[j].stage.Mutating? && s.pubs[j].provider == s.pubs[i].provider {
      Alone(s, i, j);
      assert false;
    }
  }

  lemma {:induction false} RunUpdateKeeps(s: State, i: PubId)
    requires Inv(s) && InRange(s, i) && EarlierSettled(s, i) && !s.pubs[i].stage.Settled?
    requires Live(s, i) ==> Holds(Stored(s, s.pubs[i].provider), s.pubs[i].persist)
    ensures Inv(RunUpdate(s, i))
  {
    var t := RunUpdate(s, i);
    OpsFrame(s, t);
    StageKeepsPubs(s, i, t);
    if Live(s, i) {
      AppendKeepsLog(s, i, Settled(Updated), t.log[|s.log|], t);
    } else {
      StageKeepsLog(s, i, Settled(Refused), t);
    }
  }

  lemma {:induction false} ResumeKeeps(s: State, i: PubId)
    requires Inv(s) && Enabled(s, EResume(i))
    ensures Inv(Resume(s, i))
  {
    ResumeIsAlone(s, i);
    var t := Resume(s, i);
    if !Live(s, i) || s.pubs[i].persist.Keep? {
      RunUpdateKeeps(s, i);
    } else {
      OpsFrame(s, t);
      StageKeepsPubs(s, i, t);
      AppendKeepsLog(s, i, Mutating(false), t.log[|s.log|], t);
    }
  }

  lemma {:induction false} LandKeeps(s: State, i: PubId)
    requires Inv(s) && Enabled(s, ELand(i))
    ensures Inv(Land(s, i))
  {
    assert PubOk(s, i);
    var t := Land(s, i);
    OpsFrame(s, t);
    StageKeepsPubs(s, i, t);
    AppendKeepsLog(s, i, Mutating(true), Landed(i), t);
  }

  lemma {:induction false} StoreKeeps(s: State, i: PubId, ok: bool)
    requires Inv(s) && Enabled(s, EStore(i, ok))
    ensures Inv(StoreSettled(s, i, ok))
  {
    assert PubOk(s, i);
    if ok {
      RunUpdateKeeps(s, i);
    } else {
      var t := StoreSettled(s, i, ok);
      OpsFrame(s, t);
      StageKeepsPubs(s, i, t);
      StageKeepsLog(s, i, Settled(Failed), t);
    }
  }

  lemma {:induction false} ReleaseKeeps(s: State, i: PubId)
    requires Inv(s) && Enabled(s, ERelease(i))
    ensures Inv(ReleaseTail(s, i))
  {
    var t := ReleaseTail(s, i);
    var p := s.pubs[i].provider;
    OpsFrame(s, t);
    forall j | 0 <= j < |t.pubs| ensures PubOk(t, j) {
      assert PubOk(s, j);
    }
    forall q | q in t.chains ensures ChainOk(t, q) {
      assert ChainOk(s, q);
    }
    if t.chains != s.chains {
      assert ChainOk(s, p) && PubOk(s, i) && EarlierSettled(s, i);
    }
    LogFrame(s, t);
  }

  lemma {:induction false} StepKeeps(s: State, e: Event)
    requires Inv(s) && Enabled(s, e)
    ensures Inv(Step(s, e))
  {
    match e
    case ESet(p) => SupersedeKeeps(s, {p}, s.providers + {p});
    case EDelete(p) => SupersedeKeeps(s, {p}, s.providers - {p});
    case EClear => SupersedeKeeps(s, s.providers + s.controllers.Keys, {});
    case EBegin(p, caller) => BeginKeeps(s, p, caller);
    case EAbort(caller) => AbortKeeps(s, caller);
    case EPublish(o, persist) => PublishKeeps(s, o, persist);
    case EResume(i) => ResumeKeeps(s, i);
    case ELand(i) => LandKeeps(s, i);
    case EStore(i, ok) => StoreKeeps(s, i, ok);
    case ERelease(i) => ReleaseKeeps(s, i);
    case EDone(o) => DoneKeeps(s, o);
    case EFinish(o) => FinishKeeps(s, o);
  }

  lemma {:induction false} RunKeeps(s: State, es: seq<Event>)
    requires Inv(s) && CanRun(s, es)
    ensures Inv(Run(s, es))
    decreases |es|
  {
    if |es| == 0 {
    } else {
      StepKeeps(s, es[0]);
      RunKeeps(Step(s, es[0]), es[1..]);
    }
  }
}
