/**
 Abort listeners that call back into the catalog.  `supersedeProviderRefresh` aborts the previous
 controller in the middle of the calls that use it, so whatever a listener does happens between the
 superseding and the rest of the call.  A listener's own calls are taken as whole events.
 */
module RefreshReentrancy {
  import opened Wrappers
  import opened RefreshProtocol
  import opened RefreshInvariant
  import opened RefreshResults

  /** Listeners exist only on a controller that is registered. */
  ghost predicate Listened(s: State, p: ProviderId, inside: seq<Event>) {
    (p in s.controllers || inside == []) && CanRun(Supersede(s, {p}), inside)
  }

  lemma {:induction false} SupersededKeeps(s: State, p: ProviderId, inside: seq<Event>)
    requires Inv(s) && CanRun(Supersede(s, {p}), inside)
    ensures Inv(Supersede(s, {p})) && Inv(Run(Supersede(s, {p}), inside))
  {
    SupersedeKeeps(s, {p}, s.providers);
    assert Supersede(s, {p}) == Supersede(s, {p}).(providers := s.providers);
    RunKeeps(Supersede(s, {p}), inside);
  }

  // ---------------------------------------------------------------- beginning a refresh

  /** beginProviderRefresh, with what the listeners do before the new controller is registered. */
  function BeginAround(s: State, p: ProviderId, caller: CallerId, inside: seq<Event>): State
    requires CanRun(Supersede(s, {p}), inside)
  {
    var t := Supersede(s, {p});
    var u := Run(t, inside);
    u.(ops := u.ops + [Operation(p, Generation(t, p), caller, false, false, false)],
       controllers := u.controllers[p := |u.ops|])
  }

  /** The provider still is as superseding has left it. */
  ghost predicate Waiting(s: State, p: ProviderId, generation: nat) {
    Generation(s, p) == generation && p !in s.controllers && p in s.providers && p in s.generations
  }

  lemma {:induction false} SupersedesAdvances(s: State, p: ProviderId, e: Event)
    requires p in s.providers && Enabled(s, e) && Supersedes(e, p)
    ensures Generation(Step(s, e), p) == Generation(s, p) + 1
  {}

  lemma {:induction false} OthersWait(s: State, p: ProviderId, generation: nat, e: Event)
    requires Waiting(s, p, generation) && Enabled(s, e) && !Supersedes(e, p)
    ensures Waiting(Step(s, e), p, generation)
  {}

  lemma {:induction false} GenerationGrows(s: State, p: ProviderId, es: seq<Event>)
    requires CanRun(s, es)
    ensures Generation(s, p) <= Generation(Run(s, es), p)
    decreases |es|
  {
    if |es| == 0 {
    } else {
      assert Generation(s, p) <= Generation(Step(s, es[0]), p);
      GenerationGrows(Step(s, es[0]), p, es[1..]);
    }
  }

  /** A listener leaves the provider waiting, or advances its generation, by what it calls alone. */
  lemma {:induction false} WaitsIffLeftAlone(s: State, p: ProviderId, generation: nat, es: seq<Event>)
    requires Waiting(s, p, generation) && CanRun(s, es)
    ensures if LeavesAlone(es, p) then Waiting(Run(s, es), p, generation) else generation < Generation(Run(s, es), p)
    decreases |es|
  {
    if |es| == 0 {
    } else {
      assert forall k | 0 <= k < |es[1..]| :: es[1..][k] == es[k + 1];
      assert forall k | 0 < k < |es| :: es[k] == es[1..][k - 1];
      if Supersedes(es[0], p) {
        SupersedesAdvances(s, p, es[0]);
        GenerationGrows(Step(s, es[0]), p, es[1..]);
      } else {
        OthersWait(s, p, generation, es[0]);
        WaitsIffLeftAlone(Step(s, es[0]), p, generation, es[1..]);
      }
    }
  }

  lemma {:induction false} BeginWaitingKeeps(u: State, p: ProviderId, caller: CallerId)
    requires Inv(u) && Waiting(u, p, Generation(u, p))
    ensures Inv(u.(ops := u.ops + [Operation(p, Generation(u, p), caller, false, false, false)],
                   controllers := u.controllers[p := |u.ops|]))
  {
    var v := u.(ops := u.ops + [Operation(p, Generation(u, p), caller, false, false, false)],
                controllers := u.controllers[p := |u.ops|]);
    forall o | 0 <= o < |v.ops| ensures OpOk(v, o) {
      if o < |u.ops| {
        assert OpOk(u, o);
      }
    }
    forall q | q in v.controllers ensures ControllerOk(v, q) {
      if q != p {
        assert ControllerOk(u, q);
      }
    }
    PubsFrame(u, v);
    LogFrame(u, v);
  }

  /** Registering a controller for a provider that is not registered leaves a current operation without one. */
  lemma {:induction false} BeginUnregistered(s: State, p: ProviderId, caller: CallerId, inside: seq<Event>)
    requires Inv(s) && p !in s.providers && CanRun(Supersede(s, {p}), inside)
    ensures !Inv(BeginAround(s, p, caller, inside))
  {
    var t, v := Supersede(s, {p}), BeginAround(s, p, caller, inside);
    AbsentUntilSet(t, p, Generation(t, p), inside);
    assert !OpOk(v, |v.ops| - 1) || !ControllerOk(v, p);
  }

  ghost predicate Absent(s: State, p: ProviderId, generation: nat) {
    generation < Generation(s, p) || (Generation(s, p) == generation && p !in s.providers)
  }

  lemma {:induction false} AbsentUntilSet(s: State, p: ProviderId, generation: nat, es: seq<Event>)
    requires Absent(s, p, generation) && CanRun(s, es)
    ensures Absent(Run(s, es), p, generation)
    decreases |es|
  {
    if |es| == 0 {
    } else {
      assert Absent(Step(s, es[0]), p, generation);
      AbsentUntilSet(Step(s, es[0]), p, generation, es[1..]);
    }
  }

  /**
   Beginning a refresh keeps the invariant exactly when the provider is registered and no listener
   sets, deletes or refreshes it or clears the catalog.
   */
  lemma {:induction false} ReentrantBegin(s: State, p: ProviderId, caller: CallerId, inside: seq<Event>)
    requires Inv(s) && Listened(s, p, inside)
    ensures Inv(BeginAround(s, p, caller, inside)) <==> p in s.providers && LeavesAlone(inside, p)
  {
    var t := Supersede(s, {p});
    SupersededKeeps(s, p, inside);
    if p !in s.providers {
      BeginUnregistered(s, p, caller, inside);
    } else {
      WaitsIffLeftAlone(t, p, Generation(t, p), inside);
      if LeavesAlone(inside, p) {
        BeginWaitingKeeps(Run(t, inside), p, caller);
      } else {
        assert !ControllerOk(BeginAround(s, p, caller, inside), p);
      }
    }
  }

  /** One refresh of `p` is running and its controller is registered. */
  lemma {:induction false} OneRefreshRunning(p: ProviderId) returns (es: seq<Event>, s: State)
    ensures CanRun(Initial(map[]), es) && s == Run(Initial(map[]), es)
    ensures Inv(s) && p in s.controllers && p in s.providers && s.generations == map[p := 2]
    ensures s.ops == [Operation(p, 2, 0, false, false, false)] && s.controllers == map[p := 0] && s.abortedCallers == {}
  {
    var start := Initial(map[]);
    var s1 := SetProvider(start, p);
    RunSnoc(start, [], ESet(p));
    assert [] + [ESet(p)] == [ESet(p)];
    s := Begin(s1, p, 0);
    RunSnoc(start, [ESet(p)], EBegin(p, 0));
    es := [ESet(p)] + [EBegin(p, 0)];
    RunKeeps(start, es);
  }

  lemma {:induction false} RunOne(s: State, e: Event)
    requires Enabled(s, e)
    ensures CanRun(s, [e]) && Run(s, [e]) == Step(s, e)
  {
    assert CanRun(Step(s, e), [e][1..]);
  }

  /**
   A reachable failure: the aborted refresh's listener refreshes the same provider again, and the
   controller that ends up registered belongs to a generation that is over.
   */
  lemma {:induction false} ReentrantRefreshBreaks(p: ProviderId)
    ensures exists es, inside ::
              CanRun(Initial(map[]), es) && inside == [EBegin(p, 1)] && StaleController(es, p, inside)
  {
    var es, s := OneRefreshRunning(p);
    var t := Supersede(s, {p});
    RunOne(t, EBegin(p, 1));
    assert Run(t, [EBegin(p, 1)]) == Begin(t, p, 1);
    assert Generation(t, p) == 3 && Generation(Begin(t, p, 1), p) == 4;
    assert StaleController(es, p, [EBegin(p, 1)]);
  }

  ghost predicate StaleController(es: seq<Event>, p: ProviderId, inside: seq<Event>)
    requires CanRun(Initial(map[]), es)
  {
    var s := Run(Initial(map[]), es);
    && p in s.controllers && p in s.providers && Listened(s, p, inside)
    && var v := BeginAround(s, p, 0, inside);
       p in v.controllers && v.controllers[p] < |v.ops| && v.ops[v.controllers[p]].generation < Generation(v, p)
  }

  // ---------------------------------------------------------------- setting and deleting a provider

  /** setProvider always survives its listeners: what it does last only adds the provider. */
  lemma {:induction false} ReentrantSet(s: State, p: ProviderId, inside: seq<Event>)
    requires Inv(s) && Listened(s, p, inside)
    ensures var u := Run(Supersede(s, {p}), inside); Inv(u.(providers := u.providers + {p}))
  {
    SupersededKeeps(s, p, inside);
    var u := Run(Supersede(s, {p}), inside);
    forall q | Running(u, q) ensures q in u.providers + {p} {
      RunningIsRegistered(u, q);
    }
    ProvidersKeep(u, u.providers + {p});
  }

  /** Some operation belongs to the provider's current generation. */
  ghost predicate Running(s: State, p: ProviderId) {
    exists o: OpId :: o < |s.ops| && s.ops[o].provider == p && s.ops[o].generation == Generation(s, p)
  }

  /** Replacing the set of providers keeps the invariant exactly when every one with a current operation stays. */
  lemma {:induction false} ProvidersKeep(s: State, providers: set<ProviderId>)
    requires Inv(s)
    ensures Inv(s.(providers := providers)) <==> forall p | Running(s, p) :: p in providers
  {
    var t := s.(providers := providers);
    if forall p | Running(s, p) :: p in providers {
      forall o | 0 <= o < |t.ops| ensures OpOk(t, o) {
        assert OpOk(s, o);
        assert s.ops[o].generation == Generation(s, s.ops[o].provider) ==> Running(s, s.ops[o].provider);
      }
      forall p | p in t.controllers ensures ControllerOk(t, p) {
        assert ControllerOk(s, p);
      }
      PubsFrame(s, t);
      LogFrame(s, t);
    } else {
      var p :| Running(s, p) && p !in providers;
      var o: OpId :| o < |s.ops| && s.ops[o].provider == p && s.ops[o].generation == Generation(s, p);
      assert OpOk(s, o) && !OpOk(t, o);
    }
  }

  function DeleteAround(s: State, p: ProviderId, inside: seq<Event>): State
    requires CanRun(Supersede(s, {p}), inside)
  {
    var u := Run(Supersede(s, {p}), inside);
    u.(providers := u.providers - {p})
  }

  /** Of the events that supersede the provider the last one refreshes it; without any, `before`. */
  function EndsRefreshing(es: seq<Event>, p: ProviderId, before: bool): bool
    decreases |es|
  {
    if |es| == 0 then before
    else EndsRefreshing(es[1..], p, if Supersedes(es[0], p) then es[0].EBegin? else before)
  }

  lemma {:induction false} SupersedeStops(s: State, ids: set<ProviderId>, p: ProviderId)
    requires Inv(s)
    ensures Running(Supersede(s, ids), p) <==> Running(s, p) && p !in ids
  {
    var t := Supersede(s, ids);
    if Running(t, p) {
      var o: OpId :| o < |t.ops| && t.ops[o].provider == p && t.ops[o].generation == Generation(t, p);
      assert OpOk(s, o) && s.ops[o].provider == p && s.ops[o].generation == t.ops[o].generation;
    }
    if Running(s, p) && p !in ids {
      var o: OpId :| o < |s.ops| && s.ops[o].provider == p && s.ops[o].generation == Generation(s, p);
      assert t.ops[o].provider == p && t.ops[o].generation == Generation(t, p);
    }
  }

  /** Whether the provider is running only depends on the operations' identities and its generation. */
  lemma {:induction false} SameRunning(s: State, t: State, p: ProviderId)
    requires |s.ops| == |t.ops| && Generation(s, p) == Generation(t, p)
    requires forall o | 0 <= o < |s.ops| ::
               s.ops[o].provider == t.ops[o].provider && s.ops[o].generation == t.ops[o].generation
    ensures Running(s, p) <==> Running(t, p)
  {
    if Running(s, p) {
      var o: OpId :| o < |s.ops| && s.ops[o].provider == p && s.ops[o].generation == Generation(s, p);
      assert t.ops[o].provider == p;
    }
    if Running(t, p) {
      var o: OpId :| o < |t.ops| && t.ops[o].provider == p && t.ops[o].generation == Generation(t, p);
      assert s.ops[o].provider == p;
    }
  }

  lemma {:induction false} BeginRuns(s: State, q: ProviderId, caller: CallerId, p: ProviderId)
    requires Inv(s)
    ensures Running(Begin(s, q, caller), p) <==> q == p || Running(s, p)
  {
    var t, u := Supersede(s, {q}), Begin(s, q, caller);
    SupersedeStops(s, {q}, p);
    if q == p {
      assert u.ops[|t.ops|].provider == p && u.ops[|t.ops|].generation == Generation(u, p);
    } else {
      if Running(u, p) {
        var o: OpId :| o < |u.ops| && u.ops[o].provider == p && u.ops[o].generation == Generation(u, p);
        assert o < |t.ops| && t.ops[o].provider == p;
      }
      if Running(t, p) {
        var o: OpId :| o < |t.ops| && t.ops[o].provider == p && t.ops[o].generation == Generation(t, p);
        assert u.ops[o].provider == p && u.ops[o].generation == Generation(u, p);
      }
    }
  }

  lemma {:induction false} ClearRuns(s: State, p: ProviderId)
    requires Inv(s)
    ensures !Running(ClearProviders(s), p)
  {
    var ids := s.providers + s.controllers.Keys;
    SupersedeStops(s, ids, p);
    SameRunning(Supersede(s, ids), ClearProviders(s), p);
    if Running(s, p) {
      RunningIsRegistered(s, p);
    }
  }

  lemma {:induction false} OtherRuns(s: State, e: Event, p: ProviderId)
    requires Enabled(s, e) && !e.ESet? && !e.EDelete? && !e.EClear? && !e.EBegin?
    ensures Running(Step(s, e), p) <==> Running(s, p)
  {
    SameRunning(s, Step(s, e), p);
  }

  /** After an event the provider is running exactly when the event refreshed it, or it was and was not superseded. */
  lemma {:induction false} StepRuns(s: State, e: Event, p: ProviderId)
    requires Inv(s) && Enabled(s, e)
    ensures Running(Step(s, e), p) <==> if Supersedes(e, p) then e.EBegin? else Running(s, p)
  {
    if e.ESet? || e.EDelete? {
      SupersedeStops(s, {e.p}, p);
      SameRunning(Supersede(s, {e.p}), Step(s, e), p);
    } else if e.EClear? {
      ClearRuns(s, p);
    } else if e.EBegin? {
      BeginRuns(s, e.p, e.caller, p);
    } else {
      OtherRuns(s, e, p);
    }
  }

  lemma {:induction false} RunningIsRegistered(s: State, p: ProviderId)
    requires Inv(s) && Running(s, p)
    ensures p in s.providers
  {
    var o: OpId :| o < |s.ops| && s.ops[o].provider == p && s.ops[o].generation == Generation(s, p);
    assert OpOk(s, o);
  }

  lemma {:induction false} RunRuns(s: State, es: seq<Event>, p: ProviderId)
    requires Inv(s) && CanRun(s, es)
    ensures Running(Run(s, es), p) <==> EndsRefreshing(es, p, Running(s, p))
    decreases |es|
  {
    if |es| == 0 {
    } else {
      StepRuns(s, es[0], p);
      StepKeeps(s, es[0]);
      RunRuns(Step(s, es[0]), es[1..], p);
    }
  }

  /**
   Deleting a provider keeps the invariant exactly when its listeners' last call that supersedes the
   provider, if there is one, is not a refresh of it.
   */
  lemma {:induction false} ReentrantDelete(s: State, p: ProviderId, inside: seq<Event>)
    requires Inv(s) && Listened(s, p, inside)
    ensures Inv(DeleteAround(s, p, inside)) <==> !EndsRefreshing(inside, p, false)
  {
    var t, u := Supersede(s, {p}), Run(Supersede(s, {p}), inside);
    SupersededKeeps(s, p, inside);
    SupersedeStops(s, {p}, p);
    RunRuns(t, inside, p);
    ProvidersKeep(u, u.providers - {p});
    forall q | Running(u, q) ensures q in u.providers {
      RunningIsRegistered(u, q);
    }
  }

  /** A reachable failure: the deleted provider keeps a current operation whose signal is not aborted. */
  lemma {:induction false} ReentrantDeleteBreaks(p: ProviderId)
    ensures exists es, inside :: CanRun(Initial(map[]), es) && inside == [EBegin(p, 1)] && Orphaned(es, p, inside)
  {
    var es, s := OneRefreshRunning(p);
    var t := Supersede(s, {p});
    RunOne(t, EBegin(p, 1));
    var u := Begin(t, p, 1);
    assert |t.ops| == 1 && |u.ops| == 2 && u.abortedCallers == s.abortedCallers == {};
    assert u.ops[1] == Operation(p, Generation(t, p) + 1, 1, false, false, false);
    assert Generation(u, p) == 4 && !SignalAborted(u, 1);
    assert DeleteAround(s, p, [EBegin(p, 1)]) == u.(providers := u.providers - {p});
    assert Orphan(DeleteAround(s, p, [EBegin(p, 1)]), p, 1);
    assert Orphaned(es, p, [EBegin(p, 1)]);
  }

  ghost predicate Orphaned(es: seq<Event>, p: ProviderId, inside: seq<Event>)
    requires CanRun(Initial(map[]), es)
  {
    var s := Run(Initial(map[]), es);
    && p in s.controllers && Listened(s, p, inside)
    && Orphan(DeleteAround(s, p, inside), p, 1)
  }

  ghost predicate Orphan(s: State, p: ProviderId, o: OpId) {
    && p !in s.providers && o < |s.ops| && s.ops[o].provider == p && s.ops[o].generation == Generation(s, p)
    && !SignalAborted(s, o)
  }

  // ---------------------------------------------------------------- clearing the catalog

  /** The loop of clearProviders over a snapshot of ids, each with what its listeners do. */
  ghost predicate CanClear(s: State, ids: seq<ProviderId>, insides: seq<seq<Event>>)
    requires |ids| == |insides|
    decreases |ids|
  {
    |ids| == 0 ||
    (Listened(s, ids[0], insides[0]) && CanClear(Run(Supersede(s, {ids[0]}), insides[0]), ids[1..], insides[1..]))
  }

  ghost function ClearLoop(s: State, ids: seq<ProviderId>, insides: seq<seq<Event>>): State
    requires |ids| == |insides| && CanClear(s, ids, insides)
    decreases |ids|
  {
    if |ids| == 0 then s else ClearLoop(Run(Supersede(s, {ids[0]}), insides[0]), ids[1..], insides[1..])
  }

  ghost function ClearAround(s: State, ids: seq<ProviderId>, insides: seq<seq<Event>>): State
    requires |ids| == |insides| && CanClear(s, ids, insides)
  {
    ClearLoop(s, ids, insides).(providers := {})
  }

  /** Of all that happens to the provider in the loop, the last superseding is a listener's refresh. */
  function ClearEndsRefreshing(ids: seq<ProviderId>, insides: seq<seq<Event>>, p: ProviderId, before: bool): bool
    requires |ids| == |insides|
    decreases |ids|
  {
    if |ids| == 0 then before
    else ClearEndsRefreshing(ids[1..], insides[1..], p, EndsRefreshing(insides[0], p, before && ids[0] != p))
  }

  lemma {:induction false} ClearLoopRuns(s: State, ids: seq<ProviderId>, insides: seq<seq<Event>>, p: ProviderId)
    requires Inv(s) && |ids| == |insides| && CanClear(s, ids, insides)
    ensures Inv(ClearLoop(s, ids, insides))
    ensures Running(ClearLoop(s, ids, insides), p) <==> ClearEndsRefreshing(ids, insides, p, Running(s, p))
    decreases |ids|
  {
    if |ids| == 0 {
    } else {
      SupersededKeeps(s, ids[0], insides[0]);
      SupersedeStops(s, {ids[0]}, p);
      RunRuns(Supersede(s, {ids[0]}), insides[0], p);
      ClearLoopRuns(Run(Supersede(s, {ids[0]}), insides[0]), ids[1..], insides[1..], p);
    }
  }

  /** Whether the provider was running before does not matter once the loop reaches it. */
  lemma {:induction false} ClearForgets(ids: seq<ProviderId>, insides: seq<seq<Event>>, p: ProviderId, before: bool)
    requires |ids| == |insides| && p in ids
    ensures ClearEndsRefreshing(ids, insides, p, before) == ClearEndsRefreshing(ids, insides, p, false)
    decreases |ids|
  {
    if ids[0] != p {
      assert ids == [ids[0]] + ids[1..];
      ClearForgets(ids[1..], insides[1..], p, EndsRefreshing(insides[0], p, before));
      ClearForgets(ids[1..], insides[1..], p, EndsRefreshing(insides[0], p, false));
    }
  }

  predicate LeftRefreshing(ids: seq<ProviderId>, insides: seq<seq<Event>>, p: ProviderId)
    requires |ids| == |insides|
  {
    ClearEndsRefreshing(ids, insides, p, false)
  }

  lemma {:induction false} ClearLeaves(s: State, ids: seq<ProviderId>, insides: seq<seq<Event>>, p: ProviderId)
    requires Inv(s) && |ids| == |insides| && CanClear(s, ids, insides)
    requires forall q :: q in ids <==> q in s.providers + s.controllers.Keys
    ensures Running(ClearLoop(s, ids, insides), p) <==> LeftRefreshing(ids, insides, p)
  {
    ClearLoopRuns(s, ids, insides, p);
    if Running(s, p) {
      RunningIsRegistered(s, p);
      ClearForgets(ids, insides, p, true);
    }
  }

  /**
   Clearing the catalog keeps the invariant exactly when for every provider the last call that
   supersedes it, the loop's own or a listener's, is not a listener's refresh.
   */
  lemma {:induction false} ReentrantClear(s: State, ids: seq<ProviderId>, insides: seq<seq<Event>>)
    requires Inv(s) && |ids| == |insides| && CanClear(s, ids, insides)
    requires forall p :: p in ids <==> p in s.providers + s.controllers.Keys
    ensures Inv(ClearAround(s, ids, insides)) <==> forall p :: !LeftRefreshing(ids, insides, p)
  {
    var u := ClearLoop(s, ids, insides);
    ClearLoopRuns(s, ids, insides, "");
    ProvidersKeep(u, {});
    forall p ensures Running(u, p) <==> LeftRefreshing(ids, insides, p) {
      ClearLeaves(s, ids, insides, p);
    }
  }
}
