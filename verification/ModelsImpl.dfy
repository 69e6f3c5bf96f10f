/**
 The synchronous segments of `ModelsImpl` as methods on its own maps.  Each method is the
 code between two awaits and implements one transition of RefreshProtocol.
 */
module ModelsImpl {
  import opened Wrappers
  import opened RefreshProtocol
  import opened RefreshInvariant

  /** Superseding one more provider extends the set that was superseded. */
  lemma SupersedeOneMore(s: State, ids: set<ProviderId>, id: ProviderId)
    requires id !in ids
    ensures Supersede(Supersede(s, ids), {id}) == Supersede(s, ids + {id})
  {
    var t, u, v := Supersede(s, ids), Supersede(Supersede(s, ids), {id}), Supersede(s, ids + {id});
    assert u.generations == v.generations;
    assert u.controllers == v.controllers;
    forall o | 0 <= o < |s.ops| ensures u.ops[o] == v.ops[o] {
      assert s.ops[o].provider == id ==> Registered(t, o) == Registered(s, o);
    }
    assert u.ops == v.ops;
  }

  lemma SupersedeNone(s: State)
    ensures Supersede(s, {}) == s
  {
    assert Supersede(s, {}).generations == s.generations;
    assert Supersede(s, {}).controllers == s.controllers;
    assert Supersede(s, {}).ops == s.ops;
  }

  lemma SupersedeStep(s: State, ids: set<ProviderId>)
    requires Inv(s)
    ensures Inv(Supersede(s, ids))
  {
    SupersedeKeeps(s, ids, s.providers);
    assert Supersede(s, ids) == Supersede(s, ids).(providers := s.providers);
  }

  class Catalog {
    var providers: set<ProviderId>
    var refreshGenerations: map<ProviderId, nat>
    var refreshControllers: map<ProviderId, OpId>
    var publicationChains: map<ProviderId, PubId>
    var modelsStore: map<ProviderId, Entry>
    var operations: seq<Operation>
    var publications: seq<Publication>
    var abortedCallers: set<CallerId>
    var history: seq<Record>

    ghost function View(): State
      reads this
    {
      State(providers, refreshGenerations, refreshControllers, publicationChains, modelsStore,
            operations, publications, abortedCallers, history)
    }

    constructor (store: map<ProviderId, Entry>)
      ensures View() == Initial(store) && Inv(View())
    {
      providers, refreshGenerations, refreshControllers, publicationChains := {}, map[], map[], map[];
      modelsStore, operations, publications, abortedCallers, history := store, [], [], {}, [];
    }

    method SupersedeProviderRefresh(id: ProviderId) returns (generation: nat)
      requires Inv(View())
      modifies this
      ensures View() == Supersede(old(View()), {id})
      ensures generation == Generation(View(), id)
      ensures Inv(View())
    {
      ghost var s := View();
      SupersedeStep(s, {id});
      generation := (if id in refreshGenerations then refreshGenerations[id] else 0) + 1;
      refreshGenerations := refreshGenerations[id := generation];
      if id in refreshControllers {
        var previous := refreshControllers[id];
        assert ControllerOk(s, id);
        refreshControllers := refreshControllers - {id};
        operations := operations[previous := operations[previous].(aborted := true)];
      }
      assert View().generations == Supersede(s, {id}).generations;
      assert View().controllers == Supersede(s, {id}).controllers;
      assert View().ops == Supersede(s, {id}).ops;
    }

    method SetProvider(id: ProviderId)
      requires Inv(View())
      modifies this
      ensures View() == Step(old(View()), ESet(id))
      ensures Inv(View())
    {
      StepKeeps(View(), ESet(id));
      var _ := SupersedeProviderRefresh(id);
      providers := providers + {id};
    }

    method DeleteProvider(id: ProviderId)
      requires Inv(View())
      modifies this
      ensures View() == Step(old(View()), EDelete(id))
      ensures Inv(View())
    {
      StepKeeps(View(), EDelete(id));
      var _ := SupersedeProviderRefresh(id);
      providers := providers - {id};
    }

    /** The loop of clearProviders. */
    method SupersedeAll(ids: set<ProviderId>)
      requires Inv(View())
      modifies this
      ensures View() == Supersede(old(View()), ids)
    {
      ghost var s := View();
      SupersedeNone(s);
      var remaining := ids;
      ghost var seen: set<ProviderId> := {};
      while remaining != {}
        invariant seen !! remaining && seen + remaining == ids
        invariant View() == Supersede(s, seen)
        decreases remaining
      {
        var id :| id in remaining;
        SupersedeOneMore(s, seen, id);
        SupersedeStep(s, seen);
        var _ := SupersedeProviderRefresh(id);
        remaining, seen := remaining - {id}, seen + {id};
      }
      assert seen == ids;
    }

    method ClearProviders()
      requires Inv(View())
      modifies this
      ensures View() == Step(old(View()), EClear)
      ensures Inv(View())
    {
      StepKeeps(View(), EClear);
      SupersedeAll(providers + refreshControllers.Keys);
      providers := {};
    }

    /** The identity of the new operation stands for its AbortController too. */
    method BeginProviderRefresh(id: ProviderId, caller: CallerId) returns (generation: nat, controller: OpId)
      requires Inv(View()) && id in providers
      modifies this
      ensures View() == Step(old(View()), EBegin(id, caller))
      ensures controller == old(|operations|) && generation == Generation(View(), id)
      ensures Inv(View())
    {
      StepKeeps(View(), EBegin(id, caller));
      generation := SupersedeProviderRefresh(id);
      controller := |operations|;
      operations := operations + [Operation(id, generation, caller, false, false, false)];
      refreshControllers := refreshControllers[id := controller];
    }

    /** publishProviderModels up to its first await. */
    method PublishProviderModels(o: OpId, persist: Persist) returns (queued: PubId)
      requires Inv(View()) && o < |operations|
      modifies this
      ensures View() == Step(old(View()), EPublish(o, persist))
      ensures queued == old(|publications|)
      ensures Inv(View())
    {
      StepKeeps(View(), EPublish(o, persist));
      var id := operations[o].provider;
      var previous := if id in publicationChains then Some(publicationChains[id]) else None;
      queued := |publications|;
      publications := publications + [Publication(id, o, persist, previous, Queued)];
      publicationChains := publicationChains[id := queued];
    }

    /** `signal.aborted || refreshGenerations.get(providerId) !== generation` */
    method Stale(i: PubId) returns (stale: bool)
      requires Inv(View()) && i < |publications|
      ensures publications[i].op < |operations| && stale == !Live(View(), i)
    {
      assert PubOk(View(), i);
      var pub := publications[i];
      var op := operations[pub.op];
      stale := op.aborted || op.caller in abortedCallers ||
        pub.provider !in refreshGenerations || refreshGenerations[pub.provider] != op.generation;
    }

    method SettleAs(i: PubId, outcome: Outcome)
      requires i < |publications|
      modifies this
      ensures View() == WithStage(old(View()), i, Settled(outcome))
    {
      publications := publications[i := publications[i].(stage := Settled(outcome))];
    }

    method UpdateOrRefuse(i: PubId)
      requires Inv(View()) && i < |publications|
      modifies this
      ensures old(publications[i].op) < old(|operations|)
      ensures View() == RunUpdate(old(View()), i)
    {
      var stale := Stale(i);
      if stale {
        SettleAs(i, Refused);
        return;
      }
      var p := publications[i].provider;
      var record := Ran(i, refreshGenerations[p], false, if p in modelsStore then Some(modelsStore[p]) else None);
      SettleAs(i, Updated);
      history := history + [record];
    }

    /** From `await previous.catch(...)` to the store call, or to the end when nothing is persisted. */
    method ResumePublication(i: PubId)
      requires Inv(View()) && Enabled(View(), EResume(i))
      modifies this
      ensures View() == Step(old(View()), EResume(i))
      ensures Inv(View())
    {
      StepKeeps(View(), EResume(i));
      var stale := Stale(i);
      if stale {
        SettleAs(i, Refused);
        return;
      }
      if publications[i].persist.Keep? {
        UpdateOrRefuse(i);
      } else {
        history := history + [Began(i, refreshGenerations[publications[i].provider])];
        publications := publications[i := publications[i].(stage := Mutating(false))];
      }
    }

    /** The store carries out the call it was given. */
    method StoreTakesEffect(i: PubId)
      requires Inv(View()) && Enabled(View(), ELand(i))
      modifies this
      ensures View() == Step(old(View()), ELand(i))
      ensures Inv(View())
    {
      StepKeeps(View(), ELand(i));
      var p := publications[i].provider;
      match publications[i].persist {
        case Write(entry) => modelsStore := modelsStore[p := entry];
        case _ => modelsStore := modelsStore - {p};
      }
      history := history + [Landed(i)];
      publications := publications[i := publications[i].(stage := Mutating(true))];
    }

    /** From the store's answer to the end of the publication. */
    method StoreAnswered(i: PubId, ok: bool)
      requires Inv(View()) && Enabled(View(), EStore(i, ok))
      modifies this
      ensures View() == Step(old(View()), EStore(i, ok))
      ensures Inv(View())
    {
      StepKeeps(View(), EStore(i, ok));
      if ok {
        UpdateOrRefuse(i);
      } else {
        SettleAs(i, Failed);
      }
    }

    method ReleaseTail(i: PubId)
      requires Inv(View()) && Enabled(View(), ERelease(i))
      modifies this
      ensures View() == Step(old(View()), ERelease(i))
      ensures Inv(View())
    {
      StepKeeps(View(), ERelease(i));
      var id := publications[i].provider;
      if id in publicationChains && publicationChains[id] == i {
        publicationChains := publicationChains - {id};
      }
    }

    /** The finally block of one provider's refresh. */
    method FinishRefresh(o: OpId)
      requires Inv(View()) && Enabled(View(), EFinish(o))
      modifies this
      ensures View() == Step(old(View()), EFinish(o))
      ensures Inv(View())
    {
      StepKeeps(View(), EFinish(o));
      var id := operations[o].provider;
      operations := operations[o := operations[o].(finished := true)];
      if id in refreshControllers && refreshControllers[id] == o {
        refreshControllers := refreshControllers - {id};
      }
    }
  }
}
