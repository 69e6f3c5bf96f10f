/**
 What becomes of a publication: when its turn is served, when it is refused, and what its operation's
 fate has to do with it, in terms of generations, signals and events alone.
 */
module RefreshServing {
  import opened Wrappers
  import opened RefreshProtocol
  import opened RefreshInvariant
  import opened RefreshResults
  import opened RefreshAgreement

  /** The operation's generation is its provider's, and neither its controller nor its caller has aborted. */
  predicate Current(s: State, o: OpId) {
    && o < |s.ops|
    && s.ops[o].provider in s.generations && s.generations[s.ops[o].provider] == s.ops[o].generation
    && !s.ops[o].aborted && s.ops[o].caller !in s.abortedCallers
  }

  // ---------------------------------------------------------------- one step

  /** `t` is `s` but for the stage of publication `i` and what the log has gained. */
  predicate Restaged(s: State, t: State, i: PubId, stage: Stage, gained: seq<Record>) {
    i < |s.pubs| && t == s.(pubs := s.pubs[i := s.pubs[i].(stage := stage)], log := s.log + gained)
  }

  /** The record of an update that runs now. */
  function RunsNow(s: State, i: PubId): Record
    requires i < |s.pubs| && s.pubs[i].op < |s.ops|
  {
    Ran(i, s.ops[s.pubs[i].op].generation, false, Stored(s, s.pubs[i].provider))
  }

  /**
   When its turn comes a publication is refused exactly if its operation is not current; otherwise
   one that persists nothing has its update run, and any other starts its one store call.
   */
  lemma {:induction false} ResumeServes(s: State, i: PubId)
    requires Inv(s) && Enabled(s, EResume(i))
    ensures var t, pub := Step(s, EResume(i)), s.pubs[i];
      && (t.pubs[i].stage == Settled(Refused) <==> !Current(s, pub.op))
      && if !Current(s, pub.op) then Restaged(s, t, i, Settled(Refused), [])
         else if pub.persist.Keep? then Restaged(s, t, i, Settled(Updated), [RunsNow(s, i)])
         else Restaged(s, t, i, Mutating(false), [Began(i, s.ops[pub.op].generation)])
  {
    assert PubOk(s, i);
    assert s.log + [] == s.log;
  }

  /** An answer of the store: a rejection fails the publication, otherwise the update runs if still current. */
  lemma {:induction false} AnswerServes(s: State, i: PubId, ok: bool)
    requires Inv(s) && Enabled(s, EStore(i, ok))
    ensures var t, pub := Step(s, EStore(i, ok)), s.pubs[i];
      if !ok then Restaged(s, t, i, Settled(Failed), [])
      else if Current(s, pub.op) then Restaged(s, t, i, Settled(Updated), [RunsNow(s, i)])
      else Restaged(s, t, i, Settled(Refused), [])
  {
    assert PubOk(s, i);
    assert s.log + [] == s.log;
  }

  /** A store call takes effect on its own provider's entry and no other. */
  lemma {:induction false} CallLands(s: State, i: PubId)
    requires Inv(s) && Enabled(s, ELand(i))
    ensures var t, pub := Step(s, ELand(i)), s.pubs[i];
      && Restaged(s.(store := t.store), t, i, Mutating(true), [Landed(i)])
      && (forall q | q != pub.provider :: Stored(t, q) == Stored(s, q))
      && (pub.persist.Write? ==> Stored(t, pub.provider) == Some(pub.persist.entry))
      && (pub.persist.Remove? ==> Stored(t, pub.provider) == None)
      && !pub.persist.Keep?
  {
    assert PubOk(s, i);
  }

  /** Setting, deleting and clearing: who is registered afterwards, and whose refreshes are over. */
  lemma {:induction false} CatalogAfter(s: State, e: Event, p: ProviderId)
    requires Inv(s) && (e.ESet? || e.EDelete? || e.EClear?)
    ensures var t := Step(s, e);
      && (p in t.providers <==> if Supersedes(e, p) then e.ESet? else p in s.providers)
      && (Supersedes(e, p) ==> p !in t.controllers)
      && (!Supersedes(e, p) ==> (p in t.controllers <==> p in s.controllers))
      && (p in t.controllers ==> t.controllers[p] == s.controllers[p])
      && (forall o: OpId | o < |s.ops| && s.ops[o].provider == p && Supersedes(e, p) :: !Current(t, o))
      && t.store == s.store && t.pubs == s.pubs && t.chains == s.chains && t.log == s.log
      && |t.ops| == |s.ops| && t.abortedCallers == s.abortedCallers
  {
    var t := Step(s, e);
    forall o: OpId | o < |s.ops| && s.ops[o].provider == p && Supersedes(e, p) ensures !Current(t, o) {
      assert OpOk(s, o);
      StepKeepsRecords(s, e);
    }
  }

  /** Beginning a refresh: one more operation, current unless its caller has aborted. */
  lemma {:induction false} RefreshBegins(s: State, p: ProviderId, caller: CallerId)
    requires Inv(s) && Enabled(s, EBegin(p, caller))
    ensures var t, o := Step(s, EBegin(p, caller)), |s.ops|;
      && |t.ops| == o + 1 && t.ops[o].provider == p && t.ops[o].caller == caller
      && !t.ops[o].aborted && !t.ops[o].done && !t.ops[o].finished
      && p in t.controllers && t.controllers[p] == o && t.providers == s.providers
      && (Current(t, o) <==> caller !in s.abortedCallers)
      && (forall q: OpId | q < o && s.ops[q].provider == p :: !Current(t, q))
  {
    var t := Step(s, EBegin(p, caller));
    forall q: OpId | q < |s.ops| && s.ops[q].provider == p ensures !Current(t, q) {
      assert OpOk(s, q);
      StepKeepsRecords(s, EBegin(p, caller));
    }
  }

  /** A publication is last of its provider's, queued, and waits for the newest that is not released. */
  lemma {:induction false} PublicationQueues(s: State, o: OpId, persist: Persist)
    requires Inv(s) && Enabled(s, EPublish(o, persist))
    ensures var t, i, p := Step(s, EPublish(o, persist)), |s.pubs|, s.ops[o].provider;
      && |t.pubs| == i + 1 && t.pubs[..i] == s.pubs
      && t.pubs[i] == Publication(p, o, persist, if p in s.chains then Some(s.chains[p]) else None, Queued)
      && p in t.chains && t.chains[p] == i
      && t == s.(pubs := t.pubs, chains := t.chains)
      && (forall q | q != p :: (q in t.chains <==> q in s.chains) && (q in s.chains ==> t.chains[q] == s.chains[q]))
  {}

  /** An abort reaches every operation of its caller and touches nothing else. */
  lemma {:induction false} CallerAborts(s: State, caller: CallerId)
    ensures var t := Step(s, EAbort(caller));
      && t == s.(abortedCallers := t.abortedCallers)
      && (forall c: CallerId :: c in t.abortedCallers <==> c == caller || c in s.abortedCallers)
  {}

  /** The end of a refresh's body, its cleanup, and the release of a publication's place in the chain. */
  lemma {:induction false} RefreshEnds(s: State, e: Event)
    requires Inv(s) && Enabled(s, e) && (e.EDone? || e.EFinish? || e.ERelease?)
    ensures var t := Step(s, e);
      match e
      case EDone(o) => t == s.(ops := s.ops[o := s.ops[o].(done := true)])
      case EFinish(o) =>
        var own := s.ops[o].provider in s.controllers && s.controllers[s.ops[o].provider] == o;
        && t == s.(ops := s.ops[o := s.ops[o].(finished := true)], controllers := t.controllers)
        && t.controllers == (if own then s.controllers - {s.ops[o].provider} else s.controllers)
      case ERelease(i) =>
        var p := s.pubs[i].provider;
        t == if p in s.chains && s.chains[p] == i then s.(chains := s.chains - {p}) else s
      case _ => true
  {}

  // ---------------------------------------------------------------- whole runs

  /** A current operation is ended by a superseding of its provider or its caller's abort, and by nothing else. */
  lemma {:induction false} StepCurrent(s: State, e: Event, o: OpId)
    requires Inv(s) && Enabled(s, e) && o < |s.ops|
    ensures o < |Step(s, e).ops|
    ensures Step(s, e).ops[o].provider == s.ops[o].provider && Step(s, e).ops[o].caller == s.ops[o].caller
    ensures Current(Step(s, e), o) <==> Current(s, o) && !Disturbs(e, s.ops[o].provider, s.ops[o].caller)
  {
    assert OpOk(s, o);
    StepKeepsRecords(s, e);
    StepSignal(s, e, o);
    GenerationsGrow(s, e, s.ops[o].provider);
    if Current(s, o) {
      StepGeneration(s, e, s.ops[o].provider);
    }
  }

  lemma {:induction false} RunCurrent(s: State, es: seq<Event>, o: OpId)
    requires Inv(s) && CanRun(s, es) && o < |s.ops|
    ensures Inv(Run(s, es)) && o < |Run(s, es).ops|
    ensures Run(s, es).ops[o].provider == s.ops[o].provider && Run(s, es).ops[o].caller == s.ops[o].caller
    ensures Current(Run(s, es), o) <==> Current(s, o) && Undisturbed(es, s.ops[o].provider, s.ops[o].caller)
    decreases |es|
  {
    if |es| == 0 {
    } else {
      StepCurrent(s, es[0], o);
      StepKeeps(s, es[0]);
      RunCurrent(Step(s, es[0]), es[1..], o);
      assert es == [es[0]] + es[1..];
    }
  }

  /** What becomes of a publication whose turn comes after some events, by whether they disturbed it. */
  ghost predicate ServedAfter(u: State, i: PubId, undisturbed: bool)
    requires Enabled(u, EResume(i))
  {
    var stage := Step(u, EResume(i)).pubs[i].stage;
    && (stage == Settled(Refused) <==> !undisturbed)
    && (stage == Settled(Updated) <==> undisturbed && u.pubs[i].persist.Keep?)
    && (stage == Mutating(false) <==> undisturbed && !u.pubs[i].persist.Keep?)
  }

  /**
   From a state in which an operation is current: a publication of it, made before or since, is served
   when its turn comes exactly if until then nothing superseded the provider and the caller did not
   abort.  Served means that its update runs, or that its store call starts if it persists.
   */
  lemma {:induction false} ServedIff(s: State, o: OpId, es: seq<Event>, i: PubId)
    requires Inv(s) && Current(s, o) && CanRun(s, es)
    requires Enabled(Run(s, es), EResume(i)) && Run(s, es).pubs[i].op == o
    ensures ServedAfter(Run(s, es), i, Undisturbed(es, s.ops[o].provider, s.ops[o].caller))
  {
    RunCurrent(s, es, o);
    ResumeServes(Run(s, es), i);
  }

  /** So it is for every refresh from its beginning, whose caller must not have aborted before. */
  lemma {:induction false} ServedSinceBegin(s: State, p: ProviderId, caller: CallerId, es: seq<Event>, i: PubId)
    requires Inv(s) && Enabled(s, EBegin(p, caller)) && CanRun(Step(s, EBegin(p, caller)), es)
    requires var u := Run(Step(s, EBegin(p, caller)), es); Enabled(u, EResume(i)) && u.pubs[i].op == |s.ops|
    ensures ServedAfter(Run(Step(s, EBegin(p, caller)), es), i,
                        caller !in s.abortedCallers && Undisturbed(es, p, caller))
  {
    RefreshBegins(s, p, caller);
    StepKeeps(s, EBegin(p, caller));
    RunCurrent(Step(s, EBegin(p, caller)), es, |s.ops|);
    ResumeServes(Run(Step(s, EBegin(p, caller)), es), i);
  }

  /**
   The whole way of a publication that persists: its store call starts exactly if nothing disturbed it
   before its turn, and after an answer its update has run exactly if nothing did until the answer.
   */
  lemma {:induction false} PublicationRunsIff(s: State, o: OpId, es: seq<Event>, i: PubId, later: seq<Event>)
    requires Inv(s) && Current(s, o) && CanRun(s, es)
    requires Enabled(Run(s, es), EResume(i)) && Run(s, es).pubs[i].op == o && !Run(s, es).pubs[i].persist.Keep?
    requires var begun := Step(Run(s, es), EResume(i));
      begun.pubs[i].stage.Mutating? ==> Unanswered(later, i) && CanRun(begun, later + [EStore(i, true)])
    ensures var p, caller, begun := s.ops[o].provider, s.ops[o].caller, Step(Run(s, es), EResume(i));
      && (begun.pubs[i].stage.Mutating? <==> Undisturbed(es, p, caller))
      && (begun.pubs[i].stage.Mutating? ==>
            var end := Run(begun, later + [EStore(i, true)]);
            i < |end.pubs| && (end.pubs[i].stage == Settled(Updated) <==> Undisturbed(later, p, caller)))
  {
    var u := Run(s, es);
    RunCurrent(s, es, o);
    ResumeServes(u, i);
    var begun := Step(u, EResume(i));
    if begun.pubs[i].stage.Mutating? {
      StepKeeps(u, EResume(i));
      assert PubOk(u, i);
      LandedWriteUpdatesIff(begun, later, i);
    }
  }
}
