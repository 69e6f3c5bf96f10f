/**
 Executing the tool calls of one message concurrently.  Calls are prepared one after another;
 those that may run are then started together and finish in any order, and the abort signal may
 fire between any two steps.  Results are reported in source order once all calls are finalized.
 */
module ParallelBatch {
  import opened Wrappers
  import opened Transcript
  import opened ToolBatch

  /** A finalized call, or one whose thunk has not been invoked, or is running its tool. */
  datatype Entry = Waiting | Executing | Done(outcome: Outcome)

  /** Preparing walks idle, begun, settled for each call; the later phases follow `Promise.all`. */
  datatype Phase = Idle | Begun | Settled | Running | Reporting | Finished

  /** The emitted events, with what reading them so far has shown. */
  datatype Watch = Watch(log: seq<Event>, place: Place, ended: seq<Message>, started: seq<string>)

  function Emit(w: Watch, e: Event): Watch {
    Watch(w.log + [e], Transcript.Next(w.place, e), if e.MessageEnd? then w.ended + [e.message] else w.ended,
          if e.ToolStart? then w.started + [e.id] else w.started)
  }

  /** What a watch has shown is what its log says. */
  ghost predicate Faithful(w: Watch) {
    w.place == Walk(QUIET, w.log) && w.ended == Ends(w.log) && w.started == Starts(w.log)
  }

  lemma {:induction false} EmitFaithful(w: Watch, e: Event)
    requires Faithful(w)
    ensures Faithful(Emit(w, e))
  {
    var log := w.log + [e];
    assert log[..|log| - 1] == w.log && log[|log| - 1] == e;
    assert Ends(w.log) + [] == Ends(w.log) && Starts(w.log) + [] == Starts(w.log);
  }

  datatype Batch = Batch(
    calls: seq<ToolCall>, entries: seq<Entry>, aborted: bool, phase: Phase, out: Watch, messages: seq<Message>,
    terminate: bool)

  datatype Step =
    | Open
    | Refuse(outcome: Outcome)
    | Accept
    | Check
    | Launch
    | Begin(j: nat)
    | Update(j: nat)
    | Finish(j: nat, outcome: Outcome)
    | Collect
    | Report
    | Return
    | Abort

  const ABORTED := Outcome("Operation aborted", true, false)

  function Initial(calls: seq<ToolCall>): Batch {
    Batch(calls, [], false, Idle, Watch([], QUIET, [], []), [], false)
  }

  predicate AllDone(entries: seq<Entry>) {
    forall k | 0 <= k < |entries| :: entries[k].Done?
  }

  function Outcomes(entries: seq<Entry>): seq<Outcome>
    requires AllDone(entries)
  {
    seq(|entries|, k requires 0 <= k < |entries| => entries[k].outcome)
  }

  predicate CanStep(s: Batch, step: Step) {
    match step
    case Open => s.phase.Idle? && |s.entries| < |s.calls|
    case Refuse(_) => s.phase.Begun? && |s.entries| < |s.calls|
    case Accept => s.phase.Begun? && |s.entries| < |s.calls| && !s.aborted
    case Check => s.phase.Settled?
    case Launch => s.phase.Idle? && |s.entries| == |s.calls|
    case Begin(j) => s.phase.Running? && j < |s.entries| <= |s.calls| && s.entries[j].Waiting?
    case Update(j) => s.phase.Running? && j < |s.entries| <= |s.calls| && s.entries[j].Executing?
    case Finish(j, _) => s.phase.Running? && j < |s.entries| <= |s.calls| && s.entries[j].Executing?
    case Collect => s.phase.Running? && AllDone(s.entries)
    case Report =>
      && s.phase.Reporting? && |s.messages| < |s.entries| <= |s.calls|
      && s.entries[|s.messages|].Done?
    case Return => s.phase.Reporting? && |s.messages| == |s.entries| && AllDone(s.entries)
    case Abort => true
  }

  /** executeToolCallsParallel between two awaits. */
  function Next(s: Batch, step: Step): Batch
    requires CanStep(s, step)
  {
    match step
    case Open => s.(phase := Begun, out := Emit(s.out, ToolStart(s.calls[|s.entries|].id)))
    case Refuse(outcome) =>
      s.(phase := Settled, entries := s.entries + [Done(outcome)],
         out := Emit(s.out, ToolEnd(s.calls[|s.entries|].id, outcome.isError)))
    case Accept => s.(phase := Settled, entries := s.entries + [Waiting])
    case Check => s.(phase := if s.aborted then Running else Idle)
    case Launch => s.(phase := Running)
    case Begin(j) =>
      if s.aborted then
        s.(entries := s.entries[j := Done(ABORTED)], out := Emit(s.out, ToolEnd(s.calls[j].id, true)))
      else s.(entries := s.entries[j := Executing])
    case Update(j) => s.(out := Emit(s.out, ToolUpdate(s.calls[j].id)))
    case Finish(j, outcome) =>
      s.(entries := s.entries[j := Done(outcome)], out := Emit(s.out, ToolEnd(s.calls[j].id, outcome.isError)))
    case Collect => s.(phase := Reporting)
    case Report =>
      var k := |s.messages|;
      var message := ResultMessage(s.calls[k], s.entries[k].outcome);
      s.(messages := s.messages + [message], out := Emit(Emit(s.out, MessageStart(message)), MessageEnd(message)))
    case Return => s.(phase := Finished, terminate := ShouldTerminate(Outcomes(s.entries)))
    case Abort => s.(aborted := true)
  }

  predicate CanRun(s: Batch, steps: seq<Step>)
    decreases |steps|
  {
    |steps| == 0 || (CanStep(s, steps[0]) && CanRun(Next(s, steps[0]), steps[1..]))
  }

  function Run(s: Batch, steps: seq<Step>): Batch
    requires CanRun(s, steps)
    decreases |steps|
  {
    if |steps| == 0 then s else Run(Next(s, steps[0]), steps[1..])
  }

  // ---------------------------------------------------------------- the invariant

  /** Ids of the started calls that are not finalized. */
  function Unfinished(calls: seq<ToolCall>, entries: seq<Entry>): multiset<string>
    requires |entries| <= |calls|
    decreases |entries|
  {
    if |entries| == 0 then multiset{} else
    var k := |entries| - 1;
    var before := Unfinished(calls, entries[..k]);
    if entries[k].Done? then before else before + multiset{calls[k].id}
  }

  function Opened(s: Batch): nat {
    |s.entries| + if s.phase.Begun? then 1 else 0
  }

  function RunningIds(s: Batch): multiset<string>
    requires Opened(s) <= |s.calls|
  {
    var unfinished := Unfinished(s.calls, s.entries);
    if s.phase.Begun? then unfinished + multiset{s.calls[|s.entries|].id} else unfinished
  }

  /** The log has started exactly the opened calls, in source order. */
  ghost predicate Counted(s: Batch)
    requires Opened(s) <= |s.calls|
  {
    s.out.started == FirstIds(s.calls, Opened(s))
  }

  /** The log is well-formed and the calls it has running are exactly the unfinished ones. */
  ghost predicate Placed(s: Batch)
    requires Opened(s) <= |s.calls|
  {
    s.out.place == InTurn(false, RunningIds(s))
  }

  /** The messages are the outcomes of the first calls, and the log has completed them. */
  ghost predicate Told(s: Batch)
    requires |s.entries| <= |s.calls|
  {
    s.out.ended == s.messages && ResultsOf(s.calls, s.entries, s.messages)
  }

  ghost predicate ResultsOf(calls: seq<ToolCall>, entries: seq<Entry>, messages: seq<Message>) {
    && |messages| <= |entries| <= |calls|
    && forall k | 0 <= k < |messages| ::
         entries[k].Done? && messages[k] == ResultMessage(calls[k], entries[k].outcome)
  }

  predicate Late(p: Phase) {
    p.Reporting? || p.Finished?
  }

  ghost predicate Shaped(s: Batch) {
    && (s.phase.Running? || Late(s.phase) ==> |s.entries| == |s.calls| || (s.aborted && |s.entries| > 0))
    && (s.phase.Settled? ==> |s.entries| > 0)
    && (Late(s.phase) ==> AllDone(s.entries))
    && (s.phase.Finished? ==> |s.messages| == |s.entries| && s.terminate == ShouldTerminate(Outcomes(s.entries)))
    && (!Late(s.phase) ==> s.messages == [])
  }

  /** The event log accounts for every opened call. */
  ghost predicate Accounted(s: Batch) {
    Opened(s) <= |s.calls| && Counted(s) && Placed(s)
  }

  ghost predicate Inv(s: Batch) {
    Accounted(s) && Told(s) && Shaped(s)
  }

  lemma {:induction false} UnfinishedDone(calls: seq<ToolCall>, entries: seq<Entry>)
    requires |entries| <= |calls| && AllDone(entries)
    ensures Unfinished(calls, entries) == multiset{}
    decreases |entries|
  {
    if |entries| == 0 {
    } else {
      UnfinishedDone(calls, entries[..|entries| - 1]);
    }
  }

  /** The ids left when call `j` becomes `e`. */
  function Without(ids: multiset<string>, calls: seq<ToolCall>, j: nat, e: Entry): multiset<string>
    requires j < |calls|
  {
    if e.Done? then ids - multiset{calls[j].id} else ids
  }

  lemma {:induction false} TakeOut(ids: multiset<string>, x: string, y: string)
    ensures ids + multiset{x} - multiset{x} == ids
    ensures x in ids ==> ids - multiset{x} + multiset{y} == ids + multiset{y} - multiset{x}
  {}

  lemma {:induction false} UnfinishedLast(calls: seq<ToolCall>, entries: seq<Entry>, e: Entry)
    requires |entries| < |calls|
    ensures Unfinished(calls, entries + [e]) ==
            if e.Done? then Unfinished(calls, entries) else Unfinished(calls, entries) + multiset{calls[|entries|].id}
  {
    assert (entries + [e])[..|entries|] == entries;
  }

  lemma {:induction false} UnfinishedHas(calls: seq<ToolCall>, entries: seq<Entry>, j: nat)
    requires j < |entries| <= |calls| && !entries[j].Done?
    ensures calls[j].id in Unfinished(calls, entries)
    decreases |entries|
  {
    if j < |entries| - 1 {
      UnfinishedHas(calls, entries[..|entries| - 1], j);
    }
  }

  /** Changing one unfinished entry: finalizing it removes its id, anything else removes nothing. */
  lemma {:induction false} UnfinishedAt(calls: seq<ToolCall>, entries: seq<Entry>, j: nat, e: Entry)
    requires j < |entries| <= |calls| && !entries[j].Done?
    ensures Unfinished(calls, entries[j := e]) == Without(Unfinished(calls, entries), calls, j, e)
    decreases |entries|
  {
    var k := |entries| - 1;
    var init, last := entries[..k], entries[k];
    assert entries == init + [last];
    UnfinishedLast(calls, init, last);
    if j == k {
      assert entries[j := e] == init + [e];
      UnfinishedLast(calls, init, e);
      TakeOut(Unfinished(calls, init), calls[k].id, calls[k].id);
    } else {
      assert entries[j := e] == init[j := e] + [last];
      UnfinishedLast(calls, init[j := e], last);
      UnfinishedAt(calls, init, j, e);
      UnfinishedHas(calls, init, j);
      TakeOut(Unfinished(calls, init), calls[j].id, calls[k].id);
    }
  }

  lemma {:induction false} RefusedIds(calls: seq<ToolCall>, entries: seq<Entry>, outcome: Outcome)
    requires |entries| < |calls|
    ensures var id, ids := calls[|entries|].id, Unfinished(calls, entries);
      && id in ids + multiset{id}
      && Unfinished(calls, entries + [Done(outcome)]) == ids + multiset{id} - multiset{id}
  {
    UnfinishedLast(calls, entries, Done(outcome));
    TakeOut(Unfinished(calls, entries), calls[|entries|].id, calls[|entries|].id);
  }

  lemma {:induction false} RefuseAccounts(s: Batch, outcome: Outcome)
    requires Accounted(s) && CanStep(s, Refuse(outcome))
    ensures Accounted(Next(s, Refuse(outcome)))
  {
    RefusedIds(s.calls, s.entries, outcome);
  }

  lemma {:induction false} KeepRefuse(s: Batch, outcome: Outcome)
    requires Inv(s) && CanStep(s, Refuse(outcome))
    ensures Inv(Next(s, Refuse(outcome)))
  {
    RefuseAccounts(s, outcome);
  }

  lemma {:induction false} KeepAccept(s: Batch)
    requires Inv(s) && CanStep(s, Accept)
    ensures Inv(Next(s, Accept))
  {
    UnfinishedLast(s.calls, s.entries, Waiting);
  }

  lemma {:induction false} KeepFinish(s: Batch, j: nat, outcome: Outcome)
    requires Inv(s) && s.phase.Running? && j < |s.entries| && !s.entries[j].Done?
    ensures Inv(s.(entries := s.entries[j := Done(outcome)],
                   out := Emit(s.out, ToolEnd(s.calls[j].id, outcome.isError))))
  {
    UnfinishedAt(s.calls, s.entries, j, Done(outcome));
    UnfinishedHas(s.calls, s.entries, j);
  }

  lemma {:induction false} KeepBegin(s: Batch, j: nat)
    requires Inv(s) && CanStep(s, Begin(j))
    ensures Inv(Next(s, Begin(j)))
  {
    if s.aborted {
      KeepFinish(s, j, ABORTED);
    } else {
      UnfinishedAt(s.calls, s.entries, j, Executing);
    }
  }

  lemma {:induction false} KeepUpdate(s: Batch, j: nat)
    requires Inv(s) && CanStep(s, Update(j))
    ensures Inv(Next(s, Update(j)))
  {
    UnfinishedHas(s.calls, s.entries, j);
  }

  lemma {:induction false} ReportAccounts(s: Batch)
    requires Accounted(s) && CanStep(s, Report) && AllDone(s.entries)
    ensures Accounted(Next(s, Report))
  {
    UnfinishedDone(s.calls, s.entries);
    assert s.out.place == QUIET;
  }

  lemma {:induction false} KeepReport(s: Batch)
    requires Inv(s) && CanStep(s, Report)
    ensures Inv(Next(s, Report))
  {
    ReportAccounts(s);
  }

  lemma {:induction false} StepKeeps(s: Batch, step: Step)
    requires Inv(s) && CanStep(s, step)
    ensures Inv(Next(s, step))
  {
    match step {
      case Refuse(outcome) => KeepRefuse(s, outcome);
      case Accept => KeepAccept(s);
      case Begin(j) => KeepBegin(s, j);
      case Update(j) => KeepUpdate(s, j);
      case Finish(j, outcome) => KeepFinish(s, j, outcome);
      case Report => KeepReport(s);
      case Open =>
      case Check =>
      case Launch =>
      case Collect =>
      case Return =>
      case Abort =>
    }
  }

  lemma {:induction false} StepFaithful(s: Batch, step: Step)
    requires Faithful(s.out) && CanStep(s, step)
    ensures Faithful(Next(s, step).out)
  {
    match step {
      case Open => EmitFaithful(s.out, ToolStart(s.calls[|s.entries|].id));
      case Refuse(outcome) => EmitFaithful(s.out, ToolEnd(s.calls[|s.entries|].id, outcome.isError));
      case Begin(j) => EmitFaithful(s.out, ToolEnd(s.calls[j].id, true));
      case Update(j) => EmitFaithful(s.out, ToolUpdate(s.calls[j].id));
      case Finish(j, outcome) => EmitFaithful(s.out, ToolEnd(s.calls[j].id, outcome.isError));
      case Report =>
        var message := ResultMessage(s.calls[|s.messages|], s.entries[|s.messages|].outcome);
        EmitFaithful(s.out, MessageStart(message));
        EmitFaithful(Emit(s.out, MessageStart(message)), MessageEnd(message));
      case Accept =>
      case Check =>
      case Launch =>
      case Collect =>
      case Return =>
      case Abort =>
    }
  }

  lemma {:induction false} RunKeeps(s: Batch, steps: seq<Step>)
    requires Inv(s) && Faithful(s.out) && CanRun(s, steps)
    ensures Inv(Run(s, steps)) && Faithful(Run(s, steps).out) && Run(s, steps).calls == s.calls
    decreases |steps|
  {
    if |steps| == 0 {
    } else {
      StepKeeps(s, steps[0]);
      StepFaithful(s, steps[0]);
      RunKeeps(Next(s, steps[0]), steps[1..]);
    }
  }

  // ---------------------------------------------------------------- what every run promises

  /**
   However the calls interleave, a batch that returns reports one result per started call, in
   source order and whatever the completion order; it reports every call unless it was aborted,
   each result is the outcome its own call was finalized with, and the batch terminates the run
   exactly when all of them say so.
   */
  lemma {:induction false} ParallelBatchOk(calls: seq<ToolCall>, steps: seq<Step>)
    requires CanRun(Initial(calls), steps) && Run(Initial(calls), steps).phase.Finished?
    ensures var s := Run(Initial(calls), steps);
      && BatchOk(calls, s.out.log, s.messages)
      && (|s.messages| == |calls| || s.aborted)
      && AllDone(s.entries) && |s.entries| == |s.messages|
      && (forall k | 0 <= k < |s.messages| ::
            var outcome := s.entries[k].outcome;
            s.messages[k] == ToolResult(calls[k].id, calls[k].name, outcome.text, outcome.isError))
      && (s.terminate <==> |s.messages| > 0 && forall k | 0 <= k < |s.entries| :: s.entries[k].outcome.terminate)
  {
    RunKeeps(Initial(calls), steps);
    var s := Run(Initial(calls), steps);
    UnfinishedDone(s.calls, s.entries);
    assert forall k | 0 <= k < |s.entries| :: Outcomes(s.entries)[k].terminate == s.entries[k].outcome.terminate;
  }

  /** At every moment of a run the calls the log has running are exactly those opened and not finalized. */
  lemma {:induction false} RunningCallsAreOpen(calls: seq<ToolCall>, steps: seq<Step>)
    requires CanRun(Initial(calls), steps)
    ensures var s := Run(Initial(calls), steps);
      Opened(s) <= |s.calls| && Walk(QUIET, s.out.log) == InTurn(false, RunningIds(s))
  {
    RunKeeps(Initial(calls), steps);
  }

  // ---------------------------------------------------------------- every batch can return

  function Weight(entries: seq<Entry>): nat
    decreases |entries|
  {
    if |entries| == 0 then 0 else
    Weight(entries[..|entries| - 1]) +
    match entries[|entries| - 1] case Waiting => 2 case Executing => 1 case Done(_) => 0
  }

  lemma {:induction false} WeightAt(entries: seq<Entry>, j: nat, e: Entry)
    requires j < |entries| && !entries[j].Done? && (e.Done? || (entries[j].Waiting? && e.Executing?))
    ensures Weight(entries[j := e]) < Weight(entries)
    decreases |entries|
  {
    var k := |entries| - 1;
    if j == k {
      assert entries[j := e][..k] == entries[..k];
    } else {
      assert entries[j := e][..k] == entries[..k][j := e];
      WeightAt(entries[..k], j, e);
    }
  }

  function PhaseRank(p: Phase): nat {
    match p
    case Begun => 5 case Settled => 4 case Idle => 3
    case Running => 2 case Reporting => 1 case Finished => 0
  }

  /** Calls still to start, then the phase, then the work left in it. */
  function Rank(s: Batch): (nat, nat, nat)
    requires Inv(s)
  {
    (if PhaseRank(s.phase) < 3 then 0 else 1 + |s.calls| - Opened(s), PhaseRank(s.phase),
     Weight(s.entries) + |s.entries| - |s.messages|)
  }

  predicate Below(a: (nat, nat, nat), b: (nat, nat, nat)) {
    a.0 < b.0 || (a.0 == b.0 && (a.1 < b.1 || (a.1 == b.1 && a.2 < b.2)))
  }

  /** Every step but a progress update or an abort uses up some of the batch's remaining work. */
  lemma {:induction false} StepsProgress(s: Batch, step: Step)
    requires Inv(s) && CanStep(s, step) && !step.Update? && !step.Abort?
    ensures Inv(Next(s, step)) && Below(Rank(Next(s, step)), Rank(s))
  {
    StepKeeps(s, step);
    match step {
      case Begin(j) => WeightAt(s.entries, j, if s.aborted then Done(ABORTED) else Executing);
      case Finish(j, outcome) => WeightAt(s.entries, j, Done(outcome));
      case Open =>
      case Refuse(outcome) =>
      case Accept =>
      case Report =>
      case Check =>
      case Launch =>
      case Collect =>
      case Return =>
    }
  }

  /** And until the batch returns some such step is always possible. */
  lemma {:induction false} NeverStuck(s: Batch, outcome: Outcome) returns (step: Step)
    requires Inv(s) && !s.phase.Finished?
    ensures CanStep(s, step) && !step.Update? && !step.Abort?
  {
    match s.phase {
      case Idle => step := if |s.entries| < |s.calls| then Open else Launch;
      case Begun => step := Refuse(outcome);
      case Settled => step := Check;
      case Running =>
        if AllDone(s.entries) {
          step := Collect;
        } else {
          var j :| 0 <= j < |s.entries| && !s.entries[j].Done?;
          step := if s.entries[j].Waiting? then Begin(j) else Finish(j, outcome);
        }
      case Reporting => step := if |s.messages| == |s.entries| then Return else Report;
    }
  }
}
