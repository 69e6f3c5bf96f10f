/**
 Where the outcomes of a concurrent batch come from, which ends its log shows, and what an abort
 leaves undone.
 */
module BatchOutcomes {
  import opened Wrappers
  import opened Transcript
  import opened ToolBatch
  import opened ParallelBatch

  // ---------------------------------------------------------------- who finalized a call

  /** Calls that were refused or accepted. */
  function Prepared(steps: seq<Step>): nat
    decreases |steps|
  {
    if |steps| == 0 then 0 else
    Prepared(steps[..|steps| - 1]) + if steps[|steps| - 1].Refuse? || steps[|steps| - 1].Accept? then 1 else 0
  }

  /** The outcome that call `k` was given: by its refusal, by its tool, or by the abort that came first. */
  function Given(steps: seq<Step>, k: nat): Option<Outcome>
    decreases |steps|
  {
    if |steps| == 0 then None else
    var before, last := steps[..|steps| - 1], steps[|steps| - 1];
    match last
    case Refuse(outcome) => if Prepared(before) == k then Some(outcome) else Given(before, k)
    case Finish(j, outcome) => if j == k then Some(outcome) else Given(before, k)
    case Begin(j) =>
      if j == k && Abort in before then Some(Outcome("Operation aborted", true, false)) else Given(before, k)
    case _ => Given(before, k)
  }

  ghost predicate Traced(s: Batch, past: seq<Step>) {
    && |s.entries| == Prepared(past) && (s.aborted <==> Abort in past)
    && forall k: nat | k < |s.entries| ::
         match Given(past, k)
         case None => !s.entries[k].Done?
         case Some(outcome) => s.entries[k] == Done(outcome)
  }

  lemma {:induction false} NothingGiven(steps: seq<Step>, k: nat)
    requires k >= Prepared(steps) && Placed(steps)
    ensures Given(steps, k).None?
    decreases |steps|
  {
    if |steps| == 0 {
    } else {
      NothingGiven(steps[..|steps| - 1], k);
    }
  }

  /** Steps of a call come after it was prepared. */
  ghost predicate Placed(steps: seq<Step>)
    decreases |steps|
  {
    |steps| == 0 ||
    (Placed(steps[..|steps| - 1]) &&
     match steps[|steps| - 1]
     case Begin(j) => j < Prepared(steps[..|steps| - 1])
     case Finish(j, _) => j < Prepared(steps[..|steps| - 1])
     case _ => true)
  }

  lemma {:induction false} StepTraced(s: Batch, past: seq<Step>, step: Step)
    requires Traced(s, past) && Placed(past) && CanStep(s, step)
    ensures Traced(ParallelBatch.Next(s, step), past + [step]) && Placed(past + [step])
  {
    var more := past + [step];
    assert more[..|past|] == past;
    assert Abort in more <==> Abort in past || step == Abort;
    if step.Refuse? || step.Accept? {
      NothingGiven(past, |s.entries|);
    }
  }

  lemma {:induction false} RunTraced(s: Batch, past: seq<Step>, steps: seq<Step>)
    requires Traced(s, past) && Placed(past) && CanRun(s, steps)
    ensures Traced(Run(s, steps), past + steps)
    decreases |steps|
  {
    if |steps| == 0 {
      assert past + steps == past;
    } else {
      StepTraced(s, past, steps[0]);
      RunTraced(ParallelBatch.Next(s, steps[0]), past + [steps[0]], steps[1..]);
      assert past + [steps[0]] + steps[1..] == past + steps;
    }
  }

  /**
   In every run a call is finalized exactly when its refusal, its tool's end or, after an abort, its
   turn to begin has come, and then with what that step brought: the refusal, the tool's outcome, or
   the error that the operation was aborted.
   */
  lemma {:induction false} OutcomesAreGiven(calls: seq<ToolCall>, steps: seq<Step>)
    requires CanRun(Initial(calls), steps)
    ensures var s := Run(Initial(calls), steps);
      && |s.entries| == Prepared(steps) && (s.aborted <==> Abort in steps)
      && forall k: nat | k < |s.entries| ::
           match Given(steps, k)
           case None => !s.entries[k].Done?
           case Some(outcome) => s.entries[k] == Done(outcome)
  {
    RunTraced(Initial(calls), [], steps);
    assert [] + steps == steps;
  }

  // ---------------------------------------------------------------- which ends the log shows

  /** Ids and error flags of the finalized calls. */
  function Finals(calls: seq<ToolCall>, entries: seq<Entry>): multiset<(string, bool)>
    requires |entries| <= |calls|
    decreases |entries|
  {
    if |entries| == 0 then multiset{} else
    var k := |entries| - 1;
    var before := Finals(calls, entries[..k]);
    if entries[k].Done? then before + multiset{(calls[k].id, entries[k].outcome.isError)} else before
  }

  lemma {:induction false} FinalsMore(calls: seq<ToolCall>, entries: seq<Entry>, e: Entry)
    requires |entries| < |calls|
    ensures Finals(calls, entries + [e]) ==
            if e.Done? then Finals(calls, entries) + multiset{(calls[|entries|].id, e.outcome.isError)}
            else Finals(calls, entries)
  {
    assert (entries + [e])[..|entries|] == entries;
  }

  lemma {:induction false} Swap(m: multiset<(string, bool)>, x: (string, bool), y: (string, bool))
    ensures m + multiset{x} + multiset{y} == m + multiset{y} + multiset{x}
  {}

  lemma {:induction false} FinalsAt(calls: seq<ToolCall>, entries: seq<Entry>, j: nat, e: Entry)
    requires j < |entries| <= |calls| && !entries[j].Done?
    ensures Finals(calls, entries[j := e]) ==
            if e.Done? then Finals(calls, entries) + multiset{(calls[j].id, e.outcome.isError)}
            else Finals(calls, entries)
    decreases |entries|
  {
    var init, last := entries[..|entries| - 1], entries[|entries| - 1];
    assert entries == init + [last];
    FinalsMore(calls, init, last);
    if j == |init| {
      assert entries[j := e] == init + [e];
      FinalsMore(calls, init, e);
    } else {
      assert entries[j := e] == init[j := e] + [last];
      FinalsMore(calls, init[j := e], last);
      FinalsAt(calls, init, j, e);
      if last.Done? && e.Done? {
        Swap(Finals(calls, init), (calls[|init|].id, last.outcome.isError), (calls[j].id, e.outcome.isError));
      }
    }
  }

  lemma {:induction false} LogGrows(log: seq<Event>, e: Event)
    requires Whole(log)
    ensures Ended(log + [e]) == if e.ToolEnd? then Ended(log) + [(e.id, e.isError)] else Ended(log)
    ensures (e.MessageEnd? ==> |log| > 0 && log[|log| - 1] == MessageStart(e.message)) ==> Whole(log + [e])
  {
    assert (log + [e])[..|log|] == log;
    assert Ended(log) + [] == Ended(log);
  }

  ghost predicate EndsMatch(s: Batch) {
    |s.entries| <= |s.calls| && Whole(s.out.log) && multiset(Ended(s.out.log)) == Finals(s.calls, s.entries)
  }

  lemma {:induction false} EndOne(ended: seq<(string, bool)>, x: (string, bool))
    ensures multiset(ended + [x]) == multiset(ended) + multiset{x}
  {}

  lemma {:induction false} FinalizeMatches(s: Batch, j: nat, outcome: Outcome)
    requires EndsMatch(s) && j < |s.entries| && !s.entries[j].Done?
    ensures EndsMatch(s.(entries := s.entries[j := Done(outcome)],
                         out := Emit(s.out, ToolEnd(s.calls[j].id, outcome.isError))))
  {
    LogGrows(s.out.log, ToolEnd(s.calls[j].id, outcome.isError));
    FinalsAt(s.calls, s.entries, j, Done(outcome));
    EndOne(Ended(s.out.log), (s.calls[j].id, outcome.isError));
  }

  lemma {:induction false} StepMatches(s: Batch, step: Step)
    requires EndsMatch(s) && CanStep(s, step)
    ensures EndsMatch(ParallelBatch.Next(s, step))
  {
    match step {
      case Open => LogGrows(s.out.log, ToolStart(s.calls[|s.entries|].id));
      case Refuse(outcome) =>
        var id := s.calls[|s.entries|].id;
        LogGrows(s.out.log, ToolEnd(id, outcome.isError));
        FinalsMore(s.calls, s.entries, Done(outcome));
        EndOne(Ended(s.out.log), (id, outcome.isError));
      case Accept => FinalsMore(s.calls, s.entries, Waiting);
      case Begin(j) =>
        if s.aborted {
          FinalizeMatches(s, j, ABORTED);
        } else {
          FinalsAt(s.calls, s.entries, j, Executing);
        }
      case Update(j) => LogGrows(s.out.log, ToolUpdate(s.calls[j].id));
      case Finish(j, outcome) => FinalizeMatches(s, j, outcome);
      case Report => ReportMatches(s);
      case Check =>
      case Launch =>
      case Collect =>
      case Return =>
      case Abort =>
    }
  }

  lemma {:induction false} ReportMatches(s: Batch)
    requires EndsMatch(s) && CanStep(s, Report)
    ensures EndsMatch(ParallelBatch.Next(s, Report))
  {
    var message := ResultMessage(s.calls[|s.messages|], s.entries[|s.messages|].outcome);
    LogGrows(s.out.log, MessageStart(message));
    LogGrows(s.out.log + [MessageStart(message)], MessageEnd(message));
  }

  lemma {:induction false} RunMatches(s: Batch, steps: seq<Step>)
    requires EndsMatch(s) && CanRun(s, steps)
    ensures EndsMatch(Run(s, steps)) && Run(s, steps).calls == s.calls
    decreases |steps|
  {
    if |steps| == 0 {
    } else {
      StepMatches(s, steps[0]);
      RunMatches(ParallelBatch.Next(s, steps[0]), steps[1..]);
    }
  }

  /** The log ends each finalized call once, with its own error flag, and each message right after its start. */
  lemma {:induction false} EndsAreOutcomes(calls: seq<ToolCall>, steps: seq<Step>)
    requires CanRun(Initial(calls), steps)
    ensures var s := Run(Initial(calls), steps);
      |s.entries| <= |calls| && Whole(s.out.log) && multiset(Ended(s.out.log)) == Finals(calls, s.entries)
  {
    RunMatches(Initial(calls), steps);
  }

  // ---------------------------------------------------------------- after an abort

  /** Calls whose tools have been started and not ended. */
  ghost predicate NoneStarts(s: Batch, t: Batch) {
    forall k: nat | k < |t.entries| && t.entries[k].Executing? :: k < |s.entries| && s.entries[k].Executing?
  }

  lemma {:induction false} StepAfterAbort(s: Batch, step: Step)
    requires s.aborted && CanStep(s, step)
    ensures var t := ParallelBatch.Next(s, step);
      && t.aborted && NoneStarts(s, t)
      && Opened(t) + (if t.phase.Idle? then 1 else 0) <= Opened(s) + (if s.phase.Idle? then 1 else 0)
  {}

  /** Once aborted, a batch opens at most the call it had already turned to, and starts no tool. */
  lemma {:induction false} AbortOpensAtMostOne(s: Batch, steps: seq<Step>)
    requires s.aborted && CanRun(s, steps)
    ensures var t := Run(s, steps);
      && t.aborted && NoneStarts(s, t)
      && Opened(t) <= Opened(s) + if s.phase.Idle? then 1 else 0
  {
    AbortOpensIdle(s, steps);
  }

  lemma {:induction false} AbortOpensIdle(s: Batch, steps: seq<Step>)
    requires s.aborted && CanRun(s, steps)
    ensures var t := Run(s, steps);
      && t.aborted && NoneStarts(s, t)
      && Opened(t) + (if t.phase.Idle? then 1 else 0) <= Opened(s) + (if s.phase.Idle? then 1 else 0)
    decreases |steps|
  {
    if |steps| == 0 {
    } else {
      StepAfterAbort(s, steps[0]);
      AbortOpensIdle(ParallelBatch.Next(s, steps[0]), steps[1..]);
    }
  }
}
