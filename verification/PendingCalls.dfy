/**
 The pending tool calls that the agent's reducer shows against the calls a batch really has running.
 Only repeated ids in one concurrent batch can part them.
 */
module PendingCalls {
  import opened Wrappers
  import opened Transcript
  import opened ToolBatch
  import opened ParallelBatch

  /** The calls of a message have pairwise different ids. */
  predicate DistinctIds(calls: seq<ToolCall>) {
    forall j, k | 0 <= j < k < |calls| :: calls[j].id != calls[k].id
  }

  // ---------------------------------------------------------------- one call at a time

  /** A sequential batch shows exactly its running call at every moment, whatever the ids are. */
  method SequentialIsExact(calls: seq<ToolCall>, script: seq<CallScript>, ghost agent: AgentState)
    returns (events: seq<Event>, messages: seq<Message>, terminate: bool)
    requires |script| >= |calls| && agent.pendingToolCalls == {}
    ensures BatchOk(calls, events, messages)
    ensures forall k | 0 <= k <= |events| ::
              ReduceAll(agent, events[..k]).pendingToolCalls == Tools(Walk(QUIET, events[..k]))
  {
    events, messages, terminate := ExecuteSequential(calls, script);
    forall k | 0 <= k <= |events|
      ensures ReduceAll(agent, events[..k]).pendingToolCalls == Tools(Walk(QUIET, events[..k]))
    {
      PendingIsAlwaysExact(agent, QUIET, events, k);
    }
  }

  // ---------------------------------------------------------------- distinct ids

  /** How often an id occurs among the first calls. */
  function Occurs(calls: seq<ToolCall>, n: nat, id: string): nat
    requires n <= |calls|
  {
    if n == 0 then 0 else Occurs(calls, n - 1, id) + if calls[n - 1].id == id then 1 else 0
  }

  lemma {:induction false} OccursNowhere(calls: seq<ToolCall>, n: nat, id: string)
    requires n <= |calls| && forall k | 0 <= k < n :: calls[k].id != id
    ensures Occurs(calls, n, id) == 0
    decreases n
  {
    if n == 0 {
    } else {
      OccursNowhere(calls, n - 1, id);
    }
  }

  lemma {:induction false} OccursOnce(calls: seq<ToolCall>, n: nat, id: string)
    requires n <= |calls| && DistinctIds(calls)
    ensures Occurs(calls, n, id) <= 1
    decreases n
  {
    if n == 0 {
    } else {
      OccursOnce(calls, n - 1, id);
      if calls[n - 1].id == id {
        OccursNowhere(calls, n - 1, id);
      }
    }
  }

  lemma {:induction false} UnfinishedOccurs(calls: seq<ToolCall>, entries: seq<Entry>, id: string)
    requires |entries| <= |calls|
    ensures Unfinished(calls, entries)[id] <= Occurs(calls, |entries|, id)
    decreases |entries|
  {
    if |entries| == 0 {
    } else {
      UnfinishedOccurs(calls, entries[..|entries| - 1], id);
    }
  }

  lemma {:induction false} RunningOccurs(s: Batch, id: string)
    requires Opened(s) <= |s.calls|
    ensures RunningIds(s)[id] <= Occurs(s.calls, Opened(s), id)
  {
    UnfinishedOccurs(s.calls, s.entries, id);
  }

  lemma {:induction false} DistinctPlace(s: Batch)
    requires Inv(s) && DistinctIds(s.calls)
    ensures NoRepeats(s.out.place)
  {
    forall id | id in RunningIds(s) ensures RunningIds(s)[id] == 1 {
      RunningOccurs(s, id);
      OccursOnce(s.calls, Opened(s), id);
    }
  }

  lemma {:induction false} EmitSingle(w: Watch, e: Event)
    requires Faithful(w) && SingleRunning(QUIET, w.log) && NoRepeats(Emit(w, e).place)
    ensures SingleRunning(QUIET, Emit(w, e).log)
  {
    SingleSnoc(w.log, e);
  }

  lemma {:induction false} ReportSingle(s: Batch)
    requires Inv(s) && Faithful(s.out) && CanStep(s, Report) && SingleRunning(QUIET, s.out.log)
    ensures SingleRunning(QUIET, ParallelBatch.Next(s, Report).out.log)
  {
    var message := ResultMessage(s.calls[|s.messages|], s.entries[|s.messages|].outcome);
    UnfinishedDone(s.calls, s.entries);
    assert s.out.place == QUIET;
    EmitFaithful(s.out, MessageStart(message));
    EmitSingle(s.out, MessageStart(message));
    EmitSingle(Emit(s.out, MessageStart(message)), MessageEnd(message));
  }

  lemma {:induction false} StepSingle(s: Batch, step: Step)
    requires Inv(s) && Faithful(s.out) && CanStep(s, step) && DistinctIds(s.calls) && SingleRunning(QUIET, s.out.log)
    ensures SingleRunning(QUIET, ParallelBatch.Next(s, step).out.log)
  {
    var t := ParallelBatch.Next(s, step);
    StepKeeps(s, step);
    DistinctPlace(t);
    if step.Report? {
      ReportSingle(s);
    } else if t.out != s.out {
      EmitSingle(s.out, t.out.log[|s.out.log|]);
    }
  }

  lemma {:induction false} RunSingle(s: Batch, steps: seq<Step>)
    requires Inv(s) && Faithful(s.out) && CanRun(s, steps) && DistinctIds(s.calls) && SingleRunning(QUIET, s.out.log)
    ensures SingleRunning(QUIET, Run(s, steps).out.log)
    decreases |steps|
  {
    if |steps| == 0 {
    } else {
      StepKeeps(s, steps[0]);
      StepFaithful(s, steps[0]);
      StepSingle(s, steps[0]);
      RunSingle(ParallelBatch.Next(s, steps[0]), steps[1..]);
    }
  }

  // ---------------------------------------------------------------- repeated ids

  /** The reducer's pending ids are those of the batch's unfinished calls. */
  ghost predicate Exact(s: Batch, agent: AgentState)
    requires Opened(s) <= |s.calls|
  {
    ReduceAll(agent, s.out.log).pendingToolCalls == set id | id in RunningIds(s)
  }

  lemma {:induction false} DistinctIsExact(calls: seq<ToolCall>, steps: seq<Step>, agent: AgentState)
    requires CanRun(Initial(calls), steps) && DistinctIds(calls) && agent.pendingToolCalls == {}
    ensures Opened(Run(Initial(calls), steps)) <= |Run(Initial(calls), steps).calls|
    ensures Exact(Run(Initial(calls), steps), agent)
  {
    RunKeeps(Initial(calls), steps);
    RunSingle(Initial(calls), steps);
    PendingIsExact(agent, QUIET, Run(Initial(calls), steps).out.log);
  }

  lemma {:induction false} RunSnoc(s: Batch, steps: seq<Step>, step: Step)
    requires CanRun(s, steps) && CanStep(Run(s, steps), step)
    ensures CanRun(s, steps + [step]) && Run(s, steps + [step]) == ParallelBatch.Next(Run(s, steps), step)
    decreases |steps|
  {
    if |steps| == 0 {
      assert steps + [step] == [step] && CanRun(ParallelBatch.Next(s, step), [step][1..]);
    } else {
      assert (steps + [step])[0] == steps[0] && (steps + [step])[1..] == steps[1..] + [step];
      RunSnoc(ParallelBatch.Next(s, steps[0]), steps[1..], step);
    }
  }

  /** The first calls are opened and accepted; none has been invoked yet. */
  ghost predicate Accepted(s: Batch, calls: seq<ToolCall>, n: nat) {
    && s.calls == calls && n <= |calls| && |s.entries| == n && s.phase.Idle? && !s.aborted
    && forall k | 0 <= k < n :: s.entries[k].Waiting?
  }

  lemma {:induction false} AcceptFirst(calls: seq<ToolCall>, n: nat) returns (steps: seq<Step>)
    requires n <= |calls|
    ensures CanRun(Initial(calls), steps) && Accepted(Run(Initial(calls), steps), calls, n)
    decreases n
  {
    if n == 0 {
      steps := [];
    } else {
      var before := AcceptFirst(calls, n - 1);
      var s := Initial(calls);
      RunSnoc(s, before, Open);
      RunSnoc(s, before + [Open], Accept);
      RunSnoc(s, before + [Open] + [Accept], Check);
      steps := before + [Open] + [Accept] + [Check];
    }
  }

  /**
   With a repeated id: the second of two calls is refused while the first still waits for its tool,
   and its end removes the id they share.
   */
  lemma {:induction false} RepeatedIdHides(calls: seq<ToolCall>, j: nat, k: nat, outcome: Outcome, agent: AgentState)
    returns (steps: seq<Step>)
    requires j < k < |calls| && calls[j].id == calls[k].id
    ensures CanRun(Initial(calls), steps)
    ensures var s := Run(Initial(calls), steps);
      && Opened(s) <= |s.calls| && calls[j].id in RunningIds(s)
      && calls[j].id !in ReduceAll(agent, s.out.log).pendingToolCalls
  {
    var before := AcceptFirst(calls, k);
    var start := Initial(calls);
    RunSnoc(start, before, Open);
    RunSnoc(start, before + [Open], Refuse(outcome));
    steps := before + [Open] + [Refuse(outcome)];
    var s, log := Run(start, steps), Run(start, before + [Open]).out.log;
    UnfinishedHas(calls, s.entries, j);
    assert s.out.log == log + [ToolEnd(calls[k].id, outcome.isError)];
    assert s.out.log[..|log|] == log;
  }

  /**
   In every run of a concurrent batch the reducer shows exactly the unfinished calls as pending, if
   and only if the calls of the message have different ids.
   */
  lemma {:induction false} PendingExactIffDistinct(calls: seq<ToolCall>, agent: AgentState)
    requires agent.pendingToolCalls == {}
    ensures (forall steps | CanRun(Initial(calls), steps) ::
               var s := Run(Initial(calls), steps); Opened(s) <= |s.calls| && Exact(s, agent)) <==> DistinctIds(calls)
  {
    if DistinctIds(calls) {
      forall steps | CanRun(Initial(calls), steps)
        ensures var s := Run(Initial(calls), steps); Opened(s) <= |s.calls| && Exact(s, agent)
      {
        DistinctIsExact(calls, steps, agent);
      }
    } else {
      var j, k :| 0 <= j < k < |calls| && calls[j].id == calls[k].id;
      var steps := RepeatedIdHides(calls, j, k, ABORTED, agent);
    }
  }
}
