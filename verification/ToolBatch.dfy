/**
 Executing the tool calls of one assistant message: one after the other, concurrently, or not
 at all when the message was cut off.  Tools, hooks and the abort signal are oracles.
 */
module ToolBatch {
  import opened Wrappers
  import opened Transcript

  /** A finalized call: what its tool, or the refusal to run it, produced. */
  datatype Outcome = Outcome(text: string, isError: bool, terminate: bool)

  function ResultMessage(call: ToolCall, outcome: Outcome): Message {
    ToolResult(call.id, call.name, outcome.text, outcome.isError)
  }

  /** shouldTerminateToolBatch */
  predicate ShouldTerminate(outcomes: seq<Outcome>) {
    |outcomes| > 0 && forall k | 0 <= k < |outcomes| :: outcomes[k].terminate
  }

  // ---------------------------------------------------------------- what a batch promises

  function StartOf(e: Event): seq<string> {
    if e.ToolStart? then [e.id] else []
  }

  function FinishOf(e: Event): seq<string> {
    if e.ToolEnd? then [e.id] else []
  }

  function Starts(log: seq<Event>): seq<string>
    decreases |log|
  {
    if |log| == 0 then [] else Starts(log[..|log| - 1]) + StartOf(log[|log| - 1])
  }

  function Finishes(log: seq<Event>): seq<string>
    decreases |log|
  {
    if |log| == 0 then [] else Finishes(log[..|log| - 1]) + FinishOf(log[|log| - 1])
  }

  /** Ids of the first `n` calls. */
  function FirstIds(calls: seq<ToolCall>, n: nat): seq<string>
    requires n <= |calls|
  {
    if n == 0 then [] else FirstIds(calls, n - 1) + [calls[n - 1].id]
  }

  /** One result per started call, in source order, for a prefix that is empty only without calls. */
  ghost predicate ResultsMatch(calls: seq<ToolCall>, messages: seq<Message>) {
    && |messages| <= |calls| && (|calls| > 0 ==> |messages| > 0)
    && forall k | 0 <= k < |messages| ::
         messages[k].ToolResult? && messages[k].id == calls[k].id && messages[k].name == calls[k].name
  }

  /** The contract the agent loop relies on. */
  ghost predicate BatchOk(calls: seq<ToolCall>, events: seq<Event>, messages: seq<Message>) {
    && Walk(QUIET, events) == QUIET
    && Ends(events) == messages
    && ResultsMatch(calls, messages)
    && Starts(events) == FirstIds(calls, |messages|)
  }

  /** Ids and error flags of the calls that a log has ended, in order. */
  function Ended(log: seq<Event>): seq<(string, bool)>
    decreases |log|
  {
    if |log| == 0 then [] else
    var last := log[|log| - 1];
    Ended(log[..|log| - 1]) + if last.ToolEnd? then [(last.id, last.isError)] else []
  }

  lemma {:induction false} EndedConcat(a: seq<Event>, b: seq<Event>)
    ensures Ended(a + b) == Ended(a) + Ended(b)
    decreases |b|
  {
    if |b| == 0 {
      assert a + b == a;
    } else {
      assert (a + b)[..|a + b| - 1] == a + b[..|b| - 1];
      EndedConcat(a, b[..|b| - 1]);
    }
  }

  /** Every message that ends in the log was started right before. */
  predicate Whole(log: seq<Event>) {
    forall k | 0 <= k < |log| && log[k].MessageEnd? :: k > 0 && log[k - 1] == MessageStart(log[k].message)
  }

  lemma {:induction false} WholeConcat(a: seq<Event>, b: seq<Event>)
    requires Whole(a) && Whole(b)
    ensures Whole(a + b)
  {
    forall k | 0 <= k < |a + b| && (a + b)[k].MessageEnd?
      ensures k > 0 && (a + b)[k - 1] == MessageStart((a + b)[k].message)
    {
      assert k >= |a| ==> (a + b)[k] == b[k - |a|];
    }
  }

  /** The log's ended calls and its messages are those of the results, flags included. */
  ghost predicate Shows(log: seq<Event>, messages: seq<Message>) {
    && Whole(log) && |Ended(log)| == |messages|
    && forall k | 0 <= k < |messages| ::
         messages[k].ToolResult? && Ended(log)[k] == (messages[k].id, messages[k].isError)
  }

  /** One event keeps the balance of running, started and ended calls. */
  lemma {:induction false} BalanceStep(p: Place, e: Event)
    requires p.InTurn? && Next(p, e).InTurn? && !e.TurnStart?
    ensures Next(p, e).tools + multiset(FinishOf(e)) == p.tools + multiset(StartOf(e))
  {
    if e.ToolEnd? {
      assert p.tools - multiset{e.id} + multiset{e.id} == p.tools;
    }
  }

  lemma {:induction false} BalanceAdds(
    a: multiset<string>, b: multiset<string>, c: multiset<string>, d: multiset<string>, from: multiset<string>,
    at: multiset<string>, next: multiset<string>)
    requires at + a == from + b && next + c == at + d
    ensures next + (a + c) == from + (b + d)
  {
    assert next + (a + c) == (next + c) + a;
    assert from + (b + d) == (from + b) + d;
    assert (at + d) + a == (at + a) + d;
  }

  /** In a well-formed log the calls still running are those started and not ended. */
  lemma {:induction false} StartsMatchFinishes(p: Place, log: seq<Event>)
    requires p.InTurn? && Walk(p, log).InTurn? && forall e | e in log :: !e.TurnStart?
    ensures Walk(p, log).tools + multiset(Finishes(log)) == p.tools + multiset(Starts(log))
    decreases |log|
  {
    if |log| == 0 {
    } else {
      var init, last := log[..|log| - 1], log[|log| - 1];
      assert last in log && forall e | e in init :: e in log;
      assert Next(Walk(p, init), last).InTurn?;
      StartsMatchFinishes(p, init);
      BalanceStep(Walk(p, init), last);
      BalanceAdds(multiset(Finishes(init)), multiset(Starts(init)), multiset(FinishOf(last)), multiset(StartOf(last)),
                  p.tools, Walk(p, init).tools, Walk(p, log).tools);
    }
  }

  /** Every start of a finished batch has exactly one matching end, and nothing stays pending. */
  lemma {:induction false} BatchLeavesNothingPending(
    calls: seq<ToolCall>, events: seq<Event>, messages: seq<Message>, s: AgentState)
    requires BatchOk(calls, events, messages) && forall e | e in events :: !e.TurnStart?
    requires s.pendingToolCalls == {}
    ensures multiset(Starts(events)) == multiset(Finishes(events))
    ensures ReduceAll(s, events).pendingToolCalls == {}
  {
    StartsMatchFinishes(QUIET, events);
    assert multiset{} + multiset(Finishes(events)) == multiset(Finishes(events));
    PendingAreRunning(s, QUIET, events);
  }

  // ---------------------------------------------------------------- one call at a time

  /** What happens to one call in sequence; an immediate outcome is a refusal before execution. */
  datatype CallScript = CallScript(immediate: bool, updates: nat, outcome: Outcome, abortedAfter: bool)

  function Updates(id: string, n: nat): seq<Event> {
    seq(n, _ => ToolUpdate(id))
  }

  function CallEvents(call: ToolCall, updates: nat, outcome: Outcome): seq<Event> {
    [ToolStart(call.id)] + Updates(call.id, updates) +
    [ToolEnd(call.id, outcome.isError), MessageStart(ResultMessage(call, outcome)),
     MessageEnd(ResultMessage(call, outcome))]
  }

  lemma {:induction false} StartsConcat(a: seq<Event>, b: seq<Event>)
    ensures Starts(a + b) == Starts(a) + Starts(b)
    decreases |b|
  {
    if |b| == 0 {
      assert a + b == a;
    } else {
      assert (a + b)[..|a + b| - 1] == a + b[..|b| - 1];
      StartsConcat(a, b[..|b| - 1]);
      assert Starts(a) + Starts(b[..|b| - 1]) + StartOf(b[|b| - 1]) == Starts(a) + Starts(b);
    }
  }

  /** One more event at the end of a log. */
  lemma {:induction false} PlaceAfter(log: seq<Event>, e: Event)
    ensures Walk(QUIET, log + [e]) == Next(Walk(QUIET, log), e)
    ensures Ends(log + [e]) == if e.MessageEnd? then Ends(log) + [e.message] else Ends(log)
    ensures Starts(log + [e]) == if e.ToolStart? then Starts(log) + [e.id] else Starts(log)
  {
    assert (log + [e])[..|log|] == log;
    assert Ends(log) + [] == Ends(log) && Starts(log) + [] == Starts(log);
  }

  /** The places that one call goes through. */
  lemma {:induction false} CallPlaces(id: string, isError: bool)
    ensures Next(QUIET, ToolStart(id)) == InTurn(false, multiset{id})
    ensures Next(InTurn(false, multiset{id}), ToolUpdate(id)) == InTurn(false, multiset{id})
    ensures Next(InTurn(false, multiset{id}), ToolEnd(id, isError)) == QUIET
    ensures NoRepeats(InTurn(false, multiset{id}))
  {
    assert multiset{} + multiset{id} == multiset{id};
    assert multiset{id} - multiset{id} == multiset{};
  }

  lemma {:induction false} UpdatesGrow(id: string, n: nat)
    requires n > 0
    ensures Updates(id, n) == Updates(id, n - 1) + [ToolUpdate(id)]
  {}

  /** A log in which one call runs and nothing has been completed. */
  ghost predicate OneRuns(log: seq<Event>, id: string) {
    Walk(QUIET, log) == InTurn(false, multiset{id}) && Ends(log) == [] && Starts(log) == [id]
  }

  lemma {:induction false} OneStart(id: string)
    ensures OneRuns([ToolStart(id)], id)
  {
    CallPlaces(id, false);
    PlaceAfter([], ToolStart(id));
    assert [] + [ToolStart(id)] == [ToolStart(id)];
    assert [] + [id] == [id];
  }

  lemma {:induction false} OneUpdate(log: seq<Event>, id: string)
    requires OneRuns(log, id)
    ensures OneRuns(log + [ToolUpdate(id)], id)
  {
    CallPlaces(id, false);
    PlaceAfter(log, ToolUpdate(id));
  }

  lemma {:induction false} StartedOk(id: string, updates: nat)
    ensures OneRuns([ToolStart(id)] + Updates(id, updates), id)
    decreases updates
  {
    if updates == 0 {
      OneStart(id);
      assert [ToolStart(id)] + Updates(id, 0) == [ToolStart(id)];
    } else {
      var before := [ToolStart(id)] + Updates(id, updates - 1);
      StartedOk(id, updates - 1);
      OneUpdate(before, id);
      UpdatesGrow(id, updates);
      assert [ToolStart(id)] + Updates(id, updates) == before + [ToolUpdate(id)];
    }
  }

  lemma {:induction false} FinishedOk(log: seq<Event>, message: Message, id: string, isError: bool)
    requires Walk(QUIET, log) == InTurn(false, multiset{id})
    ensures var t := log + [ToolEnd(id, isError)] + [MessageStart(message)] + [MessageEnd(message)];
      Walk(QUIET, t) == QUIET && Ends(t) == Ends(log) + [message] && Starts(t) == Starts(log)
  {
    CallPlaces(id, isError);
    PlaceAfter(log, ToolEnd(id, isError));
    PlaceAfter(log + [ToolEnd(id, isError)], MessageStart(message));
    PlaceAfter(log + [ToolEnd(id, isError)] + [MessageStart(message)], MessageEnd(message));
  }

  lemma {:induction false} CallEventsOk(call: ToolCall, updates: nat, outcome: Outcome)
    ensures var events := CallEvents(call, updates, outcome);
      Walk(QUIET, events) == QUIET && Ends(events) == [ResultMessage(call, outcome)] && Starts(events) == [call.id]
  {
    var log, message := [ToolStart(call.id)] + Updates(call.id, updates), ResultMessage(call, outcome);
    StartedOk(call.id, updates);
    FinishedOk(log, message, call.id, outcome.isError);
    assert CallEvents(call, updates, outcome) ==
           log + [ToolEnd(call.id, outcome.isError)] + [MessageStart(message)] + [MessageEnd(message)];
  }

  lemma {:induction false} SingleConcat(a: seq<Event>, b: seq<Event>)
    requires SingleRunning(QUIET, a) && Walk(QUIET, a) == QUIET && SingleRunning(QUIET, b)
    ensures SingleRunning(QUIET, a + b)
  {
    forall k | 0 <= k <= |a + b| ensures NoRepeats(Walk(QUIET, (a + b)[..k])) {
      if k <= |a| {
        assert (a + b)[..k] == a[..k];
      } else {
        assert (a + b)[..k] == a + b[..k - |a|];
        WalkConcat(QUIET, a, b[..k - |a|]);
      }
    }
  }

  /** Adding an event after which no id runs twice. */
  lemma {:induction false} SingleSnoc(log: seq<Event>, e: Event)
    requires SingleRunning(QUIET, log) && NoRepeats(Next(Walk(QUIET, log), e))
    ensures SingleRunning(QUIET, log + [e])
  {
    forall k | 0 <= k <= |log + [e]| ensures NoRepeats(Walk(QUIET, (log + [e])[..k])) {
      if k <= |log| {
        assert (log + [e])[..k] == log[..k];
      } else {
        assert (log + [e])[..k] == log + [e] && (log + [e])[..|log|] == log;
      }
    }
  }

  lemma {:induction false} SingleNothing()
    ensures SingleRunning(QUIET, [])
  {}

  /** A started call's updates repeat nothing. */
  lemma {:induction false} SingleUpdates(call: ToolCall, updates: nat)
    ensures SingleRunning(QUIET, [ToolStart(call.id)] + Updates(call.id, updates))
    decreases updates
  {
    CallPlaces(call.id, false);
    if updates == 0 {
      SingleNothing();
      SingleSnoc([], ToolStart(call.id));
      assert [ToolStart(call.id)] + Updates(call.id, 0) == [] + [ToolStart(call.id)];
    } else {
      var before := [ToolStart(call.id)] + Updates(call.id, updates - 1);
      StartedOk(call.id, updates - 1);
      SingleUpdates(call, updates - 1);
      SingleSnoc(before, ToolUpdate(call.id));
      UpdatesGrow(call.id, updates);
      assert [ToolStart(call.id)] + Updates(call.id, updates) == before + [ToolUpdate(call.id)];
    }
  }

  /** A quiet log grows by a whole message without repeating an id. */
  lemma {:induction false} SingleMessage(log: seq<Event>, message: Message)
    requires SingleRunning(QUIET, log) && Walk(QUIET, log) == QUIET
    ensures SingleRunning(QUIET, log + [MessageStart(message)] + [MessageEnd(message)])
  {
    PlaceAfter(log, MessageStart(message));
    SingleSnoc(log, MessageStart(message));
    SingleSnoc(log + [MessageStart(message)], MessageEnd(message));
  }

  lemma {:induction false} SingleCall(call: ToolCall, updates: nat, outcome: Outcome)
    ensures SingleRunning(QUIET, CallEvents(call, updates, outcome))
  {
    var message, end := ResultMessage(call, outcome), ToolEnd(call.id, outcome.isError);
    var log := [ToolStart(call.id)] + Updates(call.id, updates);
    SingleUpdates(call, updates);
    StartedOk(call.id, updates);
    CallPlaces(call.id, outcome.isError);
    PlaceAfter(log, end);
    SingleSnoc(log, end);
    SingleMessage(log + [end], message);
    assert CallEvents(call, updates, outcome) == log + [end] + [MessageStart(message)] + [MessageEnd(message)];
  }

  /** A log that has reported the first `|messages|` calls and is quiet again. */
  ghost predicate Reported(calls: seq<ToolCall>, events: seq<Event>, messages: seq<Message>) {
    && |messages| <= |calls|
    && Walk(QUIET, events) == QUIET && Ends(events) == messages
    && Starts(events) == FirstIds(calls, |messages|)
  }

  /** Appending one more call's events to a quiet log. */
  lemma {:induction false} OneMoreCall(
    calls: seq<ToolCall>, events: seq<Event>, messages: seq<Message>, updates: nat, outcome: Outcome)
    requires Reported(calls, events, messages) && |messages| < |calls|
    ensures var call := calls[|messages|];
      Reported(calls, events + CallEvents(call, updates, outcome), messages + [ResultMessage(call, outcome)])
  {
    var call := calls[|messages|];
    CallEventsOk(call, updates, outcome);
    WalkConcat(QUIET, events, CallEvents(call, updates, outcome));
    EndsConcat(events, CallEvents(call, updates, outcome));
    StartsConcat(events, CallEvents(call, updates, outcome));
  }

  lemma {:induction false} UpdatesEndNothing(id: string, n: nat)
    ensures Ended(Updates(id, n)) == [] && Whole(Updates(id, n))
    decreases n
  {
    if n == 0 {
    } else {
      UpdatesEndNothing(id, n - 1);
      UpdatesGrow(id, n);
      assert Updates(id, n)[..n - 1] == Updates(id, n - 1);
    }
  }

  lemma {:induction false} CallShows(call: ToolCall, updates: nat, outcome: Outcome)
    ensures Ended(CallEvents(call, updates, outcome)) == [(call.id, outcome.isError)]
    ensures Whole(CallEvents(call, updates, outcome))
  {
    var start, told, message := [ToolStart(call.id)], Updates(call.id, updates), ResultMessage(call, outcome);
    var rest := [ToolEnd(call.id, outcome.isError), MessageStart(message), MessageEnd(message)];
    UpdatesEndNothing(call.id, updates);
    EndedConcat(start, told);
    EndedConcat(start + told, rest);
    assert start[..0] == [] && Ended(start) == [];
    assert rest[..2][..1] == rest[..1] && rest[..1][..0] == [];
    assert Ended(rest[..1]) == [(call.id, outcome.isError)] == Ended(rest[..2]) == Ended(rest);
    WholeConcat(start, told);
    WholeConcat(start + told, rest);
    assert [] + [(call.id, outcome.isError)] == [(call.id, outcome.isError)];
  }

  /** Ids of the calls that a log reports updates of, in order. */
  function Updated(log: seq<Event>): seq<string>
    decreases |log|
  {
    if |log| == 0 then [] else
    var last := log[|log| - 1];
    Updated(log[..|log| - 1]) + if last.ToolUpdate? then [last.id] else []
  }

  lemma {:induction false} UpdatedConcat(a: seq<Event>, b: seq<Event>)
    ensures Updated(a + b) == Updated(a) + Updated(b)
    decreases |b|
  {
    if |b| == 0 {
      assert a + b == a;
    } else {
      assert (a + b)[..|a + b| - 1] == a + b[..|b| - 1];
      UpdatedConcat(a, b[..|b| - 1]);
    }
  }

  lemma {:induction false} UpdatesAre(id: string, n: nat)
    ensures Updated(Updates(id, n)) == seq(n, _ => id)
    decreases n
  {
    if n == 0 {
    } else {
      UpdatesAre(id, n - 1);
      UpdatesGrow(id, n);
      assert Updates(id, n)[..n - 1] == Updates(id, n - 1);
      assert seq(n, _ => id) == seq(n - 1, _ => id) + [id];
    }
  }

  lemma {:induction false} CallUpdates(call: ToolCall, updates: nat, outcome: Outcome)
    ensures Updated(CallEvents(call, updates, outcome)) == seq(updates, _ => call.id)
  {
    var start, told, message := [ToolStart(call.id)], Updates(call.id, updates), ResultMessage(call, outcome);
    var rest := [ToolEnd(call.id, outcome.isError), MessageStart(message), MessageEnd(message)];
    UpdatesAre(call.id, updates);
    UpdatedConcat(start, told);
    UpdatedConcat(start + told, rest);
    assert start[..0] == [] && rest[..2][..1] == rest[..1] && rest[..1][..0] == [];
    assert Updated(start) == [] && Updated(rest[..1]) == [] == Updated(rest[..2]) == Updated(rest);
    assert [] + seq(updates, _ => call.id) + [] == seq(updates, _ => call.id);
  }

  /** The updates of the first calls: none of a call that was refused before it ran. */
  function UpdatesOf(calls: seq<ToolCall>, script: seq<CallScript>, n: nat): seq<string>
    requires n <= |calls| <= |script|
  {
    if n == 0 then [] else
    UpdatesOf(calls, script, n - 1) +
    seq(if script[n - 1].immediate then 0 else script[n - 1].updates, _ => calls[n - 1].id)
  }

  lemma {:induction false} OneMoreShown(
    events: seq<Event>, messages: seq<Message>, call: ToolCall, updates: nat, outcome: Outcome)
    requires Shows(events, messages)
    ensures Shows(events + CallEvents(call, updates, outcome), messages + [ResultMessage(call, outcome)])
  {
    CallShows(call, updates, outcome);
    EndedConcat(events, CallEvents(call, updates, outcome));
    WholeConcat(events, CallEvents(call, updates, outcome));
  }

  /** The first calls were reported with the outcomes of their scripts. */
  ghost predicate Scripted(
    calls: seq<ToolCall>, script: seq<CallScript>, messages: seq<Message>, finalized: seq<Outcome>)
    requires |script| >= |calls|
  {
    && |messages| == |finalized| <= |calls|
    && (forall k | 0 <= k < |messages| :: messages[k] == ResultMessage(calls[k], script[k].outcome))
    && (forall k | 0 <= k < |finalized| :: finalized[k] == script[k].outcome)
  }

  /** Nobody aborted before call `n`. */
  ghost predicate Unaborted(script: seq<CallScript>, n: nat)
    requires n <= |script|
  {
    forall k | 0 <= k < n :: !script[k].abortedAfter
  }

  /** What the sequential loop has done once it has reported the first `|messages|` calls. */
  ghost predicate Executed(
    calls: seq<ToolCall>, script: seq<CallScript>, events: seq<Event>, messages: seq<Message>, finalized: seq<Outcome>)
    requires |script| >= |calls|
  {
    && Reported(calls, events, messages) && Scripted(calls, script, messages, finalized)
    && SingleRunning(QUIET, events) && Shows(events, messages)
    && Updated(events) == UpdatesOf(calls, script, |messages|)
  }

  lemma {:induction false} NothingExecuted(calls: seq<ToolCall>, script: seq<CallScript>)
    requires |script| >= |calls|
    ensures Executed(calls, script, [], [], [])
  {}

  lemma {:induction false} OneMoreScripted(
    calls: seq<ToolCall>, script: seq<CallScript>, messages: seq<Message>, finalized: seq<Outcome>)
    requires |messages| < |calls| <= |script| && Scripted(calls, script, messages, finalized)
    ensures var outcome := script[|messages|].outcome;
      Scripted(calls, script, messages + [ResultMessage(calls[|messages|], outcome)], finalized + [outcome])
  {}

  lemma {:induction false} OneMoreSingle(events: seq<Event>, call: ToolCall, updates: nat, outcome: Outcome)
    requires SingleRunning(QUIET, events) && Walk(QUIET, events) == QUIET
    ensures SingleRunning(QUIET, events + CallEvents(call, updates, outcome))
  {
    SingleCall(call, updates, outcome);
    SingleConcat(events, CallEvents(call, updates, outcome));
  }

  lemma {:induction false} OneMoreUpdated(calls: seq<ToolCall>, script: seq<CallScript>, events: seq<Event>, n: nat)
    requires n < |calls| <= |script| && Updated(events) == UpdatesOf(calls, script, n)
    ensures Updated(events + ScriptedEvents(calls[n], script[n])) == UpdatesOf(calls, script, n + 1)
  {
    CallUpdates(calls[n], if script[n].immediate then 0 else script[n].updates, script[n].outcome);
    UpdatedConcat(events, ScriptedEvents(calls[n], script[n]));
  }

  function ScriptedEvents(call: ToolCall, act: CallScript): seq<Event> {
    CallEvents(call, if act.immediate then 0 else act.updates, act.outcome)
  }

  lemma {:induction false} OneMoreExecuted(
    calls: seq<ToolCall>, script: seq<CallScript>, events: seq<Event>, messages: seq<Message>, finalized: seq<Outcome>)
    requires |messages| < |calls| <= |script| && Executed(calls, script, events, messages, finalized)
    ensures var call, act := calls[|messages|], script[|messages|];
      Executed(calls, script, events + ScriptedEvents(call, act), messages + [ResultMessage(call, act.outcome)],
               finalized + [act.outcome])
  {
    var call, act := calls[|messages|], script[|messages|];
    var updates := if act.immediate then 0 else act.updates;
    OneMoreCall(calls, events, messages, updates, act.outcome);
    OneMoreScripted(calls, script, messages, finalized);
    OneMoreShown(events, messages, call, updates, act.outcome);
    OneMoreUpdated(calls, script, events, |messages|);
    OneMoreSingle(events, call, updates, act.outcome);
    assert |messages + [ResultMessage(call, act.outcome)]| == |messages| + 1;
  }

  /** One call of the sequential loop: started, prepared, perhaps executed, ended, reported. */
  method ExecuteOne(calls: seq<ToolCall>, script: seq<CallScript>, events: seq<Event>, messages: seq<Message>,
                    ghost finalized: seq<Outcome>)
    returns (events': seq<Event>, message: Message, outcome: Outcome)
    requires |messages| < |calls| <= |script| && Executed(calls, script, events, messages, finalized)
    ensures Executed(calls, script, events', messages + [message], finalized + [outcome])
  {
    var call, act := calls[|messages|], script[|messages|];
    OneMoreExecuted(calls, script, events, messages, finalized);
    outcome := act.outcome;
    events' := events + ScriptedEvents(call, act);
    message := ResultMessage(call, outcome);
  }

  /** What the sequential loop promises of the results it has reported. */
  lemma {:induction false} ExecutedResults(
    calls: seq<ToolCall>, script: seq<CallScript>, events: seq<Event>, messages: seq<Message>, finalized: seq<Outcome>)
    requires |script| >= |calls| && Executed(calls, script, events, messages, finalized)
    ensures |calls| == 0 || |messages| > 0 ==> BatchOk(calls, events, messages)
    ensures forall k | 0 <= k < |messages| ::
              var outcome := script[k].outcome;
              messages[k] == ToolResult(calls[k].id, calls[k].name, outcome.text, outcome.isError)
    ensures ShouldTerminate(finalized) <==>
            |messages| > 0 && forall k | 0 <= k < |messages| :: script[k].outcome.terminate
  {}

  /**
   executeToolCallsSequential: stops after the first call that leaves the signal aborted.  No id
   ever runs twice, whatever the ids are.
   */
  method ExecuteSequential(calls: seq<ToolCall>, script: seq<CallScript>)
    returns (events: seq<Event>, messages: seq<Message>, terminate: bool)
    requires |script| >= |calls|
    ensures BatchOk(calls, events, messages) && SingleRunning(QUIET, events) && Shows(events, messages)
    ensures Updated(events) == UpdatesOf(calls, script, |messages|)
    ensures forall k | 0 <= k < |messages| ::
              var outcome := script[k].outcome;
              messages[k] == ToolResult(calls[k].id, calls[k].name, outcome.text, outcome.isError)
    ensures forall k | 0 <= k < |messages| - 1 :: !script[k].abortedAfter
    ensures |messages| < |calls| ==> script[|messages| - 1].abortedAfter
    ensures terminate <==> |messages| > 0 && forall k | 0 <= k < |messages| :: script[k].outcome.terminate
  {
    events, messages := [], [];
    var finalized: seq<Outcome> := [];
    var aborted := false;
    NothingExecuted(calls, script);
    while |messages| < |calls| && !aborted
      invariant |messages| <= |calls| && Executed(calls, script, events, messages, finalized)
      invariant if aborted
                then |messages| > 0 && script[|messages| - 1].abortedAfter && Unaborted(script, |messages| - 1)
                else Unaborted(script, |messages|)
      decreases |calls| - |messages|
    {
      var message, outcome;
      events, message, outcome := ExecuteOne(calls, script, events, messages, finalized);
      aborted := script[|messages|].abortedAfter;
      messages, finalized := messages + [message], finalized + [outcome];
    }
    ExecutedResults(calls, script, events, messages, finalized);
    terminate := ShouldTerminate(finalized);
  }

  /** failToolCallsFromTruncatedMessage: every call fails, none runs. */
  method FailTruncated(calls: seq<ToolCall>, text: string)
    returns (events: seq<Event>, messages: seq<Message>, terminate: bool)
    ensures BatchOk(calls, events, messages) && SingleRunning(QUIET, events) && |messages| == |calls| && !terminate
    ensures Shows(events, messages)
    ensures forall k | 0 <= k < |messages| :: messages[k] == ToolResult(calls[k].id, calls[k].name, text, true)
    ensures forall e | e in events :: !e.ToolUpdate?
  {
    events, messages, terminate := [], [], false;
    var k := 0;
    while k < |calls|
      invariant k == |messages| <= |calls|
      invariant Reported(calls, events, messages) && SingleRunning(QUIET, events) && Shows(events, messages)
      invariant forall j | 0 <= j < k :: messages[j] == ResultMessage(calls[j], Outcome(text, true, false))
      invariant forall e | e in events :: !e.ToolUpdate?
    {
      var call, outcome := calls[k], Outcome(text, true, false);
      OneMoreCall(calls, events, messages, 0, outcome);
      OneMoreShown(events, messages, call, 0, outcome);
      SingleCall(call, 0, outcome);
      SingleConcat(events, CallEvents(call, 0, outcome));
      events := events + CallEvents(call, 0, outcome);
      messages := messages + [ResultMessage(call, outcome)];
      k := k + 1;
    }
  }
}
