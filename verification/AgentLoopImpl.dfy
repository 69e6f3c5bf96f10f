/** The loop as the program runs it: nested loops, control flags and queues polled in between. */
module AgentLoopImpl {
  import opened Wrappers
  import opened Transcript
  import opened ToolDeclarations
  import opened AgentStream
  import opened AgentLoop

  /** Emits and appends messages one by one. */
  method DeliverMessages(s: LoopState, messages: seq<Message>) returns (s': LoopState)
    ensures s' == Append(s, messages, Pairs(messages))
  {
    var transcript, newMessages, log := s.context.messages, s.newMessages, s.log;
    var k := 0;
    while k < |messages|
      invariant k <= |messages|
      invariant transcript == s.context.messages + messages[..k] && newMessages == s.newMessages + messages[..k]
      invariant log == s.log + Pairs(messages[..k])
    {
      var message := messages[k];
      log := log + [MessageStart(message)];
      log := log + [MessageEnd(message)];
      transcript, newMessages := transcript + [message], newMessages + [message];
      assert messages[..k + 1] == messages[..k] + [message] && messages[..k + 1][..k] == messages[..k];
      assert log == s.log + (Pairs(messages[..k]) + [MessageStart(message), MessageEnd(message)]);
      k := k + 1;
    }
    assert messages[..k] == messages;
    s' := s.(context := s.context.(messages := transcript), newMessages := newMessages, log := log);
  }

  /** Preparation for every turn but the first. */
  method OpenTurn(s: LoopState, t: TurnScript) returns (s': LoopState, prepared: seq<Message>)
    ensures s' == Open(s, t) && prepared == Prepared(s, t)
  {
    s', prepared := s, [];
    if !s.first {
      if t.replacement.Some? {
        s' := s'.(context := t.replacement.value);
      }
      prepared := t.prepared;
      s' := s'.(inbox := Arrive(s.inbox, t.beforeTurn));
      if |s.pending| == 0 {
        s' := PollSteering(s');
      }
      s' := s'.(log := s.log + [TurnStart]);
    }
  }

  /** The request, its response and the tool calls in it. */
  method Answer(s: LoopState, t: TurnScript) returns (s': LoopState, results: seq<Message>)
    requires t.response.Assistant?
    ensures s' == RunTools(Respond(s, t), t) && results == Results(t)
  {
    var messages, events := StreamAssistantResponse(s.context.messages, t.stream, t.response);
    s' := s.(context := s.context.(messages := messages),
             newMessages := s.newMessages + [t.response], log := s.log + events);
    results := [];
    if !Failed(t.response) && HasCalls(t.response) {
      results := t.batchMessages;
      s' := Append(s', results, t.batchEvents);
    }
  }

  /** The turn up to its last message, and what is recorded of it. */
  method TakeTurn(s: LoopState, t: TurnScript) returns (s': LoopState, record: TurnRecord)
    requires t.response.Assistant?
    ensures s' == Body(s, t) && record == Record(s, t, Stop)
  {
    var begun, prepared := OpenTurn(s, t);
    var declared := DeclareToolChanges(begun.context.messages, begun.context.tools, prepared + begun.pending);
    var asked := DeliverMessages(begun, declared);
    if t.request.Some? {
      asked := asked.(context := t.request.value);
    }
    var results;
    s', results := Answer(asked, t);
    record := TurnRecord(prepared, begun.pending, begun.source, declared, asked.context, t.request.Some?, t.response,
                         results, HasCalls(t.response) && !t.terminate, t.decision, Stop);
  }

  /** A turn has ended normally with nothing to do but perhaps to continue. */
  ghost predicate Idle(s: LoopState, before: LoopState, t: TurnScript, record: TurnRecord, explicit: bool)
    requires t.response.Assistant?
  {
    && !Failed(t.response) && !t.decision.End? && !Unterminated(t)
    && s == AfterTurn(Closed(before, t), t) && s.pending == []
    && record == Record(before, t, Stop) && explicit == t.decision.Continue?
  }

  lemma {:induction false} RecordReason(s: LoopState, t: TurnScript, reason: Reason)
    requires t.response.Assistant?
    ensures Record(s, t, reason) == Record(s, t, Stop).(reason := reason)
  {}

  lemma {:induction false} BodyTurns(s: LoopState, t: TurnScript)
    requires t.response.Assistant?
    ensures Body(s, t).turns == s.turns && Closed(s, t).turns == s.turns && AfterTurn(Closed(s, t), t).turns == s.turns
  {
    var begun := Open(s, t);
    assert Respond(Request(Deliver(begun, Prepared(s, t)), t), t).turns == s.turns;
  }

  /** Appends a turn's record once it is known why the next one follows. */
  method Remember(s: LoopState, record: TurnRecord, reason: Reason, ghost before: LoopState, ghost t: TurnScript)
    returns (s': LoopState)
    requires t.response.Assistant? && s.turns == before.turns && record == Record(before, t, Stop)
    requires Choose(Closed(before, t), t) == (s, reason)
    ensures s' == OneTurn(before, t)
  {
    RecordReason(before, t, reason);
    s' := s.(turns := s.turns + [record.(reason := reason)]);
  }

  /** The body of the inner loop, up to the poll for steering messages. */
  method InnerTurn(s: LoopState, t: TurnScript)
    returns (s': LoopState, hasMoreToolCalls: bool, explicitContinuation: bool, record: TurnRecord)
    requires t.response.Assistant? && !s.ended
    ensures if s'.ended || hasMoreToolCalls || s'.pending != [] then s' == OneTurn(s, t)
            else Idle(s', s, t, record, explicitContinuation)
  {
    hasMoreToolCalls, explicitContinuation := false, false;
    s', record := TakeTurn(s, t);
    BodyTurns(s, t);
    s' := s'.(log := s'.log + [TurnEnd(t.response, record.results)], pending := [], first := false);
    assert s' == Closed(s, t);
    if Failed(t.response) || t.decision.End? {
      s' := Remember(EndRun(s'), record, Stop, s, t);
    } else {
      hasMoreToolCalls := HasCalls(t.response) && !t.terminate;
      explicitContinuation := t.decision.Continue?;
      s' := PollSteering(s'.(inbox := Arrive(s'.inbox, t.afterTurn)));
      if hasMoreToolCalls || |s'.pending| > 0 {
        explicitContinuation := false;
        s' := Remember(s', record, if hasMoreToolCalls then ToolCalls else Steered, s, t);
      } else {
        NotEnded(s, t);
      }
    }
  }

  lemma {:induction false} NotEnded(s: LoopState, t: TurnScript)
    requires t.response.Assistant? && !s.ended
    ensures !AfterTurn(Closed(s, t), t).ended
  {
    var begun := Open(s, t);
    assert !Respond(Request(Deliver(begun, Prepared(s, t)), t), t).ended;
  }

  /** The outer loop's check when the agent would stop. */
  method FollowUpOrStop(
    s: LoopState, t: TurnScript, explicitContinuation: bool, record: TurnRecord, ghost before: LoopState)
    returns (s': LoopState)
    requires t.response.Assistant? && Idle(s, before, t, record, explicitContinuation)
    ensures s' == OneTurn(before, t)
  {
    BodyTurns(before, t);
    var inbox := Arrive(s.inbox, t.atStop);
    s' := s.(pending := Peek(inbox.followUp), source := FollowUp, inbox := inbox.(followUp := Drained(inbox.followUp)));
    assert s' == AtStop(AfterTurn(Closed(before, t), t), t);
    if |s'.pending| > 0 {
      s' := Remember(s', record, FollowedUp, before, t);
    } else if explicitContinuation {
      s' := Remember(s', record, Continued, before, t);
    } else {
      s' := Remember(EndRun(s'), record, Stop, before, t);
    }
  }

  lemma {:induction false} RunOne(s: LoopState, script: seq<TurnScript>, i: nat)
    requires AllFair(script) && i < |script| && !s.ended
    ensures Run(s, script[i..]) == Run(OneTurn(s, script[i]), script[i + 1..])
  {
    assert script[i..][0] == script[i] && script[i..][1..] == script[i + 1..];
  }

  /** What becomes of a state when the script is taken from a turn on. */
  type Outlook = (LoopState, nat) -> LoopState

  /** Every response is the model's. */
  predicate Answered(script: seq<TurnScript>) {
    forall k | 0 <= k < |script| :: script[k].response.Assistant?
  }

  /** A turn taken by the loop does not change the outlook. */
  ghost predicate Unrolls(outlook: Outlook, script: seq<TurnScript>) {
    && Answered(script)
    && forall s: LoopState, i: nat {:trigger OneTurn(s, script[i])} | i < |script| && !s.ended ::
         outlook(s, i) == outlook(OneTurn(s, script[i]), i + 1)
  }

  /** Turn `last` of the script has left the loop idle. */
  ghost predicate Waiting(s: LoopState, before: LoopState, script: seq<TurnScript>, last: nat,
                          record: TurnRecord, explicit: bool) {
    && last < |script| && script[last].response.Assistant? && !before.ended
    && Idle(s, before, script[last], record, explicit)
  }

  /** One turn of the inner loop, and whether the loop is left without anything to do. */
  method InnerStep(ghost outlook: Outlook, s: LoopState, script: seq<TurnScript>, i: nat)
    returns (s': LoopState, idle: bool, explicitContinuation: bool, record: TurnRecord)
    requires Unrolls(outlook, script) && !s.ended && i < |script|
    ensures idle ==> Waiting(s', s, script, i, record, explicitContinuation)
    ensures !idle ==> outlook(s', i + 1) == outlook(s, i)
  {
    var hasMoreToolCalls;
    s', hasMoreToolCalls, explicitContinuation, record := InnerTurn(s, script[i]);
    idle := !s'.ended && !hasMoreToolCalls && |s'.pending| == 0;
  }

  /** The inner loop: turns while tool results or pending messages ask for them. */
  method InnerLoop(ghost outlook: Outlook, s: LoopState, script: seq<TurnScript>, i: nat)
    returns (s': LoopState, last: nat, idle: bool, explicitContinuation: bool, record: TurnRecord,
             ghost before: LoopState)
    requires Unrolls(outlook, script) && !s.ended && i < |script|
    ensures i <= last < |script|
    ensures !idle ==> outlook(s', last + 1) == outlook(s, i)
    ensures idle ==> Waiting(s', before, script, last, record, explicitContinuation)
    ensures idle ==> outlook(before, last) == outlook(s, i)
  {
    before, last := s, i;
    s', idle, explicitContinuation, record := InnerStep(outlook, s, script, i);
    while !idle && !s'.ended && last + 1 < |script|
      invariant i <= last < |script|
      invariant !idle ==> outlook(s', last + 1) == outlook(s, i)
      invariant idle ==> Waiting(s', before, script, last, record, explicitContinuation)
      invariant idle ==> outlook(before, last) == outlook(s, i)
      decreases |script| - last
    {
      before, last := s', last + 1;
      s', idle, explicitContinuation, record := InnerStep(outlook, s', script, last);
    }
  }

  /** The outer loop: turns until the run ends or the script is used up. */
  method OuterLoop(ghost outlook: Outlook, start: LoopState, script: seq<TurnScript>)
    returns (s: LoopState, taken: nat)
    requires Unrolls(outlook, script) && !start.ended
    ensures outlook(s, taken) == outlook(start, 0)
    ensures taken <= |script| && (s.ended || taken == |script|)
  {
    s, taken := start, 0;
    while !s.ended && taken < |script|
      invariant taken <= |script| && outlook(s, taken) == outlook(start, 0)
      decreases |script| - taken
    {
      var last, idle, explicitContinuation, record;
      ghost var before;
      s, last, idle, explicitContinuation, record, before := InnerLoop(outlook, s, script, taken);
      if idle {
        s := FollowUpOrStop(s, script[last], explicitContinuation, record, before);
      }
      taken := last + 1;
    }
  }

  /** What the rest of the script makes of a state. */
  ghost function RestOf(script: seq<TurnScript>): Outlook
    requires AllFair(script)
  {
    (s: LoopState, i: nat) => if i <= |script| then Run(s, script[i..]) else s
  }

  lemma {:induction false} RestUnrolls(script: seq<TurnScript>)
    requires AllFair(script)
    ensures Unrolls(RestOf(script), script)
  {
    forall k | 0 <= k < |script| ensures script[k].response.Assistant? {
      assert Fair(script[k]);
    }
    forall s: LoopState, i: nat | i < |script| && !s.ended
      ensures RestOf(script)(s, i) == RestOf(script)(OneTurn(s, script[i]), i + 1)
    {
      RunOne(s, script, i);
    }
  }

  /** When the run has ended or the script is used up, nothing is left to be made of the state. */
  lemma {:induction false} RestIsNothing(script: seq<TurnScript>, start: LoopState, s: LoopState, taken: nat)
    requires AllFair(script) && taken <= |script| && (s.ended || taken == |script|)
    ensures RestOf(script)(s, taken) == s && RestOf(script)(start, 0) == Run(start, script)
  {
    assert script[0..] == script;
  }

  /** runLoop over the scripted turns; it returns early, unended, when the script is used up. */
  method RunLoop(start: LoopState, script: seq<TurnScript>) returns (s: LoopState)
    requires !start.ended && AllFair(script)
    ensures s == Run(start, script)
  {
    RestUnrolls(script);
    var taken;
    s, taken := OuterLoop(RestOf(script), start, script);
    RestIsNothing(script, start, s, taken);
  }
}
