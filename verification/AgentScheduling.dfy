/** Which messages a run delivers, and why its turns follow one another. */
module AgentScheduling {
  import opened Wrappers
  import opened Transcript
  import opened ToolDeclarations
  import opened ToolBatch
  import opened AgentStream
  import opened AgentLoop
  import opened AgentLoopProofs

  // ---------------------------------------------------------------- queues are conserved

  /** The messages that turns took from one queue, in order. */
  function Drawn(turns: seq<TurnRecord>, source: Source): seq<Message>
    decreases |turns|
  {
    if |turns| == 0 then [] else
    var last := turns[|turns| - 1];
    Drawn(turns[..|turns| - 1], source) + if last.source == source then last.pending else []
  }

  function Held(pending: seq<Message>, from: Source, source: Source): seq<Message> {
    if from == source then pending else []
  }

  /** Whatever was queued was drawn by a turn, is pending, or is still queued, in this order. */
  ghost predicate Balanced(turns: seq<TurnRecord>, pending: seq<Message>, from: Source, inbox: Inbox) {
    && inbox.steered == Drawn(turns, Steering) + Held(pending, from, Steering) + inbox.steering.messages
    && inbox.followed == Drawn(turns, FollowUp) + Held(pending, from, FollowUp) + inbox.followUp.messages
  }

  ghost predicate Conserved(s: LoopState) {
    Balanced(s.turns, s.pending, s.source, s.inbox) && (s.ended ==> s.pending == [])
  }

  lemma {:induction false} ArriveBalanced(
    turns: seq<TurnRecord>, pending: seq<Message>, from: Source, inbox: Inbox, a: Arrivals)
    requires Balanced(turns, pending, from, inbox)
    ensures Balanced(turns, pending, from, Arrive(inbox, a))
  {
    Attach(Drawn(turns, Steering) + Held(pending, from, Steering), inbox.steering.messages, a.steer);
    Attach(Drawn(turns, FollowUp) + Held(pending, from, FollowUp), inbox.followUp.messages, a.follow);
  }

  lemma {:induction false} PeekAndRest(q: Queue, before: seq<Message>)
    ensures before + [] + q.messages == before + Peek(q) + Drained(q).messages
  {
    assert q.messages == Peek(q) + Drained(q).messages;
  }

  lemma {:induction false} PollBalanced(turns: seq<TurnRecord>, from: Source, inbox: Inbox)
    requires Balanced(turns, [], from, inbox)
    ensures Balanced(turns, Peek(inbox.steering), Steering, inbox.(steering := Drained(inbox.steering)))
    ensures Balanced(turns, Peek(inbox.followUp), FollowUp, inbox.(followUp := Drained(inbox.followUp)))
  {
    PeekAndRest(inbox.steering, Drawn(turns, Steering));
    PeekAndRest(inbox.followUp, Drawn(turns, FollowUp));
  }

  /** Recording a turn moves its pending messages to those drawn. */
  lemma {:induction false} RecordBalanced(
    turns: seq<TurnRecord>, pending: seq<Message>, from: Source, inbox: Inbox, record: TurnRecord)
    requires Balanced(turns, pending, from, inbox) && record.pending == pending && record.source == from
    ensures Balanced(turns + [record], [], from, inbox)
  {
    assert (turns + [record])[..|turns|] == turns;
    forall source
      ensures Drawn(turns + [record], source) + Held([], from, source) ==
                Drawn(turns, source) + Held(pending, from, source)
    {}
  }

  lemma {:induction false} OpenBalanced(s: LoopState, t: TurnScript)
    requires Balanced(s.turns, s.pending, s.source, s.inbox)
    ensures var begun := Open(s, t);
      Balanced(s.turns, begun.pending, begun.source, begun.inbox) && begun.turns == s.turns
  {
    if !s.first {
      ArriveBalanced(s.turns, s.pending, s.source, s.inbox, t.beforeTurn);
      if s.pending == [] {
        PollBalanced(s.turns, s.source, Arrive(s.inbox, t.beforeTurn));
      }
    }
  }

  /** A turn's messages leave the queues alone. */
  lemma {:induction false} ClosedQueues(s: LoopState, t: TurnScript)
    requires t.response.Assistant?
    ensures var begun, closed := Open(s, t), Closed(s, t);
      && closed.inbox == begun.inbox && closed.source == begun.source && closed.pending == []
      && Body(s, t).pending == begun.pending
  {
    var begun := Open(s, t);
    var answered := Respond(Request(Deliver(begun, Prepared(s, t)), t), t);
    assert answered.inbox == begun.inbox && answered.source == begun.source && answered.pending == begun.pending;
  }

  ghost predicate BalancedAt(turns: seq<TurnRecord>, s: LoopState) {
    Balanced(turns, s.pending, s.source, s.inbox)
  }

  lemma {:induction false} AfterTurnBalanced(turns: seq<TurnRecord>, s: LoopState, t: TurnScript)
    requires s.pending == [] && BalancedAt(turns, s)
    ensures BalancedAt(turns, AfterTurn(s, t)) && AfterTurn(s, t).ended == s.ended
  {
    ArriveBalanced(turns, [], s.source, s.inbox, t.afterTurn);
    PollBalanced(turns, s.source, Arrive(s.inbox, t.afterTurn));
  }

  lemma {:induction false} AtStopBalanced(turns: seq<TurnRecord>, s: LoopState, t: TurnScript)
    requires s.pending == [] && BalancedAt(turns, s)
    ensures BalancedAt(turns, AtStop(s, t)) && AtStop(s, t).ended == s.ended
  {
    ArriveBalanced(turns, [], s.source, s.inbox, t.atStop);
    PollBalanced(turns, s.source, Arrive(s.inbox, t.atStop));
  }

  lemma {:induction false} EndBalanced(turns: seq<TurnRecord>, s: LoopState)
    requires BalancedAt(turns, s)
    ensures BalancedAt(turns, EndRun(s))
  {}

  lemma {:induction false} ChooseBalanced(turns: seq<TurnRecord>, s: LoopState, t: TurnScript)
    requires t.response.Assistant? && s.pending == [] && BalancedAt(turns, s) && !s.ended
    ensures var chosen := Choose(s, t).0;
      BalancedAt(turns, chosen) && (chosen.ended ==> chosen.pending == [])
  {
    var after := AfterTurn(s, t);
    EndBalanced(turns, s);
    AfterTurnBalanced(turns, s, t);
    if after.pending == [] {
      AtStopBalanced(turns, after, t);
      EndBalanced(turns, AtStop(after, t));
    }
  }

  lemma {:induction false} TurnConserves(s: LoopState, t: TurnScript)
    requires Conserved(s) && !s.ended && t.response.Assistant?
    ensures Conserved(OneTurn(s, t))
  {
    var begun, closed := Open(s, t), Closed(s, t);
    var record := Record(s, t, Choose(closed, t).1);
    OpenBalanced(s, t);
    ClosedQueues(s, t);
    RecordBalanced(s.turns, begun.pending, begun.source, begun.inbox, record);
    Unended(s, t);
    ChooseBalanced(s.turns + [record], closed, t);
    Recorded(s, t);
  }

  lemma {:induction false} RunConserves(s: LoopState, script: seq<TurnScript>)
    requires Conserved(s) && AllFair(script)
    ensures Conserved(Run(s, script))
    decreases |script|
  {
    if !s.ended && |script| > 0 {
      TurnConserves(s, script[0]);
      RunConserves(OneTurn(s, script[0]), script[1..]);
    }
  }

  /** Nothing was drawn from the queues before. */
  predicate Untouched(inbox: Inbox) {
    inbox.steered == inbox.steering.messages && inbox.followed == inbox.followUp.messages
  }

  // ---------------------------------------------------------------- everything drawn is delivered

  /** The messages of the turns as the run appended them. */
  function Flat(turns: seq<TurnRecord>): seq<Message>
    decreases |turns|
  {
    if |turns| == 0 then [] else
    var last := turns[|turns| - 1];
    Flat(turns[..|turns| - 1]) + (last.delivered + [last.response] + last.results)
  }

  ghost predicate Listed(s: LoopState, initial: seq<Message>) {
    s.newMessages == initial + Flat(s.turns)
  }

  lemma {:induction false} BodyMessages(s: LoopState, t: TurnScript)
    requires t.response.Assistant?
    ensures Body(s, t).newMessages ==
            s.newMessages + (ToDeliver(Open(s, t), Prepared(s, t)) + [t.response] + Results(t))
  {
    var begun := Open(s, t);
    assert begun.newMessages == s.newMessages;
    var delivered := ToDeliver(begun, Prepared(s, t));
    var answered := Respond(Request(Deliver(begun, Prepared(s, t)), t), t);
    assert answered.newMessages == s.newMessages + delivered + [t.response];
    assert Body(s, t).newMessages == answered.newMessages + Results(t);
    Attach(s.newMessages, delivered, [t.response]);
    Attach(s.newMessages, delivered + [t.response], Results(t));
  }

  lemma {:induction false} TurnLists(s: LoopState, t: TurnScript, initial: seq<Message>)
    requires Listed(s, initial) && t.response.Assistant?
    ensures Listed(OneTurn(s, t), initial)
  {
    var record := Record(s, t, Choose(Closed(s, t), t).1);
    BodyMessages(s, t);
    ChoiceKeepsContext(Closed(s, t), t);
    Recorded(s, t);
    assert (s.turns + [record])[..|s.turns|] == s.turns;
    Attach(initial, Flat(s.turns), record.delivered + [record.response] + record.results);
  }

  lemma {:induction false} RunLists(s: LoopState, script: seq<TurnScript>, initial: seq<Message>)
    requires Listed(s, initial) && AllFair(script)
    ensures Listed(Run(s, script), initial)
    decreases |script|
  {
    if !s.ended && |script| > 0 {
      TurnLists(s, script[0], initial);
      RunLists(OneTurn(s, script[0]), script[1..], initial);
    }
  }

  /**
   In a completed run everything ever queued was drawn by some turn or is still queued, in order;
   every turn delivers all it drew, apart from tool changes on system messages; and the returned
   messages are exactly the initial ones and the turns' messages in order.
   */
  lemma {:induction false} QueuesAreConserved(start: LoopState, initial: seq<Message>, script: seq<TurnScript>)
    requires Conserved(start) && Listed(start, initial) && RecordsOk(start.turns)
    requires AllFair(script) && Run(start, script).ended
    ensures var s := Run(start, script);
      && s.inbox.steered == Drawn(s.turns, Steering) + s.inbox.steering.messages
      && s.inbox.followed == Drawn(s.turns, FollowUp) + s.inbox.followUp.messages
      && RecordsOk(s.turns)
      && s.newMessages == initial + Flat(s.turns)
  {
    RunConserves(start, script);
    EveryRequestDeclaresItsTools(start, script);
    RunLists(start, script, initial);
    NothingHeld(Run(start, script));
  }

  lemma {:induction false} NothingHeld(s: LoopState)
    requires Balanced(s.turns, s.pending, s.source, s.inbox) && s.pending == []
    ensures s.inbox.steered == Drawn(s.turns, Steering) + s.inbox.steering.messages
    ensures s.inbox.followed == Drawn(s.turns, FollowUp) + s.inbox.followUp.messages
  {
    assert Drawn(s.turns, Steering) + [] == Drawn(s.turns, Steering);
    assert Drawn(s.turns, FollowUp) + [] == Drawn(s.turns, FollowUp);
  }

  // ---------------------------------------------------------------- one steering message a turn

  predicate Single(t: TurnScript) {
    t.beforeTurn.steeringMode.OneAtATime? && t.afterTurn.steeringMode.OneAtATime?
  }

  ghost predicate AllSingle(script: seq<TurnScript>) {
    forall k | 0 <= k < |script| :: Single(script[k])
  }

  ghost predicate AtMostOne(s: LoopState) {
    && |Held(s.pending, s.source, Steering)| <= 1
    && forall k | 0 <= k < |s.turns| :: |Held(s.turns[k].pending, s.turns[k].source, Steering)| <= 1
  }

  lemma {:induction false} ChooseSingle(s: LoopState, t: TurnScript)
    requires t.response.Assistant? && Single(t) && s.pending == []
    ensures var chosen := Choose(s, t).0; |Held(chosen.pending, chosen.source, Steering)| <= 1
  {
    assert |AfterTurn(s, t).pending| <= 1;
    assert AtStop(AfterTurn(s, t), t).source == FollowUp;
  }

  lemma {:induction false} RecordSingle(s: LoopState, t: TurnScript, reason: Reason)
    requires AtMostOne(s) && t.response.Assistant? && Single(t)
    ensures var record := Record(s, t, reason); |Held(record.pending, record.source, Steering)| <= 1
  {
    var begun := Open(s, t);
    if !s.first && s.pending == [] {
      assert begun.pending == Peek(Arrive(s.inbox, t.beforeTurn).steering);
    }
  }

  lemma {:induction false} OneMoreSingle(turns: seq<TurnRecord>, record: TurnRecord)
    requires forall k | 0 <= k < |turns| :: |Held(turns[k].pending, turns[k].source, Steering)| <= 1
    requires |Held(record.pending, record.source, Steering)| <= 1
    ensures var more := turns + [record];
      forall k | 0 <= k < |more| :: |Held(more[k].pending, more[k].source, Steering)| <= 1
  {}

  lemma {:induction false} TurnSingle(s: LoopState, t: TurnScript)
    requires AtMostOne(s) && t.response.Assistant? && Single(t)
    ensures AtMostOne(OneTurn(s, t))
  {
    var record := Record(s, t, Choose(Closed(s, t), t).1);
    ClosedQueues(s, t);
    ChooseSingle(Closed(s, t), t);
    Recorded(s, t);
    RecordSingle(s, t, record.reason);
    OneMoreSingle(s.turns, record);
    assert OneTurn(s, t).turns == s.turns + [record];
  }

  /** In one-at-a-time mode no turn delivers two steering messages, however often the queue is polled. */
  lemma {:induction false} OneSteeringMessagePerTurn(s: LoopState, script: seq<TurnScript>)
    requires AtMostOne(s) && AllFair(script) && AllSingle(script)
    ensures AtMostOne(Run(s, script))
    decreases |script|
  {
    if !s.ended && |script| > 0 {
      TurnSingle(s, script[0]);
      OneSteeringMessagePerTurn(OneTurn(s, script[0]), script[1..]);
    }
  }

  // ---------------------------------------------------------------- why turns follow

  /**
   After a normal turn another one starts exactly when tool results are outstanding, a steering
   or follow-up message was drawn, or the hook asked to continue; an error or an order to end
   stops the run without looking at the queues.
   */
  lemma {:induction false} AnotherTurnIff(s: LoopState, t: TurnScript)
    requires !s.ended && t.response.Assistant?
    ensures var closed, s' := Closed(s, t), OneTurn(s, t);
      if Failed(t.response) || t.decision.End? then s'.ended && s'.inbox == Open(s, t).inbox
      else !s'.ended <==> Unterminated(t) || t.decision.Continue? || s'.pending != []
  {
    var closed := Closed(s, t);
    Unended(s, t);
    ClosedQueues(s, t);
    Recorded(s, t);
    var after, stopping := AfterTurn(closed, t), AtStop(AfterTurn(closed, t), t);
    assert !after.ended && !stopping.ended;
  }

  /** A turn that another one followed, and what that one had to deliver because of it. */
  ghost predicate Follows(r: TurnRecord, next: TurnRecord) {
    && r.response.Assistant? && !Failed(r.response) && !r.decision.End?
    && match r.reason
       case Stop => false
       case ToolCalls => r.unterminated
       case Steered => !r.unterminated && next.pending != [] && next.source.Steering?
       case FollowedUp => !r.unterminated && next.pending != [] && next.source.FollowUp?
       case Continued => !r.unterminated && r.decision.Continue? && next.source.Steering?
  }

  /** The last turn of a run: it failed, was told to end, or nothing at all asked for another. */
  ghost predicate Rests(r: TurnRecord, inbox: Inbox) {
    && r.response.Assistant? && r.reason.Stop?
    && (Failed(r.response) || r.decision.End? ||
        (!r.unterminated && !r.decision.Continue? && inbox.followUp.messages == []))
  }

  /** What a turn has left pending for the next one. */
  ghost predicate Awaits(r: TurnRecord, pending: seq<Message>, source: Source) {
    && r.response.Assistant? && !Failed(r.response) && !r.decision.End?
    && match r.reason
       case Stop => false
       case ToolCalls => r.unterminated && source.Steering?
       case Steered => !r.unterminated && pending != [] && source.Steering?
       case FollowedUp => !r.unterminated && pending != [] && source.FollowUp?
       case Continued => !r.unterminated && r.decision.Continue? && pending == []
  }

  ghost predicate AllFollow(turns: seq<TurnRecord>) {
    forall k | 0 <= k < |turns| - 1 :: Follows(turns[k], turns[k + 1])
  }

  ghost predicate Chained(s: LoopState) {
    && AllFollow(s.turns) && (s.first <==> s.turns == [])
    && (s.turns != [] ==>
          var last := s.turns[|s.turns| - 1];
          if s.ended then Rests(last, s.inbox) else Awaits(last, s.pending, s.source))
  }

  lemma {:induction false} OpenFollows(s: LoopState, t: TurnScript, last: TurnRecord, reason: Reason)
    requires !s.first && t.response.Assistant? && Awaits(last, s.pending, s.source)
    ensures Follows(last, Record(s, t, reason))
  {
    var begun := Open(s, t);
    assert s.pending != [] ==> begun.pending == s.pending && begun.source == s.source;
    assert s.pending == [] ==> begun.source.Steering?;
  }

  /** What a choice says of its own turn. */
  lemma {:induction false} ChoiceAwaits(s: LoopState, t: TurnScript, record: TurnRecord)
    requires t.response.Assistant? && !s.ended
    requires record.response == t.response && record.decision == t.decision && record.unterminated == Unterminated(t)
    requires record.reason == Choose(s, t).1
    ensures var s' := Choose(s, t).0;
      && s'.first == s.first
      && if s'.ended then Rests(record, s'.inbox) else Awaits(record, s'.pending, s'.source)
  {
    var after, stopping := AfterTurn(s, t), AtStop(AfterTurn(s, t), t);
    assert !after.ended && !stopping.ended && after.first == s.first && stopping.first == s.first;
    assert after.source.Steering? && stopping.source.FollowUp?;
    if stopping.pending == [] {
      assert stopping.inbox.followUp.messages == [];
    }
  }

  lemma {:induction false} TurnChains(s: LoopState, t: TurnScript)
    requires Chained(s) && !s.ended && t.response.Assistant?
    ensures Chained(OneTurn(s, t))
  {
    var closed := Closed(s, t);
    var record := Record(s, t, Choose(closed, t).1);
    Unended(s, t);
    ChoiceAwaits(closed, t, record);
    Recorded(s, t);
    if s.turns != [] {
      OpenFollows(s, t, s.turns[|s.turns| - 1], record.reason);
    }
    assert OneTurn(s, t).turns == s.turns + [record];
  }

  /**
   Over a whole run every turn but the last was followed for its recorded reason, and what was
   drawn because of it is what the very next turn had pending; the last turn of a run that ended
   failed, was told to end, or left neither tool results, a continue decision nor a follow-up.
   */
  lemma {:induction false} EveryTurnHasItsReason(s: LoopState, script: seq<TurnScript>)
    requires Chained(s) && AllFair(script)
    ensures Chained(Run(s, script))
    decreases |script|
  {
    if !s.ended && |script| > 0 {
      TurnChains(s, script[0]);
      EveryTurnHasItsReason(OneTurn(s, script[0]), script[1..]);
    }
  }

  function Count(turns: seq<TurnRecord>, reason: Reason): nat
    decreases |turns|
  {
    if |turns| == 0 then 0 else
    Count(turns[..|turns| - 1], reason) + if turns[|turns| - 1].reason == reason then 1 else 0
  }

  function Continues(turns: seq<TurnRecord>): nat
    decreases |turns|
  {
    if |turns| == 0 then 0 else
    Continues(turns[..|turns| - 1]) + if turns[|turns| - 1].decision.Continue? then 1 else 0
  }

  /** Requests made so far, by what caused them. */
  ghost predicate Counted(s: LoopState) {
    && |s.turns| == Count(s.turns, ToolCalls) + Count(s.turns, Steered) + Count(s.turns, FollowedUp)
                    + Count(s.turns, Continued) + Count(s.turns, Stop)
    && Count(s.turns, Stop) == (if s.ended then 1 else 0)
    && Count(s.turns, Continued) <= Continues(s.turns)
  }

  lemma {:induction false} ReasonOk(s: LoopState, t: TurnScript)
    requires t.response.Assistant? && !s.ended
    ensures var chosen := Choose(s, t);
      (chosen.0.ended <==> chosen.1.Stop?) && (chosen.1.Continued? ==> t.decision.Continue?)
  {
    var after, stopping := AfterTurn(s, t), AtStop(AfterTurn(s, t), t);
    assert !after.ended && !stopping.ended;
  }

  lemma {:induction false} CountOneMore(turns: seq<TurnRecord>, record: TurnRecord)
    ensures forall reason :: Count(turns + [record], reason) ==
                             if record.reason == reason then Count(turns, reason) + 1 else Count(turns, reason)
    ensures Continues(turns + [record]) == if record.decision.Continue? then Continues(turns) + 1 else Continues(turns)
  {
    assert (turns + [record])[..|turns|] == turns;
  }

  lemma {:induction false} TurnCounts(s: LoopState, t: TurnScript)
    requires Counted(s) && !s.ended && t.response.Assistant?
    ensures Counted(OneTurn(s, t))
  {
    Unended(s, t);
    ReasonOk(Closed(s, t), t);
    Recorded(s, t);
    CountOneMore(s.turns, Record(s, t, Choose(Closed(s, t), t).1));
  }

  lemma {:induction false} RunCounts(s: LoopState, script: seq<TurnScript>)
    requires Counted(s) && AllFair(script)
    ensures Counted(Run(s, script))
    decreases |script|
  {
    if !s.ended && |script| > 0 {
      TurnCounts(s, script[0]);
      RunCounts(OneTurn(s, script[0]), script[1..]);
    }
  }

  /**
   A completed run makes one request for its start, one for every turn that tool results, steering
   or follow-up messages caused, and for the hook's continue decisions at most one each.
   */
  lemma {:induction false} ContinueAddsAtMostOne(start: LoopState, script: seq<TurnScript>)
    requires start.turns == [] && !start.ended && AllFair(script) && Run(start, script).ended
    ensures var turns := Run(start, script).turns;
      var natural := Count(turns, ToolCalls) + Count(turns, Steered) + Count(turns, FollowedUp);
      1 + natural <= |turns| <= 1 + natural + Continues(turns)
  {
    RunCounts(start, script);
  }

  // ---------------------------------------------------------------- where runs start

  /** What the theorems above ask of the state in which a run starts. */
  ghost predicate Started(s: LoopState, origin: Context, initial: seq<Message>) {
    && LogOk(s) && Linked(s, origin) && Conserved(s) && Listed(s, initial)
    && s.turns == [] && !s.ended && Chained(s)
    && (s.inbox.steering.mode.OneAtATime? ==> AtMostOne(s))
  }

  lemma {:induction false} EmptyPolled(inbox: Inbox, a: Arrivals)
    requires Untouched(inbox)
    ensures Balanced([], [], Steering, Arrive(inbox, a))
    ensures var after := Arrive(inbox, a);
      Balanced([], Peek(after.steering), Steering, after.(steering := Drained(after.steering)))
  {
    assert Balanced([], [], Steering, inbox);
    ArriveBalanced([], [], Steering, inbox, a);
    PollBalanced([], Steering, Arrive(inbox, a));
  }

  /** A prompted run starts so, with its prompts delivered. */
  lemma {:induction false} PromptedRunsStart(
    context: Context, prompts: seq<Message>, inbox: Inbox, skipPoll: bool, a: Arrivals)
    requires Untouched(inbox)
    ensures Started(StartPrompts(context, prompts, inbox, skipPoll, a), context,
                    Declare(context.messages, context.tools, prompts))
  {
    StartPromptsLog(context, prompts, inbox, skipPoll, a);
    EmptyPolled(inbox, a);
  }

  /** And so does a continued run, with nothing delivered. */
  lemma {:induction false} ContinuedRunsStart(context: Context, inbox: Inbox, a: Arrivals)
    requires Untouched(inbox) && StartContinue(context, inbox, a).Success?
    ensures Started(StartContinue(context, inbox, a).value, context, [])
  {
    StartContinueLog(context, inbox, a);
    EmptyPolled(inbox, a);
  }
}
