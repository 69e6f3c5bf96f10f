/**
 A turn of the agent loop from outside: which context its request is made with, what it leaves behind,
 which events it emits and what it draws from the queues, all in terms of its script.
 */
module AgentTurns {
  import opened Wrappers
  import opened Transcript
  import opened ToolDeclarations
  import opened ToolBatch
  import opened AgentStream
  import opened AgentLoop
  import opened AgentLoopProofs
  import opened AgentScheduling

  // ---------------------------------------------------------------- the context of every request

  /** The context that a turn leaves to the next one. */
  function Left(r: TurnRecord): Context {
    r.request.(messages := r.request.messages + [r.response] + r.results)
  }

  /** The results of a response: none when it failed or made no calls. */
  function ToolResults(t: TurnScript): seq<Message>
    requires t.response.Assistant?
  {
    if t.response.stop == ErrorStop || t.response.stop == Aborted || t.response.calls == [] then []
    else t.batchMessages
  }

  /** What a turn that starts in a context records of its script. */
  ghost predicate Records(before: Context, first: bool, t: TurnScript, r: TurnRecord) {
    && t.response.Assistant? && r.response == t.response && r.decision == t.decision
    && r.prepared == (if first then [] else t.prepared)
    && r.delivered == Declare(before.messages, before.tools, r.prepared + r.pending)
    && (r.replaced <==> t.request.Some?)
    && r.request == (match t.request
                     case Some(context) => context
                     case None => before.(messages := before.messages + r.delivered))
    && r.results == ToolResults(t)
    && (r.unterminated <==> t.response.calls != [] && !t.terminate)
  }

  /** The context a turn starts in: what the hook replaced it with, else what the turn before left. */
  function Before(start: Context, script: seq<TurnScript>, turns: seq<TurnRecord>, k: nat): Context
    requires k < |script| && k <= |turns|
  {
    if k == 0 then start
    else if script[k].replacement.Some? then script[k].replacement.value
    else Left(turns[k - 1])
  }

  ghost predicate RecordsAt(start: Context, script: seq<TurnScript>, turns: seq<TurnRecord>, k: nat)
    requires k < |script| && k < |turns|
  {
    Records(Before(start, script, turns, k), k == 0, script[k], turns[k])
  }

  function Latest(start: Context, turns: seq<TurnRecord>): Context {
    if turns == [] then start else Left(turns[|turns| - 1])
  }

  lemma {:induction false} BodyContext(s: LoopState, t: TurnScript)
    requires Fair(t)
    ensures var r := Record(s, t, Stop); Body(s, t).context == Left(r) && r.results == ToolResults(t)
  {
    var begun := Open(s, t);
    var asked := Request(Deliver(begun, Prepared(s, t)), t);
    StreamingIsCleanIffOneStart(asked.context.messages, t.stream, t.response);
    var answered := Respond(asked, t);
    assert answered.context.messages == asked.context.messages + [t.response];
    assert answered.context.messages + [] == answered.context.messages;
  }

  lemma {:induction false} TurnRecords(s: LoopState, t: TurnScript)
    requires Fair(t)
    ensures var before := if !s.first && t.replacement.Some? then t.replacement.value else s.context;
      var s' := OneTurn(s, t);
      && |s'.turns| == |s.turns| + 1 && s'.turns[..|s.turns|] == s.turns && !s'.first
      && Records(before, s.first, t, s'.turns[|s.turns|]) && s'.context == Left(s'.turns[|s.turns|])
  {
    BodyContext(s, t);
    Recorded(s, t);
    ChoiceKeepsContext(Closed(s, t), t);
    ChoiceIsNotFirst(Closed(s, t), t);
    var begun := Open(s, t);
    assert begun.context == if !s.first && t.replacement.Some? then t.replacement.value else s.context;
  }

  lemma {:induction false} ChoiceIsNotFirst(s: LoopState, t: TurnScript)
    requires t.response.Assistant? && !s.first
    ensures !Choose(s, t).0.first
  {
    var after, stopping := AfterTurn(s, t), AtStop(AfterTurn(s, t), t);
    assert !after.first && !stopping.first;
  }

  /** The run so far has recorded the first turns of the script. */
  ghost predicate Told(start: Context, script: seq<TurnScript>, s: LoopState) {
    && |s.turns| <= |script| && (s.first <==> s.turns == [])
    && s.context == Latest(start, s.turns)
    && forall k: nat | k < |s.turns| :: RecordsAt(start, script, s.turns, k)
  }

  lemma {:induction false} OneMoreRecord(
    start: Context, script: seq<TurnScript>, turns: seq<TurnRecord>, r: TurnRecord)
    requires |turns| < |script| && forall k: nat | k < |turns| :: RecordsAt(start, script, turns, k)
    requires Records(Before(start, script, turns, |turns|), turns == [], script[|turns|], r)
    ensures forall k: nat | k < |turns| + 1 :: RecordsAt(start, script, turns + [r], k)
  {
    var more := turns + [r];
    forall k: nat | k < |more| ensures RecordsAt(start, script, more, k) {
      assert k > 0 ==> more[k - 1] == turns[k - 1];
      assert Before(start, script, more, k) == Before(start, script, turns, k);
      assert k < |turns| ==> RecordsAt(start, script, turns, k) && more[k] == turns[k];
    }
  }

  lemma {:induction false} ToldFurther(start: Context, script: seq<TurnScript>, s: LoopState)
    requires AllFair(script) && Told(start, script, s) && |s.turns| < |script|
    ensures Told(start, script, OneTurn(s, script[|s.turns|]))
  {
    var s' := OneTurn(s, script[|s.turns|]);
    TurnRecords(s, script[|s.turns|]);
    var r := s'.turns[|s.turns|];
    assert s'.turns == s.turns + [r];
    OneMoreRecord(start, script, s.turns, r);
  }

  lemma {:induction false} RunTells(start: Context, script: seq<TurnScript>, s: LoopState)
    requires AllFair(script) && Told(start, script, s)
    ensures AllFair(script[|s.turns|..])
    ensures var u := Run(s, script[|s.turns|..]);
      Told(start, script, u) && (u.ended || |u.turns| == |script|)
    decreases |script| - |s.turns|
  {
    var n := |s.turns|;
    if s.ended || n == |script| {
    } else {
      ToldFurther(start, script, s);
      TurnRecords(s, script[n]);
      var next := OneTurn(s, script[n]);
      RunTells(start, script, next);
      assert script[n..][0] == script[n] && script[n..][1..] == script[n + 1..];
    }
  }

  /**
   In every run from a start: each turn's request is made with the context its `prepareRequest` hook
   returned, or else with the context it started in and its delivered messages; it started in the
   context its `prepareNextTurn` hook returned, or else in the one the turn before left, which is that
   turn's request with its response and results; and the last turn's is the context of the run.
   */
  lemma {:induction false} RequestsFollowTheHooks(start: LoopState, script: seq<TurnScript>)
    requires AllFair(script) && start.turns == [] && start.first
    ensures var s := Run(start, script);
      && |s.turns| <= |script| && (s.ended || |s.turns| == |script|)
      && (forall k: nat | k < |s.turns| :: RecordsAt(start.context, script, s.turns, k))
      && s.context == Latest(start.context, s.turns)
  {
    assert script[0..] == script;
    RunTells(start.context, script, start);
  }

  // ---------------------------------------------------------------- what a turn emits

  lemma {:induction false} PairsAt(messages: seq<Message>, k: nat)
    requires k < |messages|
    ensures |Pairs(messages)| == 2 * |messages|
    ensures Pairs(messages)[2 * k] == MessageStart(messages[k]) && Pairs(messages)[2 * k + 1] == MessageEnd(messages[k])
    decreases |messages|
  {
    var init := messages[..|messages| - 1];
    if k < |init| {
      PairsAt(init, k);
    } else if |init| > 0 {
      PairsAt(init, 0);
    }
  }

  /** The events of a turn's calls: none when it failed or made none. */
  function ToolEvents(t: TurnScript): seq<Event>
    requires t.response.Assistant?
  {
    if t.response.stop == ErrorStop || t.response.stop == Aborted || t.response.calls == [] then []
    else t.batchEvents
  }

  /** A turn's events up to its last message, and with the turn's end. */
  function TurnEvents(first: bool, request: Context, t: TurnScript, r: TurnRecord): seq<Event>
    requires t.response.Assistant?
  {
    (if first then [] else [TurnStart]) + Pairs(r.delivered) + Streamed(request.messages, t.stream, t.response).1 +
    ToolEvents(t) + [TurnEnd(r.response, r.results)]
  }

  lemma {:induction false} Regroup(
    log: seq<Event>, a: seq<Event>, b: seq<Event>, c: seq<Event>, d: seq<Event>, e: seq<Event>)
    ensures log + a + b + c + d + e == log + (a + b + c + d + e)
  {}

  lemma {:induction false} AskedLog(s: LoopState, t: TurnScript)
    requires t.response.Assistant?
    ensures var asked, r := Request(Deliver(Open(s, t), Prepared(s, t)), t), Record(s, t, Stop);
      && asked.log == s.log + (if s.first then [] else [TurnStart]) + Pairs(r.delivered)
      && asked.context == r.request
  {
    assert s.log + [] == s.log;
  }

  lemma {:induction false} AnsweredLog(asked: LoopState, t: TurnScript)
    requires t.response.Assistant?
    ensures RunTools(Respond(asked, t), t).log ==
            asked.log + Streamed(asked.context.messages, t.stream, t.response).1 + ToolEvents(t)
  {
    var log := asked.log + Streamed(asked.context.messages, t.stream, t.response).1;
    assert log + [] == log;
  }

  lemma {:induction false} BodyEvents(s: LoopState, t: TurnScript)
    requires t.response.Assistant?
    ensures var r := Record(s, t, Stop);
      Closed(s, t).log == s.log + TurnEvents(s.first, r.request, t, r)
  {
    var r := Record(s, t, Stop);
    AskedLog(s, t);
    AnsweredLog(Request(Deliver(Open(s, t), Prepared(s, t)), t), t);
    Regroup(s.log, if s.first then [] else [TurnStart], Pairs(r.delivered),
            Streamed(r.request.messages, t.stream, t.response).1, ToolEvents(t), [TurnEnd(r.response, r.results)]);
  }

  lemma {:induction false} ChoiceEmits(s: LoopState, t: TurnScript)
    requires t.response.Assistant? && !s.ended
    ensures var s' := Choose(s, t).0;
      s'.log == s.log + if s'.ended then [AgentEnd(s.newMessages)] else []
  {
    var after, stopping := AfterTurn(s, t), AtStop(AfterTurn(s, t), t);
    assert after.log == s.log && stopping.log == s.log && after.newMessages == s.newMessages == stopping.newMessages;
    assert !after.ended && !stopping.ended;
    assert s.log + [] == s.log;
  }

  /** A turn emits its start, its deliveries, its response, its tool calls and its end; then perhaps the run's end. */
  lemma {:induction false} TurnEmits(s: LoopState, t: TurnScript)
    requires t.response.Assistant? && !s.ended
    ensures var s' := OneTurn(s, t);
      && |s'.turns| == |s.turns| + 1
      && var r := s'.turns[|s.turns|];
         && s'.newMessages == s.newMessages + (r.delivered + [r.response] + r.results)
         && s'.log == s.log + TurnEvents(s.first, r.request, t, r) +
                      if s'.ended then [AgentEnd(s'.newMessages)] else []
  {
    BodyEvents(s, t);
    Recorded(s, t);
    Unended(s, t);
    BodyMessages(s, t);
    ChoiceKeepsContext(Closed(s, t), t);
    ChoiceEmits(Closed(s, t), t);
  }

  // ---------------------------------------------------------------- what a turn draws

  /** What a poll takes from a queue in its mode. */
  function Taken(mode: Mode, messages: seq<Message>): (r: seq<Message>)
    ensures |r| <= |messages|
  {
    if mode == All || messages == [] then messages else [messages[0]]
  }

  function Rest(mode: Mode, messages: seq<Message>): seq<Message> {
    messages[|Taken(mode, messages)|..]
  }

  lemma {:induction false} PeekTakes(q: Queue)
    ensures Peek(q) == Taken(q.mode, q.messages)
    ensures Drained(q) == Queue(q.mode, Rest(q.mode, q.messages))
  {}

  /** The queues, without their history. */
  ghost predicate Queued(inbox: Inbox, steering: seq<Message>, followUp: seq<Message>) {
    inbox.steering.messages == steering && inbox.followUp.messages == followUp
  }

  /** A turn draws nothing to begin with if messages are already pending, or it is the first. */
  predicate Looks(s: LoopState) {
    !s.first && s.pending == []
  }

  lemma {:induction false} OpeningDraws(s: LoopState, t: TurnScript)
    requires t.response.Assistant? && !s.ended
    ensures var r, mail := Record(s, t, Stop), s.inbox.steering.messages + t.beforeTurn.steer;
      && r.pending == (if Looks(s) then Taken(t.beforeTurn.steeringMode, mail) else s.pending)
      && r.source == (if Looks(s) then Steering else s.source)
      && if s.first then Closed(s, t).inbox == s.inbox
         else Queued(Closed(s, t).inbox, if Looks(s) then Rest(t.beforeTurn.steeringMode, mail) else mail,
                     s.inbox.followUp.messages + t.beforeTurn.follow)
  {
    ClosedQueues(s, t);
    if !s.first {
      PeekTakes(Arrive(s.inbox, t.beforeTurn).steering);
    }
  }

  /** What a turn that ended normally leaves pending, and the queues it leaves. */
  ghost predicate Draws(steering: seq<Message>, followUp: seq<Message>, t: TurnScript, s': LoopState)
    requires t.response.Assistant?
  {
    var mail, later := steering + t.afterTurn.steer, followUp + t.afterTurn.follow;
    var drawn := Taken(t.afterTurn.steeringMode, mail);
    if drawn != [] || (t.response.calls != [] && !t.terminate) then
      && !s'.ended && s'.pending == drawn && s'.source == Steering
      && Queued(s'.inbox, Rest(t.afterTurn.steeringMode, mail), later)
    else
      var last := later + t.atStop.follow;
      var followed := Taken(t.atStop.followUpMode, last);
      && s'.pending == followed && Queued(s'.inbox, t.atStop.steer, Rest(t.atStop.followUpMode, last))
      && (followed != [] ==> s'.source == FollowUp)
      && (s'.ended <==> followed == [] && t.decision != Continue)
  }

  lemma {:induction false} AfterTurnDraws(s: LoopState, t: TurnScript)
    requires t.response.Assistant?
    ensures var after, mail := AfterTurn(s, t), s.inbox.steering.messages + t.afterTurn.steer;
      && after.pending == Taken(t.afterTurn.steeringMode, mail) && after.source == Steering && after.ended == s.ended
      && Queued(after.inbox, Rest(t.afterTurn.steeringMode, mail), s.inbox.followUp.messages + t.afterTurn.follow)
  {
    PeekTakes(Arrive(s.inbox, t.afterTurn).steering);
  }

  lemma {:induction false} AtStopDraws(s: LoopState, t: TurnScript)
    requires t.response.Assistant? && s.inbox.steering.messages == []
    ensures var stopping, mail := AtStop(s, t), s.inbox.followUp.messages + t.atStop.follow;
      && stopping.pending == Taken(t.atStop.followUpMode, mail) && stopping.source == FollowUp
      && stopping.ended == s.ended && Queued(stopping.inbox, t.atStop.steer, Rest(t.atStop.followUpMode, mail))
  {
    PeekTakes(Arrive(s.inbox, t.atStop).followUp);
    assert [] + t.atStop.steer == t.atStop.steer;
  }

  predicate Halts(t: TurnScript)
    requires t.response.Assistant?
  {
    t.response.stop == ErrorStop || t.response.stop == Aborted || t.decision == End
  }

  /** Which of the states in question a turn that did not halt goes on with. */
  lemma {:induction false} ChoiceIs(s: LoopState, t: TurnScript, after: LoopState, stopping: LoopState)
    requires t.response.Assistant? && !Halts(t) && after == AfterTurn(s, t) && stopping == AtStop(after, t)
    ensures Choose(s, t).0 ==
            if after.pending != [] || Unterminated(t) then after
            else if stopping.pending != [] || t.decision == Continue then stopping
            else EndRun(stopping)
  {}

  lemma {:induction false} SettledDraws(
    steering: seq<Message>, followUp: seq<Message>, t: TurnScript, after: LoopState, stopping: LoopState, s': LoopState)
    requires t.response.Assistant? && !after.ended && !stopping.ended
    requires after.pending == Taken(t.afterTurn.steeringMode, steering + t.afterTurn.steer) && after.source == Steering
    requires Queued(after.inbox, Rest(t.afterTurn.steeringMode, steering + t.afterTurn.steer),
                    followUp + t.afterTurn.follow)
    requires after.pending == [] ==>
               var mail := followUp + t.afterTurn.follow + t.atStop.follow;
               && stopping.pending == Taken(t.atStop.followUpMode, mail) && stopping.source == FollowUp
               && Queued(stopping.inbox, t.atStop.steer, Rest(t.atStop.followUpMode, mail))
    requires s' == if after.pending != [] || Unterminated(t) then after
                   else if stopping.pending != [] || t.decision == Continue then stopping
                   else EndRun(stopping)
    ensures Draws(steering, followUp, t, s')
  {}

  lemma {:induction false} ChoiceDraws(s: LoopState, t: TurnScript)
    requires t.response.Assistant? && !s.ended && s.pending == []
    ensures var s' := Choose(s, t).0;
      if Halts(t) then s'.ended && s'.pending == [] && s'.inbox == s.inbox
      else Draws(s.inbox.steering.messages, s.inbox.followUp.messages, t, s')
  {
    if !Halts(t) {
      var after := AfterTurn(s, t);
      var stopping := AtStop(after, t);
      AfterTurnDraws(s, t);
      if after.pending == [] {
        AtStopDraws(after, t);
      }
      ChoiceIs(s, t, after, stopping);
      SettledDraws(s.inbox.steering.messages, s.inbox.followUp.messages, t, after, stopping, Choose(s, t).0);
    }
  }

  /**
   The polls of a turn.  Before it, messages that arrived meanwhile are drawn only if none are pending;
   after it, steering messages; and only when the agent would stop, follow-ups.  A turn that failed or
   was told to end polls nothing.
   */
  lemma {:induction false} TurnDraws(s: LoopState, t: TurnScript)
    requires t.response.Assistant? && !s.ended
    ensures var s', mail := OneTurn(s, t), s.inbox.steering.messages + t.beforeTurn.steer;
      && |s'.turns| == |s.turns| + 1
      && var r := s'.turns[|s.turns|];
         && r.pending == (if Looks(s) then Taken(t.beforeTurn.steeringMode, mail) else s.pending)
         && r.source == (if Looks(s) then Steering else s.source)
    ensures var s', mail := OneTurn(s, t), s.inbox.steering.messages + t.beforeTurn.steer;
      var steering := if s.first then s.inbox.steering.messages
                      else if Looks(s) then Rest(t.beforeTurn.steeringMode, mail) else mail;
      var followUp := s.inbox.followUp.messages + if s.first then [] else t.beforeTurn.follow;
      if Halts(t) then s'.ended && s'.pending == [] && Queued(s'.inbox, steering, followUp)
      else Draws(steering, followUp, t, s')
  {
    OpeningDraws(s, t);
    Recorded(s, t);
    Unended(s, t);
    ChoiceDraws(Closed(s, t), t);
    assert s.inbox.followUp.messages + [] == s.inbox.followUp.messages;
  }

  /** A prompted run delivers its prompts at once and, unless they came from the queue, draws steering messages. */
  lemma {:induction false} PromptsDraw(
    context: Context, prompts: seq<Message>, inbox: Inbox, skipPoll: bool, a: Arrivals)
    ensures var s, mail := StartPrompts(context, prompts, inbox, skipPoll, a), inbox.steering.messages + a.steer;
      var delivered := Declare(context.messages, context.tools, prompts);
      && s.context == Context(context.messages + delivered, context.tools) && s.newMessages == delivered
      && s.log == [AgentStart, TurnStart] + Pairs(delivered) && s.first && s.turns == [] && !s.ended
      && s.source == Steering
      && s.pending == (if skipPoll then [] else Taken(a.steeringMode, mail))
      && Queued(s.inbox, if skipPoll then mail else Rest(a.steeringMode, mail), inbox.followUp.messages + a.follow)
  {
    PeekTakes(Arrive(inbox, a).steering);
  }

  /** A continued run delivers nothing; it needs a last message that is not the model's. */
  lemma {:induction false} ContinuingDraws(context: Context, inbox: Inbox, a: Arrivals)
    ensures var r, mail, n := StartContinue(context, inbox, a), inbox.steering.messages + a.steer, |context.messages|;
      if n == 0 then r == Failure(NoMessages)
      else if context.messages[n - 1].Assistant? then r == Failure(AfterAssistant)
      else
        && r.Success? && r.value.context == context && r.value.newMessages == []
        && r.value.log == [AgentStart, TurnStart] && r.value.first && r.value.turns == [] && !r.value.ended
        && r.value.source == Steering && r.value.pending == Taken(a.steeringMode, mail)
        && Queued(r.value.inbox, Rest(a.steeringMode, mail), inbox.followUp.messages + a.follow)
  {
    PeekTakes(Arrive(inbox, a).steering);
  }
}
