/** What every run of the agent loop keeps. */
module AgentLoopProofs {
  import opened Wrappers
  import opened Transcript
  import opened ToolDeclarations
  import opened ToolBatch
  import opened AgentStream
  import opened AgentLoop

  // ---------------------------------------------------------------- the event log

  /** A log that stands at `place` and has completed `messages`. */
  ghost predicate Tells(log: seq<Event>, place: Place, messages: seq<Message>) {
    Walk(Fresh, log) == place && Ends(log) == messages
  }

  /** A piece of a turn between two of its messages or calls. */
  ghost predicate Piece(events: seq<Event>, messages: seq<Message>) {
    Walk(QUIET, events) == QUIET && Ends(events) == messages
  }

  lemma {:induction false} AddPiece(log: seq<Event>, messages: seq<Message>, events: seq<Event>, more: seq<Message>)
    requires Tells(log, QUIET, messages) && Piece(events, more)
    ensures Tells(log + events, QUIET, messages + more)
  {
    WalkConcat(Fresh, log, events);
    EndsConcat(log, events);
  }

  /** A lifecycle event that completes no message. */
  lemma {:induction false} AddEvent(log: seq<Event>, place: Place, messages: seq<Message>, e: Event)
    requires Tells(log, place, messages) && !e.MessageEnd?
    ensures Tells(log + [e], Next(place, e), messages)
  {
    assert (log + [e])[..|log|] == log;
    assert Ends(log) + [] == Ends(log);
  }

  lemma {:induction false} PairsPiece(messages: seq<Message>)
    ensures Piece(Pairs(messages), messages)
    decreases |messages|
  {
    if |messages| == 0 {
    } else {
      var init, last := messages[..|messages| - 1], messages[|messages| - 1];
      PairsPiece(init);
      WholeMessage(last);
      WalkConcat(QUIET, Pairs(init), [MessageStart(last), MessageEnd(last)]);
      EndsConcat(Pairs(init), [MessageStart(last), MessageEnd(last)]);
      assert messages == init + [last];
    }
  }

  /** Where the log stands before a turn, or after the run. */
  function PlaceOf(s: LoopState): Place {
    if s.ended then Over else if s.first then QUIET else Between
  }

  ghost predicate LogOk(s: LoopState) {
    && Tells(s.log, PlaceOf(s), s.newMessages)
    && (s.ended ==> |s.log| > 0 && s.log[|s.log| - 1] == AgentEnd(s.newMessages))
  }

  lemma {:induction false} OpenLog(s: LoopState, t: TurnScript)
    requires LogOk(s) && !s.ended
    ensures Tells(Open(s, t).log, QUIET, s.newMessages) && Open(s, t).newMessages == s.newMessages
  {
    if !s.first {
      AddEvent(s.log, Between, s.newMessages, TurnStart);
    }
  }

  lemma {:induction false} BodyLog(s: LoopState, t: TurnScript)
    requires LogOk(s) && !s.ended && Fair(t)
    ensures Tells(Body(s, t).log, QUIET, Body(s, t).newMessages)
  {
    OpenLog(s, t);
    var begun := Open(s, t);
    var messages := ToDeliver(begun, Prepared(s, t));
    PairsPiece(messages);
    AddPiece(begun.log, begun.newMessages, Pairs(messages), messages);
    var asked := Request(Deliver(begun, Prepared(s, t)), t);
    StreamingIsCleanIffOneStart(asked.context.messages, t.stream, t.response);
    AddPiece(asked.log, asked.newMessages, Streamed(asked.context.messages, t.stream, t.response).1, [t.response]);
    var answered := Respond(asked, t);
    if !Failed(t.response) && HasCalls(t.response) {
      AddPiece(answered.log, answered.newMessages, t.batchEvents, t.batchMessages);
    }
  }

  lemma {:induction false} EndRunLog(s: LoopState)
    requires Tells(s.log, Between, s.newMessages)
    ensures LogOk(EndRun(s))
  {
    AddEvent(s.log, Between, s.newMessages, AgentEnd(s.newMessages));
  }

  lemma {:induction false} ChooseLog(s: LoopState, t: TurnScript)
    requires t.response.Assistant? && Tells(s.log, Between, s.newMessages) && !s.first && !s.ended
    ensures LogOk(Choose(s, t).0)
  {
    var after, stopping := AfterTurn(s, t), AtStop(AfterTurn(s, t), t);
    assert after.log == s.log && after.newMessages == s.newMessages;
    assert stopping.log == s.log && stopping.newMessages == s.newMessages;
    EndRunLog(s);
    EndRunLog(stopping);
  }

  lemma {:induction false} Unended(s: LoopState, t: TurnScript)
    requires t.response.Assistant? && !s.ended
    ensures !Body(s, t).ended
  {
    var begun := Open(s, t);
    assert !begun.ended;
    assert !Respond(Request(Deliver(begun, Prepared(s, t)), t), t).ended;
  }

  lemma {:induction false} EndTurn(log: seq<Event>, messages: seq<Message>, e: Event)
    requires Tells(log, QUIET, messages) && e.TurnEnd?
    ensures Tells(log + [e], Between, messages)
  {
    AddEvent(log, QUIET, messages, e);
  }

  lemma {:induction false} ClosedLog(s: LoopState, t: TurnScript)
    requires LogOk(s) && !s.ended && Fair(t)
    ensures var closed := Closed(s, t);
      Tells(closed.log, Between, closed.newMessages) && !closed.first && !closed.ended
  {
    BodyLog(s, t);
    Unended(s, t);
    var body := Body(s, t);
    EndTurn(body.log, body.newMessages, TurnEnd(t.response, Results(t)));
  }

  lemma {:induction false} TurnLog(s: LoopState, t: TurnScript)
    requires LogOk(s) && !s.ended && Fair(t)
    ensures LogOk(OneTurn(s, t))
  {
    ClosedLog(s, t);
    ChooseLog(Closed(s, t), t);
    Recorded(s, t);
  }

  /** Recording a turn changes nothing else. */
  lemma {:induction false} Recorded(s: LoopState, t: TurnScript)
    requires t.response.Assistant?
    ensures var chosen, s' := Choose(Closed(s, t), t).0, OneTurn(s, t);
      && s'.log == chosen.log && s'.newMessages == chosen.newMessages && s'.ended == chosen.ended
      && s'.first == chosen.first && s'.context == chosen.context && s'.inbox == chosen.inbox
      && s'.pending == chosen.pending && s'.source == chosen.source
  {}

  lemma {:induction false} RunLog(s: LoopState, script: seq<TurnScript>)
    requires LogOk(s) && AllFair(script)
    ensures LogOk(Run(s, script))
    decreases |script|
  {
    if !s.ended && |script| > 0 {
      TurnLog(s, script[0]);
      RunLog(OneTurn(s, script[0]), script[1..]);
    }
  }

  lemma {:induction false} OpeningTells()
    ensures Tells([AgentStart, TurnStart], QUIET, [])
  {
    AddEvent([], Fresh, [], AgentStart);
    AddEvent([AgentStart], Between, [], TurnStart);
    assert [] + [AgentStart] == [AgentStart] && [AgentStart] + [TurnStart] == [AgentStart, TurnStart];
  }

  lemma {:induction false} StartPromptsLog(
    context: Context, prompts: seq<Message>, inbox: Inbox, skipPoll: bool, a: Arrivals)
    ensures LogOk(StartPrompts(context, prompts, inbox, skipPoll, a))
  {
    var initial := Declare(context.messages, context.tools, prompts);
    OpeningTells();
    PairsPiece(initial);
    AddPiece([AgentStart, TurnStart], [], Pairs(initial), initial);
    assert [] + initial == initial;
  }

  lemma {:induction false} StartContinueLog(context: Context, inbox: Inbox, a: Arrivals)
    requires StartContinue(context, inbox, a).Success?
    ensures LogOk(StartContinue(context, inbox, a).value)
  {
    OpeningTells();
  }

  /**
   Every run that completes is one well-formed log: it walks the event grammar to its end, its
   completed messages are the returned messages, its last event carries them, and the reducer has
   no tool call left pending.
   */
  lemma {:induction false} CompletedRunIsWellFormed(start: LoopState, script: seq<TurnScript>, agent: AgentState)
    requires LogOk(start) && AllFair(script) && Run(start, script).ended && agent.pendingToolCalls == {}
    ensures var s := Run(start, script);
      && Walk(Fresh, s.log) == Over && Ends(s.log) == s.newMessages
      && s.log[|s.log| - 1] == AgentEnd(s.newMessages)
      && ReduceAll(agent, s.log).pendingToolCalls == {}
  {
    RunLog(start, script);
    PendingAreRunning(agent, Fresh, Run(start, script).log);
  }

  // ---------------------------------------------------------------- what the grammar means

  function Turns(log: seq<Event>, start: bool): nat
    decreases |log|
  {
    if |log| == 0 then 0 else
    var last := log[|log| - 1];
    Turns(log[..|log| - 1], start) + if (start && last.TurnStart?) || (!start && last.TurnEnd?) then 1 else 0
  }

  lemma {:induction false} WellFormedBefore(log: seq<Event>)
    requires |log| > 0 && !Walk(Fresh, log).Bad?
    ensures !Walk(Fresh, log[..|log| - 1]).Bad?
    ensures Walk(Fresh, log) == Next(Walk(Fresh, log[..|log| - 1]), log[|log| - 1])
  {
    var p, last := Walk(Fresh, log[..|log| - 1]), log[|log| - 1];
    assert p.Bad? ==> Next(p, last).Bad?;
  }

  /** In any well-formed log turns open and close in strict alternation. */
  lemma {:induction false} TurnsAlternate(log: seq<Event>)
    requires !Walk(Fresh, log).Bad?
    ensures Turns(log, true) == Turns(log, false) + if Walk(Fresh, log).InTurn? then 1 else 0
    decreases |log|
  {
    if |log| == 0 {
    } else {
      WellFormedBefore(log);
      TurnsAlternate(log[..|log| - 1]);
    }
  }

  lemma {:induction false} FreshIsEmpty(log: seq<Event>)
    requires !Walk(Fresh, log).Bad?
    ensures Walk(Fresh, log).Fresh? <==> log == []
  {}

  /** It starts with its only `agent_start`. */
  lemma {:induction false} StartsOnce(log: seq<Event>, k: nat)
    requires !Walk(Fresh, log).Bad? && k < |log|
    ensures log[k].AgentStart? <==> k == 0
    decreases |log|
  {
    var init := log[..|log| - 1];
    WellFormedBefore(log);
    if k < |init| {
      StartsOnce(init, k);
    } else {
      FreshIsEmpty(init);
    }
  }

  /** An `agent_end` can only be its last event, which then ends the run. */
  lemma {:induction false} EndsLast(log: seq<Event>, k: nat)
    requires !Walk(Fresh, log).Bad? && k < |log|
    ensures log[k].AgentEnd? <==> k == |log| - 1 && Walk(Fresh, log).Over?
    decreases |log|
  {
    var init := log[..|log| - 1];
    WellFormedBefore(log);
    if k < |init| {
      EndsLast(init, k);
    }
  }

  lemma {:induction false} PrefixIsWellFormed(log: seq<Event>, k: nat)
    requires k <= |log| && !Walk(Fresh, log).Bad?
    ensures !Walk(Fresh, log[..k]).Bad?
    decreases |log|
  {
    if k < |log| {
      WellFormedBefore(log);
      PrefixIsWellFormed(log[..|log| - 1], k);
      assert log[..|log| - 1][..k] == log[..k];
    } else {
      assert log[..k] == log;
    }
  }

  /** Whenever a turn ends, the agent's reducer has no tool call pending. */
  lemma {:induction false} NothingPendingAtTurnEnd(s: AgentState, log: seq<Event>, k: nat)
    requires !Walk(Fresh, log).Bad? && k < |log| && log[k].TurnEnd?
    requires s.pendingToolCalls == {}
    ensures ReduceAll(s, log[..k]).pendingToolCalls == {}
  {
    PrefixIsWellFormed(log, k + 1);
    var before := log[..k];
    assert log[..k + 1][..k] == before && log[..k + 1][k] == log[k];
    assert Next(Walk(Fresh, before), log[k]) == Walk(Fresh, log[..k + 1]);
    assert Walk(Fresh, before) == QUIET;
    PendingAreRunning(s, Fresh, before);
    assert Tools(QUIET) == {};
  }

  // ---------------------------------------------------------------- the context

  /** No hook replaces the context. */
  predicate Keeps(t: TurnScript) {
    t.replacement.None? && t.request.None?
  }

  ghost predicate AllKeep(script: seq<TurnScript>) {
    forall k | 0 <= k < |script| :: Keeps(script[k])
  }

  ghost predicate Linked(s: LoopState, origin: Context) {
    s.context == Context(origin.messages + s.newMessages, origin.tools)
  }

  lemma {:induction false} Attach(a: seq<Message>, b: seq<Message>, c: seq<Message>)
    ensures a + b + c == a + (b + c)
  {}

  lemma {:induction false} BodyLinked(s: LoopState, t: TurnScript, origin: Context)
    requires Fair(t) && Keeps(t) && Linked(s, origin)
    ensures Linked(Body(s, t), origin)
  {
    var begun := Open(s, t);
    assert Linked(begun, origin);
    Attach(origin.messages, begun.newMessages, ToDeliver(begun, Prepared(s, t)));
    var asked := Request(Deliver(begun, Prepared(s, t)), t);
    assert Linked(asked, origin);
    StreamingIsCleanIffOneStart(asked.context.messages, t.stream, t.response);
    Attach(origin.messages, asked.newMessages, [t.response]);
    var answered := Respond(asked, t);
    assert Linked(answered, origin);
    Attach(origin.messages, answered.newMessages, t.batchMessages);
  }

  lemma {:induction false} TurnLinked(s: LoopState, t: TurnScript, origin: Context)
    requires Fair(t) && Keeps(t) && Linked(s, origin)
    ensures Linked(OneTurn(s, t), origin)
  {
    BodyLinked(s, t, origin);
    ChoiceKeepsContext(Closed(s, t), t);
    Recorded(s, t);
  }

  lemma {:induction false} ChoiceKeepsContext(s: LoopState, t: TurnScript)
    requires t.response.Assistant?
    ensures Choose(s, t).0.context == s.context && Choose(s, t).0.newMessages == s.newMessages
  {
    var after, stopping := AfterTurn(s, t), AtStop(AfterTurn(s, t), t);
    assert after.context == s.context && after.newMessages == s.newMessages;
    assert stopping.context == s.context && stopping.newMessages == s.newMessages;
    var chosen := Choose(s, t).0;
    assert chosen == EndRun(s) || chosen == after || chosen == stopping || chosen == EndRun(stopping);
  }

  lemma {:induction false} RunLinked(s: LoopState, script: seq<TurnScript>, origin: Context)
    requires AllFair(script) && AllKeep(script) && Linked(s, origin)
    ensures Linked(Run(s, script), origin)
    decreases |script|
  {
    if !s.ended && |script| > 0 {
      TurnLinked(s, script[0], origin);
      RunLinked(OneTurn(s, script[0]), script[1..], origin);
    }
  }

  /**
   With no context replacement the loop's context is the starting messages followed by the
   returned ones, and so is the transcript that the agent rebuilds from the events alone.
   */
  lemma {:induction false} ContextIsTranscript(
    start: LoopState, origin: Context, script: seq<TurnScript>, agent: AgentState)
    requires LogOk(start) && Linked(start, origin)
    requires AllFair(script) && AllKeep(script) && agent.messages == origin.messages
    ensures var s := Run(start, script);
      && s.context.messages == origin.messages + s.newMessages
      && ReduceAll(agent, s.log).messages == s.context.messages
  {
    RunLinked(start, script, origin);
    RunLog(start, script);
    ReducedTranscript(agent, Run(start, script).log);
  }

  // ---------------------------------------------------------------- tools at every request

  /** What a turn's request and deliveries promise. */
  ghost predicate RecordOk(r: TurnRecord) {
    && (!r.replaced && Consistent(r.request.tools) ==> Replay(r.request.messages) == Executable(r.request.tools))
    && Conversation(r.delivered) == Conversation(r.prepared) + Conversation(r.pending)
  }

  ghost predicate RecordsOk(turns: seq<TurnRecord>) {
    forall k | 0 <= k < |turns| :: RecordOk(turns[k])
  }

  lemma {:induction false} RecordIsOk(s: LoopState, t: TurnScript, reason: Reason)
    requires t.response.Assistant?
    ensures RecordOk(Record(s, t, reason))
  {
    var begun := Open(s, t);
    var pending := Prepared(s, t) + begun.pending;
    DeclareKeepsConversation(begun.context.messages, begun.context.tools, pending);
    ConversationConcat(Prepared(s, t), begun.pending);
    if Consistent(begun.context.tools) {
      DeclaredToolsAreExecutable(begun.context.messages, begun.context.tools, pending);
    }
  }

  /**
   At every request whose context `prepareRequest` left alone, replaying the transcript's system
   messages yields exactly the executable tools; and what a turn delivers is what was prepared
   and pending, apart from system messages.
   */
  lemma {:induction false} EveryRequestDeclaresItsTools(s: LoopState, script: seq<TurnScript>)
    requires AllFair(script) && RecordsOk(s.turns)
    ensures RecordsOk(Run(s, script).turns)
    decreases |script|
  {
    if !s.ended && |script| > 0 {
      var t := script[0];
      var reason := Choose(Closed(s, t), t).1;
      RecordIsOk(s, t, reason);
      assert OneTurn(s, t).turns == s.turns + [Record(s, t, reason)];
      EveryRequestDeclaresItsTools(OneTurn(s, t), script[1..]);
    }
  }
}
