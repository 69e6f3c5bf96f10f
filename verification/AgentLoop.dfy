/**
 The agent loop.  A run alternates turns, each of which delivers messages, asks the model for a
 response and executes its tool calls, with decisions whether another turn follows.  The model,
 the tools, the hooks and whoever queues messages are oracles, scripted turn by turn.
 */
module AgentLoop {
  import opened Wrappers
  import opened Transcript
  import opened ToolDeclarations
  import opened ToolBatch
  import opened AgentStream

  // ---------------------------------------------------------------- message queues

  datatype Mode = All | OneAtATime
  datatype Queue = Queue(mode: Mode, messages: seq<Message>)

  /** The messages that the next drain takes. */
  function Peek(q: Queue): (r: seq<Message>)
    ensures r <= q.messages && (r == [] <==> q.messages == [])
    ensures q.mode.OneAtATime? ==> |r| <= 1
    ensures q.mode.All? ==> |r| == |q.messages|
  {
    if q.mode.All? || |q.messages| == 0 then q.messages else [q.messages[0]]
  }

  function Drained(q: Queue): Queue {
    q.(messages := q.messages[|Peek(q)|..])
  }

  /** Both queues of an agent, with everything ever put into them. */
  datatype Inbox = Inbox(steering: Queue, followUp: Queue, steered: seq<Message>, followed: seq<Message>)

  /** What happens to the queues between two polls. */
  datatype Arrivals = Arrivals(steer: seq<Message>, follow: seq<Message>, steeringMode: Mode, followUpMode: Mode)

  function Arrive(inbox: Inbox, a: Arrivals): Inbox {
    Inbox(Queue(a.steeringMode, inbox.steering.messages + a.steer),
          Queue(a.followUpMode, inbox.followUp.messages + a.follow),
          inbox.steered + a.steer, inbox.followed + a.follow)
  }

  // ---------------------------------------------------------------- state and oracles

  datatype Context = Context(messages: seq<Message>, tools: seq<Tool>)
  datatype Decision = Normal | End | Continue
  datatype Source = Steering | FollowUp

  /** Everything the environment contributes to one turn. */
  datatype TurnScript = TurnScript(
    replacement: Option<Context>, prepared: seq<Message>, beforeTurn: Arrivals,
    request: Option<Context>,
    stream: seq<StreamEvent>, response: Message,
    batchEvents: seq<Event>, batchMessages: seq<Message>, terminate: bool,
    decision: Decision, afterTurn: Arrivals, atStop: Arrivals)

  /** Why a turn was followed by another, or that it was not. */
  datatype Reason = Stop | ToolCalls | Steered | FollowedUp | Continued

  /** What happened in a completed turn. */
  datatype TurnRecord = TurnRecord(
    prepared: seq<Message>, pending: seq<Message>, source: Source, delivered: seq<Message>,
    request: Context, replaced: bool, response: Message, results: seq<Message>, unterminated: bool, decision: Decision,
    reason: Reason)

  /** `first` says that no turn is complete, so that `turn_start` has been emitted already. */
  datatype LoopState = LoopState(
    context: Context, newMessages: seq<Message>, log: seq<Event>, pending: seq<Message>, source: Source,
    first: bool, inbox: Inbox, ended: bool, turns: seq<TurnRecord>)

  predicate Failed(response: Message)
    requires response.Assistant?
  {
    response.stop.ErrorStop? || response.stop.Aborted?
  }

  predicate HasCalls(response: Message)
    requires response.Assistant?
  {
    |response.calls| > 0
  }

  /** The oracles keep their contracts: one stream start, a well-formed batch. */
  ghost predicate Fair(t: TurnScript) {
    && t.response.Assistant? && StartCount(Read(t.stream)) <= 1
    && BatchOk(t.response.calls, t.batchEvents, t.batchMessages)
    && (t.response.stop.Length? ==> !t.terminate)
  }

  // ---------------------------------------------------------------- one turn

  function Pairs(messages: seq<Message>): seq<Event>
    decreases |messages|
  {
    if |messages| == 0 then [] else
    var last := messages[|messages| - 1];
    Pairs(messages[..|messages| - 1]) + [MessageStart(last), MessageEnd(last)]
  }

  function PollSteering(s: LoopState): LoopState {
    s.(pending := Peek(s.inbox.steering), source := Steering, inbox := s.inbox.(steering := Drained(s.inbox.steering)))
  }

  /** Preparation for every turn but the first, with a second look at the steering queue. */
  function Open(s: LoopState, t: TurnScript): LoopState {
    if s.first then s else
    var replaced := s.(context := if t.replacement.Some? then t.replacement.value else s.context,
                       inbox := Arrive(s.inbox, t.beforeTurn));
    var polled := if s.pending == [] then PollSteering(replaced) else replaced;
    polled.(log := s.log + [TurnStart])
  }

  function Prepared(s: LoopState, t: TurnScript): seq<Message> {
    if s.first then [] else t.prepared
  }

  /** The messages of a turn: prepared, then pending, with the tool changes declared. */
  function ToDeliver(s: LoopState, prepared: seq<Message>): seq<Message> {
    Declare(s.context.messages, s.context.tools, prepared + s.pending)
  }

  function Append(s: LoopState, messages: seq<Message>, events: seq<Event>): LoopState {
    s.(context := s.context.(messages := s.context.messages + messages), newMessages := s.newMessages + messages,
       log := s.log + events)
  }

  function Deliver(s: LoopState, prepared: seq<Message>): LoopState {
    Append(s, ToDeliver(s, prepared), Pairs(ToDeliver(s, prepared)))
  }

  function Request(s: LoopState, t: TurnScript): LoopState {
    s.(context := if t.request.Some? then t.request.value else s.context)
  }

  function Respond(s: LoopState, t: TurnScript): LoopState {
    var (messages, events) := Streamed(s.context.messages, t.stream, t.response);
    s.(context := s.context.(messages := messages), newMessages := s.newMessages + [t.response], log := s.log + events)
  }

  function RunTools(s: LoopState, t: TurnScript): LoopState
    requires t.response.Assistant?
  {
    if Failed(t.response) || !HasCalls(t.response) then s else Append(s, t.batchMessages, t.batchEvents)
  }

  function Results(t: TurnScript): seq<Message>
    requires t.response.Assistant?
  {
    if Failed(t.response) || !HasCalls(t.response) then [] else t.batchMessages
  }

  /** Tool calls whose results the model has yet to see. */
  predicate Unterminated(t: TurnScript)
    requires t.response.Assistant?
  {
    HasCalls(t.response) && !t.terminate
  }

  /** The turn up to its last message. */
  function Body(s: LoopState, t: TurnScript): LoopState
    requires t.response.Assistant?
  {
    RunTools(Respond(Request(Deliver(Open(s, t), Prepared(s, t)), t), t), t)
  }

  /** Ends the turn in the log. */
  function CloseTurn(s: LoopState, t: TurnScript): LoopState
    requires t.response.Assistant?
  {
    s.(log := s.log + [TurnEnd(t.response, Results(t))], pending := [], first := false)
  }

  function EndRun(s: LoopState): LoopState {
    s.(log := s.log + [AgentEnd(s.newMessages)], ended := true)
  }

  /** After a normal turn: look for steering messages. */
  function AfterTurn(s: LoopState, t: TurnScript): LoopState {
    PollSteering(s.(inbox := Arrive(s.inbox, t.afterTurn)))
  }

  /** When the agent would stop: look for follow-up messages. */
  function AtStop(s: LoopState, t: TurnScript): LoopState {
    var inbox := Arrive(s.inbox, t.atStop);
    s.(pending := Peek(inbox.followUp), source := FollowUp, inbox := inbox.(followUp := Drained(inbox.followUp)))
  }

  /** Chooses why the next turn starts, if one does. */
  function Choose(s: LoopState, t: TurnScript): (LoopState, Reason)
    requires t.response.Assistant?
  {
    if Failed(t.response) || t.decision.End? then (EndRun(s), Stop) else
    var after := AfterTurn(s, t);
    if Unterminated(t) then (after, ToolCalls)
    else if after.pending != [] then (after, Steered)
    else
      var stopping := AtStop(after, t);
      if stopping.pending != [] then (stopping, FollowedUp)
      else if t.decision.Continue? then (stopping, Continued)
      else (EndRun(stopping), Stop)
  }

  function Record(s: LoopState, t: TurnScript, reason: Reason): TurnRecord
    requires t.response.Assistant?
  {
    var begun := Open(s, t);
    var delivered := Deliver(begun, Prepared(s, t));
    TurnRecord(Prepared(s, t), begun.pending, begun.source, ToDeliver(begun, Prepared(s, t)),
               Request(delivered, t).context, t.request.Some?, t.response, Results(t),
               Unterminated(t), t.decision, reason)
  }

  function Closed(s: LoopState, t: TurnScript): LoopState
    requires t.response.Assistant?
  {
    CloseTurn(Body(s, t), t)
  }

  function OneTurn(s: LoopState, t: TurnScript): LoopState
    requires t.response.Assistant?
  {
    var chosen := Choose(Closed(s, t), t);
    chosen.0.(turns := s.turns + [Record(s, t, chosen.1)])
  }

  // ---------------------------------------------------------------- whole runs

  ghost predicate AllFair(script: seq<TurnScript>) {
    forall k | 0 <= k < |script| :: Fair(script[k])
  }

  /** The turns of a run, until it ends or the script does. */
  ghost function Run(s: LoopState, script: seq<TurnScript>): LoopState
    requires AllFair(script)
    decreases |script|
  {
    if s.ended || |script| == 0 then s else Run(OneTurn(s, script[0]), script[1..])
  }

  /** runAgentLoop up to its first turn; `skipPoll` when the prompts came from the steering queue. */
  function StartPrompts(context: Context, prompts: seq<Message>, inbox: Inbox, skipPoll: bool, a: Arrivals): LoopState {
    var initial := Declare(context.messages, context.tools, prompts);
    var s := LoopState(context.(messages := context.messages + initial), initial,
                       [AgentStart, TurnStart] + Pairs(initial), [], Steering, true, Arrive(inbox, a), false, []);
    if skipPoll then s else PollSteering(s)
  }

  datatype ContinueError = NoMessages | AfterAssistant

  /** runAgentLoopContinue up to its first turn. */
  function StartContinue(context: Context, inbox: Inbox, a: Arrivals): Result<LoopState, ContinueError> {
    if |context.messages| == 0 then Failure(NoMessages)
    else if context.messages[|context.messages| - 1].Assistant? then Failure(AfterAssistant)
    else
      var s := LoopState(context, [], [AgentStart, TurnStart], [], Steering, true, Arrive(inbox, a), false, []);
      Success(PollSteering(s))
  }
}
