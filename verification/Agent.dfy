/** The agent object: its queues, the state it rebuilds from events, and continuing a conversation. */
module Agent {
  import opened Wrappers
  import opened Transcript
  import opened ToolDeclarations
  import opened AgentStream
  import opened AgentLoop
  import opened AgentLoopImpl
  import opened AgentLoopProofs
  import opened AgentScheduling

  class PendingMessageQueue {
    var mode: Mode
    var messages: seq<Message>

    ghost function View(): Queue
      reads this
    {
      Queue(mode, messages)
    }

    constructor (mode: Mode)
      ensures View() == Queue(mode, [])
    {
      this.mode, messages := mode, [];
    }

    method Enqueue(message: Message)
      modifies this
      ensures View() == Queue(old(mode), old(messages) + [message])
    {
      messages := messages + [message];
    }

    method Preview() returns (r: seq<Message>)
      ensures r == Peek(View())
    {
      if mode == All {
        r := messages;
      } else if |messages| > 0 {
        r := [messages[0]];
      } else {
        r := [];
      }
    }

    method Drain() returns (drained: seq<Message>)
      modifies this
      ensures drained == old(Peek(View())) && View() == old(Drained(View()))
      ensures old(messages) == drained + messages
    {
      drained := Preview();
      messages := messages[|drained|..];
    }

    method Clear()
      modifies this
      ensures View() == Queue(old(mode), [])
    {
      messages := [];
    }
  }

  datatype ContinueFailure = Busy | NothingToContinue | FromAssistant

  predicate OnlySystem(messages: seq<Message>) {
    forall k | 0 <= k < |messages| :: messages[k].System?
  }

  /** How a conversation is taken up again. */
  datatype Plan = Prompts(messages: seq<Message>, skipPoll: bool) | Resume

  /** The plan of `continue`, and the queues it leaves. */
  function PlanContinue(messages: seq<Message>, inbox: Inbox): Result<(Plan, Inbox), ContinueFailure> {
    if OnlySystem(messages) then Failure(NothingToContinue)
    else if !messages[|messages| - 1].Assistant? then Success((Resume, inbox))
    else if Peek(inbox.steering) != [] then
      Success((Prompts(Peek(inbox.steering), true), inbox.(steering := Drained(inbox.steering))))
    else if Peek(inbox.followUp) != [] then
      Success((Prompts(Peek(inbox.followUp), false), inbox.(followUp := Drained(inbox.followUp))))
    else Failure(FromAssistant)
  }

  function StartPlan(context: Context, plan: Plan, inbox: Inbox, a: Arrivals): (s: LoopState)
    requires plan.Resume? ==> |context.messages| > 0 && !context.messages[|context.messages| - 1].Assistant?
    ensures !s.ended
  {
    match plan
    case Prompts(messages, skipPoll) => StartPrompts(context, messages, inbox, skipPoll, a)
    case Resume => StartContinue(context, inbox, a).value
  }

  class AgentObject {
    var state: AgentState
    var tools: seq<Tool>
    var active: bool
    const steeringQueue: PendingMessageQueue
    const followUpQueue: PendingMessageQueue

    ghost predicate Valid()
      reads this
    {
      steeringQueue != followUpQueue
    }

    constructor (tools: seq<Tool>, messages: seq<Message>, steeringMode: Mode, followUpMode: Mode)
      ensures Valid() && fresh(steeringQueue) && fresh(followUpQueue) && !active
      ensures state == AgentState(messages, None, {}, "") && this.tools == tools
      ensures steeringQueue.View() == Queue(steeringMode, []) && followUpQueue.View() == Queue(followUpMode, [])
    {
      state, this.tools, active := AgentState(messages, None, {}, ""), tools, false;
      steeringQueue := new PendingMessageQueue(steeringMode);
      followUpQueue := new PendingMessageQueue(followUpMode);
    }

    /** The queues as a run that starts now sees them. */
    function Queues(): (inbox: Inbox)
      reads this, steeringQueue, followUpQueue
    {
      Inbox(Queue(steeringQueue.mode, steeringQueue.messages), Queue(followUpQueue.mode, followUpQueue.messages),
            steeringQueue.messages, followUpQueue.messages)
    }

    /** processEvents, before its listeners: the reducer, field by field. */
    method ProcessEvent(e: Event)
      modifies this`state
      ensures state == Reduce(old(state), e)
    {
      match e {
        case MessageStart(message) =>
          state := state.(streaming := Some(message));
        case MessageUpdate(message) =>
          state := state.(streaming := Some(message));
        case MessageEnd(message) =>
          state := state.(streaming := None);
          state := state.(messages := state.messages + [message]);
        case ToolStart(id) =>
          var pending := state.pendingToolCalls + {id};
          state := state.(pendingToolCalls := pending);
        case ToolEnd(id, _) =>
          var pending := state.pendingToolCalls - {id};
          state := state.(pendingToolCalls := pending);
        case TurnEnd(message, _) =>
          if message.Assistant? && |message.errorMessage| > 0 {
            state := state.(errorMessage := message.errorMessage);
          }
        case AgentEnd(_) =>
          state := state.(streaming := None);
        case AgentStart =>
        case TurnStart =>
        case ToolUpdate(_) =>
      }
    }

    method ProcessEvents(log: seq<Event>)
      modifies this`state
      ensures state == ReduceAll(old(state), log)
    {
      var k := 0;
      assert log[..0] == [];
      while k < |log|
        invariant k <= |log| && state == ReduceAll(old(state), log[..k])
      {
        assert log[..k + 1][..k] == log[..k];
        ProcessEvent(log[k]);
        k := k + 1;
      }
      assert log[..k] == log;
    }

    /** runWithLifecycle around a loop that starts in `start`; it stays active if the script is too short. */
    method RunWithLifecycle(start: LoopState, script: seq<TurnScript>) returns (end: LoopState)
      requires Valid() && !active && !start.ended && AllFair(script)
      modifies this`state, this`active, steeringQueue, followUpQueue
      ensures end == Run(start, script) && active == !end.ended
      ensures var reduced := ReduceAll(old(state).(streaming := None, errorMessage := ""), end.log);
        state == if end.ended then reduced.(streaming := None, pendingToolCalls := {}) else reduced
      ensures steeringQueue.View() == end.inbox.steering && followUpQueue.View() == end.inbox.followUp
    {
      active := true;
      state := state.(streaming := None, errorMessage := "");
      end := RunLoop(start, script);
      ProcessEvents(end.log);
      steeringQueue.mode, steeringQueue.messages := end.inbox.steering.mode, end.inbox.steering.messages;
      followUpQueue.mode, followUpQueue.messages := end.inbox.followUp.mode, end.inbox.followUp.messages;
      if end.ended {
        state := state.(streaming := None, pendingToolCalls := {});
        active := false;
      }
    }

    /** `continue`: what it drains becomes the prompts; a refusal leaves the agent as it was. */
    method Continue(script: seq<TurnScript>, a: Arrivals) returns (r: Result<LoopState, ContinueFailure>)
      requires Valid() && AllFair(script)
      modifies this`state, this`active, steeringQueue, followUpQueue
      ensures Valid()
      ensures r.Failure? ==> state == old(state) && active == old(active) && Queues() == old(Queues())
      ensures old(active) ==> r == Failure(Busy)
      ensures !old(active) ==>
        match old(PlanContinue(state.messages, Queues()))
        case Failure(f) => r == Failure(f)
        case Success(p) =>
          && r == Success(Run(StartPlan(old(Context(state.messages, tools)), p.0, Rest(p.1), a), script))
          && steeringQueue.View() == r.value.inbox.steering && followUpQueue.View() == r.value.inbox.followUp
          && state.messages == old(state.messages) + Ends(r.value.log)
    {
      if active {
        return Failure(Busy);
      }
      if OnlySystem(state.messages) {
        return Failure(NothingToContinue);
      }
      var context, plan := Context(state.messages, tools), Resume;
      if state.messages[|state.messages| - 1].Assistant? {
        var queuedSteering := steeringQueue.Drain();
        if |queuedSteering| > 0 {
          plan := Prompts(queuedSteering, true);
        } else {
          var queuedFollowUps := followUpQueue.Drain();
          if |queuedFollowUps| == 0 {
            return Failure(FromAssistant);
          }
          plan := Prompts(queuedFollowUps, false);
        }
      }
      var start := StartPlan(context, plan, Queues(), a);
      ghost var before := state.(streaming := None, errorMessage := "");
      var end := RunWithLifecycle(start, script);
      ReducedTranscript(before, end.log);
      r := Success(end);
    }
  }

  /** The history of the queues starts with the run. */
  function Rest(inbox: Inbox): Inbox {
    inbox.(steered := inbox.steering.messages, followed := inbox.followUp.messages)
  }

  lemma {:induction false} SteeringFirst(messages: seq<Message>, inbox: Inbox)
    requires |messages| > 0 && messages[|messages| - 1].Assistant? && inbox.steering.messages != []
    ensures PlanContinue(messages, inbox) ==
            Success((Prompts(Peek(inbox.steering), true), inbox.(steering := Drained(inbox.steering))))
    ensures Peek(inbox.steering) + Drained(inbox.steering).messages == inbox.steering.messages
  {}

  /**
   Continuing after an assistant message with steering messages queued loses none of them: they are
   the prompts, then what the turns drew, then what is still queued, in the order of arrival; and
   the first turn draws no steering message besides its prompts.
   */
  lemma {:induction false} ContinueConserves(
    context: Context, inbox: Inbox, rest: Inbox, prompts: seq<Message>, a: Arrivals, script: seq<TurnScript>)
    requires AllFair(script) && inbox.steering.messages != []
    requires |context.messages| > 0 && context.messages[|context.messages| - 1].Assistant?
    requires PlanContinue(context.messages, inbox) == Success((Prompts(prompts, true), rest))
    requires Run(StartPrompts(context, prompts, Rest(rest), true, a), script).ended
    ensures var start := StartPrompts(context, prompts, Rest(rest), true, a);
      var s := Run(start, script);
      && prompts + Rest(rest).steered == inbox.steering.messages && start.pending == []
      && s.inbox.steered == Drawn(s.turns, Steering) + s.inbox.steering.messages
      && s.inbox.followed == Drawn(s.turns, FollowUp) + s.inbox.followUp.messages
      && s.newMessages == Declare(context.messages, context.tools, prompts) + Flat(s.turns)
  {
    SteeringFirst(context.messages, inbox);
    PromptedRunsStart(context, prompts, Rest(rest), true, a);
    QueuesAreConserved(StartPrompts(context, prompts, Rest(rest), true, a),
                       Declare(context.messages, context.tools, prompts), script);
  }

  /** One message, or all of them, taken from the front of a queue. */
  predicate TakenFrom(prompts: seq<Message>, before: Queue, after: Queue) {
    && prompts != [] && prompts + after.messages == before.messages && after.mode == before.mode
    && (before.mode == All ==> after.messages == []) && (before.mode == OneAtATime ==> |prompts| == 1)
  }

  /**
   What `continue` does: nothing to continue without a conversation; after a message that is not the
   model's it resumes; otherwise it takes prompts from the steering queue, or from the follow-ups when
   no steering is queued, and leaves the other queue alone; with both empty it refuses.
   */
  lemma {:induction false} ContinueTakes(messages: seq<Message>, inbox: Inbox)
    ensures var r := PlanContinue(messages, inbox);
      var steering, followUps := inbox.steering.messages, inbox.followUp.messages;
      && (r == Failure(NothingToContinue) <==> forall m | m in messages :: m.System?)
      && (r == Failure(FromAssistant) <==>
            && (exists m :: m in messages && !m.System?) && messages[|messages| - 1].Assistant?
            && steering == [] && followUps == [])
      && r != Failure(Busy)
      && (r.Success? ==>
            var (plan, rest) := r.value;
            && messages != []
            && (plan.Resume? <==> !messages[|messages| - 1].Assistant?)
            && (plan.Resume? ==> rest == inbox)
            && (plan.Prompts? ==> (plan.skipPoll <==> steering != []))
            && (plan.Prompts? && plan.skipPoll ==>
                  TakenFrom(plan.messages, inbox.steering, rest.steering) && rest.followUp == inbox.followUp)
            && (plan.Prompts? && !plan.skipPoll ==>
                  TakenFrom(plan.messages, inbox.followUp, rest.followUp) && rest.steering == inbox.steering))
  {
    assert forall k | 0 <= k < |messages| :: messages[k] in messages;
  }

  /** Follow-ups are not delivered twice: prompts, then drawn, then still queued, in order of arrival. */
  lemma {:induction false} ContinueConservesFollowUps(
    context: Context, inbox: Inbox, rest: Inbox, prompts: seq<Message>, a: Arrivals, script: seq<TurnScript>)
    requires AllFair(script) && PlanContinue(context.messages, inbox) == Success((Prompts(prompts, false), rest))
    requires Run(StartPrompts(context, prompts, Rest(rest), false, a), script).ended
    ensures var s := Run(StartPrompts(context, prompts, Rest(rest), false, a), script);
      && prompts + Rest(rest).followed == inbox.followUp.messages
      && s.inbox.followed == Drawn(s.turns, FollowUp) + s.inbox.followUp.messages
      && s.inbox.steered == Drawn(s.turns, Steering) + s.inbox.steering.messages
      && s.newMessages == Declare(context.messages, context.tools, prompts) + Flat(s.turns)
  {
    ContinueTakes(context.messages, inbox);
    PromptedRunsStart(context, prompts, Rest(rest), false, a);
    QueuesAreConserved(StartPrompts(context, prompts, Rest(rest), false, a),
                       Declare(context.messages, context.tools, prompts), script);
  }

  /** Whatever `continue` plans, the run starts as the theorems about runs ask. */
  lemma {:induction false} PlansStart(context: Context, inbox: Inbox, plan: Plan, rest: Inbox, a: Arrivals)
    requires PlanContinue(context.messages, inbox) == Success((plan, rest))
    ensures Started(StartPlan(context, plan, Rest(rest), a), context,
                    if plan.Resume? then [] else Declare(context.messages, context.tools, plan.messages))
  {
    match plan {
      case Prompts(messages, skipPoll) => PromptedRunsStart(context, messages, Rest(rest), skipPoll, a);
      case Resume => ContinuedRunsStart(context, Rest(rest), a);
    }
  }
}
