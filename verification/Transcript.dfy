/** Messages, tools and lifecycle events shared by the agent modules. */
module Transcript {
  import opened Wrappers

  /** A tool as the model sees it: its name and its serialized declaration. */
  datatype Tool = Tool(name: string, declaration: string)

  datatype ToolCall = ToolCall(id: string, name: string)
  datatype StopReason = Stopped | Length | ToolUse | ErrorStop | Aborted

  datatype Message =
    | System(text: string, added: seq<Tool>, removed: set<string>)
    | User(text: string)
    | Assistant(text: string, calls: seq<ToolCall>, stop: StopReason, errorMessage: string)
    | ToolResult(id: string, name: string, text: string, isError: bool)
    | Custom(role: string, text: string)

  datatype Event =
    | AgentStart
    | TurnStart
    | MessageStart(message: Message)
    | MessageUpdate(message: Message)
    | MessageEnd(message: Message)
    | ToolStart(id: string)
    | ToolUpdate(id: string)
    | ToolEnd(id: string, isError: bool)
    | TurnEnd(message: Message, results: seq<Message>)
    | AgentEnd(messages: seq<Message>)

  /** The messages that `message_end` events carry, in order. */
  function Ends(log: seq<Event>): seq<Message>
    decreases |log|
  {
    if |log| == 0 then [] else
    var last := log[|log| - 1];
    Ends(log[..|log| - 1]) + if last.MessageEnd? then [last.message] else []
  }

  lemma {:induction false} EndsConcat(a: seq<Event>, b: seq<Event>)
    ensures Ends(a + b) == Ends(a) + Ends(b)
    decreases |b|
  {
    if |b| == 0 {
      assert a + b == a;
    } else {
      assert (a + b)[..|a + b| - 1] == a + b[..|b| - 1];
      EndsConcat(a, b[..|b| - 1]);
    }
  }

  // ---------------------------------------------------------------- the event grammar

  /** Where in a run the next event falls; tools are counted because ids may repeat. */
  datatype Place = Fresh | Between | InTurn(open: bool, tools: multiset<string>) | Over | Bad

  const QUIET := InTurn(false, multiset{})

  function Next(p: Place, e: Event): Place {
    match e
    case AgentStart => if p.Fresh? then Between else Bad
    case TurnStart => if p.Between? then QUIET else Bad
    case MessageStart(_) => if p == QUIET then InTurn(true, multiset{}) else Bad
    case MessageUpdate(_) => if p == InTurn(true, multiset{}) then p else Bad
    case MessageEnd(_) => if p == InTurn(true, multiset{}) then QUIET else Bad
    case ToolStart(id) => if p.InTurn? && !p.open then p.(tools := p.tools + multiset{id}) else Bad
    case ToolUpdate(id) => if p.InTurn? && !p.open && id in p.tools then p else Bad
    case ToolEnd(id, _) => if p.InTurn? && !p.open && id in p.tools then p.(tools := p.tools - multiset{id}) else Bad
    case TurnEnd(_, _) => if p == QUIET then Between else Bad
    case AgentEnd(_) => if p.Between? then Over else Bad
  }

  function Walk(p: Place, log: seq<Event>): Place
    decreases |log|
  {
    if |log| == 0 then p else Next(Walk(p, log[..|log| - 1]), log[|log| - 1])
  }

  lemma {:induction false} WalkConcat(p: Place, a: seq<Event>, b: seq<Event>)
    ensures Walk(p, a + b) == Walk(Walk(p, a), b)
    decreases |b|
  {
    if |b| == 0 {
      assert a + b == a;
    } else {
      assert (a + b)[..|a + b| - 1] == a + b[..|b| - 1];
      WalkConcat(p, a, b[..|b| - 1]);
    }
  }

  // ---------------------------------------------------------------- the reducer

  /** The part of the agent's state that its event reducer maintains. */
  datatype AgentState = AgentState(
    messages: seq<Message>, streaming: Option<Message>, pendingToolCalls: set<string>, errorMessage: string)

  function Reduce(s: AgentState, e: Event): AgentState {
    match e
    case MessageStart(message) => s.(streaming := Some(message))
    case MessageUpdate(message) => s.(streaming := Some(message))
    case MessageEnd(message) => s.(streaming := None, messages := s.messages + [message])
    case ToolStart(id) => s.(pendingToolCalls := s.pendingToolCalls + {id})
    case ToolEnd(id, _) => s.(pendingToolCalls := s.pendingToolCalls - {id})
    case TurnEnd(message, _) =>
      if message.Assistant? && message.errorMessage != "" then s.(errorMessage := message.errorMessage) else s
    case AgentEnd(_) => s.(streaming := None)
    case _ => s
  }

  function ReduceAll(s: AgentState, log: seq<Event>): AgentState
    decreases |log|
  {
    if |log| == 0 then s else Reduce(ReduceAll(s, log[..|log| - 1]), log[|log| - 1])
  }

  /** The transcript the reducer rebuilds is its start followed by the completed messages. */
  lemma {:induction false} ReducedTranscript(s: AgentState, log: seq<Event>)
    ensures ReduceAll(s, log).messages == s.messages + Ends(log)
    decreases |log|
  {
    if |log| == 0 {
    } else {
      ReducedTranscript(s, log[..|log| - 1]);
    }
  }

  /** A pending id is always the id of a call the grammar counts as running. */
  lemma {:induction false} PendingAreRunning(s: AgentState, p: Place, log: seq<Event>)
    requires !p.Bad? && !Walk(p, log).Bad?
    requires s.pendingToolCalls <= Tools(p)
    ensures ReduceAll(s, log).pendingToolCalls <= Tools(Walk(p, log))
    decreases |log|
  {
    if |log| == 0 {
    } else {
      var init, last := log[..|log| - 1], log[|log| - 1];
      var q := Walk(p, init);
      assert q.Bad? ==> Next(q, last).Bad?;
      PendingAreRunning(s, p, init);
      PendingStep(ReduceAll(s, init), q, last);
    }
  }

  function Tools(p: Place): set<string> {
    if p.InTurn? then set id | id in p.tools else {}
  }

  lemma {:induction false} PendingStep(s: AgentState, q: Place, e: Event)
    requires !Next(q, e).Bad? && s.pendingToolCalls <= Tools(q)
    ensures Reduce(s, e).pendingToolCalls <= Tools(Next(q, e))
  {
    if e.ToolEnd? {
      forall id | id in Reduce(s, e).pendingToolCalls ensures id in Next(q, e).tools {
        assert id in q.tools && id != e.id;
      }
    }
  }

  /** No id runs twice at any point of the log. */
  ghost predicate SingleRunning(p: Place, log: seq<Event>) {
    forall k | 0 <= k <= |log| :: NoRepeats(Walk(p, log[..k]))
  }

  predicate NoRepeats(p: Place) {
    p.InTurn? ==> forall id | id in p.tools :: p.tools[id] == 1
  }

  /** While no id runs twice, the pending ids are exactly the running calls. */
  lemma {:induction false} PendingIsExact(s: AgentState, p: Place, log: seq<Event>)
    requires !Walk(p, log).Bad? && SingleRunning(p, log)
    requires s.pendingToolCalls == Tools(p)
    ensures ReduceAll(s, log).pendingToolCalls == Tools(Walk(p, log))
    decreases |log|
  {
    if |log| == 0 {
    } else {
      var init, last := log[..|log| - 1], log[|log| - 1];
      var q := Walk(p, init);
      assert q.Bad? ==> Next(q, last).Bad?;
      forall k | 0 <= k <= |init| ensures NoRepeats(Walk(p, init[..k])) {
        assert init[..k] == log[..k];
      }
      PendingIsExact(s, p, init);
      assert log[..|log| - 1] == init;
      assert NoRepeats(q);
      ExactStep(ReduceAll(s, init), q, last);
    }
  }

  lemma {:induction false} ExactStep(s: AgentState, q: Place, e: Event)
    requires !Next(q, e).Bad? && NoRepeats(q) && s.pendingToolCalls == Tools(q)
    ensures Reduce(s, e).pendingToolCalls == Tools(Next(q, e))
  {
    forall id
      ensures id in Reduce(s, e).pendingToolCalls <==> id in Tools(Next(q, e))
    {
      assert q.InTurn? && id in q.tools ==> q.tools[id] == 1;
    }
  }

  lemma {:induction false} GoodPrefix(p: Place, log: seq<Event>, k: nat)
    requires k <= |log| && !Walk(p, log).Bad?
    ensures !Walk(p, log[..k]).Bad?
    decreases |log|
  {
    if k < |log| {
      var init, last := log[..|log| - 1], log[|log| - 1];
      var q := Walk(p, init);
      assert q.Bad? ==> Next(q, last).Bad?;
      GoodPrefix(p, init, k);
      assert init[..k] == log[..k];
    } else {
      assert log[..k] == log;
    }
  }

  /** So they are at every moment of a well-formed log in which no id runs twice. */
  lemma {:induction false} PendingIsAlwaysExact(s: AgentState, p: Place, log: seq<Event>, k: nat)
    requires k <= |log| && !Walk(p, log).Bad? && SingleRunning(p, log) && s.pendingToolCalls == Tools(p)
    ensures ReduceAll(s, log[..k]).pendingToolCalls == Tools(Walk(p, log[..k]))
  {
    GoodPrefix(p, log, k);
    forall j | 0 <= j <= |log[..k]| ensures NoRepeats(Walk(p, log[..k][..j])) {
      assert log[..k][..j] == log[..j];
    }
    PendingIsExact(s, p, log[..k]);
  }

  // ---------------------------------------------------------------- what the agent shows meanwhile

  /** The message of the log's last start or update. */
  function LastShown(log: seq<Event>): Option<Message>
    decreases |log|
  {
    if |log| == 0 then None else
    var last := log[|log| - 1];
    if last.MessageStart? || last.MessageUpdate? then Some(last.message) else LastShown(log[..|log| - 1])
  }

  /** While a message is open the agent shows what was last said of it, and otherwise none. */
  lemma {:induction false} StreamingIsLastShown(s: AgentState, log: seq<Event>)
    requires !Walk(Fresh, log).Bad? && s.streaming.None?
    ensures ReduceAll(s, log).streaming == if Opens(Walk(Fresh, log)) then LastShown(log) else None
    ensures Opens(Walk(Fresh, log)) ==> LastShown(log).Some?
    decreases |log|
  {
    if |log| == 0 {
    } else {
      var init, last := log[..|log| - 1], log[|log| - 1];
      OpenStep(Walk(Fresh, init), last);
      StreamingIsLastShown(s, init);
    }
  }

  predicate Opens(p: Place) {
    p.InTurn? && p.open
  }

  /** A message is opened by its start, goes on with updates, and is open after nothing else. */
  lemma {:induction false} OpenStep(p: Place, e: Event)
    requires !Next(p, e).Bad?
    ensures !p.Bad?
    ensures Opens(Next(p, e)) <==> e.MessageStart? || e.MessageUpdate?
    ensures Opens(p) ==> e.MessageUpdate? || e.MessageEnd?
  {}

  /** The event is the end of a turn whose response failed with a message. */
  predicate Reports(e: Event) {
    e.TurnEnd? && e.message.Assistant? && e.message.errorMessage != ""
  }

  /** The agent's error is that of the last turn that reported one; without any it stays. */
  lemma {:induction false} ErrorIsLastReported(s: AgentState, log: seq<Event>, k: nat)
    requires k <= |log| && forall j | k <= j < |log| :: !Reports(log[j])
    ensures k == 0 ==> ReduceAll(s, log).errorMessage == s.errorMessage
    ensures k > 0 && Reports(log[k - 1]) ==> ReduceAll(s, log).errorMessage == log[k - 1].message.errorMessage
    decreases |log|
  {
    if |log| == 0 {
    } else if k < |log| {
      assert !Reports(log[|log| - 1]);
      ErrorIsLastReported(s, log[..|log| - 1], k);
    }
  }
}
