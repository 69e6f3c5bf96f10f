/**
 Declaring tool changes to the model: system messages in the transcript add and remove tools,
 and before each request the difference to the executable tools is written into one of them.
 */
module ToolDeclarations {
  import opened Wrappers
  import opened Transcript

  type Toolset = map<string, Tool>

  datatype Changes = Changes(added: seq<Tool>, removed: set<string>)

  const NO_CHANGES := Changes([], {})

  // ---------------------------------------------------------------- replaying a transcript

  function AddAll(tools: Toolset, added: seq<Tool>): Toolset
    decreases |added|
  {
    if |added| == 0 then tools else
    var last := added[|added| - 1];
    AddAll(tools, added[..|added| - 1])[last.name := last]
  }

  function Applied(tools: Toolset, changes: Changes): Toolset {
    AddAll(tools - changes.removed, changes.added)
  }

  /** getCurrentTools, continued from a tool set. */
  function ReplayFrom(tools: Toolset, messages: seq<Message>): Toolset
    decreases |messages|
  {
    if |messages| == 0 then tools else
    var before := ReplayFrom(tools, messages[..|messages| - 1]);
    match messages[|messages| - 1]
    case System(_, added, removed) => Applied(before, Changes(added, removed))
    case _ => before
  }

  function Replay(messages: seq<Message>): Toolset {
    ReplayFrom(map[], messages)
  }

  /** Tools are filed under their own names. */
  predicate Named(tools: Toolset) {
    forall name | name in tools :: tools[name].name == name
  }

  /** The tool the runtime executes for a name: the first of that name. */
  function Executable(tools: seq<Tool>): Toolset
    decreases |tools|
  {
    if |tools| == 0 then map[] else
    var before := Executable(tools[..|tools| - 1]);
    var last := tools[|tools| - 1];
    if last.name in before then before else before[last.name := last]
  }

  // ---------------------------------------------------------------- the difference

  function Filtered(previous: Toolset, current: seq<Tool>): seq<Tool>
    decreases |current|
  {
    if |current| == 0 then [] else
    var last := current[|current| - 1];
    Filtered(previous, current[..|current| - 1]) +
    if last.name in previous && previous[last.name] == last then [] else [last]
  }

  /** getToolStateChanges: `new Map(...)` keeps the last tool of a name. */
  function Difference(previous: Toolset, current: seq<Tool>): Changes {
    var last := AddAll(map[], current);
    Changes(Filtered(previous, current), set name | name in previous && (name !in last || last[name] != previous[name]))
  }

  /** Same-named tools declare the same interface. */
  predicate Consistent(tools: seq<Tool>) {
    forall j, k | 0 <= j < |tools| && 0 <= k < |tools| && tools[j].name == tools[k].name :: tools[j] == tools[k]
  }

  // ---------------------------------------------------------------- declareToolChanges

  function WithToolChanges(message: Message, changes: Changes): Message
    requires message.System?
  {
    message.(added := changes.added, removed := changes.removed)
  }

  /** Index of the last system message, or -1. */
  function LastSystem(messages: seq<Message>): (r: int)
    ensures -1 <= r < |messages|
    ensures r >= 0 ==> messages[r].System?
    ensures forall k | r < k < |messages| :: !messages[k].System?
    decreases |messages|
  {
    if |messages| == 0 then -1
    else if messages[|messages| - 1].System? then |messages| - 1
    else LastSystem(messages[..|messages| - 1])
  }

  function FirstNonSystem(messages: seq<Message>): (r: nat)
    ensures r <= |messages| && forall k | 0 <= k < r :: messages[k].System?
    ensures r < |messages| ==> !messages[r].System?
  {
    if |messages| == 0 || !messages[0].System? then 0 else 1 + FirstNonSystem(messages[1..])
  }

  function Baseline(pending: seq<Message>): seq<Message> {
    var index := LastSystem(pending);
    if index < 0 then pending else pending[index := WithToolChanges(pending[index], NO_CHANGES)]
  }

  function Declare(messages: seq<Message>, tools: seq<Tool>, pending: seq<Message>): seq<Message> {
    var index := LastSystem(pending);
    var changes := Difference(Replay(messages + Baseline(pending)), tools);
    if index >= 0 then
      if changes == NO_CHANGES && pending[index].added == [] && pending[index].removed == {} then pending
      else Baseline(pending)[index := WithToolChanges(pending[index], changes)]
    else if changes == NO_CHANGES then pending
    else
      var at := FirstNonSystem(pending);
      pending[..at] + [System("", changes.added, changes.removed)] + pending[at..]
  }

  /** declareToolChanges, with its backward search. */
  method DeclareToolChanges(messages: seq<Message>, tools: seq<Tool>, pending: seq<Message>) returns (r: seq<Message>)
    ensures r == Declare(messages, tools, pending)
  {
    var systemIndex := -1;
    var i := |pending| - 1;
    while i >= 0
      invariant -1 <= i < |pending|
      invariant systemIndex == -1 && LastSystem(pending) == LastSystem(pending[..i + 1])
    {
      assert pending[..i + 1][..i] == pending[..i];
      if pending[i].System? {
        systemIndex := i;
        break;
      }
      i := i - 1;
    }
    var baseline := pending;
    if systemIndex >= 0 {
      baseline := pending[systemIndex := WithToolChanges(pending[systemIndex], NO_CHANGES)];
    }
    var changes := Difference(Replay(messages + baseline), tools);
    var same := |changes.added| == 0 && changes.removed == {};
    if systemIndex >= 0 {
      if same && |pending[systemIndex].added| == 0 && pending[systemIndex].removed == {} {
        return pending;
      }
      return baseline[systemIndex := WithToolChanges(pending[systemIndex], changes)];
    }
    if same {
      return pending;
    }
    var at := FirstNonSystem(pending);
    r := pending[..at] + [System("", changes.added, changes.removed)] + pending[at..];
  }

  // ---------------------------------------------------------------- replay facts

  lemma {:induction false} ReplayConcat(tools: Toolset, a: seq<Message>, b: seq<Message>)
    ensures ReplayFrom(tools, a + b) == ReplayFrom(ReplayFrom(tools, a), b)
    decreases |b|
  {
    if |b| == 0 {
      assert a + b == a;
    } else {
      assert (a + b)[..|a + b| - 1] == a + b[..|b| - 1];
      ReplayConcat(tools, a, b[..|b| - 1]);
    }
  }

  lemma {:induction false} ReplayWithoutSystem(tools: Toolset, messages: seq<Message>)
    requires forall k | 0 <= k < |messages| :: !messages[k].System?
    ensures ReplayFrom(tools, messages) == tools
    decreases |messages|
  {
    if |messages| == 0 {
    } else {
      ReplayWithoutSystem(tools, messages[..|messages| - 1]);
    }
  }

  lemma {:induction false} AddAllNamed(tools: Toolset, added: seq<Tool>)
    requires Named(tools)
    ensures Named(AddAll(tools, added))
    decreases |added|
  {
    if |added| == 0 {
    } else {
      AddAllNamed(tools, added[..|added| - 1]);
    }
  }

  lemma {:induction false} ReplayNamed(tools: Toolset, messages: seq<Message>)
    requires Named(tools)
    ensures Named(ReplayFrom(tools, messages))
    decreases |messages|
  {
    if |messages| == 0 {
    } else {
      var before := ReplayFrom(tools, messages[..|messages| - 1]);
      ReplayNamed(tools, messages[..|messages| - 1]);
      match messages[|messages| - 1] {
        case System(_, added, removed) => AddAllNamed(before - removed, added);
        case _ =>
      }
    }
  }

  // ---------------------------------------------------------------- the difference is exact

  predicate HasTool(tools: seq<Tool>, name: string) {
    exists k | 0 <= k < |tools| :: tools[k].name == name
  }

  /** What adding does for one name: the last tool of that name, or what was there. */
  lemma {:induction false} AddAllAt(tools: Toolset, added: seq<Tool>, name: string)
    ensures !HasTool(added, name) ==> (name in AddAll(tools, added) <==> name in tools)
    ensures !HasTool(added, name) && name in tools ==> AddAll(tools, added)[name] == tools[name]
    ensures HasTool(added, name) ==> name in AddAll(tools, added) && AddAll(tools, added)[name].name == name &&
                                     AddAll(tools, added)[name] in added
    decreases |added|
  {
    if |added| == 0 {
    } else {
      var init, last := added[..|added| - 1], added[|added| - 1];
      AddAllAt(tools, init, name);
      assert forall k | 0 <= k < |init| :: init[k] == added[k];
      if last.name != name {
        assert HasTool(added, name) <==> HasTool(init, name) by {
          if HasTool(added, name) {
            var k :| 0 <= k < |added| && added[k].name == name;
            assert init[k].name == name;
          }
          if HasTool(init, name) {
            var k :| 0 <= k < |init| && init[k].name == name;
            assert added[k].name == name;
          }
        }
      } else {
        assert added[|added| - 1].name == name;
      }
    }
  }

  lemma {:induction false} FilteredAre(previous: Toolset, current: seq<Tool>, tool: Tool)
    ensures tool in Filtered(previous, current) <==>
            tool in current && !(tool.name in previous && previous[tool.name] == tool)
    decreases |current|
  {
    if |current| == 0 {
    } else {
      var init, last := current[..|current| - 1], current[|current| - 1];
      FilteredAre(previous, init, tool);
      assert current == init + [last];
    }
  }

  lemma {:induction false} ExecutableAt(tools: seq<Tool>, name: string)
    ensures name in Executable(tools) <==> HasTool(tools, name)
    ensures name in Executable(tools) ==> Executable(tools)[name].name == name && Executable(tools)[name] in tools
    decreases |tools|
  {
    if |tools| == 0 {
    } else {
      var init, last := tools[..|tools| - 1], tools[|tools| - 1];
      ExecutableAt(init, name);
      assert tools == init + [last];
      if HasTool(tools, name) && last.name != name {
        var k :| 0 <= k < |tools| && tools[k].name == name;
        assert init[k].name == name;
      }
      if HasTool(init, name) {
        var k :| 0 <= k < |init| && init[k].name == name;
        assert tools[k].name == name;
      }
      if last.name == name {
        assert tools[|tools| - 1].name == name;
      }
    }
  }

  lemma {:induction false} InTools(tools: seq<Tool>, tool: Tool)
    requires tool in tools
    ensures HasTool(tools, tool.name)
  {
    var k :| 0 <= k < |tools| && tools[k] == tool;
    assert tools[k].name == tool.name;
  }

  /** Applying the difference to the previous tools gives exactly the executable tools. */
  lemma {:induction false} DifferenceIsExact(previous: Toolset, current: seq<Tool>)
    requires Named(previous) && Consistent(current)
    ensures Applied(previous, Difference(previous, current)) == Executable(current)
  {
    var result, target := Applied(previous, Difference(previous, current)), Executable(current);
    forall name
      ensures name in result <==> name in target
      ensures name in result ==> result[name] == target[name]
    {
      DifferenceAt(previous, current, name);
    }
  }

  lemma {:induction false} DifferenceAt(previous: Toolset, current: seq<Tool>, name: string)
    requires Named(previous) && Consistent(current)
    ensures var result, target := Applied(previous, Difference(previous, current)), Executable(current);
            (name in result <==> name in target) && (name in result ==> result[name] == target[name])
  {
    var changes := Difference(previous, current);
    var kept := previous - changes.removed;
    AddAllAt(map[], current, name);
    AddAllAt(kept, changes.added, name);
    ExecutableAt(current, name);
    if HasTool(changes.added, name) {
      var tool := AddAll(kept, changes.added)[name];
      FilteredAre(previous, current, tool);
      InTools(current, tool);
    } else if HasTool(current, name) {
      var k :| 0 <= k < |current| && current[k].name == name;
      FilteredAre(previous, current, current[k]);
      if current[k] in changes.added {
        InTools(changes.added, current[k]);
      }
    }
  }

  /** With no tool of a name in `current`, only earlier tools matter; used to build counterexamples. */
  lemma {:induction false} LastDiffers(current: seq<Tool>, tool: Tool)
    requires exists k | 0 <= k < |current| :: current[k].name == tool.name && current[k] != tool
    ensures HasTool(Filtered(map[tool.name := tool], current), tool.name)
    ensures var after := AddAll(map[tool.name := tool], Filtered(map[tool.name := tool], current));
            tool.name in after && after[tool.name] != tool
  {
    var previous := map[tool.name := tool];
    var added := Filtered(previous, current);
    var k :| 0 <= k < |current| && current[k].name == tool.name && current[k] != tool;
    FilteredAre(previous, current, current[k]);
    InTools(added, current[k]);
    AddAllAt(previous, added, tool.name);
    FilteredAre(previous, current, AddAll(previous, added)[tool.name]);
  }

  lemma {:induction false} FilterNothing(none: Toolset, current: seq<Tool>)
    requires none.Keys == {}
    ensures Filtered(none, current) == current
    decreases |current|
  {
    if |current| == 0 {
    } else {
      var init, last := current[..|current| - 1], current[|current| - 1];
      FilterNothing(none, init);
      assert last.name !in none;
      assert current == init + [last];
    }
  }

  /** Declaring to an empty transcript declares the last tool of each name. */
  lemma {:induction false} FirstDeclaration(current: seq<Tool>)
    ensures Applied(map[], Difference(map[], current)) == AddAll(map[], current)
  {
    var none: Toolset := map[];
    FilterNothing(none, current);
    assert none - Difference(none, current).removed == none;
  }

  /** Declaring again when the executable tool is already declared replaces it by a rival of its name. */
  lemma {:induction false} SecondDeclaration(current: seq<Tool>, first: Tool)
    requires exists k | 0 <= k < |current| :: current[k].name == first.name && current[k] != first
    requires first.name in AddAll(map[], current) && AddAll(map[], current)[first.name] == first
    ensures var previous := map[first.name := first];
            var after := Applied(previous, Difference(previous, current));
            first.name in after && after[first.name] != first
  {
    var previous := map[first.name := first];
    var changes := Difference(previous, current);
    LastDiffers(current, first);
    assert changes.added == Filtered(previous, current);
    forall name ensures name !in changes.removed {}
    assert previous - changes.removed == previous;
    assert Applied(previous, changes) == AddAll(previous, changes.added);
  }

  lemma {:induction false} InconsistentTools(current: seq<Tool>) returns (previous: Toolset, name: string)
    requires !Consistent(current)
    ensures Named(previous) && previous.Keys <= {name} &&
              Applied(previous, Difference(previous, current)) != Executable(current)
  {
    var j, k :| 0 <= j < |current| && 0 <= k < |current| && current[j].name == current[k].name &&
                current[j] != current[k];
    name := current[j].name;
    ExecutableAt(current, name);
    AddAllAt(map[], current, name);
    var first, declared := Executable(current)[name], AddAll(map[], current)[name];
    if declared != first {
      previous := map[];
      FirstDeclaration(current);
    } else {
      previous := map[name := first];
      assert current[j] != first || current[k] != first;
      SecondDeclaration(current, first);
    }
  }

  /**
   The difference reaches the executable tools from every previous tool set exactly when
   same-named tools declare the same interface.  With two different declarations of one name the
   runtime executes the first while the transcript ends up declaring another.
   */
  lemma {:induction false} DifferenceExactIffConsistent(current: seq<Tool>)
    ensures (forall previous | Named(previous) ::
              Applied(previous, Difference(previous, current)) == Executable(current))
            <==> Consistent(current)
  {
    if Consistent(current) {
      forall previous | Named(previous)
        ensures Applied(previous, Difference(previous, current)) == Executable(current)
      {
        DifferenceIsExact(previous, current);
      }
    } else {
      var previous, _ := InconsistentTools(current);
    }
  }

  // ---------------------------------------------------------------- what declaring does

  /**
   After the pending messages are delivered, replaying the transcript yields exactly the
   executable tools, whatever changes the pending system messages asked for and wherever they are.
   */
  lemma {:induction false} DeclaredToolsAreExecutable(messages: seq<Message>, tools: seq<Tool>, pending: seq<Message>)
    requires Consistent(tools)
    ensures Replay(messages + Declare(messages, tools, pending)) == Executable(tools)
  {
    var index := LastSystem(pending);
    var base := Baseline(pending);
    var start := Replay(messages + base);
    var changes := Difference(start, tools);
    assert Named(map[]);
    ReplayNamed(map[], messages + base);
    DifferenceIsExact(start, tools);
    if index >= 0 {
      var head, tail := messages + pending[..index], pending[index + 1..];
      var prior := Replay(head);
      assert prior - {} == prior;
      ReplaySplit(head, base[index], tail, messages + base);
      assert Replay(messages + base) == prior;
      var told := Baseline(pending)[index := WithToolChanges(pending[index], changes)];
      ReplaySplit(head, told[index], tail, messages + told);
      if changes == NO_CHANGES && pending[index].added == [] && pending[index].removed == {} {
        assert pending == base;
      }
    } else if changes != NO_CHANGES {
      var at := FirstNonSystem(pending);
      var update := System("", changes.added, changes.removed);
      assert at == 0;
      ReplayConcat(map[], messages, pending);
      ReplayWithoutSystem(Replay(messages), pending);
      ReplaySplit(messages, update, pending, messages + Declare(messages, tools, pending));
    } else {
      assert start - {} == start;
    }
  }

  /** A transcript that declares the earlier tools from which the difference misses the executable ones. */
  lemma {:induction false} DeclaringTranscript(previous: Toolset, name: string) returns (messages: seq<Message>)
    requires Named(previous) && previous.Keys <= {name}
    ensures Replay(messages) == previous
  {
    if name in previous {
      var none: Toolset, declaration := map[], System("", [previous[name]], {});
      messages := [declaration];
      assert Replay([]) == none == none - {};
      assert messages == [] + [declaration] + [];
      ReplaySplit([], declaration, [], messages);
      assert [previous[name]][..0] == [];
      assert AddAll(none, [previous[name]]) == map[name := previous[name]] == previous;
    } else {
      messages := [];
      assert previous == map[];
    }
  }

  /** With nothing pending, exactly the difference to the transcript's tools is applied. */
  lemma {:induction false} DeclaringNothingPending(messages: seq<Message>, tools: seq<Tool>)
    ensures var before := Replay(messages);
      Replay(messages + Declare(messages, tools, [])) == Applied(before, Difference(before, tools))
  {
    var before, changes := Replay(messages), Difference(Replay(messages), tools);
    assert messages + [] == messages;
    if changes == NO_CHANGES {
      assert before - {} == before;
    } else {
      var update := System("", changes.added, changes.removed);
      assert Declare(messages, tools, []) == [update];
      ReplaySplit(messages, update, [], messages + [update]);
    }
  }

  ghost predicate DeclaresExactly(messages: seq<Message>, tools: seq<Tool>, pending: seq<Message>) {
    Replay(messages + Declare(messages, tools, pending)) == Executable(tools)
  }

  /**
   Replaying yields the executable tools for every transcript and all pending messages exactly when
   same-named tools have the same declaration.
   */
  lemma {:induction false} ReplayExactIffConsistent(tools: seq<Tool>)
    ensures (forall messages, pending :: DeclaresExactly(messages, tools, pending)) <==> Consistent(tools)
  {
    if Consistent(tools) {
      forall messages, pending ensures DeclaresExactly(messages, tools, pending) {
        DeclaredToolsAreExecutable(messages, tools, pending);
      }
    } else {
      var previous, name := InconsistentTools(tools);
      var messages := DeclaringTranscript(previous, name);
      DeclaringNothingPending(messages, tools);
      assert !DeclaresExactly(messages, tools, []);
    }
  }

  lemma {:induction false} ReplaySplit(head: seq<Message>, system: Message, tail: seq<Message>, all: seq<Message>)
    requires system.System? && all == head + [system] + tail
    requires forall k | 0 <= k < |tail| :: !tail[k].System?
    ensures Replay(all) == Applied(Replay(head), Changes(system.added, system.removed))
  {
    ReplayConcat(map[], head + [system], tail);
    ReplayWithoutSystem(Replay(head + [system]), tail);
    assert (head + [system])[..|head|] == head;
  }

  /** The conversation itself: everything but system messages. */
  function Conversation(messages: seq<Message>): seq<Message>
    decreases |messages|
  {
    if |messages| == 0 then [] else
    var last := messages[|messages| - 1];
    Conversation(messages[..|messages| - 1]) + if last.System? then [] else [last]
  }

  lemma {:induction false} ConversationConcat(a: seq<Message>, b: seq<Message>)
    ensures Conversation(a + b) == Conversation(a) + Conversation(b)
    decreases |b|
  {
    if |b| == 0 {
      assert a + b == a;
    } else {
      assert (a + b)[..|a + b| - 1] == a + b[..|b| - 1];
      ConversationConcat(a, b[..|b| - 1]);
    }
  }

  lemma {:induction false} ConversationSkipsSystem(a: seq<Message>, m: Message, b: seq<Message>)
    requires m.System?
    ensures Conversation(a + [m] + b) == Conversation(a) + Conversation(b)
  {
    ConversationConcat(a + [m], b);
    assert (a + [m])[..|a|] == a;
  }

  lemma {:induction false} ReplacingSystem(a: seq<Message>, i: nat, m: Message)
    requires i < |a| && a[i].System? && m.System?
    ensures Conversation(a[i := m]) == Conversation(a)
  {
    var head, tail := a[..i], a[i + 1..];
    assert a[i := m] == head + [m] + tail && a == head + [a[i]] + tail;
    ConversationSkipsSystem(head, m, tail);
    ConversationSkipsSystem(head, a[i], tail);
  }

  lemma {:induction false} InsertingSystem(a: seq<Message>, i: nat, m: Message)
    requires i <= |a| && m.System?
    ensures Conversation(a[..i] + [m] + a[i..]) == Conversation(a)
  {
    ConversationSkipsSystem(a[..i], m, a[i..]);
    ConversationConcat(a[..i], a[i..]);
    assert a == a[..i] + a[i..];
  }

  /** Declaring changes never touches, drops or reorders anything but system messages. */
  lemma {:induction false} DeclareKeepsConversation(messages: seq<Message>, tools: seq<Tool>, pending: seq<Message>)
    ensures Conversation(Declare(messages, tools, pending)) == Conversation(pending)
  {
    var index := LastSystem(pending);
    var changes := Difference(Replay(messages + Baseline(pending)), tools);
    if index >= 0 {
      var told := WithToolChanges(pending[index], changes);
      ReplacingSystem(pending, index, told);
      assert Baseline(pending)[index := told] == pending[index := told];
    } else {
      InsertingSystem(pending, FirstNonSystem(pending), System("", changes.added, changes.removed));
    }
  }

  /** Once declared, a request with nothing pending declares nothing more. */
  lemma {:induction false} DeclareSettles(messages: seq<Message>, tools: seq<Tool>)
    requires Consistent(tools) && Replay(messages) == Executable(tools)
    ensures Declare(messages, tools, []) == []
  {
    assert messages + [] == messages;
    var changes := Difference(Executable(tools), tools);
    forall name ensures name !in changes.removed {
      AddAllAt(map[], tools, name);
      ExecutableAt(tools, name);
    }
    if |changes.added| > 0 {
      var tool := changes.added[0];
      FilteredAre(Executable(tools), tools, tool);
      InTools(tools, tool);
      ExecutableAt(tools, tool.name);
    }
    assert changes == NO_CHANGES;
  }

  /** Nothing but its tool changes may differ between two messages. */
  predicate SameButTools(a: Message, b: Message) {
    if a.System? then b.System? && b.text == a.text else b == a
  }

  /**
   Declaring rewrites at most the tool changes of the last pending system message, and takes those of no
   other away; without one it puts a single message, without text, before all others if it must.
   */
  lemma {:induction false} DeclareTouches(messages: seq<Message>, tools: seq<Tool>, pending: seq<Message>, at: nat)
    requires at < |pending| && pending[at].System? && forall k | at < k < |pending| :: !pending[k].System?
    ensures var declared := Declare(messages, tools, pending);
      && |declared| == |pending| && SameButTools(pending[at], declared[at])
      && forall k | 0 <= k < |pending| && k != at :: declared[k] == pending[k]
  {
    assert LastSystem(pending) == at;
  }

  lemma {:induction false} DeclareComesFirst(messages: seq<Message>, tools: seq<Tool>, pending: seq<Message>)
    requires forall k | 0 <= k < |pending| :: !pending[k].System?
    ensures var declared := Declare(messages, tools, pending);
      || declared == pending
      || (|declared| == |pending| + 1 && declared[1..] == pending && declared[0].System? && declared[0].text == "")
  {
    assert LastSystem(pending) == -1 && FirstNonSystem(pending) == 0;
  }
}
