/** What the consumer of a proxied stream gets to see, and what its blocks carry besides their text. */
module ProxyResults {
  import opened Wrappers
  import opened ProxyStream

  // ---------------------------------------------------------------- lines

  predicate NoBreaks(lines: seq<string>) {
    forall k | 0 <= k < |lines| :: '\n' !in lines[k]
  }

  function JoinLines(lines: seq<string>): string
    requires |lines| > 0
  {
    if |lines| == 1 then lines[0] else lines[0] + "\n" + JoinLines(lines[1..])
  }

  lemma {:induction false} JoinHead(c: char, lines: seq<string>)
    requires |lines| > 0
    ensures JoinLines([[c] + lines[0]] + lines[1..]) == [c] + JoinLines(lines)
    ensures JoinLines([""] + lines) == "\n" + JoinLines(lines)
  {
    var longer, more := [[c] + lines[0]] + lines[1..], [""] + lines;
    assert longer[1..] == lines[1..] && more[1..] == lines;
    if |lines| > 1 {
      assert JoinLines(longer) == [c] + lines[0] + "\n" + JoinLines(lines[1..]);
    }
  }

  lemma {:induction false} SplitJoins(text: string)
    ensures JoinLines(SplitLines(text)) == text && NoBreaks(SplitLines(text))
  {
    if |text| == 0 {
    } else {
      SplitJoins(text[1..]);
      JoinHead(text[0], SplitLines(text[1..]));
      assert text == [text[0]] + text[1..];
    }
  }

  lemma {:induction false} SplitFirst(line: string, rest: string)
    requires '\n' !in line
    ensures SplitLines(line + "\n" + rest) == [line] + SplitLines(rest)
  {
    if |line| == 0 {
      assert (line + "\n" + rest)[1..] == rest;
    } else {
      SplitFirst(line[1..], rest);
      assert (line + "\n" + rest)[1..] == line[1..] + "\n" + rest;
      assert [line[0]] + line[1..] == line;
    }
  }

  lemma {:induction false} SplitOfJoin(lines: seq<string>)
    requires |lines| > 0 && NoBreaks(lines)
    ensures SplitLines(JoinLines(lines)) == lines
    decreases |lines|
  {
    if |lines| == 1 {
      OneLine(lines[0]);
    } else {
      assert NoBreaks(lines[1..]);
      SplitOfJoin(lines[1..]);
      SplitFirst(lines[0], JoinLines(lines[1..]));
      assert [lines[0]] + lines[1..] == lines;
    }
  }

  /** Splitting yields the one list of unbroken lines that joins to the text. */
  lemma {:induction false} SplitIff(text: string, lines: seq<string>)
    ensures SplitLines(text) == lines <==> |lines| > 0 && NoBreaks(lines) && JoinLines(lines) == text
  {
    SplitJoins(text);
    if |lines| > 0 && NoBreaks(lines) {
      SplitOfJoin(lines);
    }
  }

  // ---------------------------------------------------------------- which events are accepted

  /** The kind with which a block was last begun. */
  function LastBegun(events: seq<ProxyEvent>, index: nat): Option<Kind>
    decreases |events|
  {
    if |events| == 0 then None else
    var last := events[|events| - 1];
    if last.Begin? && last.index == index then Some(last.kind) else LastBegun(events[..|events| - 1], index)
  }

  lemma {:induction false} BlocksAreBegun(events: seq<ProxyEvent>, index: nat)
    requires Build(events).Some?
    ensures index in Build(events).value <==> LastBegun(events, index).Some?
    ensures index in Build(events).value ==> LastBegun(events, index) == Some(Build(events).value[index].kind)
    decreases |events|
  {
    if |events| == 0 {
    } else {
      BlocksAreBegun(events[..|events| - 1], index);
    }
  }

  /** A delta needs an open block of its kind; so does an end, unless it is that of a tool call. */
  predicate Fits(events: seq<ProxyEvent>, e: ProxyEvent) {
    match e
    case Delta(kind, index, _) => LastBegun(events, index) == Some(kind)
    case Finish(kind, index, _) => kind == ToolCall || LastBegun(events, index) == Some(kind)
    case _ => true
  }

  lemma {:induction false} AcceptedIffFits(events: seq<ProxyEvent>, e: ProxyEvent)
    requires Build(events).Some?
    ensures Build(events + [e]).Some? <==> Fits(events, e)
  {
    OwnOne(events, e);
    if e.Delta? || e.Finish? {
      BlocksAreBegun(events, e.index);
    }
  }

  // ---------------------------------------------------------------- what the consumer sees

  /** Everything but ends of tool calls that were not begun as such. */
  function Shown(events: seq<ProxyEvent>): seq<ProxyEvent>
    decreases |events|
  {
    if |events| == 0 then [] else
    var before, last := events[..|events| - 1], events[|events| - 1];
    Shown(before) +
    if last.Finish? && last.kind == ToolCall && LastBegun(before, last.index) != Some(ToolCall) then [] else [last]
  }

  /** What the events of the lines are: those before the first line whose payload is malformed. */
  function Events(parse: Parser, lines: seq<string>): (seq<ProxyEvent>, bool)
    decreases |lines|
  {
    if |lines| == 0 then ([], false) else
    var (before, broken) := Events(parse, lines[..|lines| - 1]);
    var line := lines[|lines| - 1];
    if broken || !("data: " <= line) then (before, broken)
    else
      match parse(line[6..])
      case Nothing => (before, false)
      case Malformed => (before, true)
      case Carried(e) => (before + [e], false)
  }

  /** The accepted events of a list: all of them, or those before the first that is not. */
  ghost predicate AcceptedUpTo(events: seq<ProxyEvent>, k: nat) {
    && k <= |events| && Build(events[..k]).Some?
    && (k < |events| ==> Build(events[..k + 1]).None?)
  }

  /** A reader that has taken the first `k` events of a list, and whether it has failed. */
  ghost predicate Reads(s: State, events: seq<ProxyEvent>, k: nat, broken: bool) {
    && AcceptedUpTo(events, k) && s.content == Build(events[..k]).value && s.pushed == Shown(events[..k])
    && (s.failed <==> broken || k < |events|)
  }

  lemma {:induction false} ReceiveOne(s: State, events: seq<ProxyEvent>, e: ProxyEvent)
    requires Reads(s, events, |events|, false)
    ensures var k := if Fits(events, e) then |events| + 1 else |events|;
      Reads(Receive(s, e), events + [e], k, false)
  {
    var more := events + [e];
    assert events[..|events|] == events && more[..|events|] == events && more[..|more|] == more;
    OwnOne(events, e);
    AcceptedIffFits(events, e);
    if e.Finish? {
      BlocksAreBegun(events, e.index);
    }
    assert Shown(events) + [] == Shown(events);
  }

  lemma {:induction false} ReadOn(s: State, events: seq<ProxyEvent>, k: nat, e: ProxyEvent)
    requires Reads(s, events, k, false) && k < |events|
    ensures Reads(s, events + [e], k, false)
  {
    assert (events + [e])[..k] == events[..k] && (events + [e])[..k + 1] == events[..k + 1];
  }

  lemma {:induction false} LinesAreRead(parse: Parser, lines: seq<string>) returns (k: nat)
    ensures var (events, broken) := Events(parse, lines);
      Reads(FeedAll(parse, START, lines), events, k, broken)
    decreases |lines|
  {
    if |lines| == 0 {
      k := 0;
    } else {
      var init, line := lines[..|lines| - 1], lines[|lines| - 1];
      k := LinesAreRead(parse, init);
      var (events, broken) := Events(parse, init);
      if !broken && "data: " <= line && parse(line[6..]).Carried? {
        var e := parse(line[6..]).event;
        if k < |events| {
          ReadOn(FeedAll(parse, START, init), events, k, e);
        } else {
          ReceiveOne(FeedAll(parse, START, init), events, e);
          k := if Fits(events, e) then |events| + 1 else |events|;
        }
      }
    }
  }

  /** How the stream ends for the consumer, who has seen some events. */
  function Ending(seen: seq<ProxyEvent>, failed: bool): seq<ProxyEvent> {
    if failed then [FAILURE]
    else if exists e :: e in seen && (e.Done? || e.Error?) then []
    else [Error("Connection closed by proxy server before the response completed")]
  }

  /**
   What the consumer of a text sees: the events of its lines before the first that is malformed or does
   not fit, without the ends of tool calls that none began, and then an error if the stream failed or
   stopped without a last event.
   */
  lemma {:induction false} ConsumerSees(parse: Parser, text: string) returns (k: nat)
    ensures var (events, broken) := Events(parse, LinesOf(text));
      && AcceptedUpTo(events, k)
      && var s := Closed(FeedAll(parse, START, LinesOf(text)));
         && s.content == Build(events[..k]).value
         && s.pushed == Shown(events[..k]) + Ending(Shown(events[..k]), broken || k < |events|)
  {
    k := LinesAreRead(parse, LinesOf(text));
    var s := FeedAll(parse, START, LinesOf(text));
    if SawTerminal(s.pushed) {
      var j :| 0 <= j < |s.pushed| && Terminal(s.pushed[j]);
      assert s.pushed[j] in s.pushed;
    }
    if e :| e in s.pushed && (e.Done? || e.Error?) {
      var j :| 0 <= j < |s.pushed| && s.pushed[j] == e;
      assert Terminal(s.pushed[j]);
    }
    assert s.pushed + [] == s.pushed;
  }

  // ---------------------------------------------------------------- tags and tool calls

  /** The tag of the last event that began or ended the block as what it was. */
  function LastTag(events: seq<ProxyEvent>, index: nat): Option<string>
    decreases |events|
  {
    if |events| == 0 then None else
    var before, last := events[..|events| - 1], events[|events| - 1];
    if last.Begin? && last.index == index then Some(last.tag)
    else if last.Finish? && last.index == index && LastBegun(before, index) == Some(last.kind) then Some(last.tag)
    else LastTag(before, index)
  }

  lemma {:induction false} TagIsLast(events: seq<ProxyEvent>, index: nat)
    requires Build(events).Some? && index in Build(events).value
    ensures LastTag(events, index) == Some(Build(events).value[index].tag)
    decreases |events|
  {
    var before, last := events[..|events| - 1], events[|events| - 1];
    if index in Build(before).value {
      TagIsLast(before, index);
      BlocksAreBegun(before, index);
    }
  }

  /** The tool call has been ended since it was begun. */
  predicate EndedSince(events: seq<ProxyEvent>, index: nat)
    decreases |events|
  {
    |events| > 0 &&
    var before, last := events[..|events| - 1], events[|events| - 1];
    !(last.Begin? && last.index == index) &&
    ((last.Finish? && last.kind == ToolCall && last.index == index) || EndedSince(before, index))
  }

  predicate JustEnded(events: seq<ProxyEvent>, index: nat) {
    |events| > 0 && var last := events[|events| - 1]; last.Finish? && last.kind == ToolCall && last.index == index
  }

  /** Until it ends a tool call collects its deltas; its end takes them away. */
  lemma {:induction false} ToolCallBody(events: seq<ProxyEvent>, index: nat)
    requires Build(events).Some? && index in Build(events).value && Build(events).value[index].kind == ToolCall
    ensures !EndedSince(events, index) ==> Build(events).value[index].body == Some(Deltas(events, index))
    ensures JustEnded(events, index) ==> Build(events).value[index].body == None
    decreases |events|
  {
    var before := events[..|events| - 1];
    if index in Build(before).value && Build(before).value[index].kind == ToolCall {
      ToolCallBody(before, index);
    }
  }

  /** The deltas a tool call received after its last end. */
  function Late(events: seq<ProxyEvent>, index: nat): seq<string>
    decreases |events|
  {
    if |events| == 0 then [] else
    var before, last := events[..|events| - 1], events[|events| - 1];
    if (last.Begin? && last.index == index) || JustEnded(events, index) then []
    else if last.Delta? && last.index == index then Late(before, index) + [last.delta]
    else Late(before, index)
  }

  /** Deltas that come after the end of a tool call are appended to the word for what is not there. */
  lemma {:induction false} LateDeltas(events: seq<ProxyEvent>, index: nat)
    requires Build(events).Some? && index in Build(events).value && Build(events).value[index].kind == ToolCall
    requires EndedSince(events, index)
    ensures Build(events).value[index].body ==
            if Late(events, index) == [] then None else Some("undefined" + Concat(Late(events, index)))
    decreases |events|
  {
    var before, last := events[..|events| - 1], events[|events| - 1];
    if !JustEnded(events, index) {
      LateDeltas(before, index);
      var late := Late(before, index);
      if last.Delta? && last.index == index {
        assert (late + [last.delta])[..|late|] == late;
        assert "undefined" + Concat(late) + last.delta == "undefined" + (Concat(late) + last.delta);
        assert Concat([]) == "" && "" + last.delta == last.delta;
      }
    }
  }
}
