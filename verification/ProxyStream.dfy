/**
 Rebuilding an assistant message from a proxied event stream: lines are cut out of text that
 arrives in arbitrary chunks, and events fill the message's content blocks.
 */
module ProxyStream {
  import opened Wrappers

  // ---------------------------------------------------------------- lines

  /** `text.split("\n")` */
  function SplitLines(text: string): (lines: seq<string>)
    ensures |lines| > 0
  {
    if |text| == 0 then [""]
    else if text[0] == '\n' then [""] + SplitLines(text[1..])
    else var rest := SplitLines(text[1..]); [[text[0]] + rest[0]] + rest[1..]
  }

  function Last(lines: seq<string>): string
    requires |lines| > 0
  {
    lines[|lines| - 1]
  }

  function Init(lines: seq<string>): seq<string>
    requires |lines| > 0
  {
    lines[..|lines| - 1]
  }

  /** The lines of a whole text: an empty last line counts for nothing. */
  function LinesOf(text: string): seq<string> {
    var lines := SplitLines(text);
    if Last(lines) == "" then Init(lines) else lines
  }

  /** Splitting a longer text only continues its last line. */
  lemma {:induction false} SplitContinues(a: string, b: string)
    ensures SplitLines(a + b) == Init(SplitLines(a)) + SplitLines(Last(SplitLines(a)) + b)
    decreases |a|
  {
    if |a| == 0 {
      assert a + b == b && Last(SplitLines(a)) + b == b;
    } else {
      assert (a + b)[1..] == a[1..] + b;
      SplitContinues(a[1..], b);
      if a[0] == '\n' {
        HeadLine("", SplitLines(a[1..]));
      } else {
        OpenLine(a[0], SplitLines(a[1..]), b);
      }
    }
  }

  lemma {:induction false} HeadLine(first: string, rest: seq<string>)
    requires |rest| > 0
    ensures Init([first] + rest) == [first] + Init(rest) && Last([first] + rest) == Last(rest)
  {}

  lemma {:induction false} OpenLine(c: char, rest: seq<string>, b: string)
    requires |rest| > 0 && c != '\n'
    ensures var lines := [[c] + rest[0]] + rest[1..];
      var whole := Init(rest) + SplitLines(Last(rest) + b);
      Init(lines) + SplitLines(Last(lines) + b) == [[c] + whole[0]] + whole[1..]
  {
    var lines := [[c] + rest[0]] + rest[1..];
    if |rest| == 1 {
      assert Last(lines) + b == [c] + (rest[0] + b);
      assert ([c] + (rest[0] + b))[1..] == rest[0] + b;
      assert Init(lines) == [] && Init(rest) == [];
    } else {
      assert Last(lines) == Last(rest);
      assert Init(lines) == [[c] + rest[0]] + Init(rest)[1..];
    }
  }

  lemma {:induction false} OneLine(text: string)
    requires '\n' !in text
    ensures SplitLines(text) == [text]
  {
    if |text| == 0 {
    } else {
      OneLine(text[1..]);
      assert [text[0]] + text[1..] == text;
    }
  }

  lemma {:induction false} LastHasNoBreak(text: string)
    ensures '\n' !in Last(SplitLines(text))
  {
    if |text| == 0 {
    } else {
      LastHasNoBreak(text[1..]);
    }
  }

  function Concat(chunks: seq<string>): string
    decreases |chunks|
  {
    if |chunks| == 0 then "" else Concat(chunks[..|chunks| - 1]) + chunks[|chunks| - 1]
  }

  // ---------------------------------------------------------------- events and content blocks

  datatype Kind = Text | Thinking | ToolCall

  datatype ProxyEvent =
    | Opening
    | Begin(kind: Kind, index: nat, tag: string)
    | Delta(kind: Kind, index: nat, delta: string)
    | Finish(kind: Kind, index: nat, tag: string)
    | Done(reason: string)
    | Error(reason: string)

  /** A block under construction; a finished tool call has lost its partial JSON. */
  datatype Block = Block(kind: Kind, body: Option<string>, tag: string)

  type Content = map<nat, Block>

  predicate Holds(content: Content, index: nat, kind: Kind) {
    index in content && content[index].kind == kind
  }

  /** What appending does to a block whose text is gone. */
  function Grown(body: Option<string>, delta: string): string {
    (if body.Some? then body.value else "undefined") + delta
  }

  /** processProxyEvent; `None` is the exception for a delta or an end of another kind of block. */
  function Apply(content: Content, e: ProxyEvent): Option<Content> {
    match e
    case Opening => Some(content)
    case Begin(kind, i, tag) => Some(content[i := Block(kind, Some(""), tag)])
    case Delta(kind, i, delta) =>
      if !Holds(content, i, kind) then None
      else Some(content[i := content[i].(body := Some(Grown(content[i].body, delta)))])
    case Finish(kind, i, tag) =>
      if Holds(content, i, kind) then
        Some(content[i := content[i].(tag := tag, body := if kind.ToolCall? then None else content[i].body)])
      else if kind.ToolCall? then Some(content) else None
    case Done(_) => Some(content)
    case Error(_) => Some(content)
  }

  /** Whether an event is passed on; the end of a tool call that is none is dropped. */
  predicate PassedOn(content: Content, e: ProxyEvent) {
    e.Finish? && e.kind.ToolCall? ==> Holds(content, e.index, ToolCall)
  }

  function Build(events: seq<ProxyEvent>): Option<Content>
    decreases |events|
  {
    if |events| == 0 then Some(map[]) else
    var before := Build(events[..|events| - 1]);
    if before.None? then None else Apply(before.value, events[|events| - 1])
  }

  predicate Concerns(e: ProxyEvent, index: nat) {
    (e.Begin? || e.Delta? || e.Finish?) && e.index == index
  }

  /** The events of one block, in order. */
  function Own(events: seq<ProxyEvent>, index: nat): seq<ProxyEvent>
    decreases |events|
  {
    if |events| == 0 then [] else
    var before, last := Own(events[..|events| - 1], index), events[|events| - 1];
    if Concerns(last, index) then before + [last] else before
  }

  /** The deltas a block received since it was last begun. */
  function Deltas(events: seq<ProxyEvent>, index: nat): string
    decreases |events|
  {
    if |events| == 0 then "" else
    var before, last := Deltas(events[..|events| - 1], index), events[|events| - 1];
    if !Concerns(last, index) then before
    else if last.Begin? then ""
    else if last.Delta? then before + last.delta
    else before
  }

  /** A block's text or thinking is the concatenation of its own deltas, however blocks interleave. */
  lemma {:induction false} BodyIsItsDeltas(events: seq<ProxyEvent>, index: nat)
    requires Build(events).Some? && index in Build(events).value && !Build(events).value[index].kind.ToolCall?
    ensures Build(events).value[index].body == Some(Deltas(events, index))
    decreases |events|
  {
    var init, last := events[..|events| - 1], events[|events| - 1];
    if index in Build(init).value && !Build(init).value[index].kind.ToolCall? {
      BodyIsItsDeltas(init, index);
    }
  }

  /** A block is what its own events alone would have built. */
  predicate SameBlock(a: Content, b: Content, index: nat) {
    (index in a <==> index in b) && (index in a ==> a[index] == b[index])
  }

  lemma {:induction false} OwnOne(events: seq<ProxyEvent>, e: ProxyEvent)
    ensures Build(events + [e]) == if Build(events).None? then None else Apply(Build(events).value, e)
  {
    assert (events + [e])[..|events|] == events;
  }

  lemma {:induction false} OthersLeaveAlone(content: Content, e: ProxyEvent, index: nat)
    requires !Concerns(e, index) && Apply(content, e).Some?
    ensures SameBlock(Apply(content, e).value, content, index)
  {}

  lemma {:induction false} OwnDecide(a: Content, b: Content, e: ProxyEvent, index: nat)
    requires Concerns(e, index) && SameBlock(a, b, index)
    ensures Apply(a, e).Some? <==> Apply(b, e).Some?
    ensures Apply(a, e).Some? ==> SameBlock(Apply(a, e).value, Apply(b, e).value, index)
  {}

  /** Interleaved blocks do not disturb each other. */
  lemma {:induction false} BlocksAreIndependent(events: seq<ProxyEvent>, index: nat)
    requires Build(events).Some?
    ensures Build(Own(events, index)).Some? && SameBlock(Build(events).value, Build(Own(events, index)).value, index)
    decreases |events|
  {
    if |events| == 0 {
    } else {
      var init, last := events[..|events| - 1], events[|events| - 1];
      BlocksAreIndependent(init, index);
      if Concerns(last, index) {
        OwnOne(Own(init, index), last);
        OwnDecide(Build(init).value, Build(Own(init, index)).value, last, index);
      } else {
        OthersLeaveAlone(Build(init).value, last, index);
      }
    }
  }

  /** A stream is accepted exactly when each block's own events are. */
  lemma {:induction false} AcceptedIffEachBlockIs(events: seq<ProxyEvent>)
    ensures Build(events).Some? <==> forall index :: Build(Own(events, index)).Some?
    decreases |events|
  {
    if Build(events).Some? {
      forall index ensures Build(Own(events, index)).Some? {
        BlocksAreIndependent(events, index);
      }
    } else {
      var index := Culprit(events);
    }
  }

  lemma {:induction false} Culprit(events: seq<ProxyEvent>) returns (index: nat)
    requires Build(events).None?
    ensures Build(Own(events, index)).None?
    decreases |events|
  {
    var init, last := events[..|events| - 1], events[|events| - 1];
    if Build(init).None? {
      index := Culprit(init);
      if Concerns(last, index) {
        OwnOne(Own(init, index), last);
      }
    } else {
      index := last.index;
      BlocksAreIndependent(init, index);
      OwnOne(Own(init, index), last);
      OwnDecide(Build(init).value, Build(Own(init, index)).value, last, index);
    }
  }

  // ---------------------------------------------------------------- the stream

  /** What a `data:` payload means once trimmed and parsed. */
  datatype Payload = Nothing | Malformed | Carried(event: ProxyEvent)
  type Parser = string -> Payload

  datatype State = State(content: Content, pushed: seq<ProxyEvent>, failed: bool)

  const START := State(map[], [], false)

  function Receive(s: State, e: ProxyEvent): State {
    var content := Apply(s.content, e);
    if content.None? then s.(failed := true)
    else State(content.value, if PassedOn(s.content, e) then s.pushed + [e] else s.pushed, false)
  }

  /** processLine; nothing more happens after an exception. */
  function Feed(parse: Parser, s: State, line: string): State {
    if s.failed || |line| < 6 || line[..6] != "data: " then s
    else match parse(line[6..])
      case Nothing => s
      case Malformed => s.(failed := true)
      case Carried(e) => Receive(s, e)
  }

  function FeedAll(parse: Parser, s: State, lines: seq<string>): State
    decreases |lines|
  {
    if |lines| == 0 then s else Feed(parse, FeedAll(parse, s, lines[..|lines| - 1]), lines[|lines| - 1])
  }

  predicate Terminal(e: ProxyEvent) {
    e.Done? || e.Error?
  }

  predicate SawTerminal(pushed: seq<ProxyEvent>) {
    exists k | 0 <= k < |pushed| :: Terminal(pushed[k])
  }

  const CLOSED := Error("Connection closed by proxy server before the response completed")
  const FAILURE := Error("failed")

  /** The consumer is told of every failure and of a stream that merely stopped. */
  function Closed(s: State): State {
    if s.failed then s.(pushed := s.pushed + [FAILURE])
    else if SawTerminal(s.pushed) then s
    else s.(pushed := s.pushed + [CLOSED])
  }

  lemma {:induction false} FeedConcat(parse: Parser, s: State, a: seq<string>, b: seq<string>)
    ensures FeedAll(parse, s, a + b) == FeedAll(parse, FeedAll(parse, s, a), b)
    decreases |b|
  {
    if |b| == 0 {
      assert a + b == a;
    } else {
      assert (a + b)[..|a + b| - 1] == a + b[..|b| - 1];
      FeedConcat(parse, s, a, b[..|b| - 1]);
    }
  }

  /** A complete line list and the text still buffered make up the text read. */
  ghost predicate UpTo(parse: Parser, s: State, buffer: string, text: string) {
    buffer == Last(SplitLines(text)) && s == FeedAll(parse, START, Init(SplitLines(text)))
  }

  lemma {:induction false} OneChunk(parse: Parser, s: State, buffer: string, text: string, chunk: string)
    requires UpTo(parse, s, buffer, text)
    ensures var lines := SplitLines(buffer + chunk);
      UpTo(parse, FeedAll(parse, s, Init(lines)), Last(lines), text + chunk)
  {
    var lines := SplitLines(buffer + chunk);
    SplitContinues(text, chunk);
    assert SplitLines(text + chunk) == Init(SplitLines(text)) + lines;
    assert Init(Init(SplitLines(text)) + lines) == Init(SplitLines(text)) + Init(lines);
    FeedConcat(parse, START, Init(SplitLines(text)), Init(lines));
  }

  /** The last line, which need not be terminated, and what the decoder held back. */
  lemma {:induction false} LastChunk(parse: Parser, s: State, buffer: string, text: string, flush: string)
    requires UpTo(parse, s, buffer, text) && '\n' !in flush
    ensures FeedAll(parse, START, LinesOf(text + flush)) ==
            if buffer + flush == "" then s else Feed(parse, s, buffer + flush)
  {
    var whole := buffer + flush;
    LastHasNoBreak(text);
    OneLine(whole);
    SplitContinues(text, flush);
    var lines := Init(SplitLines(text)) + [whole];
    assert SplitLines(text + flush) == lines;
    assert Init(lines) == Init(SplitLines(text)) && Last(lines) == whole;
  }

  class ProxyReader {
    var content: Content
    var pushed: seq<ProxyEvent>
    var failed: bool

    ghost function View(): State
      reads this
    {
      State(content, pushed, failed)
    }

    constructor ()
      ensures View() == START
    {
      content, pushed, failed := map[], [], false;
    }

    /** processProxyEvent, on the blocks of the partial message. */
    method ProcessProxyEvent(e: ProxyEvent)
      modifies this
      requires !failed
      ensures View() == Receive(old(View()), e)
    {
      var pass := true;
      match e {
        case Begin(kind, i, tag) =>
          content := content[i := Block(kind, Some(""), tag)];
        case Delta(kind, i, delta) =>
          if i !in content || content[i].kind != kind {
            failed := true;
            return;
          }
          content := content[i := content[i].(body := Some(Grown(content[i].body, delta)))];
        case Finish(kind, i, tag) =>
          if i in content && content[i].kind == kind {
            var block := content[i].(tag := tag);
            if kind == ToolCall {
              block := block.(body := None);
            }
            content := content[i := block];
          } else if kind == ToolCall {
            pass := false;
          } else {
            failed := true;
            return;
          }
        case Opening =>
        case Done(_) =>
        case Error(_) =>
      }
      if pass {
        pushed := pushed + [e];
      }
    }

    method ProcessLine(parse: Parser, line: string)
      modifies this
      ensures View() == Feed(parse, old(View()), line)
    {
      if failed || |line| < 6 || line[..6] != "data: " {
        return;
      }
      match parse(line[6..]) {
        case Nothing =>
        case Malformed => failed := true;
        case Carried(e) => ProcessProxyEvent(e);
      }
    }

    method ProcessLines(parse: Parser, lines: seq<string>)
      modifies this
      ensures View() == FeedAll(parse, old(View()), lines)
    {
      var k := 0;
      assert lines[..0] == [];
      while k < |lines|
        invariant k <= |lines| && View() == FeedAll(parse, old(View()), lines[..k])
      {
        assert lines[..k + 1][..k] == lines[..k];
        ProcessLine(parse, lines[k]);
        k := k + 1;
      }
      assert lines[..k] == lines;
    }

    /**
     The read loop of streamProxy.  However the text is cut into chunks, the result is that of its
     lines, and the consumer always gets a terminal event.
     */
    method ReadAll(parse: Parser, chunks: seq<string>, flush: string)
      modifies this
      requires View() == START && '\n' !in flush
      ensures View() == Closed(FeedAll(parse, START, LinesOf(Concat(chunks) + flush)))
      ensures SawTerminal(pushed)
    {
      var buffer := "";
      var k := 0;
      while k < |chunks|
        invariant k <= |chunks| && UpTo(parse, View(), buffer, Concat(chunks[..k]))
      {
        assert chunks[..k + 1][..k] == chunks[..k];
        OneChunk(parse, View(), buffer, Concat(chunks[..k]), chunks[k]);
        buffer := buffer + chunks[k];
        var lines := SplitLines(buffer);
        buffer := lines[|lines| - 1];
        ProcessLines(parse, lines[..|lines| - 1]);
        k := k + 1;
      }
      assert chunks[..k] == chunks;
      LastChunk(parse, View(), buffer, Concat(chunks), flush);
      buffer := buffer + flush;
      if |buffer| > 0 {
        ProcessLine(parse, buffer);
      }
      Close();
    }

    method Close()
      modifies this
      ensures View() == Closed(old(View())) && SawTerminal(pushed)
    {
      var before := pushed;
      if failed {
        pushed := pushed + [FAILURE];
        assert Terminal(pushed[|before|]);
      } else if !SawTerminal(pushed) {
        pushed := pushed + [CLOSED];
        assert Terminal(pushed[|before|]);
      }
    }
  }
}
