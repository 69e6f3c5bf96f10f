/**
 Streaming one assistant response: the partial message is kept at the end of the context while
 the stream runs and is replaced by the final message, with a lifecycle event for every change.
 */
module AgentStream {
  import opened Wrappers
  import opened Transcript

  /** What a provider stream yields; `Finished` stands for both `done` and `error`. */
  datatype StreamEvent = Start(partial: Message) | Delta(partial: Message) | Finished

  /** The events read before the response is complete. */
  function Read(events: seq<StreamEvent>): (r: seq<StreamEvent>)
    ensures r <= events && (forall k | 0 <= k < |r| :: !r[k].Finished?)
    ensures |r| < |events| ==> events[|r|].Finished?
  {
    if |events| == 0 || events[0].Finished? then [] else [events[0]] + Read(events[1..])
  }

  function StartCount(events: seq<StreamEvent>): nat
    decreases |events|
  {
    if |events| == 0 then 0 else
    StartCount(events[..|events| - 1]) + if events[|events| - 1].Start? then 1 else 0
  }

  /** The context and the log while the stream runs; `added` says the last context message is the partial. */
  datatype Reading = Reading(context: seq<Message>, log: seq<Event>, added: bool)

  function ReplaceLast(context: seq<Message>, message: Message): seq<Message>
    requires |context| > 0
  {
    context[|context| - 1 := message]
  }

  function Take(r: Reading, e: StreamEvent): (r': Reading)
    requires r.added ==> |r.context| > 0
    ensures r'.added ==> |r'.context| > 0
  {
    match e
    case Start(partial) => Reading(r.context + [partial], r.log + [MessageStart(partial)], true)
    case Delta(partial) =>
      if r.added then Reading(ReplaceLast(r.context, partial), r.log + [MessageUpdate(partial)], true) else r
    case Finished => r
  }

  function TakeAll(context: seq<Message>, events: seq<StreamEvent>): (r: Reading)
    ensures r.added ==> |r.context| > 0
    decreases |events|
  {
    if |events| == 0 then Reading(context, [], false)
    else Take(TakeAll(context, events[..|events| - 1]), events[|events| - 1])
  }

  function Complete(r: Reading, final: Message): (seq<Message>, seq<Event>)
    requires r.added ==> |r.context| > 0
  {
    if r.added then (ReplaceLast(r.context, final), r.log + [MessageEnd(final)])
    else (r.context + [final], r.log + [MessageStart(final), MessageEnd(final)])
  }

  function Streamed(context: seq<Message>, events: seq<StreamEvent>, final: Message): (seq<Message>, seq<Event>) {
    Complete(TakeAll(context, Read(events)), final)
  }

  /** streamAssistantResponse, after the request was sent. */
  method StreamAssistantResponse(context: seq<Message>, events: seq<StreamEvent>, final: Message)
    returns (context': seq<Message>, log: seq<Event>)
    ensures (context', log) == Streamed(context, events, final)
  {
    context', log := context, [];
    var partial: Option<Message> := None;
    var addedPartial := false;
    var k := 0;
    ghost var read := Read(events);
    while k < |events|
      invariant k <= |read| && (addedPartial ==> |context'| > 0)
      invariant partial.Some? == addedPartial
      invariant Reading(context', log, addedPartial) == TakeAll(context, read[..k])
    {
      if events[k].Finished? {
        break;
      }
      assert k < |read| && read[..k + 1][..k] == read[..k];
      match events[k] {
        case Start(p) =>
          partial := Some(p);
          context', log, addedPartial := context' + [p], log + [MessageStart(p)], true;
        case Delta(p) =>
          if partial.Some? {
            partial := Some(p);
            context', log := context'[|context'| - 1 := p], log + [MessageUpdate(p)];
          }
        case Finished =>
      }
      k := k + 1;
    }
    assert k == |read| && read[..k] == read;
    if addedPartial {
      context' := context'[|context'| - 1 := final];
    } else {
      context', log := context' + [final], log + [MessageStart(final)];
    }
    log := log + [MessageEnd(final)];
    assert !addedPartial ==> log == TakeAll(context, read).log + [MessageStart(final), MessageEnd(final)];
  }

  // ---------------------------------------------------------------- what streaming leaves behind

  /** Where the lifecycle grammar stands after a log that no start has broken yet. */
  lemma {:induction false} ReadingPlace(context: seq<Message>, events: seq<StreamEvent>)
    requires forall k | 0 <= k < |events| :: !events[k].Finished?
    ensures var r, starts := TakeAll(context, events), StartCount(events);
      && r.added == (starts > 0) && Ends(r.log) == []
      && |r.context| == |context| + starts && r.context[..|context|] == context
      && Walk(QUIET, r.log) == if starts == 0 then QUIET else if starts == 1 then InTurn(true, multiset{}) else Bad
    decreases |events|
  {
    if |events| == 0 {
    } else {
      var init, last := events[..|events| - 1], events[|events| - 1];
      ReadingPlace(context, init);
      var before, after := TakeAll(context, init), TakeAll(context, events);
      if last.Start? {
        AppendOne(before.log, MessageStart(last.partial));
      } else if before.added {
        AppendOne(before.log, MessageUpdate(last.partial));
      }
    }
  }

  lemma {:induction false} AppendOne(log: seq<Event>, e: Event)
    ensures Walk(QUIET, log + [e]) == Next(Walk(QUIET, log), e)
    ensures Ends(log + [e]) == if e.MessageEnd? then Ends(log) + [e.message] else Ends(log)
  {
    assert (log + [e])[..|log|] == log;
    assert Ends(log) + [] == Ends(log);
  }

  lemma {:induction false} StreamedContext(context: seq<Message>, events: seq<StreamEvent>, final: Message)
    ensures var r, starts := Streamed(context, events, final), StartCount(Read(events));
      && (starts <= 1 <==> r.0 == context + [final])
      && |r.0| == |context| + if starts == 0 then 1 else starts
  {
    ReadingPlace(context, Read(events));
    var r := TakeAll(context, Read(events));
    if !r.added {
      assert r.context == r.context[..|context|];
    } else if |r.context| == |context| + 1 {
      assert ReplaceLast(r.context, final) == r.context[..|context|] + [final];
    }
  }

  lemma {:induction false} CloseMessage(log: seq<Event>, final: Message)
    requires Walk(QUIET, log) == InTurn(true, multiset{}) || Walk(QUIET, log) == Bad
    requires Ends(log) == []
    ensures Walk(QUIET, log + [MessageEnd(final)]) == if Walk(QUIET, log).Bad? then Bad else QUIET
    ensures Ends(log + [MessageEnd(final)]) == [final]
  {
    AppendOne(log, MessageEnd(final));
  }

  lemma {:induction false} WholeMessage(final: Message)
    ensures Walk(QUIET, [MessageStart(final), MessageEnd(final)]) == QUIET
    ensures Ends([MessageStart(final), MessageEnd(final)]) == [final]
  {
    AppendOne([], MessageStart(final));
    assert [MessageStart(final)] == [] + [MessageStart(final)];
    assert [MessageStart(final), MessageEnd(final)] == [MessageStart(final)] + [MessageEnd(final)];
    CloseMessage([MessageStart(final)], final);
  }

  lemma {:induction false} NothingRead(context: seq<Message>, events: seq<StreamEvent>)
    requires forall k | 0 <= k < |events| :: !events[k].Finished?
    requires StartCount(events) == 0
    ensures TakeAll(context, events).log == []
    decreases |events|
  {
    if |events| == 0 {
    } else {
      NothingRead(context, events[..|events| - 1]);
      ReadingPlace(context, events[..|events| - 1]);
    }
  }

  lemma {:induction false} StreamedLog(context: seq<Message>, events: seq<StreamEvent>, final: Message)
    ensures var r, starts := Streamed(context, events, final), StartCount(Read(events));
      (starts <= 1 <==> Walk(QUIET, r.1) == QUIET) && Ends(r.1) == [final]
  {
    ReadingPlace(context, Read(events));
    if StartCount(Read(events)) > 0 {
      CloseMessage(TakeAll(context, Read(events)).log, final);
    } else {
      NothingRead(context, Read(events));
      WholeMessage(final);
    }
  }

  /**
   A response adds exactly its final message to the context and one well-formed message to the
   log when the stream announces itself at most once; a second announcement leaves every earlier
   partial message in the context and breaks the event grammar.
   */
  lemma {:induction false} StreamingIsCleanIffOneStart(context: seq<Message>, events: seq<StreamEvent>, final: Message)
    ensures var r, starts := Streamed(context, events, final), StartCount(Read(events));
      && (starts <= 1 <==> r.0 == context + [final])
      && (starts <= 1 <==> Walk(QUIET, r.1) == QUIET)
      && Ends(r.1) == [final]
      && |r.0| == |context| + if starts == 0 then 1 else starts
  {
    StreamedContext(context, events, final);
    StreamedLog(context, events, final);
  }

  // ---------------------------------------------------------------- which events are emitted

  /** The lifecycle event for what the stream yields. */
  function Announced(e: StreamEvent): Event
    requires !e.Finished?
  {
    if e.Start? then MessageStart(e.partial) else MessageUpdate(e.partial)
  }

  /** The stream's first `n` events announce nothing, and the next one, if any, is a start. */
  predicate SilentBefore(events: seq<StreamEvent>, n: nat) {
    && n <= |events| && (forall k | 0 <= k < n :: events[k].Delta?)
    && (n < |events| ==> events[n].Start?) && forall k | 0 <= k < |events| :: !events[k].Finished?
  }

  lemma {:induction false} TakenAreAnnounced(context: seq<Message>, events: seq<StreamEvent>, n: nat)
    requires SilentBefore(events, n)
    ensures var r := TakeAll(context, events);
      && (r.added <==> n < |events|) && |r.log| == |events| - n
      && forall j: nat | j < |r.log| :: r.log[j] == Announced(events[n + j])
    decreases |events|
  {
    if |events| == 0 {
    } else {
      var init, last := events[..|events| - 1], events[|events| - 1];
      if n < |events| {
        assert SilentBefore(init, n);
        TakenAreAnnounced(context, init, n);
        var before, r := TakeAll(context, init), TakeAll(context, events);
        assert n == |init| ==> last.Start?;
        assert r.log == before.log + [Announced(last)];
      } else {
        assert SilentBefore(init, n - 1);
        TakenAreAnnounced(context, init, n - 1);
      }
    }
  }

  /**
   The events of a response: from the first start on one for everything the stream yields, with what
   it yields, then the end with the final message; without a start the final message starts and ends.
   */
  lemma {:induction false} ResponseEvents(context: seq<Message>, events: seq<StreamEvent>, final: Message, n: nat)
    requires SilentBefore(Read(events), n)
    ensures var log, read := Streamed(context, events, final).1, Read(events);
      if n == |read| then log == [MessageStart(final), MessageEnd(final)]
      else
        && |log| == |read| - n + 1 && log[|log| - 1] == MessageEnd(final)
        && forall j: nat | j < |read| - n :: log[j] == Announced(read[n + j])
  {
    TakenAreAnnounced(context, Read(events), n);
  }

  lemma {:induction false} ReadTwo(a: StreamEvent, b: StreamEvent)
    requires !a.Finished? && !b.Finished?
    ensures Read([a, b, Finished]) == [a, b]
  {
    assert [a, b, Finished][1..] == [b, Finished] && [b, Finished][1..] == [Finished];
    assert Read([b, Finished]) == [b];
  }

  lemma {:induction false} TakeTwoStarts(context: seq<Message>, partial: Message)
    ensures TakeAll(context, [Start(partial), Start(partial)]).context == context + [partial, partial]
    ensures TakeAll(context, [Start(partial), Start(partial)]).added
    ensures StartCount([Start(partial), Start(partial)]) == 2
  {
    var one, two := [Start(partial)], [Start(partial), Start(partial)];
    assert one[..0] == [] && two[..1] == one;
    assert StartCount(one) == 1;
    assert TakeAll(context, one).context == context + [partial];
  }

  /** A stream that announces itself twice keeps its first partial message in the context. */
  lemma {:induction false} SecondStartKeepsPartial(context: seq<Message>, partial: Message, final: Message)
    ensures var r := Streamed(context, [Start(partial), Start(partial), Finished], final);
      r.0 == context + [partial, final] && Walk(QUIET, r.1).Bad?
  {
    var two := [Start(partial), Start(partial)];
    ReadTwo(Start(partial), Start(partial));
    TakeTwoStarts(context, partial);
    ReadingPlace(context, two);
    CloseMessage(TakeAll(context, two).log, final);
    assert ReplaceLast(context + [partial, partial], final) == context + [partial, final];
  }
}
