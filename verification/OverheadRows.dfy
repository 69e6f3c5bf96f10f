/**
 What one row adds to every figure of the report, in terms of the usages of its calls: which calls a
 column gets, and that each figure is a plain sum over them.
 */
module OverheadRows {
  import opened Wrappers
  import opened Overhead

  // ---------------------------------------------------------------- sums over usages

  type Usages = seq<Option<Usage>>

  /** The reported usages added up. */
  function Sum(usages: Usages): Usage
    decreases |usages|
  {
    if |usages| == 0 then Usage(0, 0, 0, 0, 0) else
    var before, last := Sum(usages[..|usages| - 1]), usages[|usages| - 1];
    if last.None? then before
    else Usage(before.input + last.value.input, before.cacheRead + last.value.cacheRead,
               before.cacheWrite + last.value.cacheWrite, before.output + last.value.output,
               before.reasoning + last.value.reasoning)
  }

  function Unreported(usages: Usages): nat
    decreases |usages|
  {
    if |usages| == 0 then 0
    else Unreported(usages[..|usages| - 1]) + if usages[|usages| - 1].None? then 1 else 0
  }

  /** Calls that wrote to the cache. */
  function Writes(usages: Usages): nat
    decreases |usages|
  {
    if |usages| == 0 then 0 else
    var last := usages[|usages| - 1];
    Writes(usages[..|usages| - 1]) + if last.Some? && last.value.cacheWrite > 0 then 1 else 0
  }

  /** A column's figures are those of some calls: how many, how many without usage, and the sums. */
  ghost predicate Figures(charges: seq<Charge>, c: Column, usages: Usages) {
    && Total(charges, Fig(c, Calls)) == |usages|
    && Total(charges, Fig(c, UsageMissing)) == Unreported(usages)
    && Total(charges, Fig(c, Input)) == Sum(usages).input
    && Total(charges, Fig(c, CacheRead)) == Sum(usages).cacheRead
    && Total(charges, Fig(c, CacheWrite)) == Sum(usages).cacheWrite
    && Total(charges, Fig(c, CacheWriteReports)) == Writes(usages)
    && Total(charges, Fig(c, Output)) == Sum(usages).output
    && Total(charges, Fig(c, Reasoning)) == Sum(usages).reasoning
  }

  /** The charge is a call that column `c` gets; repairs of failures are counted in two columns. */
  predicate Gets(c: Column, charge: Charge) {
    charge.Call? && (charge.column == c || (charge.repair && c == RepairNotCommitted))
  }

  function UsagesOf(charges: seq<Charge>, c: Column): Usages
    decreases |charges|
  {
    if |charges| == 0 then [] else
    var last := charges[|charges| - 1];
    UsagesOf(charges[..|charges| - 1], c) + if Gets(c, last) then [last.usage] else []
  }

  lemma {:induction false} SumsGrow(usages: Usages, usage: Option<Usage>)
    ensures Sum(usages + [usage]) ==
            if usage.None? then Sum(usages)
            else var s, u := Sum(usages), usage.value;
              Usage(s.input + u.input, s.cacheRead + u.cacheRead, s.cacheWrite + u.cacheWrite, s.output + u.output,
                    s.reasoning + u.reasoning)
    ensures Unreported(usages + [usage]) == Unreported(usages) + if usage.None? then 1 else 0
    ensures Writes(usages + [usage]) == Writes(usages) + if usage.Some? && usage.value.cacheWrite > 0 then 1 else 0
  {
    assert (usages + [usage])[..|usages|] == usages;
  }

  lemma {:induction false} TotalGrows(charges: seq<Charge>, charge: Charge, key: Key)
    ensures Total(charges + [charge], key) == Total(charges, key) + Amount(charge, key)
    ensures Total([charge], key) == Amount(charge, key)
  {
    assert (charges + [charge])[..|charges|] == charges && [charge][..0] == [];
  }

  /** What one charge adds to a figure of a column. */
  lemma {:induction false} AmountIs(charge: Charge, c: Column, f: Figure)
    requires charge.Call? ==> charge.column != RepairNotCommitted
    requires f != CacheWrite1h
    ensures Amount(charge, Fig(c, f)) == if Gets(c, charge) then Reported(charge.usage, f) else 0
  {}

  lemma {:induction false} OneMoreFigures(charges: seq<Charge>, charge: Charge, c: Column, usages: Usages)
    requires Figures(charges, c, usages) && (charge.Call? ==> charge.column != RepairNotCommitted)
    ensures Figures(charges + [charge], c, if Gets(c, charge) then usages + [charge.usage] else usages)
  {
    forall f | f != CacheWrite1h
      ensures Total(charges + [charge], Fig(c, f)) ==
              Total(charges, Fig(c, f)) + if Gets(c, charge) then Reported(charge.usage, f) else 0
    {
      TotalGrows(charges, charge, Fig(c, f));
      AmountIs(charge, c, f);
    }
    if Gets(c, charge) {
      SumsGrow(usages, charge.usage);
    }
  }

  /** Every figure of every column is the plain sum over the calls that the column gets. */
  lemma {:induction false} FiguresAreSums(charges: seq<Charge>, c: Column)
    requires Sorted(charges)
    ensures Figures(charges, c, UsagesOf(charges, c))
    decreases |charges|
  {
    if |charges| == 0 {
    } else {
      var init, last := charges[..|charges| - 1], charges[|charges| - 1];
      FiguresAreSums(init, c);
      OneMoreFigures(init, last, c, UsagesOf(init, c));
      assert charges == init + [last];
      assert UsagesOf(init, c) + [] == UsagesOf(init, c);
    }
  }

  // ---------------------------------------------------------------- the calls of a row

  function UsagesOfJournal(calls: seq<JournalCall>): Usages {
    seq(|calls|, k requires 0 <= k < |calls| => calls[k].usage)
  }

  /** The usages of the calls that meet a condition, in order. */
  function Where(calls: seq<WriterCall>, which: WriterCall -> bool): Usages
    decreases |calls|
  {
    if |calls| == 0 then [] else
    var last := calls[|calls| - 1];
    Where(calls[..|calls| - 1], which) + if which(last) then [last.usage] else []
  }

  function Any(): WriterCall -> bool {
    (call: WriterCall) => true
  }

  function OfPhase(phase: string): WriterCall -> bool {
    (call: WriterCall) => call.phase == phase
  }

  /** The writer's calls that a column gets: by failure, by declining, and repairs of failures once more. */
  function WritersIn(row: Row, calls: seq<WriterCall>, c: Column): Usages
    requires row.Attempt?
  {
    if row.ok then
      match c
      case ToolCallDeclined => Where(calls, (call: WriterCall) => call.toolUse)
      case Writer => Where(calls, (call: WriterCall) => !call.toolUse)
      case _ => []
    else if c == RepairNotCommitted then Where(calls, OfPhase("repair"))
    else if c == (if row.crashed then Crashed else Refused) then Where(calls, Any())
    else []
  }

  /** The row's calls that a column gets. */
  function CallsIn(row: Row, c: Column): Usages {
    match row
    case Attempt(_, _, ok, _, complete, _, _, journal, _, _) =>
      WritersIn(row, WriterCalls(row), c) +
      if c == (if ok && complete then Writer else Preparation) then UsagesOfJournal(Journal(journal, Preparing)) else []
    case Probe(_, history, rounds, _, journal) =>
      (if c == (if history then History else NoHistory) then rounds else []) +
      if c == Preparation then UsagesOfJournal(Journal(journal, Preparing)) else []
    case Warmup(_, journal) => if c == Preparation then UsagesOfJournal(Journal(journal, Preparing)) else []
  }

  lemma {:induction false} UsagesConcat(a: seq<Charge>, b: seq<Charge>, c: Column)
    ensures UsagesOf(a + b, c) == UsagesOf(a, c) + UsagesOf(b, c)
    decreases |b|
  {
    if |b| == 0 {
      assert a + b == a;
    } else {
      assert (a + b)[..|a + b| - 1] == a + b[..|b| - 1];
      UsagesConcat(a, b[..|b| - 1], c);
    }
  }

  lemma {:induction false} NoUsages(charges: seq<Charge>, c: Column)
    requires forall k | 0 <= k < |charges| :: !charges[k].Call?
    ensures UsagesOf(charges, c) == []
    decreases |charges|
  {
    if |charges| == 0 {
    } else {
      NoUsages(charges[..|charges| - 1], c);
    }
  }

  /** Charges that are the calls of one column. */
  predicate AreCalls(charges: seq<Charge>, column: Column, usages: Usages) {
    |charges| == |usages| && forall k | 0 <= k < |charges| ::
      charges[k].Call? && charges[k].column == column && !charges[k].repair && charges[k].usage == usages[k]
  }

  lemma {:induction false} OneColumn(charges: seq<Charge>, column: Column, usages: Usages, c: Column)
    requires AreCalls(charges, column, usages) && column != RepairNotCommitted
    ensures UsagesOf(charges, c) == if c == column then usages else []
    decreases |charges|
  {
    if |charges| == 0 {
    } else {
      var last := |charges| - 1;
      assert AreCalls(charges[..last], column, usages[..last]);
      OneColumn(charges[..last], column, usages[..last], c);
      assert charges[last].usage == usages[last] && (Gets(c, charges[last]) <==> c == column);
      assert usages == usages[..last] + [usages[last]];
    }
  }

  lemma {:induction false} WriterUsages(row: Row, calls: seq<WriterCall>, c: Column)
    requires row.Attempt?
    ensures UsagesOf(WriterCharges(row, calls), c) == WritersIn(row, calls, c)
    decreases |calls|
  {
    if |calls| == 0 {
    } else {
      var init := calls[..|calls| - 1];
      WriterUsages(row, init, c);
      assert WriterCharges(row, calls)[..|init|] == WriterCharges(row, init);
    }
  }

  lemma {:induction false} FourUsages(a: seq<Charge>, b: seq<Charge>, d: seq<Charge>, e: seq<Charge>, c: Column)
    requires UsagesOf(b, c) == [] && UsagesOf(e, c) == []
    ensures UsagesOf(a + b + d + e, c) == UsagesOf(a, c) + UsagesOf(d, c)
  {
    UsagesConcat(a, b, c);
    UsagesConcat(a + b, d, c);
    UsagesConcat(a + b + d, e, c);
    assert UsagesOf(a, c) + [] == UsagesOf(a, c);
  }

  lemma {:induction false} PreparationUsages(calls: seq<JournalCall>, column: Column, c: Column)
    requires column != RepairNotCommitted
    ensures UsagesOf(PreparationCharges(calls, column), c) == if c == column then UsagesOfJournal(calls) else []
  {
    OneColumn(PreparationCharges(calls, column), column, UsagesOfJournal(calls), c);
  }

  lemma {:induction false} RoundUsages(row: Row, c: Column)
    requires row.Probe?
    ensures UsagesOf(RoundCharges(row), c) ==
            if c == (if row.history then History else NoHistory) then row.rounds else []
  {
    OneColumn(RoundCharges(row), if row.history then History else NoHistory, row.rounds, c);
  }

  lemma {:induction false} AttemptUsages(row: Row, c: Column)
    requires row.Attempt?
    ensures UsagesOf(Charges(row), c) == CallsIn(row, c)
  {
    var w, o := WriterCharges(row, WriterCalls(row)), OneHourCharges(row);
    var p, n := PreparationCharges(Journal(row.journal, Preparing), PreparationColumn(row)), NoteCharges(row);
    NoUsages(o, c);
    NoUsages(n, c);
    FourUsages(w, o, p, n, c);
    WriterUsages(row, WriterCalls(row), c);
    PreparationUsages(Journal(row.journal, Preparing), PreparationColumn(row), c);
  }

  lemma {:induction false} ProbeUsages(row: Row, c: Column)
    requires row.Probe?
    ensures UsagesOf(Charges(row), c) == CallsIn(row, c)
  {
    var r, q := RoundCharges(row), if row.history then [Plain(Questions, 1)] else [];
    var x, p := ExtraCharges(row.extras), PreparationCharges(Journal(row.journal, Preparing), Preparation);
    NoUsages(q + x, c);
    UsagesConcat(r, q + x, c);
    UsagesConcat(r + (q + x), p, c);
    assert r + (q + x) + p == Charges(row);
    assert UsagesOf(r, c) + [] == UsagesOf(r, c);
    RoundUsages(row, c);
    PreparationUsages(Journal(row.journal, Preparing), Preparation, c);
  }

  /**
   What a row adds to the figures of a column: the number of the calls that its outcome puts there,
   how many of them reported no usage, and the sums of the usages that were reported.
   */
  lemma {:induction false} RowFigures(row: Row, c: Column)
    ensures Figures(Charges(row), c, CallsIn(row, c))
  {
    ChargesSorted(row);
    FiguresAreSums(Charges(row), c);
    match row
    case Attempt(_, _, _, _, _, _, _, _, _, _) => AttemptUsages(row, c);
    case Probe(_, _, _, _, _) => ProbeUsages(row, c);
    case Warmup(_, journal) =>
      PreparationUsages(Journal(journal, Preparing), Preparation, c);
  }

  /** The calls of a writer are its records, then what the journal has beyond them. */
  lemma {:induction false} WriterCallAt(row: Row, k: nat)
    requires row.Attempt? && k < |WriterCalls(row)|
    ensures var journal := Journal(row.journal, Compaction);
      if k < |row.calls| then WriterCalls(row)[k] == row.calls[k]
      else k < |journal| && WriterCalls(row)[k] == WriterCall(journal[k].phase, false, journal[k].usage)
  {}

  /** A journal's calls of one purpose that were dispatched, in order. */
  lemma {:induction false} JournalConcat(a: seq<JournalCall>, call: JournalCall, purpose: Purpose)
    ensures Journal([], purpose) == []
    ensures Journal(a + [call], purpose) ==
            Journal(a, purpose) + if call.purpose == purpose && !call.undispatched then [call] else []
  {
    assert (a + [call])[..|a|] == a;
    assert Journal(a, purpose) + [] == Journal(a, purpose);
  }

  // ---------------------------------------------------------------- everything else

  lemma {:induction false} CallsAddNothing(charges: seq<Charge>, key: Key)
    requires forall k | 0 <= k < |charges| :: charges[k].Call?
    requires key.Other? || (key.Fig? && key.figure == CacheWrite1h)
    ensures Total(charges, key) == 0
    decreases |charges|
  {
    if |charges| == 0 {
    } else {
      CallsAddNothing(charges[..|charges| - 1], key);
    }
  }

  /** What a committed note counts for. */
  function NoteAmount(row: Row, item: Item): nat
    requires row.Attempt? && row.note.Some?
  {
    match item
    case Committed => 1
    case NoteBytes => row.note.value.bytes
    case NoteTokens => row.note.value.tokens
    case ReplacedBytes => row.note.value.contextBytes
    case ReplacedTokens => row.replacedTokens
    case _ => 0
  }

  lemma {:induction false} NoteTotals(row: Row, key: Key)
    requires row.Attempt? && (key.Other? || (key.Fig? && key.figure == CacheWrite1h))
    ensures Total(NoteCharges(row), key) ==
            if key.Other? && row.ok && row.note.Some? then NoteAmount(row, key.item) else 0
  {
    if row.ok && row.note.Some? {
      var n := NoteCharges(row);
      TotalGrows([], n[0], key);
      TotalGrows([n[0]], n[1], key);
      TotalGrows([n[0], n[1]], n[2], key);
      TotalGrows([n[0], n[1], n[2]], n[3], key);
      TotalGrows([n[0], n[1], n[2], n[3]], n[4], key);
      assert [n[0]] + [n[1]] == [n[0], n[1]] && [n[0], n[1]] + [n[2]] == [n[0], n[1], n[2]];
      assert [n[0], n[1], n[2]] + [n[3]] == [n[0], n[1], n[2], n[3]];
      assert [n[0], n[1], n[2], n[3]] + [n[4]] == n;
    }
  }

  lemma {:induction false} OneHourTotals(row: Row, key: Key)
    requires row.Attempt? && (key.Other? || (key.Fig? && key.figure == CacheWrite1h))
    ensures Total(OneHourCharges(row), key) ==
            if row.oneHour.Some? && key.Fig? && key.column == (if row.ok then Writer else FailedColumn(row))
            then row.oneHour.value else 0
  {
    if row.oneHour.Some? {
      TotalGrows([], OneHourCharges(row)[0], key);
    }
  }

  lemma {:induction false} AttemptTotals(row: Row, key: Key)
    requires row.Attempt? && (key.Other? || (key.Fig? && key.figure == CacheWrite1h))
    ensures Total(Charges(row), key) == Total(OneHourCharges(row), key) + Total(NoteCharges(row), key)
  {
    var w, o := WriterCharges(row, WriterCalls(row)), OneHourCharges(row);
    var p, n := PreparationCharges(Journal(row.journal, Preparing), PreparationColumn(row)), NoteCharges(row);
    CallsAddNothing(w, key);
    CallsAddNothing(p, key);
    TotalConcat(w, o, key);
    TotalConcat(w + o, p, key);
    TotalConcat(w + o + p, n, key);
  }

  /** An attempt counts its note when it succeeded, and its one-hour writes where its outcome says. */
  lemma {:induction false} AttemptCounts(row: Row, item: Item, c: Column)
    requires row.Attempt?
    ensures Total(Charges(row), Other(item)) == if row.ok && row.note.Some? then NoteAmount(row, item) else 0
    ensures Total(Charges(row), Fig(c, CacheWrite1h)) ==
            if row.oneHour.Some? && c == (if row.ok then Writer else if row.crashed then Crashed else Refused)
            then row.oneHour.value else 0
  {
    AttemptTotals(row, Other(item));
    AttemptTotals(row, Fig(c, CacheWrite1h));
    NoteTotals(row, Other(item));
    NoteTotals(row, Fig(c, CacheWrite1h));
    OneHourTotals(row, Other(item));
    OneHourTotals(row, Fig(c, CacheWrite1h));
  }

  /** What a probe's own figures come to for an item. */
  function Extras(extras: seq<(Item, nat)>, item: Item): nat
    decreases |extras|
  {
    if |extras| == 0 then 0 else
    var last := extras[|extras| - 1];
    Extras(extras[..|extras| - 1], item) + if last.0 == item then last.1 else 0
  }

  lemma {:induction false} ExtraTotals(extras: seq<(Item, nat)>, item: Item)
    ensures Total(ExtraCharges(extras), Other(item)) == Extras(extras, item)
    decreases |extras|
  {
    if |extras| == 0 {
    } else {
      ExtraTotals(extras[..|extras| - 1], item);
      assert ExtraCharges(extras)[..|extras| - 1] == ExtraCharges(extras[..|extras| - 1]);
    }
  }

  /** A probe with the history is one question; its other figures are added up. */
  lemma {:induction false} ProbeCounts(row: Row, item: Item)
    requires row.Probe?
    ensures Total(Charges(row), Other(item)) ==
            Extras(row.extras, item) + if item == Questions && row.history then 1 else 0
  {
    var r, q := RoundCharges(row), if row.history then [Plain(Questions, 1)] else [];
    var x, p := ExtraCharges(row.extras), PreparationCharges(Journal(row.journal, Preparing), Preparation);
    var key := Other(item);
    CallsAddNothing(r, key);
    ExtraTotals(row.extras, item);
    CallsAddNothing(p, key);
    TotalGrows([], Plain(Questions, 1), key);
    TotalConcat(r, q, key);
    TotalConcat(r + q, x, key);
    TotalConcat(r + q + x, p, key);
  }

  // ---------------------------------------------------------------- calls that reported nothing

  /** The usages of a journal's calls in one phase. */
  function InPhase(calls: seq<JournalCall>, phase: string): Usages
    decreases |calls|
  {
    if |calls| == 0 then [] else
    var last := calls[|calls| - 1];
    InPhase(calls[..|calls| - 1], phase) + if last.phase == phase then [last.usage] else []
  }

  predicate Missing(key: Key) {
    key.MissingPurpose? || key.MissingPhase?
  }

  lemma {:induction false} OthersMissNothing(charges: seq<Charge>, key: Key)
    requires Missing(key) && forall k | 0 <= k < |charges| :: !charges[k].Call?
    ensures Total(charges, key) == 0
    decreases |charges|
  {
    if |charges| == 0 {
    } else {
      OthersMissNothing(charges[..|charges| - 1], key);
    }
  }

  /** One more call of a writer or a journal. */
  lemma {:induction false} MissesGrow(charges: seq<Charge>, charge: Charge, key: Key)
    requires Missing(key) && charge.Call?
    ensures Total(charges + [charge], key) ==
            Total(charges, key) +
            if charge.usage.None? && key == (if key.MissingPurpose? then MissingPurpose(charge.purpose)
                                             else MissingPhase(charge.phase)) then 1 else 0
  {
    TotalGrows(charges, charge, key);
  }

  lemma {:induction false} WriterMissesPurpose(row: Row, calls: seq<WriterCall>, purpose: string)
    requires row.Attempt?
    ensures Total(WriterCharges(row, calls), MissingPurpose(purpose)) ==
            if purpose == "compaction" then Unreported(Where(calls, Any())) else 0
    decreases |calls|
  {
    if |calls| == 0 {
    } else {
      var init, last := calls[..|calls| - 1], calls[|calls| - 1];
      var charges := WriterCharges(row, calls);
      WriterMissesPurpose(row, init, purpose);
      assert charges == WriterCharges(row, init) + [charges[|init|]];
      MissesGrow(WriterCharges(row, init), charges[|init|], MissingPurpose(purpose));
      SumsGrow(Where(init, Any()), last.usage);
    }
  }

  lemma {:induction false} WriterMissesPhase(row: Row, calls: seq<WriterCall>, phase: string)
    requires row.Attempt?
    ensures Total(WriterCharges(row, calls), MissingPhase(phase)) == Unreported(Where(calls, OfPhase(phase)))
    decreases |calls|
  {
    if |calls| == 0 {
    } else {
      var init, last := calls[..|calls| - 1], calls[|calls| - 1];
      var charges := WriterCharges(row, calls);
      WriterMissesPhase(row, init, phase);
      assert charges == WriterCharges(row, init) + [charges[|init|]];
      MissesGrow(WriterCharges(row, init), charges[|init|], MissingPhase(phase));
      SumsGrow(Where(init, OfPhase(phase)), last.usage);
      assert Where(init, OfPhase(phase)) + [] == Where(init, OfPhase(phase));
    }
  }

  lemma {:induction false} PreparationMissesPurpose(calls: seq<JournalCall>, column: Column, purpose: string)
    ensures Total(PreparationCharges(calls, column), MissingPurpose(purpose)) ==
            if purpose == "preparation" then Unreported(UsagesOfJournal(calls)) else 0
    decreases |calls|
  {
    if |calls| == 0 {
    } else {
      var init, last := calls[..|calls| - 1], calls[|calls| - 1];
      var charges := PreparationCharges(calls, column);
      PreparationMissesPurpose(init, column, purpose);
      assert charges == PreparationCharges(init, column) + [charges[|init|]];
      MissesGrow(PreparationCharges(init, column), charges[|init|], MissingPurpose(purpose));
      assert UsagesOfJournal(calls) == UsagesOfJournal(init) + [last.usage];
      SumsGrow(UsagesOfJournal(init), last.usage);
    }
  }

  lemma {:induction false} PreparationMissesPhase(calls: seq<JournalCall>, column: Column, phase: string)
    ensures Total(PreparationCharges(calls, column), MissingPhase(phase)) == Unreported(InPhase(calls, phase))
    decreases |calls|
  {
    if |calls| == 0 {
    } else {
      var init, last := calls[..|calls| - 1], calls[|calls| - 1];
      var charges := PreparationCharges(calls, column);
      PreparationMissesPhase(init, column, phase);
      assert charges == PreparationCharges(init, column) + [charges[|init|]];
      MissesGrow(PreparationCharges(init, column), charges[|init|], MissingPhase(phase));
      SumsGrow(InPhase(init, phase), last.usage);
      assert InPhase(init, phase) + [] == InPhase(init, phase);
    }
  }

  lemma {:induction false} RoundMisses(charges: seq<Charge>, rounds: Usages, purpose: string, phase: string)
    requires |charges| == |rounds| && forall k | 0 <= k < |charges| ::
               charges[k].Call? && charges[k].usage == rounds[k] && charges[k].purpose == charges[k].phase == "probe"
    ensures Total(charges, MissingPurpose(purpose)) == if purpose == "probe" then Unreported(rounds) else 0
    ensures Total(charges, MissingPhase(phase)) == if phase == "probe" then Unreported(rounds) else 0
    decreases |charges|
  {
    if |charges| == 0 {
    } else {
      var last := |charges| - 1;
      RoundMisses(charges[..last], rounds[..last], purpose, phase);
      SumsGrow(rounds[..last], rounds[last]);
      assert rounds == rounds[..last] + [rounds[last]];
    }
  }

  /** The calls of an attempt that reported nothing are tallied by purpose and by phase. */
  lemma {:induction false} AttemptMisses(row: Row, purpose: string, phase: string)
    requires row.Attempt?
    ensures var writers, calls := WriterCalls(row), Journal(row.journal, Preparing);
      && Total(Charges(row), MissingPurpose(purpose)) ==
         (if purpose == "compaction" then Unreported(Where(writers, Any())) else 0)
         + (if purpose == "preparation" then Unreported(UsagesOfJournal(calls)) else 0)
      && Total(Charges(row), MissingPhase(phase)) ==
         Unreported(Where(writers, OfPhase(phase))) + Unreported(InPhase(calls, phase))
  {
    var w, o := WriterCharges(row, WriterCalls(row)), OneHourCharges(row);
    var p, n := PreparationCharges(Journal(row.journal, Preparing), PreparationColumn(row)), NoteCharges(row);
    WriterMissesPurpose(row, WriterCalls(row), purpose);
    WriterMissesPhase(row, WriterCalls(row), phase);
    PreparationMissesPurpose(Journal(row.journal, Preparing), PreparationColumn(row), purpose);
    PreparationMissesPhase(Journal(row.journal, Preparing), PreparationColumn(row), phase);
    forall key | key == MissingPurpose(purpose) || key == MissingPhase(phase)
      ensures Total(Charges(row), key) == Total(w, key) + Total(p, key)
    {
      OthersMissNothing(o, key);
      OthersMissNothing(n, key);
      TotalConcat(w, o, key);
      TotalConcat(w + o, p, key);
      TotalConcat(w + o + p, n, key);
    }
  }

  /** And so are those of a probe. */
  lemma {:induction false} ProbeMisses(row: Row, purpose: string, phase: string)
    requires row.Probe?
    ensures var calls := Journal(row.journal, Preparing);
      && Total(Charges(row), MissingPurpose(purpose)) ==
         (if purpose == "probe" then Unreported(row.rounds) else 0)
         + (if purpose == "preparation" then Unreported(UsagesOfJournal(calls)) else 0)
      && Total(Charges(row), MissingPhase(phase)) ==
         (if phase == "probe" then Unreported(row.rounds) else 0) + Unreported(InPhase(calls, phase))
  {
    var r, q := RoundCharges(row), if row.history then [Plain(Questions, 1)] else [];
    var x, p := ExtraCharges(row.extras), PreparationCharges(Journal(row.journal, Preparing), Preparation);
    RoundMisses(r, row.rounds, purpose, phase);
    PreparationMissesPurpose(Journal(row.journal, Preparing), Preparation, purpose);
    PreparationMissesPhase(Journal(row.journal, Preparing), Preparation, phase);
    forall key | key == MissingPurpose(purpose) || key == MissingPhase(phase)
      ensures Total(Charges(row), key) == Total(r, key) + Total(p, key)
    {
      OthersMissNothing(q, key);
      OthersMissNothing(x, key);
      TotalConcat(r, q, key);
      TotalConcat(r + q, x, key);
      TotalConcat(r + q + x, p, key);
    }
  }
}
