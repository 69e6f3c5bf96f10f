/**
 The token-overhead report: every provider call of a run is charged to one column of the run's
 totals, of its cut's and of its tier's.
 */
module Overhead {
  import opened Wrappers

  // ---------------------------------------------------------------- tallies

  datatype Usage = Usage(input: nat, cacheRead: nat, cacheWrite: nat, output: nat, reasoning: nat)

  datatype Column =
    | Writer | Refused | Crashed | ToolCallDeclined | Preparation | History | NoHistory | RepairNotCommitted
  datatype Figure =
    | Calls | UsageMissing | Input | CacheRead | CacheWrite | CacheWriteReports | CacheWrite1h | Output | Reasoning
  datatype Item =
    | Committed | NoteBytes | NoteTokens | ReplacedBytes | ReplacedTokens | Questions | ExcerptTokens
    | OperationCalls(operation: string) | OperationCallTokens(operation: string) | OperationReturned(operation: string)
  datatype Key =
    | Fig(column: Column, figure: Figure)
    | MissingCount | MissingPhase(phase: string) | MissingPurpose(purpose: string)
    | Other(item: Item)

  type Tally = map<Key, nat>

  function Get(t: Tally, k: Key): nat {
    if k in t then t[k] else 0
  }

  function Bump(t: Tally, k: Key, n: nat): Tally {
    t[k := Get(t, k) + n]
  }

  /** One thing to enter: a provider call, one-hour cache writes of an attempt, or a plain count. */
  datatype Charge =
    | Call(column: Column, repair: bool, usage: Option<Usage>, purpose: string, phase: string)
    | OneHour(column: Column, tokens: nat)
    | Plain(item: Item, amount: nat)

  /** What one call adds to a figure of its column. */
  function Reported(usage: Option<Usage>, f: Figure): nat {
    match f
    case Calls => 1
    case UsageMissing => if usage.None? then 1 else 0
    case CacheWrite1h => 0
    case Input => if usage.Some? then usage.value.input else 0
    case CacheRead => if usage.Some? then usage.value.cacheRead else 0
    case CacheWrite => if usage.Some? then usage.value.cacheWrite else 0
    case CacheWriteReports => if usage.Some? && usage.value.cacheWrite > 0 then 1 else 0
    case Output => if usage.Some? then usage.value.output else 0
    case Reasoning => if usage.Some? then usage.value.reasoning else 0
  }

  function If(b: bool, n: nat): nat {
    if b then n else 0
  }

  /** What a charge adds to a key, over all. */
  function Amount(c: Charge, k: Key): nat {
    match c
    case Call(column, repair, usage, purpose, phase) => (
      match k
      case Fig(col, f) =>
        If(col == column, Reported(usage, f)) + If(repair && col == RepairNotCommitted, Reported(usage, f))
      case MissingCount => If(usage.None?, 1)
      case MissingPhase(p) => If(usage.None? && p == phase, 1)
      case MissingPurpose(p) => If(usage.None? && p == purpose, 1)
      case Other(_) => 0)
    case OneHour(column, tokens) => If(k == Fig(column, CacheWrite1h), tokens)
    case Plain(item, amount) => If(k == Other(item), amount)
  }

  function Total(charges: seq<Charge>, k: Key): nat
    decreases |charges|
  {
    if |charges| == 0 then 0 else Total(charges[..|charges| - 1], k) + Amount(charges[|charges| - 1], k)
  }

  lemma {:induction false} TotalConcat(a: seq<Charge>, b: seq<Charge>, k: Key)
    ensures Total(a + b, k) == Total(a, k) + Total(b, k)
    decreases |b|
  {
    if |b| == 0 {
      assert a + b == a;
    } else {
      assert (a + b)[..|a + b| - 1] == a + b[..|b| - 1];
      TotalConcat(a, b[..|b| - 1], k);
    }
  }

  ghost predicate Grew(before: Tally, after: Tally, charge: Charge) {
    forall k :: Get(after, k) == Get(before, k) + Amount(charge, k)
  }

  method Increase(t: Tally, key: Key, n: nat) returns (t': Tally)
    ensures forall k :: Get(t', k) == Get(t, k) + If(k == key, n)
  {
    t' := Bump(t, key, n);
  }

  /** The part of `add` for a call that reported its usage. */
  method AddUsage(t: Tally, column: Column, u: Usage) returns (t': Tally)
    ensures forall k :: Get(t', k) == Get(t, k) + AddedTo(k, column, Some(u)) - If(k == Fig(column, Calls), 1)
  {
    t' := Increase(t, Fig(column, Input), u.input);
    t' := Increase(t', Fig(column, CacheRead), u.cacheRead);
    t' := Increase(t', Fig(column, CacheWrite), u.cacheWrite);
    if u.cacheWrite > 0 {
      t' := Increase(t', Fig(column, CacheWriteReports), 1);
    }
    t' := Increase(t', Fig(column, Output), u.output);
    t' := Increase(t', Fig(column, Reasoning), u.reasoning);
  }

  function AddedTo(k: Key, column: Column, usage: Option<Usage>): nat {
    if k.Fig? && k.column == column then Reported(usage, k.figure) else 0
  }

  /** add: a call without usage is counted and adds nothing else. */
  method Add(t: Tally, column: Column, usage: Option<Usage>) returns (t': Tally)
    ensures forall k :: Get(t', k) == Get(t, k) + AddedTo(k, column, usage)
  {
    t' := Increase(t, Fig(column, Calls), 1);
    if usage.None? {
      t' := Increase(t', Fig(column, UsageMissing), 1);
    } else {
      t' := AddUsage(t', column, usage.value);
    }
  }

  /** tallyMissing */
  method TallyMissing(t: Tally, purpose: string, phase: string) returns (t': Tally)
    ensures forall k ::
              var counted := k == MissingCount || k == MissingPhase(phase) || k == MissingPurpose(purpose);
              Get(t', k) == Get(t, k) + If(counted, 1)
  {
    t' := Increase(t, MissingCount, 1);
    t' := Increase(t', MissingPhase(phase), 1);
    t' := Increase(t', MissingPurpose(purpose), 1);
  }

  method Enter(t: Tally, c: Charge) returns (t': Tally)
    ensures Grew(t, t', c)
  {
    match c {
      case Call(column, repair, usage, purpose, phase) =>
        t' := Add(t, column, usage);
        if repair {
          t' := Add(t', RepairNotCommitted, usage);
        }
        if usage.None? {
          t' := TallyMissing(t', purpose, phase);
        }
      case OneHour(column, tokens) => t' := Increase(t, Fig(column, CacheWrite1h), tokens);
      case Plain(item, amount) => t' := Increase(t, Other(item), amount);
    }
  }

  method EnterAll(t: Tally, charges: seq<Charge>) returns (t': Tally)
    ensures forall k :: Get(t', k) == Get(t, k) + Total(charges, k)
  {
    t' := t;
    var i := 0;
    while i < |charges|
      invariant i <= |charges| && forall k :: Get(t', k) == Get(t, k) + Total(charges[..i], k)
    {
      assert charges[..i + 1][..i] == charges[..i];
      t' := Enter(t', charges[i]);
      i := i + 1;
    }
    assert charges[..i] == charges;
  }

  // ---------------------------------------------------------------- what a row charges

  datatype WriterCall = WriterCall(phase: string, toolUse: bool, usage: Option<Usage>)
  datatype Purpose = Compaction | Preparing
  datatype JournalCall = JournalCall(purpose: Purpose, phase: string, undispatched: bool, usage: Option<Usage>)
  datatype Note = Note(bytes: nat, tokens: nat, contextBytes: nat)

  /** An attempt, a probe or a warm-up of one cut; tiers are decided by the note budget elsewhere. */
  datatype Row =
    | Attempt(cut: string, tier: nat, ok: bool, crashed: bool, complete: bool, calls: seq<WriterCall>,
              oneHour: Option<nat>, journal: seq<JournalCall>, note: Option<Note>, replacedTokens: nat)
    | Probe(cut: string, history: bool, rounds: seq<Option<Usage>>, extras: seq<(Item, nat)>, journal: seq<JournalCall>)
    | Warmup(cut: string, journal: seq<JournalCall>)

  function Journal(journal: seq<JournalCall>, purpose: Purpose): seq<JournalCall>
    decreases |journal|
  {
    if |journal| == 0 then [] else
    var before, last := Journal(journal[..|journal| - 1], purpose), journal[|journal| - 1];
    if last.purpose == purpose && !last.undispatched then before + [last] else before
  }

  /** The row's own call records, then any journal call beyond them. */
  function WriterCalls(row: Row): seq<WriterCall>
    requires row.Attempt?
  {
    var journal := Journal(row.journal, Compaction);
    row.calls +
    if |row.calls| >= |journal| then [] else
    seq(|journal| - |row.calls|, k requires 0 <= k < |journal| - |row.calls| =>
      WriterCall(journal[|row.calls| + k].phase, false, journal[|row.calls| + k].usage))
  }

  function FailedColumn(row: Row): Column
    requires row.Attempt?
  {
    if row.crashed then Crashed else Refused
  }

  function WriterCharges(row: Row, calls: seq<WriterCall>): seq<Charge>
    requires row.Attempt?
  {
    seq(|calls|, k requires 0 <= k < |calls| =>
      Call(if !row.ok then FailedColumn(row) else if calls[k].toolUse then ToolCallDeclined else Writer,
           !row.ok && calls[k].phase == "repair", calls[k].usage, "compaction", calls[k].phase))
  }

  function OneHourCharges(row: Row): seq<Charge>
    requires row.Attempt?
  {
    if row.oneHour.None? then [] else [OneHour(if row.ok then Writer else FailedColumn(row), row.oneHour.value)]
  }

  /** Preparing a note that was committed on the complete path is part of writing it. */
  function PreparationColumn(row: Row): Column
    requires row.Attempt?
  {
    if row.ok && row.complete then Writer else Preparation
  }

  function PreparationCharges(calls: seq<JournalCall>, column: Column): seq<Charge> {
    seq(|calls|, k requires 0 <= k < |calls| => Call(column, false, calls[k].usage, "preparation", calls[k].phase))
  }

  function NoteCharges(row: Row): seq<Charge>
    requires row.Attempt?
  {
    if !row.ok || row.note.None? then [] else
    var note := row.note.value;
    [Plain(Committed, 1), Plain(NoteBytes, note.bytes), Plain(NoteTokens, note.tokens),
     Plain(ReplacedBytes, note.contextBytes), Plain(ReplacedTokens, row.replacedTokens)]
  }

  function RoundCharges(row: Row): seq<Charge>
    requires row.Probe?
  {
    seq(|row.rounds|, k requires 0 <= k < |row.rounds| =>
      Call(if row.history then History else NoHistory, false, row.rounds[k], "probe", "probe"))
  }

  function ExtraCharges(extras: seq<(Item, nat)>): seq<Charge> {
    seq(|extras|, k requires 0 <= k < |extras| => Plain(extras[k].0, extras[k].1))
  }

  /** addAttempt, addProbe and addWarmup. */
  function Charges(row: Row): seq<Charge> {
    match row
    case Attempt(_, _, _, _, _, _, _, journal, _, _) =>
      WriterCharges(row, WriterCalls(row)) + OneHourCharges(row) +
      PreparationCharges(Journal(journal, Preparing), PreparationColumn(row)) + NoteCharges(row)
    case Probe(_, history, _, extras, journal) =>
      RoundCharges(row) + (if history then [Plain(Questions, 1)] else []) + ExtraCharges(extras) +
      PreparationCharges(Journal(journal, Preparing), Preparation)
    case Warmup(_, journal) => PreparationCharges(Journal(journal, Preparing), Preparation)
  }

  function AllCharges(rows: seq<Row>): seq<Charge>
    decreases |rows|
  {
    if |rows| == 0 then [] else AllCharges(rows[..|rows| - 1]) + Charges(rows[|rows| - 1])
  }

  // ---------------------------------------------------------------- every call in one column

  function CallCount(charges: seq<Charge>): nat
    decreases |charges|
  {
    if |charges| == 0 then 0 else CallCount(charges[..|charges| - 1]) + If(charges[|charges| - 1].Call?, 1)
  }

  /** A figure summed over the columns that share out the calls. */
  function OverColumns(charges: seq<Charge>, f: Figure): nat {
    Total(charges, Fig(Writer, f)) + Total(charges, Fig(Refused, f)) + Total(charges, Fig(Crashed, f)) +
    Total(charges, Fig(ToolCallDeclined, f)) + Total(charges, Fig(Preparation, f)) + Total(charges, Fig(History, f)) +
    Total(charges, Fig(NoHistory, f))
  }

  predicate Sorted(charges: seq<Charge>) {
    forall k | 0 <= k < |charges| && charges[k].Call? :: charges[k].column != RepairNotCommitted
  }

  lemma {:induction false} OneChargeOneColumn(c: Charge, f: Figure)
    requires c.Call? ==> c.column != RepairNotCommitted
    requires f.Calls? || f.UsageMissing?
    ensures Amount(c, Fig(Writer, f)) + Amount(c, Fig(Refused, f)) + Amount(c, Fig(Crashed, f)) +
            Amount(c, Fig(ToolCallDeclined, f)) + Amount(c, Fig(Preparation, f)) + Amount(c, Fig(History, f)) +
            Amount(c, Fig(NoHistory, f)) == if c.Call? then Reported(c.usage, f) else 0
  {}

  lemma {:induction false} OneMoreCharge(charges: seq<Charge>, f: Figure)
    requires |charges| > 0 && Sorted(charges) && (f.Calls? || f.UsageMissing?)
    ensures var init, last := charges[..|charges| - 1], charges[|charges| - 1];
      OverColumns(charges, f) == OverColumns(init, f) + if last.Call? then Reported(last.usage, f) else 0
  {
    OneChargeOneColumn(charges[|charges| - 1], f);
  }

  /** Each call is in exactly one of the columns, and the missing count is the sum of theirs. */
  lemma {:induction false} EachCallInOneColumn(charges: seq<Charge>)
    requires Sorted(charges)
    ensures OverColumns(charges, Calls) == CallCount(charges)
    ensures OverColumns(charges, UsageMissing) == Total(charges, MissingCount)
    decreases |charges|
  {
    if |charges| == 0 {
    } else {
      EachCallInOneColumn(charges[..|charges| - 1]);
      OneMoreCharge(charges, Calls);
      OneMoreCharge(charges, UsageMissing);
    }
  }

  lemma {:induction false} SortedConcat(a: seq<Charge>, b: seq<Charge>)
    requires Sorted(a) && Sorted(b)
    ensures Sorted(a + b)
  {}

  lemma {:induction false} ChargesSorted(row: Row)
    ensures Sorted(Charges(row))
  {
    if row.Attempt? {
      assert Sorted(WriterCharges(row, WriterCalls(row)));
    }
  }

  lemma {:induction false} AllSorted(rows: seq<Row>)
    ensures Sorted(AllCharges(rows))
    decreases |rows|
  {
    if |rows| == 0 {
    } else {
      AllSorted(rows[..|rows| - 1]);
      ChargesSorted(rows[|rows| - 1]);
      SortedConcat(AllCharges(rows[..|rows| - 1]), Charges(rows[|rows| - 1]));
    }
  }

  lemma {:induction false} CountConcat(a: seq<Charge>, b: seq<Charge>)
    ensures CallCount(a + b) == CallCount(a) + CallCount(b)
    decreases |b|
  {
    if |b| == 0 {
      assert a + b == a;
    } else {
      assert (a + b)[..|a + b| - 1] == a + b[..|b| - 1];
      CountConcat(a, b[..|b| - 1]);
    }
  }

  lemma {:induction false} CountAll(charges: seq<Charge>, calls: bool)
    requires forall k | 0 <= k < |charges| :: charges[k].Call? == calls
    ensures CallCount(charges) == If(calls, |charges|)
    decreases |charges|
  {
    if |charges| == 0 {
    } else {
      CountAll(charges[..|charges| - 1], calls);
    }
  }

  lemma {:induction false} AllInColumn(charges: seq<Charge>, column: Column, c: Column)
    requires forall k | 0 <= k < |charges| :: charges[k].Call? && charges[k].column == column && !charges[k].repair
    ensures Total(charges, Fig(c, Calls)) == If(c == column, |charges|)
    decreases |charges|
  {
    if |charges| == 0 {
    } else {
      AllInColumn(charges[..|charges| - 1], column, c);
    }
  }

  lemma {:induction false} InNoColumn(charges: seq<Charge>, c: Column)
    requires forall k | 0 <= k < |charges| :: !charges[k].Call?
    ensures Total(charges, Fig(c, Calls)) == 0
    decreases |charges|
  {
    if |charges| == 0 {
    } else {
      InNoColumn(charges[..|charges| - 1], c);
    }
  }

  /** Calls of an attempt that answered with a tool call instead of a note. */
  function Declined(calls: seq<WriterCall>): (r: nat)
    ensures r <= |calls|
    decreases |calls|
  {
    if |calls| == 0 then 0 else Declined(calls[..|calls| - 1]) + If(calls[|calls| - 1].toolUse, 1)
  }

  function Repairs(calls: seq<WriterCall>): nat
    decreases |calls|
  {
    if |calls| == 0 then 0 else Repairs(calls[..|calls| - 1]) + If(calls[|calls| - 1].phase == "repair", 1)
  }

  /**
   Where the writer's calls go: by failure, else by whether the call declined; repairs of failures
   are counted apart too.
   */
  function WriterShare(row: Row, calls: seq<WriterCall>, c: Column): nat
    requires row.Attempt?
  {
    if row.ok then If(c == ToolCallDeclined, Declined(calls)) + If(c == Writer, |calls| - Declined(calls))
    else If(c == FailedColumn(row), |calls|) + If(c == RepairNotCommitted, Repairs(calls))
  }

  lemma {:induction false} WriterColumns(row: Row, calls: seq<WriterCall>, c: Column)
    requires row.Attempt?
    ensures Total(WriterCharges(row, calls), Fig(c, Calls)) == WriterShare(row, calls, c)
    decreases |calls|
  {
    if |calls| == 0 {
    } else {
      var init := calls[..|calls| - 1];
      WriterColumns(row, init, c);
      assert WriterCharges(row, calls)[..|init|] == WriterCharges(row, init);
    }
  }

  /** What an attempt's calls add to a column: preparation is the writer's after success on the complete path. */
  predicate AttemptColumn(row: Row, c: Column)
    requires row.Attempt?
  {
    Total(Charges(row), Fig(c, Calls)) ==
    WriterShare(row, WriterCalls(row), c) + If(c == PreparationColumn(row), |Journal(row.journal, Preparing)|)
  }

  lemma {:induction false} AttemptChargesColumn(row: Row, c: Column)
    requires row.Attempt?
    ensures AttemptColumn(row, c)
  {
    var w, o := WriterCharges(row, WriterCalls(row)), OneHourCharges(row);
    var p, n := PreparationCharges(Journal(row.journal, Preparing), PreparationColumn(row)), NoteCharges(row);
    WriterColumns(row, WriterCalls(row), c);
    InNoColumn(o, c);
    AllInColumn(p, PreparationColumn(row), c);
    InNoColumn(n, c);
    TotalConcat(w, o, Fig(c, Calls));
    TotalConcat(w + o, p, Fig(c, Calls));
    TotalConcat(w + o + p, n, Fig(c, Calls));
  }

  /**
   Every writer call and every dispatched preparation call of an attempt is charged exactly
   once, in the column the attempt's outcome says.
   */
  lemma {:induction false} AttemptChargesEachCall(row: Row)
    requires row.Attempt?
    ensures CallCount(Charges(row)) == |WriterCalls(row)| + |Journal(row.journal, Preparing)|
    ensures |WriterCalls(row)| == Max(|row.calls|, |Journal(row.journal, Compaction)|)
    ensures forall c :: AttemptColumn(row, c)
  {
    var w, o := WriterCharges(row, WriterCalls(row)), OneHourCharges(row);
    var p, n := PreparationCharges(Journal(row.journal, Preparing), PreparationColumn(row)), NoteCharges(row);
    CountAll(w, true);
    CountAll(o, false);
    CountAll(p, true);
    CountAll(n, false);
    CountConcat(w, o);
    CountConcat(w + o, p);
    CountConcat(w + o + p, n);
    forall c ensures AttemptColumn(row, c) {
      AttemptChargesColumn(row, c);
    }
  }

  function Max(a: nat, b: nat): nat {
    if a >= b then a else b
  }

  /** A probe's rounds are calls of its condition and its preparation calls are preparation; it makes no others. */
  lemma {:induction false} ProbeChargesEachCall(row: Row)
    requires row.Probe?
    ensures CallCount(Charges(row)) == |row.rounds| + |Journal(row.journal, Preparing)|
    ensures forall c :: Total(Charges(row), Fig(c, Calls)) ==
              If(c == (if row.history then History else NoHistory), |row.rounds|)
              + If(c == Preparation, |Journal(row.journal, Preparing)|)
  {
    var r, q := RoundCharges(row), if row.history then [Plain(Questions, 1)] else [];
    var x, p := ExtraCharges(row.extras), PreparationCharges(Journal(row.journal, Preparing), Preparation);
    CountAll(r, true);
    CountAll(q, false);
    CountAll(x, false);
    CountAll(p, true);
    CountConcat(r, q);
    CountConcat(r + q, x);
    CountConcat(r + q + x, p);
    forall c
      ensures Total(Charges(row), Fig(c, Calls)) ==
                If(c == (if row.history then History else NoHistory), |r|) + If(c == Preparation, |p|)
    {
      AllInColumn(r, if row.history then History else NoHistory, c);
      InNoColumn(q, c);
      InNoColumn(x, c);
      AllInColumn(p, Preparation, c);
      TotalConcat(r, q, Fig(c, Calls));
      TotalConcat(r + q, x, Fig(c, Calls));
      TotalConcat(r + q + x, p, Fig(c, Calls));
    }
  }

  /** A warm-up has preparation calls only. */
  lemma {:induction false} WarmupChargesEachCall(row: Row)
    requires row.Warmup?
    ensures CallCount(Charges(row)) == |Journal(row.journal, Preparing)|
    ensures forall c :: Total(Charges(row), Fig(c, Calls)) == If(c == Preparation, |Journal(row.journal, Preparing)|)
  {
    CountAll(Charges(row), true);
    forall c ensures Total(Charges(row), Fig(c, Calls)) == If(c == Preparation, |Journal(row.journal, Preparing)|) {
      AllInColumn(Charges(row), Preparation, c);
    }
  }

  // ---------------------------------------------------------------- the report

  datatype Cut = Cut(name: string, tally: Tally)

  function SumCuts(cuts: seq<Cut>, k: Key): nat
    decreases |cuts|
  {
    if |cuts| == 0 then 0 else SumCuts(cuts[..|cuts| - 1], k) + Get(cuts[|cuts| - 1].tally, k)
  }

  function SumTiers(tiers: seq<Tally>, k: Key): nat
    decreases |tiers|
  {
    if |tiers| == 0 then 0 else SumTiers(tiers[..|tiers| - 1], k) + Get(tiers[|tiers| - 1], k)
  }

  lemma {:induction false} SumCutsAt(cuts: seq<Cut>, i: nat, cut: Cut, k: Key)
    requires i < |cuts|
    ensures SumCuts(cuts[i := cut], k) + Get(cuts[i].tally, k) == SumCuts(cuts, k) + Get(cut.tally, k)
    decreases |cuts|
  {
    var init := cuts[..|cuts| - 1];
    if i == |init| {
      assert cuts[i := cut][..|init|] == init;
    } else {
      assert cuts[i := cut][..|init|] == init[i := cut];
      SumCutsAt(init, i, cut, k);
    }
  }

  lemma {:induction false} SumTiersAt(tiers: seq<Tally>, i: nat, tally: Tally, k: Key)
    requires i < |tiers|
    ensures SumTiers(tiers[i := tally], k) + Get(tiers[i], k) == SumTiers(tiers, k) + Get(tally, k)
    decreases |tiers|
  {
    var init := tiers[..|tiers| - 1];
    if i == |init| {
      assert tiers[i := tally][..|init|] == init;
    } else {
      assert tiers[i := tally][..|init|] == init[i := tally];
      SumTiersAt(init, i, tally, k);
    }
  }

  /** The rows of one cut. */
  function RowsOf(rows: seq<Row>, name: string): seq<Row>
    decreases |rows|
  {
    if |rows| == 0 then [] else
    var before, last := RowsOf(rows[..|rows| - 1], name), rows[|rows| - 1];
    if last.cut == name then before + [last] else before
  }

  function AttemptsOf(rows: seq<Row>): seq<Row>
    decreases |rows|
  {
    if |rows| == 0 then [] else
    var before, last := AttemptsOf(rows[..|rows| - 1]), rows[|rows| - 1];
    if last.Attempt? then before + [last] else before
  }

  lemma {:induction false} OneMoreRow(rows: seq<Row>, row: Row, k: Key)
    ensures Total(AllCharges(rows + [row]), k) == Total(AllCharges(rows), k) + Total(Charges(row), k)
  {
    assert (rows + [row])[..|rows|] == rows;
    TotalConcat(AllCharges(rows), Charges(row), k);
  }

  ghost predicate Tallies(t: Tally, rows: seq<Row>) {
    forall k :: Get(t, k) == Total(AllCharges(rows), k)
  }

  /** Each cut has its own rows' charges, and the cuts' names are distinct. */
  ghost predicate CutsOk(cuts: seq<Cut>, rows: seq<Row>) {
    && (forall i | 0 <= i < |cuts| :: Tallies(cuts[i].tally, RowsOf(rows, cuts[i].name)))
    && (forall i, j | 0 <= i < j < |cuts| :: cuts[i].name != cuts[j].name)
    && (forall r | 0 <= r < |rows| :: Named(cuts, rows[r].cut))
  }

  method FindCut(cuts: seq<Cut>, name: string) returns (i: nat)
    ensures i <= |cuts| && (i < |cuts| ==> cuts[i].name == name)
    ensures i == |cuts| ==> forall j | 0 <= j < |cuts| :: cuts[j].name != name
  {
    i := 0;
    while i < |cuts| && cuts[i].name != name
      invariant i <= |cuts| && forall j | 0 <= j < i :: cuts[j].name != name
    {
      i := i + 1;
    }
  }

  lemma {:induction false} NoRowsOf(rows: seq<Row>, name: string)
    requires forall r | 0 <= r < |rows| :: rows[r].cut != name
    ensures RowsOf(rows, name) == []
    decreases |rows|
  {
    if |rows| == 0 {
    } else {
      NoRowsOf(rows[..|rows| - 1], name);
    }
  }

  /** A cut that no row has named yet starts empty. */
  lemma {:induction false} NewCut(cuts: seq<Cut>, rows: seq<Row>, name: string)
    requires CutsOk(cuts, rows) && forall j | 0 <= j < |cuts| :: cuts[j].name != name
    ensures CutsOk(cuts + [Cut(name, map[])], rows)
    ensures forall k :: SumCuts(cuts + [Cut(name, map[])], k) == SumCuts(cuts, k)
  {
    var more := cuts + [Cut(name, map[])];
    forall r | 0 <= r < |rows| ensures rows[r].cut != name && Named(more, rows[r].cut) {
      assert Named(cuts, rows[r].cut);
      var i :| 0 <= i < |cuts| && cuts[i].name == rows[r].cut;
      assert more[i].name == rows[r].cut;
    }
    NoRowsOf(rows, name);
    forall i | 0 <= i < |more| ensures Tallies(more[i].tally, RowsOf(rows, more[i].name)) {
      if i < |cuts| {
        assert Tallies(cuts[i].tally, RowsOf(rows, cuts[i].name));
      }
    }
    assert more[..|cuts|] == cuts;
  }

  /** A tally that has entered one row's charges. */
  ghost predicate Gained(before: Tally, after: Tally, row: Row) {
    forall k :: Get(after, k) == Get(before, k) + Total(Charges(row), k)
  }

  lemma {:induction false} OneRowMore(before: Tally, after: Tally, rows: seq<Row>, row: Row)
    requires Tallies(before, rows) && Gained(before, after, row)
    ensures Tallies(after, rows + [row])
  {
    forall k ensures Get(after, k) == Total(AllCharges(rows + [row]), k) {
      OneMoreRow(rows, row, k);
    }
  }

  lemma {:induction false} RowIntoTally(tally: Tally, before: Tally, rows: seq<Row>, row: Row)
    requires Tallies(before, RowsOf(rows, row.cut)) && Gained(before, tally, row)
    ensures Tallies(tally, RowsOf(rows + [row], row.cut))
  {
    assert (rows + [row])[..|rows|] == rows;
    OneRowMore(before, tally, RowsOf(rows, row.cut), row);
  }

  ghost predicate Named(cuts: seq<Cut>, name: string) {
    exists i | 0 <= i < |cuts| :: cuts[i].name == name
  }

  lemma {:induction false} StillNamed(cuts: seq<Cut>, i: nat, cut: Cut, name: string)
    requires i < |cuts| && cuts[i].name == cut.name && Named(cuts, name)
    ensures Named(cuts[i := cut], name)
  {
    var j :| 0 <= j < |cuts| && cuts[j].name == name;
    assert cuts[i := cut][j].name == name;
  }

  lemma {:induction false} OtherRows(rows: seq<Row>, row: Row, name: string)
    requires row.cut != name
    ensures RowsOf(rows + [row], name) == RowsOf(rows, name)
  {
    assert (rows + [row])[..|rows|] == rows;
  }

  lemma {:induction false} RowTallies(cuts: seq<Cut>, rows: seq<Row>, i: nat, row: Row, tally: Tally, j: nat)
    requires CutsOk(cuts, rows) && i < |cuts| && cuts[i].name == row.cut && j < |cuts|
    requires Tallies(tally, RowsOf(rows + [row], row.cut))
    ensures var after := cuts[i := Cut(row.cut, tally)]; Tallies(after[j].tally, RowsOf(rows + [row], after[j].name))
  {
    if j != i {
      assert cuts[j].name != cuts[i].name;
      OtherRows(rows, row, cuts[j].name);
      assert Tallies(cuts[j].tally, RowsOf(rows, cuts[j].name));
    }
  }

  /** Charging a row to its cut. */
  lemma {:induction false} RowIntoCut(cuts: seq<Cut>, rows: seq<Row>, i: nat, row: Row, tally: Tally)
    requires CutsOk(cuts, rows) && i < |cuts| && cuts[i].name == row.cut
    requires Tallies(tally, RowsOf(rows + [row], row.cut))
    ensures CutsOk(cuts[i := Cut(row.cut, tally)], rows + [row])
  {
    var more, after := rows + [row], cuts[i := Cut(row.cut, tally)];
    forall j | 0 <= j < |after| ensures Tallies(after[j].tally, RowsOf(more, after[j].name)) {
      RowTallies(cuts, rows, i, row, tally, j);
    }
    forall r | 0 <= r < |more| ensures Named(after, more[r].cut) {
      if r < |rows| {
        StillNamed(cuts, i, Cut(row.cut, tally), rows[r].cut);
      } else {
        assert after[i].name == row.cut;
      }
    }
    forall j, k | 0 <= j < k < |after| ensures after[j].name != after[k].name {
      assert after[j].name == cuts[j].name && after[k].name == cuts[k].name;
    }
  }

  /** Charges a row to its cut, which is created when it is new. */
  method ChargeCut(cuts: seq<Cut>, ghost rows: seq<Row>, row: Row) returns (cuts': seq<Cut>)
    requires CutsOk(cuts, rows)
    ensures CutsOk(cuts', rows + [row])
    ensures forall k :: SumCuts(cuts', k) == SumCuts(cuts, k) + Total(Charges(row), k)
  {
    cuts' := cuts;
    var i := FindCut(cuts, row.cut);
    if i == |cuts| {
      NewCut(cuts, rows, row.cut);
      cuts' := cuts + [Cut(row.cut, map[])];
    }
    ghost var before := cuts';
    var tally := EnterAll(cuts'[i].tally, Charges(row));
    RowIntoTally(tally, cuts'[i].tally, rows, row);
    RowIntoCut(cuts', rows, i, row, tally);
    cuts' := cuts'[i := Cut(row.cut, tally)];
    forall k ensures SumCuts(cuts', k) == SumCuts(before, k) + Total(Charges(row), k) {
      SumCutsAt(before, i, Cut(row.cut, tally), k);
    }
  }

  method ChargeTier(tiers: seq<Tally>, row: Row) returns (tiers': seq<Tally>)
    requires row.Attempt? && row.tier < |tiers|
    ensures |tiers'| == |tiers| && forall k :: SumTiers(tiers', k) == SumTiers(tiers, k) + Total(Charges(row), k)
    ensures forall i | 0 <= i < |tiers| && i != row.tier :: tiers'[i] == tiers[i]
    ensures Gained(tiers[row.tier], tiers'[row.tier], row)
  {
    var tally := EnterAll(tiers[row.tier], Charges(row));
    tiers' := tiers[row.tier := tally];
    forall k ensures SumTiers(tiers', k) == SumTiers(tiers, k) + Total(Charges(row), k) {
      SumTiersAt(tiers, row.tier, tally, k);
    }
  }

  /** The attempts of one tier. */
  function AttemptsAt(rows: seq<Row>, tier: nat): seq<Row>
    decreases |rows|
  {
    if |rows| == 0 then [] else
    var before, last := AttemptsAt(rows[..|rows| - 1], tier), rows[|rows| - 1];
    if last.Attempt? && last.tier == tier then before + [last] else before
  }

  /** Each tier has exactly its own attempts' charges, and together they have all attempts'. */
  ghost predicate TiersOk(tiers: seq<Tally>, rows: seq<Row>) {
    && |tiers| == 4 && (forall k :: SumTiers(tiers, k) == Total(AllCharges(AttemptsOf(rows)), k))
    && (forall i: nat | i < 4 :: Tallies(tiers[i], AttemptsAt(rows, i)))
  }

  ghost predicate SumsUp(overall: Tally, cuts: seq<Cut>) {
    forall k :: Get(overall, k) == SumCuts(cuts, k)
  }

  method ChargeOverall(overall: Tally, ghost rows: seq<Row>, row: Row) returns (overall': Tally)
    requires Tallies(overall, rows)
    ensures Tallies(overall', rows + [row]) && Gained(overall, overall', row)
  {
    overall' := EnterAll(overall, Charges(row));
    OneRowMore(overall, overall', rows, row);
  }

  lemma {:induction false} AttemptsAtStep(rows: seq<Row>, row: Row, tier: nat)
    ensures AttemptsAt(rows + [row], tier) ==
            if row.Attempt? && row.tier == tier then AttemptsAt(rows, tier) + [row] else AttemptsAt(rows, tier)
  {
    assert (rows + [row])[..|rows|] == rows;
  }

  /** A tier after one more row. */
  lemma {:induction false} TierAfter(before: Tally, after: Tally, rows: seq<Row>, row: Row, tier: nat)
    requires Tallies(before, AttemptsAt(rows, tier))
    requires if row.Attempt? && row.tier == tier then Gained(before, after, row) else after == before
    ensures Tallies(after, AttemptsAt(rows + [row], tier))
  {
    AttemptsAtStep(rows, row, tier);
    if row.Attempt? && row.tier == tier {
      OneRowMore(before, after, AttemptsAt(rows, tier), row);
    }
  }

  lemma {:induction false} TiersAfter(before: seq<Tally>, after: seq<Tally>, rows: seq<Row>, row: Row)
    requires TiersOk(before, rows) && |after| == 4
    requires forall i: nat | i < 4 ::
               if row.Attempt? && row.tier == i then Gained(before[i], after[i], row) else after[i] == before[i]
    requires forall k :: SumTiers(after, k) == SumTiers(before, k) + if row.Attempt? then Total(Charges(row), k) else 0
    ensures TiersOk(after, rows + [row])
  {
    forall i: nat | i < 4 ensures Tallies(after[i], AttemptsAt(rows + [row], i)) {
      TierAfter(before[i], after[i], rows, row, i);
    }
    AttemptsStep(rows, row);
    forall k ensures SumTiers(after, k) == Total(AllCharges(AttemptsOf(rows + [row])), k) {
      if row.Attempt? {
        OneMoreRow(AttemptsOf(rows), row, k);
      }
    }
  }

  method ChargeTiers(tiers: seq<Tally>, ghost rows: seq<Row>, row: Row) returns (tiers': seq<Tally>)
    requires TiersOk(tiers, rows) && (row.Attempt? ==> row.tier < 4)
    ensures TiersOk(tiers', rows + [row])
  {
    tiers' := tiers;
    if row.Attempt? {
      tiers' := ChargeTier(tiers, row);
    }
    TiersAfter(tiers, tiers', rows, row);
  }

  lemma {:induction false} EmptyTiers(tiers: seq<Tally>, k: Key)
    requires forall i | 0 <= i < |tiers| :: tiers[i] == map[]
    ensures SumTiers(tiers, k) == 0
    decreases |tiers|
  {
    if |tiers| == 0 {
    } else {
      EmptyTiers(tiers[..|tiers| - 1], k);
    }
  }

  method NoTiers() returns (tiers: seq<Tally>)
    ensures TiersOk(tiers, [])
  {
    tiers := [map[], map[], map[], map[]];
    forall k ensures SumTiers(tiers, k) == 0 {
      EmptyTiers(tiers, k);
    }
  }

  /**
   overheadReport: the overall figures are those of all rows, each cut's are those of its own
   rows, and every overall figure is the sum over the cuts; each tier's are those of its own attempts.
   */
  method OverheadReport(rows: seq<Row>) returns (overall: Tally, cuts: seq<Cut>, tiers: seq<Tally>)
    requires forall r | 0 <= r < |rows| && rows[r].Attempt? :: rows[r].tier < 4
    ensures Tallies(overall, rows) && CutsOk(cuts, rows) && SumsUp(overall, cuts) && TiersOk(tiers, rows)
  {
    overall, cuts := map[], [];
    tiers := NoTiers();
    var r := 0;
    assert rows[..0] == [];
    while r < |rows|
      invariant r <= |rows|
      invariant Tallies(overall, rows[..r]) && CutsOk(cuts, rows[..r])
      invariant SumsUp(overall, cuts) && TiersOk(tiers, rows[..r])
    {
      assert rows[..r + 1] == rows[..r] + [rows[r]];
      tiers := ChargeTiers(tiers, rows[..r], rows[r]);
      overall, cuts := ChargeRow(overall, cuts, rows[..r], rows[r]);
      r := r + 1;
    }
    assert rows[..r] == rows;
  }

  method ChargeRow(
    overall: Tally, cuts: seq<Cut>, ghost rows: seq<Row>, row: Row) returns (overall': Tally, cuts': seq<Cut>)
    requires Tallies(overall, rows) && CutsOk(cuts, rows) && SumsUp(overall, cuts)
    ensures Tallies(overall', rows + [row]) && CutsOk(cuts', rows + [row]) && SumsUp(overall', cuts')
  {
    overall' := ChargeOverall(overall, rows, row);
    cuts' := ChargeCut(cuts, rows, row);
  }

  // ---------------------------------------------------------------- tiers and the writer

  lemma {:induction false} NoWriter(charges: seq<Charge>, f: Figure)
    requires forall c | c in charges :: c.Plain? || c.column != Writer
    ensures Total(charges, Fig(Writer, f)) == 0
    decreases |charges|
  {
    if |charges| == 0 {
    } else {
      NoWriter(charges[..|charges| - 1], f);
      assert charges[|charges| - 1] in charges;
    }
  }

  lemma {:induction false} OnlyAttemptsWrite(row: Row, f: Figure)
    requires !row.Attempt?
    ensures Total(Charges(row), Fig(Writer, f)) == 0
  {
    NoWriter(Charges(row), f);
  }

  function WriterOf(rows: seq<Row>, f: Figure): nat {
    Total(AllCharges(rows), Fig(Writer, f))
  }

  lemma {:induction false} WriterStep(rows: seq<Row>, row: Row, f: Figure)
    ensures WriterOf(rows + [row], f) == WriterOf(rows, f) + Total(Charges(row), Fig(Writer, f))
  {
    OneMoreRow(rows, row, Fig(Writer, f));
  }

  lemma {:induction false} AttemptsStep(rows: seq<Row>, row: Row)
    ensures AttemptsOf(rows + [row]) == if row.Attempt? then AttemptsOf(rows) + [row] else AttemptsOf(rows)
  {
    assert (rows + [row])[..|rows|] == rows;
  }

  /** The writer's figures of the tiers add up to the writer's overall figures. */
  lemma {:induction false} TiersShareTheWriter(rows: seq<Row>, f: Figure)
    ensures WriterOf(AttemptsOf(rows), f) == WriterOf(rows, f)
    decreases |rows|
  {
    if |rows| == 0 {
    } else {
      var init, last := rows[..|rows| - 1], rows[|rows| - 1];
      assert rows == init + [last];
      TiersShareTheWriter(init, f);
      AttemptsStep(init, last);
      WriterStep(init, last, f);
      if last.Attempt? {
        WriterStep(AttemptsOf(init), last, f);
      } else {
        OnlyAttemptsWrite(last, f);
      }
    }
  }

  /** Over a whole report every call is in one column, and the missing reports are those of the columns. */
  lemma {:induction false} ReportIsConserved(rows: seq<Row>)
    ensures OverColumns(AllCharges(rows), Calls) == CallCount(AllCharges(rows))
    ensures OverColumns(AllCharges(rows), UsageMissing) == Total(AllCharges(rows), MissingCount)
  {
    AllSorted(rows);
    EachCallInOneColumn(AllCharges(rows));
  }
}
