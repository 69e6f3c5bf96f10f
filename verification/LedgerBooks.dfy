/**
 The reservation ledger's accounting: quotas as value accounts, and the effect of admit, sent,
 settle and halt on them.
 */
module LedgerBooks {
  import opened Wrappers

  /** Index of a quota in the ledger's list of groups. */
  type QuotaId = nat

  datatype Counters = Counters(
    calls: int, sent: int,
    knownInput: int, knownOutput: int, estimatedInput: int, estimatedOutput: int,
    inputProxy: int, reservedInput: int, reservedOutput: int)

  const ZERO := Counters(0, 0, 0, 0, 0, 0, 0, 0, 0)

  function Plus(a: Counters, b: Counters): Counters {
    Counters(a.calls + b.calls, a.sent + b.sent,
             a.knownInput + b.knownInput, a.knownOutput + b.knownOutput,
             a.estimatedInput + b.estimatedInput, a.estimatedOutput + b.estimatedOutput,
             a.inputProxy + b.inputProxy,
             a.reservedInput + b.reservedInput, a.reservedOutput + b.reservedOutput)
  }

  /** The counters one at a time. */
  datatype Field = Calls | Sent | KnownInput | KnownOutput | EstimatedInput | EstimatedOutput
                 | InputProxy | ReservedInput | ReservedOutput

  function Get(c: Counters, f: Field): int {
    match f
    case Calls => c.calls
    case Sent => c.sent
    case KnownInput => c.knownInput
    case KnownOutput => c.knownOutput
    case EstimatedInput => c.estimatedInput
    case EstimatedOutput => c.estimatedOutput
    case InputProxy => c.inputProxy
    case ReservedInput => c.reservedInput
    case ReservedOutput => c.reservedOutput
  }

  datatype Limits = Limits(calls: int, input: int, output: int)
  datatype Account = Account(limits: Limits, deadline: int, counters: Counters)

  /** A JavaScript number that may fail `Number.isSafeInteger`. */
  datatype Amount = Integer(n: int) | NotAnInteger

  datatype StopCode =
    | InvalidReservation
    | RequestInputLimit
    | TimeLimit(q: QuotaId)
    | CallsLimit(q: QuotaId)
    | InputLimit(q: QuotaId)
    | OutputLimit(q: QuotaId)
    | UsageUnavailable
    | InputReservationOverrun
    | Halted(reason: string)

  /** The quotas and the fatal latch. */
  datatype Books = Books(accounts: seq<Account>, fatal: Option<StopCode>)

  /** `performance.now()` as read for the k-th group of a request. */
  type Clock = nat -> int

  predicate Known(b: Books, groups: seq<QuotaId>) {
    forall k | 0 <= k < |groups| :: groups[k] < |b.accounts|
  }

  function Halt(b: Books, code: StopCode): Books {
    if b.fatal.None? then b.(fatal := Some(code)) else b
  }

  /** `Math.ceil(proxy * 1.5) + 2048` */
  function InputFor(proxy: nat): nat {
    (3 * proxy + 1) / 2 + 2048
  }

  function InputUse(c: Counters): int {
    c.knownInput + c.estimatedInput + c.reservedInput
  }

  function OutputUse(c: Counters): int {
    c.knownOutput + c.estimatedOutput + c.reservedOutput
  }

  /** Why one account would refuse a request. */
  function Refusal(a: Account, q: QuotaId, proxy: int, input: int, output: int, now: int): Option<StopCode> {
    if now >= a.deadline then Some(TimeLimit(q))
    else if a.counters.calls >= a.limits.calls then Some(CallsLimit(q))
    else if InputUse(a.counters) + input > a.limits.input || a.counters.inputProxy + proxy > a.limits.input then
      Some(InputLimit(q))
    else if OutputUse(a.counters) + output > a.limits.output then Some(OutputLimit(q))
    else None
  }

  /** The first refusal among the groups from `k` on. */
  function FirstRefusal(b: Books, groups: seq<QuotaId>, k: nat, proxy: int, input: int, output: int, clock: Clock)
    : Option<StopCode>
    requires Known(b, groups) && k <= |groups|
    decreases |groups| - k
  {
    if k == |groups| then None else
    var refusal := Refusal(b.accounts[groups[k]], groups[k], proxy, input, output, clock(k));
    if refusal.Some? then refusal else FirstRefusal(b, groups, k + 1, proxy, input, output, clock)
  }

  /** `change` applied to the account of every group, once per occurrence. */
  function Apply(accounts: seq<Account>, groups: seq<QuotaId>, change: Counters): (r: seq<Account>)
    requires forall k | 0 <= k < |groups| :: groups[k] < |accounts|
    ensures |r| == |accounts|
    ensures forall q | 0 <= q < |accounts| :: r[q].limits == accounts[q].limits && r[q].deadline == accounts[q].deadline
    decreases |groups|
  {
    if |groups| == 0 then accounts else
    var last := groups[|groups| - 1];
    var before := Apply(accounts, groups[..|groups| - 1], change);
    before[last := before[last].(counters := Plus(before[last].counters, change))]
  }

  function Reserve(proxy: int, input: int, output: int): Counters {
    Counters(1, 0, 0, 0, 0, 0, proxy, input, output)
  }

  const SEND := Counters(0, 1, 0, 0, 0, 0, 0, 0, 0)

  /** Moving a reservation's amounts to known or estimated use. */
  function Release(input: int, output: int, usedInput: int, usedOutput: int, estimated: bool): Counters {
    if estimated then Counters(0, 0, 0, 0, usedInput, usedOutput, 0, -input, -output)
    else Counters(0, 0, usedInput, usedOutput, 0, 0, 0, -input, -output)
  }

  /** The refusal of a request as a whole, or none. */
  function AdmitRefusal(b: Books, groups: seq<QuotaId>, proxy: Amount, output: Amount, inputCap: int, clock: Clock)
    : Option<StopCode>
    requires Known(b, groups)
  {
    if output.NotAnInteger? || output.n < 1 || proxy.NotAnInteger? || proxy.n < 0 then Some(InvalidReservation)
    else if InputFor(proxy.n) > inputCap then Some(RequestInputLimit)
    else FirstRefusal(b, groups, 0, proxy.n, InputFor(proxy.n), output.n, clock)
  }

  predicate Admits(b: Books, groups: seq<QuotaId>, proxy: Amount, output: Amount, inputCap: int, clock: Clock)
    requires Known(b, groups)
  {
    b.fatal.None? && AdmitRefusal(b, groups, proxy, output, inputCap, clock).None?
  }

  /** `admit`: throws on a fatal ledger, stops it on a refusal, otherwise charges every group. */
  function Admit(b: Books, groups: seq<QuotaId>, proxy: Amount, output: Amount, inputCap: int, clock: Clock): Books
    requires Known(b, groups)
  {
    if b.fatal.Some? then b else
    match AdmitRefusal(b, groups, proxy, output, inputCap, clock)
    case Some(code) => Halt(b, code)
    case None => b.(accounts := Apply(b.accounts, groups, Reserve(proxy.n, InputFor(proxy.n), output.n)))
  }

  function Send(b: Books, groups: seq<QuotaId>): Books
    requires Known(b, groups)
  {
    if b.fatal.Some? then b else b.(accounts := Apply(b.accounts, groups, SEND))
  }

  /** Why a settlement stops the ledger, looking at one account. */
  function Excess(a: Account, q: QuotaId, now: int): Option<StopCode> {
    if now >= a.deadline then Some(TimeLimit(q))
    else if InputUse(a.counters) > a.limits.input then Some(InputLimit(q))
    else if OutputUse(a.counters) > a.limits.output then Some(OutputLimit(q))
    else None
  }

  function FirstExcess(accounts: seq<Account>, groups: seq<QuotaId>, k: nat, clock: Clock): Option<StopCode>
    requires (forall j | 0 <= j < |groups| :: groups[j] < |accounts|) && k <= |groups|
    decreases |groups| - k
  {
    if k == |groups| then None else
    var excess := Excess(accounts[groups[k]], groups[k], clock(k));
    if excess.Some? then excess else FirstExcess(accounts, groups, k + 1, clock)
  }

  datatype Usage = Unavailable | Used(input: nat, output: nat)

  /** `settle` of a reservation not settled before. */
  function Settle(
    b: Books, groups: seq<QuotaId>, input: int, output: int, usage: Usage, estimated: bool, clock: Clock): Books
    requires Known(b, groups)
  {
    if usage.Unavailable? then Halt(b, UsageUnavailable) else
    var accounts := Apply(b.accounts, groups, Release(input, output, usage.input, usage.output, estimated));
    var booked := b.(accounts := accounts);
    if usage.input > input then Halt(booked, InputReservationOverrun) else
    match FirstExcess(accounts, groups, 0, clock)
    case Some(code) => Halt(booked, code)
    case None => booked
  }

  // ---------------------------------------------------------------- facts about Apply

  /** `x` taken once for every occurrence of `q`. */
  function Share(groups: seq<QuotaId>, q: QuotaId, x: int): int
    decreases |groups|
  {
    if |groups| == 0 then 0
    else Share(groups[..|groups| - 1], q, x) + if groups[|groups| - 1] == q then x else 0
  }

  lemma {:induction false} ApplyShares(
    accounts: seq<Account>, groups: seq<QuotaId>, change: Counters, q: QuotaId, f: Field)
    requires (forall k | 0 <= k < |groups| :: groups[k] < |accounts|) && q < |accounts|
    ensures Get(Apply(accounts, groups, change)[q].counters, f) ==
            Get(accounts[q].counters, f) + Share(groups, q, Get(change, f))
    decreases |groups|
  {
    if |groups| == 0 {
    } else {
      ApplyShares(accounts, groups[..|groups| - 1], change, q, f);
    }
  }

  predicate Distinct(groups: seq<QuotaId>) {
    forall j, k | 0 <= j < k < |groups| :: groups[j] != groups[k]
  }

  lemma {:induction false} ShareOnce(groups: seq<QuotaId>, q: QuotaId, x: int)
    requires Distinct(groups)
    ensures Share(groups, q, x) == if q in groups then x else 0
    decreases |groups|
  {
    if |groups| == 0 {
    } else {
      var init := groups[..|groups| - 1];
      ShareOnce(init, q, x);
      assert groups == init + [groups[|groups| - 1]];
    }
  }

  lemma {:induction false} ShareOfOther(groups: seq<QuotaId>, q: QuotaId, x: int)
    requires q !in groups
    ensures Share(groups, q, x) == 0
    decreases |groups|
  {
    if |groups| == 0 {
    } else {
      ShareOfOther(groups[..|groups| - 1], q, x);
      assert groups[|groups| - 1] in groups;
    }
  }

  lemma {:induction false} ShareAdds(groups: seq<QuotaId>, q: QuotaId, x: int, y: int)
    ensures Share(groups, q, x + y) == Share(groups, q, x) + Share(groups, q, y)
    decreases |groups|
  {
    if |groups| == 0 {
    } else {
      ShareAdds(groups[..|groups| - 1], q, x, y);
    }
  }

  lemma {:induction false} ShareSign(groups: seq<QuotaId>, q: QuotaId, x: int)
    ensures x <= 0 ==> Share(groups, q, x) <= 0
    ensures x >= 0 ==> Share(groups, q, x) >= 0
    decreases |groups|
  {
    if |groups| == 0 {
    } else {
      ShareSign(groups[..|groups| - 1], q, x);
    }
  }

  /** What applying a change does to the two sums that the limits bound. */
  lemma ApplyUse(accounts: seq<Account>, groups: seq<QuotaId>, change: Counters, q: QuotaId)
    requires (forall k | 0 <= k < |groups| :: groups[k] < |accounts|) && q < |accounts|
    ensures var before, after := accounts[q].counters, Apply(accounts, groups, change)[q].counters;
            && InputUse(after) == InputUse(before) + Share(groups, q, InputUse(change))
            && OutputUse(after) == OutputUse(before) + Share(groups, q, OutputUse(change))
            && after.calls == before.calls + Share(groups, q, change.calls)
            && after.sent == before.sent + Share(groups, q, change.sent)
            && after.inputProxy == before.inputProxy + Share(groups, q, change.inputProxy)
  {
    ApplyShares(accounts, groups, change, q, KnownInput);
    ApplyShares(accounts, groups, change, q, EstimatedInput);
    ApplyShares(accounts, groups, change, q, ReservedInput);
    ApplyShares(accounts, groups, change, q, KnownOutput);
    ApplyShares(accounts, groups, change, q, EstimatedOutput);
    ApplyShares(accounts, groups, change, q, ReservedOutput);
    ApplyShares(accounts, groups, change, q, Calls);
    ApplyShares(accounts, groups, change, q, Sent);
    ApplyShares(accounts, groups, change, q, InputProxy);
    ShareAdds(groups, q, change.knownInput, change.estimatedInput);
    ShareAdds(groups, q, change.knownInput + change.estimatedInput, change.reservedInput);
    ShareAdds(groups, q, change.knownOutput, change.estimatedOutput);
    ShareAdds(groups, q, change.knownOutput + change.estimatedOutput, change.reservedOutput);
  }

  lemma {:induction false} NoRefusal(
    b: Books, groups: seq<QuotaId>, k: nat, proxy: int, input: int, output: int, clock: Clock, q: QuotaId)
    requires Known(b, groups) && k <= |groups| && FirstRefusal(b, groups, k, proxy, input, output, clock).None?
    requires q in groups[k..]
    ensures q < |b.accounts|
    ensures var a := b.accounts[q];
            a.counters.calls < a.limits.calls && InputUse(a.counters) + input <= a.limits.input &&
            a.counters.inputProxy + proxy <= a.limits.input && OutputUse(a.counters) + output <= a.limits.output
    decreases |groups| - k
  {
    if groups[k] != q {
      assert groups[k..] == [groups[k]] + groups[k + 1..];
      NoRefusal(b, groups, k + 1, proxy, input, output, clock, q);
    }
  }

  lemma {:induction false} NoExcess(accounts: seq<Account>, groups: seq<QuotaId>, k: nat, clock: Clock, q: QuotaId)
    requires (forall j | 0 <= j < |groups| :: groups[j] < |accounts|) && k <= |groups|
    requires FirstExcess(accounts, groups, k, clock).None? && q in groups[k..]
    ensures q < |accounts|
    ensures InputUse(accounts[q].counters) <= accounts[q].limits.input
    ensures OutputUse(accounts[q].counters) <= accounts[q].limits.output
    decreases |groups| - k
  {
    if groups[k] != q {
      assert groups[k..] == [groups[k]] + groups[k + 1..];
      NoExcess(accounts, groups, k + 1, clock, q);
    }
  }
}
