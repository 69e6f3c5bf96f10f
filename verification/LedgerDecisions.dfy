/**
 When the ledger admits, what it charges, and what stops it, said in plain comparisons of counters,
 limits and clock readings.
 */
module LedgerDecisions {
  import opened Wrappers
  import opened LedgerBooks

  /** `input` is one and a half times `proxy`, rounded up, plus 2048. */
  predicate Ceiling(input: int, proxy: int) {
    3 * proxy <= 2 * (input - 2048) < 3 * proxy + 2
  }

  /** The account has room for a request at this moment. */
  predicate Room(a: Account, proxy: int, input: int, output: int, now: int) {
    && now < a.deadline
    && a.counters.calls + 1 <= a.limits.calls
    && a.counters.knownInput + a.counters.estimatedInput + a.counters.reservedInput + input <= a.limits.input
    && a.counters.inputProxy + proxy <= a.limits.input
    && a.counters.knownOutput + a.counters.estimatedOutput + a.counters.reservedOutput + output <= a.limits.output
  }

  predicate IsRequest(proxy: Amount, output: Amount) {
    proxy.Integer? && proxy.n >= 0 && output.Integer? && output.n >= 1
  }

  /** Which code an account without room stops the ledger with: the first of its four reasons. */
  predicate PlaceStops(a: Account, q: QuotaId, proxy: int, input: int, output: int, now: int, code: StopCode) {
    var inputUse := a.counters.knownInput + a.counters.estimatedInput + a.counters.reservedInput + input;
    var outputUse := a.counters.knownOutput + a.counters.estimatedOutput + a.counters.reservedOutput + output;
    var late, spent := a.deadline <= now, a.limits.calls <= a.counters.calls;
    var inputOver := a.limits.input < inputUse || a.limits.input < a.counters.inputProxy + proxy;
    || (code == TimeLimit(q) && late)
    || (code == CallsLimit(q) && !late && spent)
    || (code == InputLimit(q) && !late && !spent && inputOver)
    || (code == OutputLimit(q) && !late && !spent && !inputOver && a.limits.output < outputUse)
  }

  /** Place `k` is the first without room, and says why. */
  ghost predicate StopsAt(
    b: Books, groups: seq<QuotaId>, proxy: int, input: int, output: int, clock: Clock, k: nat, code: StopCode)
    requires Known(b, groups)
  {
    && k < |groups| && PlaceStops(b.accounts[groups[k]], groups[k], proxy, input, output, clock(k), code)
    && forall j: nat | j < k :: Room(b.accounts[groups[j]], proxy, input, output, clock(j))
  }

  lemma {:induction false} RefusalStops(a: Account, q: QuotaId, proxy: int, input: int, output: int, now: int)
    ensures Refusal(a, q, proxy, input, output, now).None? <==> Room(a, proxy, input, output, now)
    ensures forall code ::
              Refusal(a, q, proxy, input, output, now) == Some(code) <==>
              PlaceStops(a, q, proxy, input, output, now, code)
  {}

  /** What looking at every group has found: room everywhere, or the first place without. */
  ghost predicate Looked(
    b: Books, groups: seq<QuotaId>, proxy: int, input: int, output: int, clock: Clock, refusal: Option<StopCode>)
    requires Known(b, groups)
  {
    match refusal
    case None => forall j: nat | j < |groups| :: Room(b.accounts[groups[j]], proxy, input, output, clock(j))
    case Some(code) => exists k: nat :: StopsAt(b, groups, proxy, input, output, clock, k, code)
  }

  lemma {:induction false} FirstRefusalStops(
    b: Books, groups: seq<QuotaId>, i: nat, proxy: int, input: int, output: int, clock: Clock)
    requires Known(b, groups) && i <= |groups|
    requires forall j: nat | j < i :: Room(b.accounts[groups[j]], proxy, input, output, clock(j))
    ensures Looked(b, groups, proxy, input, output, clock, FirstRefusal(b, groups, i, proxy, input, output, clock))
    decreases |groups| - i
  {
    if i == |groups| {
    } else {
      RefusalStops(b.accounts[groups[i]], groups[i], proxy, input, output, clock(i));
      var refusal := Refusal(b.accounts[groups[i]], groups[i], proxy, input, output, clock(i));
      if refusal.Some? {
        assert FirstRefusal(b, groups, i, proxy, input, output, clock) == refusal;
        assert StopsAt(b, groups, proxy, input, output, clock, i, refusal.value);
      } else {
        FirstRefusalStops(b, groups, i + 1, proxy, input, output, clock);
        assert FirstRefusal(b, groups, i, proxy, input, output, clock) ==
               FirstRefusal(b, groups, i + 1, proxy, input, output, clock);
      }
    }
  }

  /**
   A request is admitted exactly when nothing has stopped the ledger, its amounts are whole numbers
   in range, its input fits the cap and every one of its groups has room before its deadline.
   */
  lemma {:induction false} AdmitsIff(
    b: Books, groups: seq<QuotaId>, proxy: Amount, output: Amount, inputCap: int, clock: Clock, input: int)
    requires Known(b, groups) && (IsRequest(proxy, output) ==> Ceiling(input, proxy.n))
    ensures Admits(b, groups, proxy, output, inputCap, clock) <==>
            && b.fatal.None? && IsRequest(proxy, output) && input <= inputCap
            && forall k: nat | k < |groups| :: Room(b.accounts[groups[k]], proxy.n, input, output.n, clock(k))
  {
    if IsRequest(proxy, output) {
      assert input == InputFor(proxy.n);
      FirstRefusalStops(b, groups, 0, proxy.n, input, output.n, clock);
      forall k: nat, code | k < |groups|
        ensures !(PlaceStops(b.accounts[groups[k]], groups[k], proxy.n, input, output.n, clock(k), code)
                  && Room(b.accounts[groups[k]], proxy.n, input, output.n, clock(k)))
      {}
    }
  }

  /** What a refused request stops the ledger with; it charges nothing. */
  lemma {:induction false} RefusedRequestStops(
    b: Books, groups: seq<QuotaId>, proxy: Amount, output: Amount, inputCap: int, clock: Clock, input: int)
    requires Known(b, groups) && (IsRequest(proxy, output) ==> Ceiling(input, proxy.n))
    requires !Admits(b, groups, proxy, output, inputCap, clock)
    ensures var t := Admit(b, groups, proxy, output, inputCap, clock);
      && t.accounts == b.accounts && t.fatal.Some?
      && if b.fatal.Some? then t.fatal == b.fatal
         else if !IsRequest(proxy, output) then t.fatal.value == InvalidReservation
         else if inputCap < input then t.fatal.value == RequestInputLimit
         else exists k: nat :: StopsAt(b, groups, proxy.n, input, output.n, clock, k, t.fatal.value)
  {
    if IsRequest(proxy, output) {
      assert input == InputFor(proxy.n);
      FirstRefusalStops(b, groups, 0, proxy.n, input, output.n, clock);
    }
  }

  // ---------------------------------------------------------------- what is charged

  /** How often a quota is named. */
  function Times(groups: seq<QuotaId>, q: QuotaId): nat {
    multiset(groups)[q]
  }

  /** A quota named `m` times is changed `m` times. */
  lemma {:induction false} ShareIsMultiplicity(groups: seq<QuotaId>, q: QuotaId, x: int)
    ensures Share(groups, q, x) == Times(groups, q) * x
    decreases |groups|
  {
    if |groups| == 0 {
    } else {
      var init, last := groups[..|groups| - 1], groups[|groups| - 1];
      assert groups == init + [last];
      assert Times(groups, q) == Times(init, q) + if last == q then 1 else 0;
      ShareIsMultiplicity(init, q, x);
      Distributes(Times(init, q), x);
    }
  }

  lemma {:induction false} Distributes(m: int, x: int)
    ensures (m + 1) * x == m * x + x
  {}

  lemma {:induction false} ApplyTimes(accounts: seq<Account>, groups: seq<QuotaId>, change: Counters, q: QuotaId)
    requires (forall k | 0 <= k < |groups| :: groups[k] < |accounts|) && q < |accounts|
    ensures var before, after, m := accounts[q], Apply(accounts, groups, change)[q], Times(groups, q);
      after == before.(counters := Counters(
        before.counters.calls + m * change.calls, before.counters.sent + m * change.sent,
        before.counters.knownInput + m * change.knownInput, before.counters.knownOutput + m * change.knownOutput,
        before.counters.estimatedInput + m * change.estimatedInput,
        before.counters.estimatedOutput + m * change.estimatedOutput,
        before.counters.inputProxy + m * change.inputProxy,
        before.counters.reservedInput + m * change.reservedInput,
        before.counters.reservedOutput + m * change.reservedOutput))
  {
    forall f ensures Get(Apply(accounts, groups, change)[q].counters, f) ==
                     Get(accounts[q].counters, f) + Times(groups, q) * Get(change, f)
    {
      ApplyShares(accounts, groups, change, q, f);
      ShareIsMultiplicity(groups, q, Get(change, f));
    }
    var c := Apply(accounts, groups, change)[q].counters;
    assert Get(c, Calls) == c.calls && Get(c, Sent) == c.sent && Get(c, InputProxy) == c.inputProxy;
    assert Get(c, KnownInput) == c.knownInput && Get(c, KnownOutput) == c.knownOutput;
    assert Get(c, EstimatedInput) == c.estimatedInput && Get(c, EstimatedOutput) == c.estimatedOutput;
    assert Get(c, ReservedInput) == c.reservedInput && Get(c, ReservedOutput) == c.reservedOutput;
  }

  /** An admitted request: one call, its proxy, its input and its output, for every time a quota is named. */
  lemma {:induction false} AdmittedIsCharged(
    b: Books, groups: seq<QuotaId>, proxy: Amount, output: Amount, inputCap: int, clock: Clock, input: int, q: QuotaId)
    requires Known(b, groups) && Admits(b, groups, proxy, output, inputCap, clock) && q < |b.accounts|
    requires IsRequest(proxy, output) ==> Ceiling(input, proxy.n)
    ensures var t, m := Admit(b, groups, proxy, output, inputCap, clock), Times(groups, q);
      && t.fatal.None? && |t.accounts| == |b.accounts|
      && var c := b.accounts[q].counters;
         t.accounts[q] == b.accounts[q].(counters := c.(
           calls := c.calls + m, inputProxy := c.inputProxy + m * proxy.n,
           reservedInput := c.reservedInput + m * input, reservedOutput := c.reservedOutput + m * output.n))
  {
    AdmitsIff(b, groups, proxy, output, inputCap, clock, input);
    assert input == InputFor(proxy.n);
    ApplyTimes(b.accounts, groups, Reserve(proxy.n, input, output.n), q);
  }

  lemma {:induction false} SentIsCounted(b: Books, groups: seq<QuotaId>, q: QuotaId)
    requires Known(b, groups) && q < |b.accounts|
    ensures var t, c := Send(b, groups), b.accounts[q].counters;
      && t.fatal == b.fatal && |t.accounts| == |b.accounts|
      && t.accounts[q] == if b.fatal.Some? then b.accounts[q]
                          else b.accounts[q].(counters := c.(sent := c.sent + Times(groups, q)))
  {
    ApplyTimes(b.accounts, groups, SEND, q);
  }

  // ---------------------------------------------------------------- settling

  /** The account is past its deadline or over a limit. */
  predicate Over(a: Account, now: int) {
    || a.deadline <= now
    || a.limits.input < a.counters.knownInput + a.counters.estimatedInput + a.counters.reservedInput
    || a.limits.output < a.counters.knownOutput + a.counters.estimatedOutput + a.counters.reservedOutput
  }

  predicate PlaceExceeds(a: Account, q: QuotaId, now: int, code: StopCode) {
    var inputOver := a.limits.input < a.counters.knownInput + a.counters.estimatedInput + a.counters.reservedInput;
    var outputOver := a.limits.output < a.counters.knownOutput + a.counters.estimatedOutput + a.counters.reservedOutput;
    || (code == TimeLimit(q) && a.deadline <= now)
    || (code == InputLimit(q) && now < a.deadline && inputOver)
    || (code == OutputLimit(q) && now < a.deadline && !inputOver && outputOver)
  }

  ghost predicate ExceedsAt(accounts: seq<Account>, groups: seq<QuotaId>, clock: Clock, k: nat, code: StopCode)
    requires forall j | 0 <= j < |groups| :: groups[j] < |accounts|
  {
    && k < |groups| && PlaceExceeds(accounts[groups[k]], groups[k], clock(k), code)
    && forall j: nat | j < k :: !Over(accounts[groups[j]], clock(j))
  }

  ghost predicate Reviewed(accounts: seq<Account>, groups: seq<QuotaId>, clock: Clock, excess: Option<StopCode>)
    requires forall j | 0 <= j < |groups| :: groups[j] < |accounts|
  {
    match excess
    case None => forall j: nat | j < |groups| :: !Over(accounts[groups[j]], clock(j))
    case Some(code) => exists k: nat :: ExceedsAt(accounts, groups, clock, k, code)
  }

  lemma {:induction false} FirstExcessStops(accounts: seq<Account>, groups: seq<QuotaId>, i: nat, clock: Clock)
    requires (forall j | 0 <= j < |groups| :: groups[j] < |accounts|) && i <= |groups|
    requires forall j: nat | j < i :: !Over(accounts[groups[j]], clock(j))
    ensures Reviewed(accounts, groups, clock, FirstExcess(accounts, groups, i, clock))
    decreases |groups| - i
  {
    if i == |groups| {
    } else {
      var excess := Excess(accounts[groups[i]], groups[i], clock(i));
      if excess.Some? {
        assert FirstExcess(accounts, groups, i, clock) == excess;
        assert ExceedsAt(accounts, groups, clock, i, excess.value);
      } else {
        FirstExcessStops(accounts, groups, i + 1, clock);
        assert FirstExcess(accounts, groups, i, clock) == FirstExcess(accounts, groups, i + 1, clock);
      }
    }
  }

  /**
   A settlement stops a running ledger exactly when the usage is unavailable, the input overruns its
   reservation, or a group is past its deadline or, after the settlement, over a limit; and with
   which code.  A stopped ledger keeps its code.
   */
  lemma {:induction false} SettlementStopsIff(
    b: Books, groups: seq<QuotaId>, input: int, output: int, usage: Usage, estimated: bool, clock: Clock)
    requires Known(b, groups)
    ensures var t := Settle(b, groups, input, output, usage, estimated, clock);
      && |t.accounts| == |b.accounts|
      && (b.fatal.Some? ==> t.fatal == b.fatal)
      && (b.fatal.None? ==>
            (t.fatal.Some? <==>
             || usage.Unavailable? || input < usage.input
             || exists k: nat :: k < |groups| && Over(t.accounts[groups[k]], clock(k))))
      && (b.fatal.None? && t.fatal.Some? ==>
            if usage.Unavailable? then t.fatal.value == UsageUnavailable
            else if input < usage.input then t.fatal.value == InputReservationOverrun
            else exists k: nat :: ExceedsAt(t.accounts, groups, clock, k, t.fatal.value))
  {
    if usage.Used? {
      var accounts := Apply(b.accounts, groups, Release(input, output, usage.input, usage.output, estimated));
      FirstExcessStops(accounts, groups, 0, clock);
      if excess: StopCode :| FirstExcess(accounts, groups, 0, clock) == Some(excess) {
        var k: nat :| ExceedsAt(accounts, groups, clock, k, excess);
        assert Over(accounts[groups[k]], clock(k));
      }
    }
  }

  /** What it books: the reservation is given back and the usage becomes known, or estimated, use. */
  lemma {:induction false} SettlementBooks(
    b: Books, groups: seq<QuotaId>, input: int, output: int, usage: Usage, estimated: bool, clock: Clock, q: QuotaId)
    requires Known(b, groups) && q < |b.accounts|
    ensures var t, m := Settle(b, groups, input, output, usage, estimated, clock), Times(groups, q);
      && |t.accounts| == |b.accounts|
      && var c := b.accounts[q].counters;
         t.accounts[q] == b.accounts[q].(counters :=
           if usage.Unavailable? then c
           else if estimated then
             c.(estimatedInput := c.estimatedInput + m * usage.input,
                estimatedOutput := c.estimatedOutput + m * usage.output,
                reservedInput := c.reservedInput - m * input, reservedOutput := c.reservedOutput - m * output)
           else
             c.(knownInput := c.knownInput + m * usage.input, knownOutput := c.knownOutput + m * usage.output,
                reservedInput := c.reservedInput - m * input, reservedOutput := c.reservedOutput - m * output))
  {
    if usage.Used? {
      var change, m := Release(input, output, usage.input, usage.output, estimated), Times(groups, q);
      ApplyTimes(b.accounts, groups, change, q);
      assert m * -input == -(m * input) && m * -output == -(m * output);
    }
  }
}
