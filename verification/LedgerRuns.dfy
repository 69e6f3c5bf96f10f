/**
 Runs of the reservation ledger: any interleaving of whole method calls, over any number of
 quotas, requests and halts, with a clock the calls merely read.
 */
module LedgerRuns {
  import opened Wrappers
  import opened LedgerBooks

  /** What became of a reservation; `Lost` is settled without usage, which keeps its amounts reserved. */
  datatype Fate = Open | Lost | Spent(input: nat, output: nat, estimated: bool)

  datatype Reservation = Reservation(
    groups: seq<QuotaId>, proxy: nat, input: nat, output: nat, sends: nat, fate: Fate)

  /** `seeds` remembers what each quota started with (inherited counters, usually zero). */
  datatype State = State(books: Books, reservations: seq<Reservation>, seeds: seq<Counters>)

  const EMPTY := State(Books([], None), [], [])

  datatype Event =
    | EGroup(limits: Limits, deadline: int, seed: Counters)
    | EAdmit(groups: seq<QuotaId>, proxy: Amount, output: Amount, inputCap: int, clock: Clock)
    | ESent(r: nat)
    | ESettle(r: nat, usage: Usage, estimated: bool, clock: Clock)
    | EHalt(reason: string)

  function Holding(r: Reservation): bool {
    r.fate.Open? || r.fate.Lost?
  }

  ghost predicate Enabled(s: State, e: Event) {
    match e
    case EGroup(_, _, _) => true
    case EAdmit(groups, _, _, _, _) => Known(s.books, groups)
    case ESent(r) => r < |s.reservations| && Known(s.books, s.reservations[r].groups)
    case ESettle(r, _, _, _) => r < |s.reservations| && Known(s.books, s.reservations[r].groups)
    case EHalt(_) => true
  }

  /** A second settlement throws before it touches anything. */
  ghost function Step(s: State, e: Event): State
    requires Enabled(s, e)
  {
    match e
    case EGroup(limits, deadline, seed) =>
      s.(books := s.books.(accounts := s.books.accounts + [Account(limits, deadline, seed)]),
         seeds := s.seeds + [seed])
    case EAdmit(groups, proxy, output, inputCap, clock) =>
      var t := s.(books := Admit(s.books, groups, proxy, output, inputCap, clock));
      if Admits(s.books, groups, proxy, output, inputCap, clock) then
        t.(reservations := s.reservations + [Reservation(groups, proxy.n, InputFor(proxy.n), output.n, 0, Open)])
      else t
    case ESent(r) =>
      var reservation := s.reservations[r];
      if s.books.fatal.Some? then s else
      s.(books := Send(s.books, reservation.groups),
         reservations := s.reservations[r := reservation.(sends := reservation.sends + 1)])
    case ESettle(r, usage, estimated, clock) =>
      var reservation := s.reservations[r];
      if !reservation.fate.Open? then s else
      s.(books := Settle(s.books, reservation.groups, reservation.input, reservation.output, usage, estimated, clock),
         reservations := s.reservations[r := reservation.(fate := FateOf(usage, estimated))])
    case EHalt(reason) => s.(books := Halt(s.books, Halted(reason)))
  }

  function FateOf(usage: Usage, estimated: bool): Fate {
    match usage
    case Unavailable => Lost
    case Used(input, output) => Spent(input, output, estimated)
  }

  ghost predicate CanRun(s: State, es: seq<Event>)
    decreases |es|
  {
    |es| == 0 || (Enabled(s, es[0]) && CanRun(Step(s, es[0]), es[1..]))
  }

  ghost function Run(s: State, es: seq<Event>): State
    requires CanRun(s, es)
    decreases |es|
  {
    if |es| == 0 then s else Run(Step(s, es[0]), es[1..])
  }

  // ---------------------------------------------------------------- every counter is accounted for

  /** Everything one reservation has done to each of its quotas. */
  function Effect(r: Reservation): Counters {
    match r.fate
    case Spent(input, output, true) => Counters(1, r.sends, 0, 0, input, output, r.proxy, 0, 0)
    case Spent(input, output, false) => Counters(1, r.sends, input, output, 0, 0, r.proxy, 0, 0)
    case _ => Counters(1, r.sends, 0, 0, 0, 0, r.proxy, r.input, r.output)
  }

  /** Everything the reservations have done to one counter of `q`. */
  function Total(rs: seq<Reservation>, q: QuotaId, f: Field): int
    decreases |rs|
  {
    if |rs| == 0 then 0 else
    var last := rs[|rs| - 1];
    Total(rs[..|rs| - 1], q, f) + Share(last.groups, q, Get(Effect(last), f))
  }

  /** Each quota is its seed plus the effects of the reservations charged to it. */
  ghost predicate Balanced(s: State) {
    && |s.seeds| == |s.books.accounts|
    && (forall r | 0 <= r < |s.reservations| :: Known(s.books, s.reservations[r].groups))
    && (forall q: nat, f | q < |s.seeds| :: BalancedAt(s, q, f))
  }

  ghost predicate BalancedAt(s: State, q: QuotaId, f: Field)
    requires q < |s.seeds| == |s.books.accounts|
  {
    Get(s.books.accounts[q].counters, f) == Get(s.seeds[q], f) + Total(s.reservations, q, f)
  }

  lemma {:induction false} TotalOfUnknown(rs: seq<Reservation>, q: QuotaId, f: Field)
    requires forall r | 0 <= r < |rs| :: q !in rs[r].groups
    ensures Total(rs, q, f) == 0
    decreases |rs|
  {
    if |rs| == 0 {
    } else {
      TotalOfUnknown(rs[..|rs| - 1], q, f);
      ShareOfOther(rs[|rs| - 1].groups, q, Get(Effect(rs[|rs| - 1]), f));
    }
  }

  /** Changing one reservation changes a quota's total by that quota's share of the change. */
  lemma {:induction false} TotalChange(rs: seq<Reservation>, i: nat, r: Reservation, q: QuotaId, f: Field, x: int)
    requires i < |rs| && r.groups == rs[i].groups && Get(Effect(r), f) == Get(Effect(rs[i]), f) + x
    ensures Total(rs[i := r], q, f) == Total(rs, q, f) + Share(r.groups, q, x)
    decreases |rs|
  {
    var init := rs[..|rs| - 1];
    var ts := rs[i := r];
    if i == |rs| - 1 {
      assert ts[..|ts| - 1] == init;
      ShareAdds(r.groups, q, Get(Effect(rs[i]), f), x);
    } else {
      assert ts[..|ts| - 1] == init[i := r];
      TotalChange(init, i, r, q, f, x);
    }
  }

  lemma AdmitBalanced(s: State, e: Event)
    requires Balanced(s) && e.EAdmit? && Enabled(s, e)
    ensures Balanced(Step(s, e))
  {
    var t := Step(s, e);
    if Admits(s.books, e.groups, e.proxy, e.output, e.inputCap, e.clock) {
      var r := t.reservations[|s.reservations|];
      assert t.reservations[..|s.reservations|] == s.reservations;
      forall q: nat, f | q < |t.seeds| ensures BalancedAt(t, q, f) {
        assert BalancedAt(s, q, f);
        ApplyShares(s.books.accounts, e.groups, Effect(r), q, f);
      }
    } else {
      assert t.books.accounts == s.books.accounts;
      forall q: nat, f | q < |t.seeds| ensures BalancedAt(t, q, f) {
        assert BalancedAt(s, q, f);
      }
    }
  }

  lemma ChangeBalanced(s: State, i: nat, r: Reservation, change: Counters, t: State)
    requires Balanced(s) && i < |s.reservations| && r.groups == s.reservations[i].groups
    requires forall f :: Get(Effect(r), f) == Get(Effect(s.reservations[i]), f) + Get(change, f)
    requires t.reservations == s.reservations[i := r] && t.seeds == s.seeds
    requires t.books.accounts == Apply(s.books.accounts, r.groups, change)
    ensures Balanced(t)
  {
    forall q: nat, f | q < |t.seeds| ensures BalancedAt(t, q, f) {
      assert BalancedAt(s, q, f);
      ApplyShares(s.books.accounts, r.groups, change, q, f);
      TotalChange(s.reservations, i, r, q, f, Get(change, f));
    }
  }

  lemma GroupBalanced(s: State, e: Event)
    requires Balanced(s) && e.EGroup?
    ensures Balanced(Step(s, e))
  {
    var t := Step(s, e);
    forall q: nat, f | q < |t.seeds| ensures BalancedAt(t, q, f) {
      if q < |s.seeds| {
        assert BalancedAt(s, q, f);
      } else {
        assert forall r | 0 <= r < |s.reservations| :: Known(s.books, s.reservations[r].groups);
        TotalOfUnknown(s.reservations, q, f);
      }
    }
  }

  lemma SettleBalanced(s: State, e: Event)
    requires Balanced(s) && e.ESettle? && Enabled(s, e) && s.reservations[e.r].fate.Open?
    ensures Balanced(Step(s, e))
  {
    var t, r := Step(s, e), s.reservations[e.r];
    if e.usage.Used? {
      ChangeBalanced(s, e.r, t.reservations[e.r],
          Release(r.input, r.output, e.usage.input, e.usage.output, e.estimated), t);
    } else {
      forall q: nat, f | q < |t.seeds| ensures BalancedAt(t, q, f) {
        assert BalancedAt(s, q, f);
        TotalChange(s.reservations, e.r, t.reservations[e.r], q, f, 0);
        ShareSign(r.groups, q, 0);
      }
    }
  }

  lemma StepBalanced(s: State, e: Event)
    requires Balanced(s) && Enabled(s, e)
    ensures Balanced(Step(s, e))
  {
    var t := Step(s, e);
    if e.EGroup? {
      GroupBalanced(s, e);
    } else if e.EAdmit? {
      AdmitBalanced(s, e);
    } else if e.ESent? && s.books.fatal.None? {
      ChangeBalanced(s, e.r, t.reservations[e.r], SEND, t);
    } else if e.ESettle? && s.reservations[e.r].fate.Open? {
      SettleBalanced(s, e);
    } else {
      forall q: nat, f | q < |t.seeds| ensures BalancedAt(t, q, f) {
        assert BalancedAt(s, q, f);
      }
    }
  }

  /** Over every run, every counter of every quota is its seed plus what its reservations did. */
  lemma {:induction false} RunBalanced(s: State, es: seq<Event>)
    requires Balanced(s) && CanRun(s, es)
    ensures Balanced(Run(s, es))
    decreases |es|
  {
    if |es| == 0 {
    } else {
      StepBalanced(s, es[0]);
      RunBalanced(Step(s, es[0]), es[1..]);
    }
  }

  // ---------------------------------------------------------------- reserved amounts

  /** Input reserved for `q` by reservations that are open or settled without usage. */
  function HeldInput(rs: seq<Reservation>, q: QuotaId): int
    decreases |rs|
  {
    if |rs| == 0 then 0 else
    var last := rs[|rs| - 1];
    HeldInput(rs[..|rs| - 1], q) + if Holding(last) then Share(last.groups, q, last.input) else 0
  }

  function HeldOutput(rs: seq<Reservation>, q: QuotaId): int
    decreases |rs|
  {
    if |rs| == 0 then 0 else
    var last := rs[|rs| - 1];
    HeldOutput(rs[..|rs| - 1], q) + if Holding(last) then Share(last.groups, q, last.output) else 0
  }

  lemma {:induction false} TotalReserved(rs: seq<Reservation>, q: QuotaId)
    ensures Total(rs, q, ReservedInput) == HeldInput(rs, q) >= 0
    ensures Total(rs, q, ReservedOutput) == HeldOutput(rs, q) >= 0
    decreases |rs|
  {
    if |rs| == 0 {
    } else {
      var last := rs[|rs| - 1];
      TotalReserved(rs[..|rs| - 1], q);
      ShareSign(last.groups, q, last.input);
      ShareSign(last.groups, q, last.output);
      ShareSign(last.groups, q, 0);
    }
  }

  /**
   Reserved counters are the seed plus what open and usage-less reservations hold, for any
   requests at all; so they never fall below the seed.
   */
  lemma ReservedIsHeld(es: seq<Event>, q: QuotaId)
    requires CanRun(EMPTY, es) && q < |Run(EMPTY, es).books.accounts|
    ensures var s := Run(EMPTY, es);
      && q < |s.seeds|
      && s.books.accounts[q].counters.reservedInput == s.seeds[q].reservedInput + HeldInput(s.reservations, q)
      && s.books.accounts[q].counters.reservedOutput == s.seeds[q].reservedOutput + HeldOutput(s.reservations, q)
      && s.books.accounts[q].counters.reservedInput >= s.seeds[q].reservedInput
      && s.books.accounts[q].counters.reservedOutput >= s.seeds[q].reservedOutput
  {
    var s := Run(EMPTY, es);
    RunBalanced(EMPTY, es);
    assert BalancedAt(s, q, ReservedInput) && BalancedAt(s, q, ReservedOutput);
    TotalReserved(s.reservations, q);
  }

  // ---------------------------------------------------------------- limits

  ghost predicate Within(a: Account) {
    && a.counters.calls <= a.limits.calls
    && a.counters.inputProxy <= a.limits.input
    && InputUse(a.counters) <= a.limits.input
    && OutputUse(a.counters) <= a.limits.output
  }

  /** While nothing has stopped the ledger, every quota is within its limits. */
  ghost predicate Safe(s: State) {
    s.books.fatal.None? ==> forall q | 0 <= q < |s.books.accounts| :: Within(s.books.accounts[q])
  }

  /** Requests name distinct groups, and quotas start within their limits. */
  ghost predicate Sound(e: Event) {
    && (e.EAdmit? ==> Distinct(e.groups))
    && (e.EGroup? ==> Within(Account(e.limits, e.deadline, e.seed)))
  }

  lemma AdmitSafe(s: State, e: Event)
    requires Safe(s) && e.EAdmit? && Enabled(s, e) && Sound(e)
    ensures Safe(Step(s, e))
  {
    var t := Step(s, e);
    if Admits(s.books, e.groups, e.proxy, e.output, e.inputCap, e.clock) {
      var change := Reserve(e.proxy.n, InputFor(e.proxy.n), e.output.n);
      forall q: nat | q < |t.books.accounts| ensures Within(t.books.accounts[q]) {
        ApplyUse(s.books.accounts, e.groups, change, q);
        ShareOnce(e.groups, q, change.calls);
        ShareOnce(e.groups, q, change.inputProxy);
        ShareOnce(e.groups, q, InputUse(change));
        ShareOnce(e.groups, q, OutputUse(change));
        assert Within(s.books.accounts[q]);
        if q in e.groups {
          assert e.groups[0..] == e.groups;
          NoRefusal(s.books, e.groups, 0, e.proxy.n, InputFor(e.proxy.n), e.output.n, e.clock, q);
        }
      }
    }
  }

  lemma SettleSafe(s: State, e: Event)
    requires Safe(s) && e.ESettle? && Enabled(s, e) && s.reservations[e.r].fate.Open? && e.usage.Used?
    ensures Safe(Step(s, e))
  {
    var t, r := Step(s, e), s.reservations[e.r];
    var change := Release(r.input, r.output, e.usage.input, e.usage.output, e.estimated);
    if t.books.fatal.None? {
      forall q: nat | q < |t.books.accounts| ensures Within(t.books.accounts[q]) {
        ApplyUse(s.books.accounts, r.groups, change, q);
        ShareSign(r.groups, q, 0);
        assert Within(s.books.accounts[q]);
        if q in r.groups {
          assert r.groups[0..] == r.groups;
          NoExcess(t.books.accounts, r.groups, 0, e.clock, q);
        } else {
          ShareOfOther(r.groups, q, InputUse(change));
          ShareOfOther(r.groups, q, OutputUse(change));
        }
      }
    }
  }

  lemma SendKeepsWithin(accounts: seq<Account>, groups: seq<QuotaId>, q: QuotaId)
    requires (forall k | 0 <= k < |groups| :: groups[k] < |accounts|) && q < |accounts| && Within(accounts[q])
    ensures Within(Apply(accounts, groups, SEND)[q])
  {
    ApplyUse(accounts, groups, SEND, q);
    ShareSign(groups, q, 0);
  }

  lemma SendSafe(s: State, e: Event)
    requires Safe(s) && e.ESent? && Enabled(s, e)
    ensures Safe(Step(s, e))
  {
    if s.books.fatal.None? {
      forall q: nat | q < |s.books.accounts|
        ensures Within(Apply(s.books.accounts, s.reservations[e.r].groups, SEND)[q])
      {
        SendKeepsWithin(s.books.accounts, s.reservations[e.r].groups, q);
      }
    }
  }

  lemma StepSafe(s: State, e: Event)
    requires Safe(s) && Enabled(s, e) && Sound(e)
    ensures Safe(Step(s, e))
  {
    if e.EAdmit? {
      AdmitSafe(s, e);
    } else if e.ESent? {
      SendSafe(s, e);
    } else if e.ESettle? {
      if s.reservations[e.r].fate.Open? && e.usage.Used? {
        SettleSafe(s, e);
      }
    }
  }

  lemma {:induction false} RunSafe(s: State, es: seq<Event>)
    requires Safe(s) && CanRun(s, es) && forall e | e in es :: Sound(e)
    ensures Safe(Run(s, es))
    decreases |es|
  {
    if |es| == 0 {
    } else {
      assert es[0] in es && forall e | e in es[1..] :: e in es;
      StepSafe(s, es[0]);
      RunSafe(Step(s, es[0]), es[1..]);
    }
  }

  lemma {:induction false} ShareOfRepeated(groups: seq<QuotaId>, j: nat, k: nat)
    requires j < k < |groups| && groups[j] == groups[k]
    ensures Share(groups, groups[k], 1) >= 2
    decreases |groups|
  {
    var init := groups[..|groups| - 1];
    if k < |groups| - 1 {
      ShareOfRepeated(init, j, k);
    } else {
      ShareOfPresent(init, j);
    }
  }

  lemma {:induction false} ShareOfPresent(groups: seq<QuotaId>, j: nat)
    requires j < |groups|
    ensures Share(groups, groups[j], 1) >= 1
    decreases |groups|
  {
    ShareSign(groups[..|groups| - 1], groups[j], 1);
    if j < |groups| - 1 {
      ShareOfPresent(groups[..|groups| - 1], j);
    }
  }

  lemma {:induction false} NobodyRefuses(b: Books, groups: seq<QuotaId>, k: nat, clock: Clock)
    requires Known(b, groups) && k <= |groups|
    requires forall j | 0 <= j < |groups| :: Refusal(b.accounts[groups[j]], groups[j], 0, 2048, 1, clock(j)).None?
    ensures FirstRefusal(b, groups, k, 0, 2048, 1, clock).None?
    decreases |groups| - k
  {
    if k < |groups| {
      NobodyRefuses(b, groups, k + 1, clock);
    }
  }

  /**
   Distinctness is needed, whatever the groups: a request that names a quota twice passes the
   check of some safe ledger and exceeds its limits, because every place looks before any is charged.
   Together with AdmitSafe, distinct groups are exactly those that always keep the limits.
   */
  lemma RepeatedGroupExceedsLimit(groups: seq<QuotaId>, n: nat) returns (s: State, e: Event)
    requires forall k | 0 <= k < |groups| :: groups[k] < n
    requires !Distinct(groups)
    ensures Safe(s) && e.EAdmit? && e.groups == groups && Enabled(s, e)
    ensures s.books.fatal.None? && !Safe(Step(s, e))
  {
    var clock: Clock := (k: nat) => 0;
    var account := Account(Limits(1, 2048, 1), 1, ZERO);
    s := State(Books(seq(n, k => account), None), [], seq(n, k => ZERO));
    e := EAdmit(groups, Integer(0), Integer(1), 160000, clock);
    var j, k :| 0 <= j < k < |groups| && groups[j] == groups[k];
    ChargedTwice(s, groups, clock, j, k);
  }

  lemma ChargedTwice(s: State, groups: seq<QuotaId>, clock: Clock, j: nat, k: nat)
    requires j < k < |groups| && groups[j] == groups[k] && Known(s.books, groups) && s.books.fatal.None?
    requires forall q | 0 <= q < |s.books.accounts| :: s.books.accounts[q] == Account(Limits(1, 2048, 1), 1, ZERO)
    requires forall i: nat :: clock(i) == 0
    ensures !Safe(Step(s, EAdmit(groups, Integer(0), Integer(1), 160000, clock)))
  {
    var e := EAdmit(groups, Integer(0), Integer(1), 160000, clock);
    assert InputFor(0) == 2048;
    NobodyRefuses(s.books, groups, 0, clock);
    assert AdmitRefusal(s.books, groups, e.proxy, e.output, e.inputCap, clock).None?;
    var t := Step(s, e);
    assert t.books.accounts == Apply(s.books.accounts, groups, Reserve(0, 2048, 1));
    ShareOfRepeated(groups, j, k);
    ApplyShares(s.books.accounts, groups, Reserve(0, 2048, 1), groups[k], Calls);
    assert !Within(t.books.accounts[groups[k]]);
  }

  // ---------------------------------------------------------------- the latch

  /** After the first stop the reason stays, nothing is admitted or sent, and calls and sends stand still. */
  ghost predicate Frozen(s: State, t: State) {
    && t.books.fatal == s.books.fatal
    && |t.reservations| == |s.reservations|
    && (forall r | 0 <= r < |s.reservations| ::
          t.reservations[r].sends == s.reservations[r].sends && t.reservations[r].groups == s.reservations[r].groups)
    && |s.books.accounts| <= |t.books.accounts|
    && (forall q | 0 <= q < |s.books.accounts| ::
          Still(s.books.accounts[q].counters, t.books.accounts[q].counters))
  }

  ghost predicate Still(a: Counters, b: Counters) {
    b.calls == a.calls && b.sent == a.sent && b.inputProxy == a.inputProxy
  }

  lemma StepFrozen(s: State, e: Event)
    requires s.books.fatal.Some? && Enabled(s, e)
    ensures Frozen(s, Step(s, e))
  {
    if e.ESettle? && s.reservations[e.r].fate.Open? && e.usage.Used? {
      var r, t := s.reservations[e.r], Step(s, e);
      forall q | 0 <= q < |s.books.accounts| ensures Still(s.books.accounts[q].counters, t.books.accounts[q].counters) {
        ApplyUse(s.books.accounts, r.groups, Release(r.input, r.output, e.usage.input, e.usage.output, e.estimated), q);
        ShareSign(r.groups, q, 0);
      }
    }
  }

  lemma {:induction false} StoppedForGood(s: State, es: seq<Event>)
    requires s.books.fatal.Some? && CanRun(s, es)
    ensures Frozen(s, Run(s, es))
    decreases |es|
  {
    if |es| == 0 {
    } else {
      StepFrozen(s, es[0]);
      StoppedForGood(Step(s, es[0]), es[1..]);
    }
  }

  // ---------------------------------------------------------------- settling cleanly

  lemma {:induction false} NoExcessAnywhere(accounts: seq<Account>, groups: seq<QuotaId>, k: nat, clock: Clock)
    requires (forall j | 0 <= j < |groups| :: groups[j] < |accounts|) && k <= |groups|
    requires forall j: nat | j < |groups| :: Excess(accounts[groups[j]], groups[j], clock(j)).None?
    ensures FirstExcess(accounts, groups, k, clock).None?
    decreases |groups| - k
  {
    if k < |groups| {
      NoExcessAnywhere(accounts, groups, k + 1, clock);
    }
  }

  /** A settlement before the deadline whose usage fits its reservation never stops the ledger. */
  lemma FittingSettlementNeverStops(s: State, r: nat, input: nat, output: nat, estimated: bool, clock: Clock)
    requires Enabled(s, ESettle(r, Used(input, output), estimated, clock))
    requires input <= s.reservations[r].input && output <= s.reservations[r].output
    requires forall k | 0 <= k < |s.reservations[r].groups| ::
               && Within(s.books.accounts[s.reservations[r].groups[k]])
               && clock(k) < s.books.accounts[s.reservations[r].groups[k]].deadline
    ensures Step(s, ESettle(r, Used(input, output), estimated, clock)).books.fatal == s.books.fatal
  {
    var reservation := s.reservations[r];
    var groups := reservation.groups;
    var change := Release(reservation.input, reservation.output, input, output, estimated);
    var accounts := Apply(s.books.accounts, groups, change);
    forall k: nat | k < |groups| ensures Excess(accounts[groups[k]], groups[k], clock(k)).None? {
      ApplyUse(s.books.accounts, groups, change, groups[k]);
      ShareSign(groups, groups[k], InputUse(change));
      ShareSign(groups, groups[k], OutputUse(change));
    }
    NoExcessAnywhere(accounts, groups, 0, clock);
  }
}
