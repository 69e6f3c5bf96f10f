/**
 The quota tree of a live plan and the transport that drives the ledger: every request is
 charged to the global quota, to exactly one of baseline and judge, and to one leaf below it.
 */
module QuotaTree {
  import opened Wrappers
  import opened LedgerBooks
  import opened LedgerRuns

  datatype Role = Global | Baseline | Run | Checkpoint | Judge | Review | ReviewPhase

  const GLOBAL: QuotaId := 0
  const BASELINE: QuotaId := 1

  /** The groups a request is charged to, by purpose. */
  datatype Kind =
    | Task(run: QuotaId)
    | Writer(run: QuotaId, checkpoint: QuotaId)
    | Judging(judge: QuotaId, review: QuotaId, phase: QuotaId)

  function GroupsOf(kind: Kind): seq<QuotaId> {
    match kind
    case Task(run) => [GLOBAL, BASELINE, run]
    case Writer(run, checkpoint) => [GLOBAL, BASELINE, run, checkpoint]
    case Judging(judge, review, phase) => [GLOBAL, judge, review, phase]
  }

  predicate HasRole(roles: seq<Role>, q: QuotaId, role: Role) {
    q < |roles| && roles[q] == role
  }

  predicate KindOk(roles: seq<Role>, kind: Kind) {
    match kind
    case Task(run) => HasRole(roles, run, Run)
    case Writer(run, checkpoint) => HasRole(roles, run, Run) && HasRole(roles, checkpoint, Checkpoint)
    case Judging(judge, review, phase) =>
      HasRole(roles, judge, Judge) && HasRole(roles, review, Review) && HasRole(roles, phase, ReviewPhase)
  }

  /** One `complete` call: its latest reservation, whether it was sent, whether the call is over. */
  datatype Request = Request(kind: Kind, latest: Option<nat>, sent: bool, done: bool)

  /** `owners` says which request each reservation belongs to. */
  datatype Plan = Plan(ledger: State, roles: seq<Role>, requests: seq<Request>, owners: seq<nat>)

  datatype PlanEvent =
    | PQuota(role: Role, limits: Limits, deadline: int)
    | PRequest(kind: Kind)
    | PPayload(q: nat, proxy: Amount, output: Amount, inputCap: int, clock: Clock)
    | PFetch(q: nat, expectedUrl: bool)
    | PSettle(q: nat, usage: Usage, estimated: bool, clock: Clock)
    | PReturn(q: nat)
    | PFail(q: nat, reason: string, usage: Usage, clock: Clock)
    | PHalt(reason: string)

  /** A fresh plan, or one that inherits a predecessor's counters in both global and baseline. */
  ghost function Start(
    globalLimits: Limits, globalDeadline: int, baselineLimits: Limits, baselineDeadline: int, seed: Counters): Plan
  {
    Plan(Step(Step(EMPTY, EGroup(globalLimits, globalDeadline, seed)), EGroup(baselineLimits, baselineDeadline, seed)),
         [Global, Baseline], [], [])
  }

  predicate Running(p: Plan, q: nat) {
    q < |p.requests| && !p.requests[q].done
  }

  ghost predicate PEnabled(p: Plan, e: PlanEvent) {
    match e
    case PQuota(role, _, _) => role != Global && role != Baseline
    case PRequest(kind) => KindOk(p.roles, kind)
    case PPayload(q, proxy, output, inputCap, clock) =>
      Running(p, q) && Enabled(p.ledger, EAdmit(GroupsOf(p.requests[q].kind), proxy, output, inputCap, clock))
    case PFetch(q, _) =>
      Running(p, q) &&
      (p.requests[q].latest.Some? ==> Enabled(p.ledger, ESent(p.requests[q].latest.value)))
    case PSettle(q, usage, estimated, clock) =>
      Running(p, q) && p.requests[q].latest.Some? &&
      Enabled(p.ledger, ESettle(p.requests[q].latest.value, usage, estimated, clock))
    case PReturn(q) => Running(p, q) && LatestSpent(p, q)
    case PFail(q, _, usage, clock) =>
      Running(p, q) &&
      (p.requests[q].latest.Some? ==> Enabled(p.ledger, ESettle(p.requests[q].latest.value, usage, false, clock)))
    case PHalt(_) => true
  }

  predicate LatestSpent(p: Plan, q: nat)
    requires q < |p.requests|
  {
    var latest := p.requests[q].latest;
    latest.Some? && latest.value < |p.ledger.reservations| && p.ledger.reservations[latest.value].fate.Spent?
  }

  ghost function PStep(p: Plan, e: PlanEvent): Plan
    requires PEnabled(p, e)
  {
    match e
    case PQuota(role, limits, deadline) =>
      p.(ledger := Step(p.ledger, EGroup(limits, deadline, ZERO)), roles := p.roles + [role])
    case PRequest(kind) => p.(requests := p.requests + [Request(kind, None, false, false)])
    case PPayload(q, proxy, output, inputCap, clock) =>
      var groups := GroupsOf(p.requests[q].kind);
      var t := p.(ledger := Step(p.ledger, EAdmit(groups, proxy, output, inputCap, clock)));
      if Admits(p.ledger.books, groups, proxy, output, inputCap, clock) then
        t.(requests := p.requests[q := p.requests[q].(latest := Some(|p.ledger.reservations|))],
           owners := p.owners + [q])
      else t
    case PFetch(q, expectedUrl) =>
      var request := p.requests[q];
      if !expectedUrl || request.latest.None? || request.sent then
        p.(ledger := Step(p.ledger, EHalt("EVAL_UNEXPECTED_PROVIDER_REQUEST")))
      else if p.ledger.books.fatal.Some? then p
      else
        p.(ledger := Step(p.ledger, ESent(request.latest.value)),
           requests := p.requests[q := request.(sent := true)])
    case PSettle(q, usage, estimated, clock) =>
      p.(ledger := Step(p.ledger, ESettle(p.requests[q].latest.value, usage, estimated, clock)))
    case PReturn(q) => p.(requests := p.requests[q := p.requests[q].(done := true)])
    case PFail(q, reason, usage, clock) =>
      var request := p.requests[q];
      var t := if request.sent && request.latest.Some? then
                 Step(p.ledger, ESettle(request.latest.value, usage, false, clock))
               else p.ledger;
      p.(ledger := Step(t, EHalt(reason)), requests := p.requests[q := request.(done := true)])
    case PHalt(reason) => p.(ledger := Step(p.ledger, EHalt(reason)))
  }

  ghost predicate PCanRun(p: Plan, es: seq<PlanEvent>)
    decreases |es|
  {
    |es| == 0 || (PEnabled(p, es[0]) && PCanRun(PStep(p, es[0]), es[1..]))
  }

  ghost function PRun(p: Plan, es: seq<PlanEvent>): Plan
    requires PCanRun(p, es)
    decreases |es|
  {
    if |es| == 0 then p else PRun(PStep(p, es[0]), es[1..])
  }

  // ---------------------------------------------------------------- invariants

  /** The groups of a reservation, as roles. */
  predicate Shaped(roles: seq<Role>, groups: seq<QuotaId>) {
    && 3 <= |groups| <= 4 && groups[0] == GLOBAL
    && ((groups[1] == BASELINE && HasRole(roles, groups[2], Run)
         && (|groups| == 4 ==> HasRole(roles, groups[3], Checkpoint)))
        || (|groups| == 4 && HasRole(roles, groups[1], Judge) && HasRole(roles, groups[2], Review)
            && HasRole(roles, groups[3], ReviewPhase)))
  }

  predicate RolesOk(roles: seq<Role>) {
    && 2 <= |roles| && roles[GLOBAL] == Global && roles[BASELINE] == Baseline
    && forall q | 2 <= q < |roles| :: roles[q] != Global && roles[q] != Baseline
  }

  /** Structure: seeds only at the two roots, every reservation shaped, requests and reservations linked. */
  ghost predicate TreeOk(p: Plan, seed: Counters) {
    && Balanced(p.ledger)
    && RolesOk(p.roles) && |p.roles| == |p.ledger.seeds|
    && (forall q: nat | q < |p.roles| :: p.ledger.seeds[q] == if q < 2 then seed else ZERO)
    && (forall r | 0 <= r < |p.ledger.reservations| :: Shaped(p.roles, p.ledger.reservations[r].groups))
    && (forall q | 0 <= q < |p.requests| :: KindOk(p.roles, p.requests[q].kind))
  }

  ghost predicate OwnedOnce(p: Plan, r: nat)
    requires r < |p.ledger.reservations| == |p.owners|
  {
    var owner := p.owners[r];
    && owner < |p.requests|
    && p.requests[owner].latest.Some?
    && r <= p.requests[owner].latest.value
    && p.ledger.reservations[r].sends <= (if p.requests[owner].sent then 1 else 0)
  }

  ghost predicate RequestOk(p: Plan, q: nat)
    requires q < |p.requests| && |p.ledger.reservations| == |p.owners|
  {
    var request := p.requests[q];
    && (request.latest.Some? ==> request.latest.value < |p.owners| && p.owners[request.latest.value] == q)
    && (request.done && p.ledger.books.fatal.None? ==> LatestSpent(p, q))
  }

  /** Each reservation has one owner and is sent at most once; a finished call without a stop has settled. */
  ghost predicate LinksOk(p: Plan) {
    && |p.ledger.reservations| == |p.owners|
    && (forall r | 0 <= r < |p.owners| :: OwnedOnce(p, r))
    && (forall q | 0 <= q < |p.requests| :: RequestOk(p, q))
  }

  lemma KindShaped(roles: seq<Role>, kind: Kind)
    requires RolesOk(roles) && KindOk(roles, kind)
    ensures Shaped(roles, GroupsOf(kind))
    ensures Distinct(GroupsOf(kind)) && forall k | 0 <= k < |GroupsOf(kind)| :: GroupsOf(kind)[k] < |roles|
  {
  }

  /** A ledger call that neither adds a quota nor admits a request leaves the tree's shape alone. */
  lemma TreeAfterLedgerCall(p: Plan, e: Event, t: Plan, seed: Counters)
    requires TreeOk(p, seed) && Enabled(p.ledger, e) && !e.EAdmit? && !e.EGroup?
    requires t.ledger == Step(p.ledger, e) && t.roles == p.roles
    requires |t.requests| == |p.requests|
    requires forall q | 0 <= q < |p.requests| :: t.requests[q].kind == p.requests[q].kind
    ensures TreeOk(t, seed)
  {
    StepBalanced(p.ledger, e);
    assert t.ledger.seeds == p.ledger.seeds && |t.ledger.reservations| == |p.ledger.reservations|;
    forall r | 0 <= r < |t.ledger.reservations| ensures Shaped(t.roles, t.ledger.reservations[r].groups) {
      assert t.ledger.reservations[r].groups == p.ledger.reservations[r].groups;
    }
  }

  lemma TreeAfterPayload(p: Plan, e: PlanEvent, seed: Counters)
    requires TreeOk(p, seed) && e.PPayload? && PEnabled(p, e)
    ensures TreeOk(PStep(p, e), seed)
  {
    var groups := GroupsOf(p.requests[e.q].kind);
    KindShaped(p.roles, p.requests[e.q].kind);
    StepBalanced(p.ledger, EAdmit(groups, e.proxy, e.output, e.inputCap, e.clock));
    var t := PStep(p, e);
    assert t.ledger.seeds == p.ledger.seeds && t.roles == p.roles;
    forall r | 0 <= r < |t.ledger.reservations| ensures Shaped(t.roles, t.ledger.reservations[r].groups) {
      assert r < |p.ledger.reservations| ==> t.ledger.reservations[r] == p.ledger.reservations[r];
    }
  }

  lemma TreeAfterQuota(p: Plan, e: PlanEvent, seed: Counters)
    requires TreeOk(p, seed) && e.PQuota? && PEnabled(p, e)
    ensures TreeOk(PStep(p, e), seed)
  {
    StepBalanced(p.ledger, EGroup(e.limits, e.deadline, ZERO));
  }

  lemma TreeAfterFail(p: Plan, e: PlanEvent, seed: Counters)
    requires TreeOk(p, seed) && e.PFail? && PEnabled(p, e)
    ensures TreeOk(PStep(p, e), seed)
  {
    var request, u := p.requests[e.q], p;
    if request.sent && request.latest.Some? {
      var settle := ESettle(request.latest.value, e.usage, false, e.clock);
      u := p.(ledger := Step(p.ledger, settle));
      TreeAfterLedgerCall(p, settle, u, seed);
    }
    TreeAfterLedgerCall(u, EHalt(e.reason), PStep(p, e), seed);
  }

  lemma TreeStep(p: Plan, e: PlanEvent, seed: Counters)
    requires TreeOk(p, seed) && PEnabled(p, e)
    ensures TreeOk(PStep(p, e), seed)
  {
    var t := PStep(p, e);
    match e
    case PQuota(_, _, _) => TreeAfterQuota(p, e, seed);
    case PRequest(_) =>
    case PPayload(_, _, _, _, _) => TreeAfterPayload(p, e, seed);
    case PFetch(q, expectedUrl) =>
      if !expectedUrl || p.requests[q].latest.None? || p.requests[q].sent {
        TreeAfterLedgerCall(p, EHalt("EVAL_UNEXPECTED_PROVIDER_REQUEST"), t, seed);
      } else if p.ledger.books.fatal.None? {
        TreeAfterLedgerCall(p, ESent(p.requests[q].latest.value), t, seed);
      }
    case PSettle(q, usage, estimated, clock) =>
      TreeAfterLedgerCall(p, ESettle(p.requests[q].latest.value, usage, estimated, clock), t, seed);
    case PReturn(_) =>
    case PFail(_, _, _, _) => TreeAfterFail(p, e, seed);
    case PHalt(reason) => TreeAfterLedgerCall(p, EHalt(reason), t, seed);
  }

  /** A settled reservation stays settled and keeps its sends through any ledger call but its own sending. */
  lemma SpentStays(s: State, e: Event, r: nat)
    requires Enabled(s, e) && r < |s.reservations|
    ensures r < |Step(s, e).reservations|
    ensures s.reservations[r].fate.Spent? ==> Step(s, e).reservations[r].fate.Spent?
    ensures !(e.ESent? && e.r == r) ==> Step(s, e).reservations[r].sends == s.reservations[r].sends
    ensures s.books.fatal.Some? ==> Step(s, e).books.fatal.Some?
    ensures !e.EAdmit? ==> |Step(s, e).reservations| == |s.reservations|
  {
  }

  lemma LinksAfterLedgerCall(p: Plan, e: Event, t: Plan)
    requires LinksOk(p) && Enabled(p.ledger, e) && !e.EAdmit? && !e.ESent?
    requires t == p.(ledger := Step(p.ledger, e))
    ensures LinksOk(t)
  {
    forall r | 0 <= r < |t.owners| ensures OwnedOnce(t, r) {
      assert OwnedOnce(p, r);
      SpentStays(p.ledger, e, r);
    }
    forall q | 0 <= q < |t.requests| ensures RequestOk(t, q) {
      assert RequestOk(p, q);
      if p.requests[q].latest.Some? {
        SpentStays(p.ledger, e, p.requests[q].latest.value);
      }
    }
  }

  lemma LinksAfterPayload(p: Plan, e: PlanEvent)
    requires LinksOk(p) && e.PPayload? && PEnabled(p, e)
    ensures LinksOk(PStep(p, e))
  {
    var t := PStep(p, e);
    forall r | 0 <= r < |t.owners| ensures OwnedOnce(t, r) {
      if r < |p.owners| {
        assert OwnedOnce(p, r);
      }
    }
    forall q | 0 <= q < |t.requests| ensures RequestOk(t, q) {
      assert RequestOk(p, q);
    }
  }

  lemma LinksAfterFetch(p: Plan, e: PlanEvent)
    requires LinksOk(p) && e.PFetch? && PEnabled(p, e)
    ensures LinksOk(PStep(p, e))
  {
    var t, request := PStep(p, e), p.requests[e.q];
    if !e.expectedUrl || request.latest.None? || request.sent {
      LinksAfterLedgerCall(p, EHalt("EVAL_UNEXPECTED_PROVIDER_REQUEST"), t);
    } else {
      assert RequestOk(p, e.q);
      forall r | 0 <= r < |t.owners| ensures OwnedOnce(t, r) {
        assert OwnedOnce(p, r);
      }
      forall q | 0 <= q < |t.requests| ensures RequestOk(t, q) {
        assert RequestOk(p, q);
      }
    }
  }

  lemma LinksAfterEnd(p: Plan, q: nat, t: Plan)
    requires LinksOk(p) && q < |p.requests|
    requires t == p.(requests := p.requests[q := p.requests[q].(done := true)])
    requires p.ledger.books.fatal.Some? || LatestSpent(p, q)
    ensures LinksOk(t)
  {
    forall r | 0 <= r < |t.owners| ensures OwnedOnce(t, r) {
      assert OwnedOnce(p, r);
    }
    forall k | 0 <= k < |t.requests| ensures RequestOk(t, k) {
      assert RequestOk(p, k);
    }
  }

  lemma LinksAfterFail(p: Plan, e: PlanEvent)
    requires LinksOk(p) && e.PFail? && PEnabled(p, e)
    ensures LinksOk(PStep(p, e))
  {
    var request := p.requests[e.q];
    var u := p;
    if request.sent && request.latest.Some? {
      var settle := ESettle(request.latest.value, e.usage, false, e.clock);
      u := p.(ledger := Step(p.ledger, settle));
      LinksAfterLedgerCall(p, settle, u);
    }
    var v := u.(ledger := Step(u.ledger, EHalt(e.reason)));
    LinksAfterLedgerCall(u, EHalt(e.reason), v);
    LinksAfterEnd(v, e.q, PStep(p, e));
  }

  lemma LinksStep(p: Plan, e: PlanEvent)
    requires LinksOk(p) && PEnabled(p, e)
    ensures LinksOk(PStep(p, e))
  {
    var t := PStep(p, e);
    match e
    case PQuota(_, limits, deadline) =>
      LinksAfterLedgerCall(p, EGroup(limits, deadline, ZERO), p.(ledger := t.ledger));
      SameLinks(p.(ledger := t.ledger), t);
    case PRequest(_) =>
      forall r | 0 <= r < |t.owners| ensures OwnedOnce(t, r) {
        assert OwnedOnce(p, r);
      }
      forall q | 0 <= q < |t.requests| ensures RequestOk(t, q) {
        if q < |p.requests| {
          assert RequestOk(p, q);
        }
      }
    case PPayload(_, _, _, _, _) => LinksAfterPayload(p, e);
    case PFetch(_, _) => LinksAfterFetch(p, e);
    case PSettle(q, usage, estimated, clock) =>
      LinksAfterLedgerCall(p, ESettle(p.requests[q].latest.value, usage, estimated, clock), t);
    case PReturn(q) => LinksAfterEnd(p, q, t);
    case PFail(_, _, _, _) => LinksAfterFail(p, e);
    case PHalt(reason) => LinksAfterLedgerCall(p, EHalt(reason), t);
  }

  lemma SameLinks(p: Plan, t: Plan)
    requires LinksOk(p) && t.ledger == p.ledger && t.requests == p.requests && t.owners == p.owners
    ensures LinksOk(t)
  {
    forall r | 0 <= r < |t.owners| ensures OwnedOnce(t, r) {
      assert OwnedOnce(p, r);
    }
    forall q | 0 <= q < |t.requests| ensures RequestOk(t, q) {
      assert RequestOk(p, q);
    }
  }

  lemma {:induction false} RunKeepsPlan(p: Plan, es: seq<PlanEvent>, seed: Counters)
    requires TreeOk(p, seed) && LinksOk(p) && PCanRun(p, es)
    ensures TreeOk(PRun(p, es), seed) && LinksOk(PRun(p, es))
    decreases |es|
  {
    if |es| == 0 {
    } else {
      TreeStep(p, es[0], seed);
      LinksStep(p, es[0]);
      RunKeepsPlan(PStep(p, es[0]), es[1..], seed);
    }
  }

  lemma StartOk(gl: Limits, gd: int, bl: Limits, bd: int, seed: Counters)
    ensures TreeOk(Start(gl, gd, bl, bd, seed), seed) && LinksOk(Start(gl, gd, bl, bd, seed))
  {
    assert Balanced(EMPTY);
    StepBalanced(EMPTY, EGroup(gl, gd, seed));
    StepBalanced(Step(EMPTY, EGroup(gl, gd, seed)), EGroup(bl, bd, seed));
  }

  // ---------------------------------------------------------------- conservation

  /** A counter summed over the first `n` quotas of one role. */
  ghost function Sum(p: Plan, role: Role, f: Field, n: nat): int
    requires n <= |p.roles| == |p.ledger.books.accounts|
  {
    if n == 0 then 0
    else Sum(p, role, f, n - 1) + if p.roles[n - 1] == role then Get(p.ledger.books.accounts[n - 1].counters, f) else 0
  }

  ghost function SumAll(p: Plan, role: Role, f: Field): int
    requires |p.roles| == |p.ledger.books.accounts|
  {
    Sum(p, role, f, |p.roles|)
  }

  /** `x` for every group of the given role among the first `n` quotas. */
  function RoleShare(groups: seq<QuotaId>, roles: seq<Role>, role: Role, x: int, n: nat): int
    requires n <= |roles|
  {
    if n == 0 then 0
    else RoleShare(groups, roles, role, x, n - 1) + if roles[n - 1] == role then Share(groups, n - 1, x) else 0
  }

  /** The same sum by position: it only depends on the roles of the groups. */
  function Positions(groups: seq<QuotaId>, roles: seq<Role>, role: Role, x: int): int
    decreases |groups|
  {
    if |groups| == 0 then 0
    else Positions(groups[..|groups| - 1], roles, role, x)
         + if HasRole(roles, groups[|groups| - 1], role) then x else 0
  }

  lemma {:induction false} OnePosition(init: seq<QuotaId>, last: QuotaId, roles: seq<Role>, role: Role, x: int, n: nat)
    requires n <= |roles|
    ensures RoleShare(init + [last], roles, role, x, n) ==
            RoleShare(init, roles, role, x, n) + if last < n && roles[last] == role then x else 0
  {
    if n == 0 {
    } else {
      OnePosition(init, last, roles, role, x, n - 1);
      assert (init + [last])[..|init|] == init;
    }
  }

  lemma {:induction false} SharesAreByPosition(groups: seq<QuotaId>, roles: seq<Role>, role: Role, x: int)
    requires forall k | 0 <= k < |groups| :: groups[k] < |roles|
    ensures RoleShare(groups, roles, role, x, |roles|) == Positions(groups, roles, role, x)
    decreases |groups|
  {
    if |groups| == 0 {
      NoPositions(roles, role, x, |roles|);
    } else {
      var init, last := groups[..|groups| - 1], groups[|groups| - 1];
      assert init + [last] == groups;
      SharesAreByPosition(init, roles, role, x);
      OnePosition(init, last, roles, role, x, |roles|);
    }
  }

  lemma {:induction false} NoPositions(roles: seq<Role>, role: Role, x: int, n: nat)
    requires n <= |roles|
    ensures RoleShare([], roles, role, x, n) == 0
  {
    if n == 0 {
    } else {
      NoPositions(roles, role, x, n - 1);
    }
  }

  /** Each reservation weighs the same on the two sides of the tree's two laws. */
  lemma ShapeBalances(groups: seq<QuotaId>, roles: seq<Role>, x: int)
    requires RolesOk(roles) && Shaped(roles, groups) && groups[1] < |roles|
    ensures Positions(groups, roles, Global, x) == x
    ensures Positions(groups, roles, Baseline, x) + Positions(groups, roles, Judge, x) == x
    ensures Positions(groups, roles, Run, x) == Positions(groups, roles, Baseline, x)
    ensures Positions(groups, roles, Review, x) == Positions(groups, roles, Judge, x)
    ensures Positions(groups, roles, ReviewPhase, x) == Positions(groups, roles, Judge, x)
  {
    assert groups[..3][..2] == groups[..2] && groups[..2][..1] == groups[..1] && groups[..1][..0] == [];
    assert groups[..|groups|] == groups;
    forall role ensures Positions(groups[..1], roles, role, x) == if role == Global then x else 0 {}
    forall role
      ensures Positions(groups[..2], roles, role, x) ==
              Positions(groups[..1], roles, role, x) + if roles[groups[1]] == role then x else 0
    {}
    forall role
      ensures Positions(groups[..3], roles, role, x) ==
              Positions(groups[..2], roles, role, x) + if roles[groups[2]] == role then x else 0
    {}
    if |groups| == 4 {
      forall role
        ensures Positions(groups, roles, role, x) ==
                Positions(groups[..3], roles, role, x) + if roles[groups[3]] == role then x else 0
      {}
    }
  }

  ghost function RoleTotal(rs: seq<Reservation>, roles: seq<Role>, role: Role, f: Field): int
    decreases |rs|
  {
    if |rs| == 0 then 0 else
    var last := rs[|rs| - 1];
    RoleTotal(rs[..|rs| - 1], roles, role, f) + Positions(last.groups, roles, role, Get(Effect(last), f))
  }

  ghost function QuotaTotals(rs: seq<Reservation>, roles: seq<Role>, role: Role, f: Field, n: nat): int
    requires n <= |roles|
  {
    if n == 0 then 0
    else QuotaTotals(rs, roles, role, f, n - 1) + if roles[n - 1] == role then Total(rs, n - 1, f) else 0
  }

  lemma {:induction false} QuotaTotalsSnoc(rs: seq<Reservation>, roles: seq<Role>, role: Role, f: Field, n: nat)
    requires n <= |roles| && |rs| > 0
    ensures var last := rs[|rs| - 1];
            QuotaTotals(rs, roles, role, f, n) ==
            QuotaTotals(rs[..|rs| - 1], roles, role, f, n) +
                RoleShare(last.groups, roles, role, Get(Effect(last), f), n)
  {
    if n == 0 {
    } else {
      QuotaTotalsSnoc(rs, roles, role, f, n - 1);
    }
  }

  lemma {:induction false} QuotaTotalsNone(roles: seq<Role>, role: Role, f: Field, n: nat)
    requires n <= |roles|
    ensures QuotaTotals([], roles, role, f, n) == 0
  {
    if n == 0 {
    } else {
      QuotaTotalsNone(roles, role, f, n - 1);
    }
  }

  /** Summing quotas then reservations is summing reservations then positions. */
  lemma {:induction false} TotalsByRole(rs: seq<Reservation>, roles: seq<Role>, role: Role, f: Field)
    requires forall r | 0 <= r < |rs| :: forall k | 0 <= k < |rs[r].groups| :: rs[r].groups[k] < |roles|
    ensures QuotaTotals(rs, roles, role, f, |roles|) == RoleTotal(rs, roles, role, f)
    decreases |rs|
  {
    if |rs| == 0 {
      QuotaTotalsNone(roles, role, f, |roles|);
    } else {
      var last := rs[|rs| - 1];
      QuotaTotalsSnoc(rs, roles, role, f, |roles|);
      SharesAreByPosition(last.groups, roles, role, Get(Effect(last), f));
      TotalsByRole(rs[..|rs| - 1], roles, role, f);
    }
  }

  lemma {:induction false} TreeTotals(rs: seq<Reservation>, roles: seq<Role>, f: Field)
    requires RolesOk(roles)
    requires forall r | 0 <= r < |rs| :: Shaped(roles, rs[r].groups) && rs[r].groups[1] < |roles|
    ensures RoleTotal(rs, roles, Global, f) == RoleTotal(rs, roles, Baseline, f) + RoleTotal(rs, roles, Judge, f)
    ensures RoleTotal(rs, roles, Baseline, f) == RoleTotal(rs, roles, Run, f)
    ensures RoleTotal(rs, roles, Judge, f) == RoleTotal(rs, roles, Review, f) == RoleTotal(rs, roles, ReviewPhase, f)
    decreases |rs|
  {
    if |rs| == 0 {
    } else {
      var last := rs[|rs| - 1];
      ShapeBalances(last.groups, roles, Get(Effect(last), f));
      TreeTotals(rs[..|rs| - 1], roles, f);
    }
  }

  ghost predicate CounterIsTotal(p: Plan, q: QuotaId, f: Field, seed: Counters)
    requires q < |p.ledger.books.accounts|
  {
    Get(p.ledger.books.accounts[q].counters, f) ==
    Total(p.ledger.reservations, q, f) + if q < 2 then Get(seed, f) else 0
  }

  lemma CountersAreTotals(p: Plan, q: QuotaId, f: Field, seed: Counters)
    requires TreeOk(p, seed) && q < |p.roles|
    ensures q < |p.ledger.books.accounts| && CounterIsTotal(p, q, f, seed)
  {
    assert BalancedAt(p.ledger, q, f);
    assert Get(ZERO, f) == 0;
  }

  /** Quotas of a role hold their totals, plus the inherited seed at the two roots. */
  lemma {:induction false} SumIsTotals(p: Plan, role: Role, f: Field, n: nat, seed: Counters)
    requires n <= |p.roles| == |p.ledger.books.accounts| && RolesOk(p.roles)
    requires forall q: nat | q < |p.roles| :: CounterIsTotal(p, q, f, seed)
    ensures Sum(p, role, f, n) ==
            QuotaTotals(p.ledger.reservations, p.roles, role, f, n)
            + (if (role == Global && n > 0) || (role == Baseline && n > 1) then Get(seed, f) else 0)
    decreases n
  {
    if n == 0 {
    } else {
      SumIsTotals(p, role, f, n - 1, seed);
      assert CounterIsTotal(p, n - 1, f, seed);
    }
  }

  /**
   Over every interleaving of runs and judge reviews, for every counter: global is baseline plus
   judge, baseline is the inherited seed plus the run quotas, and judge is its reviews, which are
   their phases.
   */
  lemma TreeIsConserved(gl: Limits, gd: int, bl: Limits, bd: int, seed: Counters, es: seq<PlanEvent>, f: Field)
    requires PCanRun(Start(gl, gd, bl, bd, seed), es)
    ensures var p := PRun(Start(gl, gd, bl, bd, seed), es);
      && |p.roles| == |p.ledger.books.accounts|
      && SumAll(p, Global, f) == SumAll(p, Baseline, f) + SumAll(p, Judge, f)
      && SumAll(p, Baseline, f) == Get(seed, f) + SumAll(p, Run, f)
      && SumAll(p, Judge, f) == SumAll(p, Review, f) == SumAll(p, ReviewPhase, f)
  {
    var p := PRun(Start(gl, gd, bl, bd, seed), es);
    StartOk(gl, gd, bl, bd, seed);
    RunKeepsPlan(Start(gl, gd, bl, bd, seed), es, seed);
    var rs := p.ledger.reservations;
    forall r | 0 <= r < |rs| ensures Shaped(p.roles, rs[r].groups) && Known(p.ledger.books, rs[r].groups) {}
    TreeTotals(rs, p.roles, f);
    forall q: nat | q < |p.roles| ensures CounterIsTotal(p, q, f, seed) {
      CountersAreTotals(p, q, f, seed);
    }
    forall role {:trigger RoleTotal(rs, p.roles, role, f)}
      ensures SumAll(p, role, f) ==
              RoleTotal(rs, p.roles, role, f) + if role == Global || role == Baseline then Get(seed, f) else 0
    {
      TotalsByRole(rs, p.roles, role, f);
      SumIsTotals(p, role, f, |p.roles|, seed);
    }
  }

  // ---------------------------------------------------------------- limits

  /** Every quota a plan adds starts within its limits, which is to say that no limit is negative. */
  ghost predicate QuotasFit(es: seq<PlanEvent>) {
    forall e | e in es && e.PQuota? :: Within(Account(e.limits, e.deadline, ZERO))
  }

  /** The groups a request is charged to are pairwise distinct, so admission looks at each quota once. */
  lemma PayloadSafe(p: Plan, e: PlanEvent, seed: Counters)
    requires TreeOk(p, seed) && Safe(p.ledger) && e.PPayload? && PEnabled(p, e)
    ensures Safe(PStep(p, e).ledger)
  {
    var groups := GroupsOf(p.requests[e.q].kind);
    KindShaped(p.roles, p.requests[e.q].kind);
    StepSafe(p.ledger, EAdmit(groups, e.proxy, e.output, e.inputCap, e.clock));
  }

  lemma PlanStepSafe(p: Plan, e: PlanEvent, seed: Counters)
    requires TreeOk(p, seed) && Safe(p.ledger) && PEnabled(p, e) && QuotasFit([e])
    ensures Safe(PStep(p, e).ledger)
  {
    match e
    case PQuota(_, limits, deadline) =>
      assert e in [e];
      StepSafe(p.ledger, EGroup(limits, deadline, ZERO));
    case PRequest(_) =>
    case PPayload(_, _, _, _, _) => PayloadSafe(p, e, seed);
    case PFetch(q, expectedUrl) =>
      if !(!expectedUrl || p.requests[q].latest.None? || p.requests[q].sent) {
        StepSafe(p.ledger, ESent(p.requests[q].latest.value));
      }
    case PSettle(q, usage, estimated, clock) =>
      StepSafe(p.ledger, ESettle(p.requests[q].latest.value, usage, estimated, clock));
    case PReturn(_) =>
    case PFail(q, _, usage, clock) =>
      if p.requests[q].latest.Some? {
        StepSafe(p.ledger, ESettle(p.requests[q].latest.value, usage, false, clock));
      }
    case PHalt(_) =>
  }

  lemma {:induction false} PlanRunSafe(p: Plan, es: seq<PlanEvent>, seed: Counters)
    requires TreeOk(p, seed) && Safe(p.ledger) && PCanRun(p, es) && QuotasFit(es)
    ensures Safe(PRun(p, es).ledger)
    decreases |es|
  {
    if |es| == 0 {
    } else {
      PlanStepSafe(p, es[0], seed);
      TreeStep(p, es[0], seed);
      PlanRunSafe(PStep(p, es[0]), es[1..], seed);
    }
  }

  /**
   Until something stops the plan, no quota of it - global, baseline, judge or any below them -
   exceeds a limit, whatever the requests estimate and use and however they interleave.
   */
  lemma PlanStaysWithinLimits(
    gl: Limits, gd: int, bl: Limits, bd: int, seed: Counters, es: seq<PlanEvent>, q: QuotaId)
    requires Within(Account(gl, gd, seed)) && Within(Account(bl, bd, seed)) && QuotasFit(es)
    requires PCanRun(Start(gl, gd, bl, bd, seed), es)
    requires var books := PRun(Start(gl, gd, bl, bd, seed), es).ledger.books;
             books.fatal.None? && q < |books.accounts|
    ensures Within(PRun(Start(gl, gd, bl, bd, seed), es).ledger.books.accounts[q])
  {
    StartOk(gl, gd, bl, bd, seed);
    PlanRunSafe(Start(gl, gd, bl, bd, seed), es, seed);
  }

  // ---------------------------------------------------------------- sends and leftovers

  lemma {:induction false} SentWithinCalls(rs: seq<Reservation>, q: QuotaId)
    requires forall r | 0 <= r < |rs| :: rs[r].sends <= 1
    ensures 0 <= Total(rs, q, Sent) <= Total(rs, q, Calls)
    decreases |rs|
  {
    if |rs| == 0 {
    } else {
      var last := rs[|rs| - 1];
      SentWithinCalls(rs[..|rs| - 1], q);
      ShareSign(last.groups, q, last.sends);
      ShareAdds(last.groups, q, last.sends, 1 - last.sends);
      ShareSign(last.groups, q, 1 - last.sends);
    }
  }

  /**
   The transport sends each reservation at most once, so beyond what it inherited no quota counts
   more sends than calls; nor does it in all unless it inherited more.
   */
  lemma SentNeverExceedsCalls(
    gl: Limits, gd: int, bl: Limits, bd: int, seed: Counters, es: seq<PlanEvent>, q: QuotaId)
    requires PCanRun(Start(gl, gd, bl, bd, seed), es)
    requires q < |PRun(Start(gl, gd, bl, bd, seed), es).ledger.books.accounts|
    ensures var p := PRun(Start(gl, gd, bl, bd, seed), es);
            var c := p.ledger.books.accounts[q].counters;
      && q < |p.ledger.seeds|
      && 0 <= c.sent - p.ledger.seeds[q].sent <= c.calls - p.ledger.seeds[q].calls
      && p.ledger.seeds[q] == (if q < 2 then seed else ZERO)
      && (seed.sent <= seed.calls ==> c.sent <= c.calls)
  {
    var p := PRun(Start(gl, gd, bl, bd, seed), es);
    StartOk(gl, gd, bl, bd, seed);
    RunKeepsPlan(Start(gl, gd, bl, bd, seed), es, seed);
    forall r | 0 <= r < |p.ledger.reservations| ensures p.ledger.reservations[r].sends <= 1 {
      assert OwnedOnce(p, r);
    }
    SentWithinCalls(p.ledger.reservations, q);
    assert BalancedAt(p.ledger, q, Sent) && BalancedAt(p.ledger, q, Calls);
  }

  lemma {:induction false} NothingHeld(rs: seq<Reservation>, q: QuotaId)
    requires forall r | 0 <= r < |rs| :: rs[r].fate.Spent?
    ensures HeldInput(rs, q) == 0 && HeldOutput(rs, q) == 0
    decreases |rs|
  {
    if |rs| == 0 {
    } else {
      NothingHeld(rs[..|rs| - 1], q);
    }
  }

  /**
   When the plan is idle and was never stopped, and each call built one payload, no reservation
   is left behind: every quota's reserved amounts are back to what it started with.
   */
  lemma IdlePlanHoldsNothing(
    gl: Limits, gd: int, bl: Limits, bd: int, seed: Counters, es: seq<PlanEvent>, q: QuotaId)
    requires PCanRun(Start(gl, gd, bl, bd, seed), es)
    requires var p := PRun(Start(gl, gd, bl, bd, seed), es);
      && p.ledger.books.fatal.None? && q < |p.ledger.books.accounts|
      && (forall k | 0 <= k < |p.requests| :: p.requests[k].done)
      && (forall j, k | 0 <= j < k < |p.owners| :: p.owners[j] != p.owners[k])
    ensures var p := PRun(Start(gl, gd, bl, bd, seed), es);
      && q < |p.ledger.seeds|
      && p.ledger.books.accounts[q].counters.reservedInput == p.ledger.seeds[q].reservedInput
      && p.ledger.books.accounts[q].counters.reservedOutput == p.ledger.seeds[q].reservedOutput
  {
    var p := PRun(Start(gl, gd, bl, bd, seed), es);
    StartOk(gl, gd, bl, bd, seed);
    RunKeepsPlan(Start(gl, gd, bl, bd, seed), es, seed);
    forall r | 0 <= r < |p.ledger.reservations| ensures p.ledger.reservations[r].fate.Spent? {
      assert OwnedOnce(p, r);
      assert RequestOk(p, p.owners[r]);
    }
    NothingHeld(p.ledger.reservations, q);
    TotalReserved(p.ledger.reservations, q);
    assert BalancedAt(p.ledger, q, ReservedInput) && BalancedAt(p.ledger, q, ReservedOutput);
  }
}
