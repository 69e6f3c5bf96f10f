/** What a request of a plan does at each of its steps, and what that does to the ledger. */
module PlanSteps {
  import opened Wrappers
  import opened LedgerBooks
  import opened LedgerRuns
  import opened QuotaTree

  /** The request's own reservation, if it has one. */
  function Own(p: Plan, q: nat): Option<Reservation>
    requires q < |p.requests|
  {
    var latest := p.requests[q].latest;
    if latest.Some? && latest.value < |p.ledger.reservations| then Some(p.ledger.reservations[latest.value]) else None
  }

  /** A request is charged to global, to baseline or the judge, and to what is below: by its purpose. */
  lemma {:induction false} ChargedTo(p: Plan, kind: Kind, q: QuotaId)
    requires RolesOk(p.roles) && KindOk(p.roles, kind)
    ensures q in GroupsOf(kind) ==> q < |p.roles|
    ensures q in GroupsOf(kind) <==>
            || q == GLOBAL
            || (match kind
                case Task(run) => q == BASELINE || q == run
                case Writer(run, checkpoint) => q == BASELINE || q == run || q == checkpoint
                case Judging(judge, review, phase) => q == judge || q == review || q == phase)
  {}

  /** A payload is admitted with its request's groups, or stops the ledger; only then does it own a reservation. */
  lemma {:induction false} PayloadReserves(
    p: Plan, q: nat, proxy: Amount, output: Amount, inputCap: int, clock: Clock)
    requires PEnabled(p, PPayload(q, proxy, output, inputCap, clock))
    ensures var t, groups := PStep(p, PPayload(q, proxy, output, inputCap, clock)), GroupsOf(p.requests[q].kind);
      && t.ledger.books == Admit(p.ledger.books, groups, proxy, output, inputCap, clock)
      && if Admits(p.ledger.books, groups, proxy, output, inputCap, clock) then
           && t.requests == p.requests[q := p.requests[q].(latest := Some(|p.ledger.reservations|))]
           && t.owners == p.owners + [q] && Own(t, q).Some? && Own(t, q).value.groups == groups
           && Own(t, q).value.fate.Open? && Own(t, q).value.sends == 0
         else t.requests == p.requests && t.owners == p.owners && t.ledger.reservations == p.ledger.reservations
  {}

  /**
   A fetch is sent exactly when it goes to the expected address for a request that has a reservation and
   has sent nothing, and nothing has stopped the ledger; a fetch that may not be sent stops it.
   */
  lemma {:induction false} FetchSends(p: Plan, q: nat, expectedUrl: bool)
    requires PEnabled(p, PFetch(q, expectedUrl))
    ensures var t, request := PStep(p, PFetch(q, expectedUrl)), p.requests[q];
      var proper := expectedUrl && request.latest.Some? && !request.sent;
      && (proper && p.ledger.books.fatal.None? ==>
            && t.requests == p.requests[q := request.(sent := true)]
            && t.ledger.books == Send(p.ledger.books, p.ledger.reservations[request.latest.value].groups)
            && Own(t, q).Some? && Own(t, q).value.sends == p.ledger.reservations[request.latest.value].sends + 1)
      && (!(proper && p.ledger.books.fatal.None?) ==>
            && t.requests == p.requests && t.ledger.reservations == p.ledger.reservations
            && t.ledger.books.accounts == p.ledger.books.accounts)
      && (!proper ==>
            t.ledger.books.fatal == if p.ledger.books.fatal.Some? then p.ledger.books.fatal
                                    else Some(Halted("EVAL_UNEXPECTED_PROVIDER_REQUEST")))
      && (proper ==> t.ledger.books.fatal == p.ledger.books.fatal)
      && t.owners == p.owners && t.roles == p.roles
  {}

  /** Settling spends the request's own open reservation with the usage, and leaves every other alone. */
  lemma {:induction false} SettlementSpends(p: Plan, q: nat, usage: Usage, estimated: bool, clock: Clock)
    requires PEnabled(p, PSettle(q, usage, estimated, clock))
    ensures var t, i := PStep(p, PSettle(q, usage, estimated, clock)), p.requests[q].latest.value;
      && t == p.(ledger := t.ledger) && |t.ledger.reservations| == |p.ledger.reservations|
      && (forall r | 0 <= r < |p.ledger.reservations| && r != i :: t.ledger.reservations[r] == p.ledger.reservations[r])
      && var before := p.ledger.reservations[i];
         if !before.fate.Open? then t.ledger == p.ledger
         else
           && t.ledger.reservations[i] == before.(fate := match usage
                                                          case Unavailable => Lost
                                                          case Used(input, output) => Spent(input, output, estimated))
           && t.ledger.books ==
              Settle(p.ledger.books, before.groups, before.input, before.output, usage, estimated, clock)
  {}

  /** A failing request settles what it has sent and stops the ledger, if nothing has before it. */
  lemma {:induction false} FailureStops(p: Plan, q: nat, reason: string, usage: Usage, clock: Clock)
    requires PEnabled(p, PFail(q, reason, usage, clock))
    ensures var t, request := PStep(p, PFail(q, reason, usage, clock)), p.requests[q];
      && t.requests == p.requests[q := request.(done := true)] && t.owners == p.owners && t.roles == p.roles
      && t.ledger.books.fatal.Some?
      && (p.ledger.books.fatal.Some? ==> t.ledger.books.fatal == p.ledger.books.fatal)
      && (!request.sent || request.latest.None? ==>
            && t.ledger.reservations == p.ledger.reservations && t.ledger.books.accounts == p.ledger.books.accounts
            && (p.ledger.books.fatal.None? ==> t.ledger.books.fatal == Some(Halted(reason))))
      && (request.sent && request.latest.Some? ==>
            t.ledger.reservations == PStep(p, PSettle(q, usage, false, clock)).ledger.reservations &&
            t.ledger.books.accounts == PStep(p, PSettle(q, usage, false, clock)).ledger.books.accounts)
  {}

  /** The steps that only add: a quota with no counts, a request that has done nothing; and a request's return. */
  lemma {:induction false} PlanGrows(p: Plan, role: Role, limits: Limits, deadline: int, kind: Kind)
    ensures PEnabled(p, PQuota(role, limits, deadline)) ==>
              var t := PStep(p, PQuota(role, limits, deadline));
              && t.roles == p.roles + [role] && t.requests == p.requests && t.owners == p.owners
              && t.ledger.books.accounts == p.ledger.books.accounts + [Account(limits, deadline, ZERO)]
              && t.ledger.reservations == p.ledger.reservations && t.ledger.books.fatal == p.ledger.books.fatal
    ensures PEnabled(p, PRequest(kind)) ==>
              PStep(p, PRequest(kind)) == p.(requests := p.requests + [Request(kind, None, false, false)])
  {}

  /** A call returns only after its own reservation is settled, and changes nothing but that it is over. */
  lemma {:induction false} ReturnAfterSettling(p: Plan, q: nat)
    requires q < |p.requests|
    ensures PEnabled(p, PReturn(q)) <==>
            !p.requests[q].done && Own(p, q).Some? && Own(p, q).value.fate.Spent?
    ensures PEnabled(p, PReturn(q)) ==>
              PStep(p, PReturn(q)) == p.(requests := p.requests[q := p.requests[q].(done := true)])
  {}
}
