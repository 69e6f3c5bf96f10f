/** The ledger as objects: shared, mutable quotas, charged and released in loops over a request's groups. */
module LedgerImpl {
  import opened Wrappers
  import opened LedgerBooks

  class Quota {
    const limits: Limits
    const deadline: int
    var calls: int
    var sent: int
    var knownInput: int
    var knownOutput: int
    var estimatedInput: int
    var estimatedOutput: int
    var inputProxy: int
    var reservedInput: int
    var reservedOutput: int

    constructor (limits: Limits, deadline: int)
      ensures View() == Account(limits, deadline, ZERO)
    {
      this.limits, this.deadline := limits, deadline;
      calls, sent, knownInput, knownOutput, estimatedInput := 0, 0, 0, 0, 0;
      estimatedOutput, inputProxy, reservedInput, reservedOutput := 0, 0, 0, 0;
    }

    function View(): Account
      reads this
    {
      Account(limits, deadline,
              Counters(calls, sent, knownInput, knownOutput, estimatedInput, estimatedOutput,
                       inputProxy, reservedInput, reservedOutput))
    }

    method Reserved(proxy: int, input: int, output: int)
      modifies this
      ensures View() == old(View()).(counters := Plus(old(View()).counters, Reserve(proxy, input, output)))
    {
      calls := calls + 1;
      inputProxy := inputProxy + proxy;
      reservedInput := reservedInput + input;
      reservedOutput := reservedOutput + output;
    }

    method Released(input: int, output: int, usedInput: int, usedOutput: int, estimated: bool)
      modifies this
      ensures View() == old(View()).(counters :=
                Plus(old(View()).counters, Release(input, output, usedInput, usedOutput, estimated)))
    {
      reservedInput := reservedInput - input;
      reservedOutput := reservedOutput - output;
      if estimated {
        estimatedInput := estimatedInput + usedInput;
        estimatedOutput := estimatedOutput + usedOutput;
      } else {
        knownInput := knownInput + usedInput;
        knownOutput := knownOutput + usedOutput;
      }
    }
  }

  class Reservation {
    const groups: seq<QuotaId>
    const input: int
    const output: int
    var settled: bool

    constructor (groups: seq<QuotaId>, input: int, output: int)
      ensures this.groups == groups && this.input == input && this.output == output && !settled
    {
      this.groups, this.input, this.output, settled := groups, input, output, false;
    }
  }

  /** `EVAL_DOUBLE_SETTLEMENT`, or the ledger's stop. */
  datatype Thrown = DoubleSettlement | Stopped(code: StopCode)

  class Ledger {
    var fatal: Option<StopCode>
    var groups: seq<Quota>

    constructor ()
      ensures Valid() && View() == Books([], None)
    {
      fatal, groups := None, [];
    }

    /** The quotas are different objects. */
    ghost predicate Valid()
      reads this
    {
      forall j, k | 0 <= j < k < |groups| :: groups[j] != groups[k]
    }

    function Accounts(): (r: seq<Account>)
      reads this, groups
      ensures |r| == |groups|
    {
      seq(|groups|, k requires 0 <= k < |groups| reads this, groups => groups[k].View())
    }

    function View(): Books
      reads this, groups
    {
      Books(Accounts(), fatal)
    }

    method Group(limits: Limits, deadline: int) returns (q: QuotaId)
      requires Valid()
      modifies this
      ensures Valid() && q == old(|groups|) && |groups| == q + 1
      ensures groups[..q] == old(groups) && fresh(groups[q])
      ensures View() == old(View()).(accounts := old(View()).accounts + [Account(limits, deadline, ZERO)])
    {
      var quota := new Quota(limits, deadline);
      q := |groups|;
      groups := groups + [quota];
    }

    method Halt(code: StopCode)
      modifies this`fatal
      ensures View() == LedgerBooks.Halt(old(View()), code)
    {
      if fatal.None? {
        fatal := Some(code);
      }
    }

    /** The charging loop of admit. */
    method Charge(ids: seq<QuotaId>, proxy: int, input: int, output: int)
      requires Valid() && forall k | 0 <= k < |ids| :: ids[k] < |groups|
      modifies groups
      ensures View() == old(View()).(accounts := Apply(old(Accounts()), ids, Reserve(proxy, input, output)))
    {
      ghost var before := Accounts();
      var k := 0;
      while k < |ids|
        invariant k <= |ids|
        invariant Accounts() == Apply(before, ids[..k], Reserve(proxy, input, output))
      {
        label turn:
        groups[ids[k]].Reserved(proxy, input, output);
        assert ids[..k + 1][..k] == ids[..k];
        assert forall q | 0 <= q < |groups| && q != ids[k] :: groups[q] != groups[ids[k]];
        assert Accounts() == old@turn(Accounts())[ids[k] := groups[ids[k]].View()];
        k := k + 1;
      }
      assert ids[..k] == ids;
    }

    method Admit(ids: seq<QuotaId>, proxy: Amount, output: Amount, inputCap: int, clock: Clock)
      returns (r: Result<Reservation, Thrown>)
      requires Valid() && Known(View(), ids)
      modifies this`fatal, groups
      ensures View() == LedgerBooks.Admit(old(View()), ids, proxy, output, inputCap, clock)
      ensures r.Success? <==> Admits(old(View()), ids, proxy, output, inputCap, clock)
      ensures r.Success? ==> fresh(r.value) && r.value.groups == ids && !r.value.settled &&
                             r.value.input == InputFor(proxy.n) && r.value.output == output.n
      ensures r.Failure? ==> fatal.Some? && r.error == Stopped(fatal.value) && Accounts() == old(Accounts())
    {
      if fatal.Some? {
        return Failure(Stopped(fatal.value));
      }
      if output.NotAnInteger? || output.n < 1 || proxy.NotAnInteger? || proxy.n < 0 {
        Halt(InvalidReservation);
        return Failure(Stopped(fatal.value));
      }
      var input := InputFor(proxy.n);
      if input > inputCap {
        Halt(RequestInputLimit);
        return Failure(Stopped(fatal.value));
      }
      var refusal := Look(ids, proxy.n, input, output.n, clock);
      if refusal.Some? {
        Halt(refusal.value);
        return Failure(Stopped(fatal.value));
      }
      Charge(ids, proxy.n, input, output.n);
      var reservation := new Reservation(ids, input, output.n);
      r := Success(reservation);
    }

    /** The checking loop of admit. */
    method Look(
      ids: seq<QuotaId>, proxy: int, input: int, output: int, clock: Clock) returns (refusal: Option<StopCode>)
      requires Known(View(), ids)
      ensures refusal == FirstRefusal(View(), ids, 0, proxy, input, output, clock)
    {
      var k := 0;
      while k < |ids|
        invariant k <= |ids|
        invariant FirstRefusal(View(), ids, 0, proxy, input, output, clock) ==
                  FirstRefusal(View(), ids, k, proxy, input, output, clock)
      {
        var q := groups[ids[k]];
        if clock(k) >= q.deadline {
          return Some(TimeLimit(ids[k]));
        }
        if q.calls >= q.limits.calls {
          return Some(CallsLimit(ids[k]));
        }
        if q.knownInput + q.estimatedInput + q.reservedInput + input > q.limits.input ||
           q.inputProxy + proxy > q.limits.input {
          return Some(InputLimit(ids[k]));
        }
        if q.knownOutput + q.estimatedOutput + q.reservedOutput + output > q.limits.output {
          return Some(OutputLimit(ids[k]));
        }
        k := k + 1;
      }
      refusal := None;
    }

    method Sent(reservation: Reservation) returns (r: Option<Thrown>)
      requires Valid() && Known(View(), reservation.groups)
      modifies groups
      ensures View() == Send(old(View()), reservation.groups)
      ensures r == if old(fatal).None? then None else Some(Stopped(old(fatal).value))
    {
      if fatal.Some? {
        return Some(Stopped(fatal.value));
      }
      var ids := reservation.groups;
      ghost var before := Accounts();
      var k := 0;
      while k < |ids|
        invariant k <= |ids|
        invariant Accounts() == Apply(before, ids[..k], SEND)
      {
        label turn:
        groups[ids[k]].sent := groups[ids[k]].sent + 1;
        assert ids[..k + 1][..k] == ids[..k];
        assert forall q | 0 <= q < |groups| && q != ids[k] :: groups[q] != groups[ids[k]];
        assert Accounts() == old@turn(Accounts())[ids[k] := groups[ids[k]].View()];
        k := k + 1;
      }
      assert ids[..k] == ids;
      r := None;
    }

    /** The releasing loop of settle. */
    method ReleaseAll(ids: seq<QuotaId>, input: int, output: int, usedInput: int, usedOutput: int, estimated: bool)
      requires Valid() && forall k | 0 <= k < |ids| :: ids[k] < |groups|
      modifies groups
      ensures View() == old(View()).(accounts :=
                Apply(old(Accounts()), ids, Release(input, output, usedInput, usedOutput, estimated)))
    {
      ghost var before := Accounts();
      var k := 0;
      while k < |ids|
        invariant k <= |ids|
        invariant Accounts() == Apply(before, ids[..k], Release(input, output, usedInput, usedOutput, estimated))
      {
        label turn:
        groups[ids[k]].Released(input, output, usedInput, usedOutput, estimated);
        assert ids[..k + 1][..k] == ids[..k];
        assert forall q | 0 <= q < |groups| && q != ids[k] :: groups[q] != groups[ids[k]];
        assert Accounts() == old@turn(Accounts())[ids[k] := groups[ids[k]].View()];
        k := k + 1;
      }
      assert ids[..k] == ids;
    }

    /** The last loop of settle. */
    method FindExcess(ids: seq<QuotaId>, clock: Clock) returns (excess: Option<StopCode>)
      requires Known(View(), ids)
      ensures excess == FirstExcess(Accounts(), ids, 0, clock)
    {
      var k := 0;
      while k < |ids|
        invariant k <= |ids|
        invariant FirstExcess(Accounts(), ids, 0, clock) == FirstExcess(Accounts(), ids, k, clock)
      {
        var q := groups[ids[k]];
        if clock(k) >= q.deadline {
          return Some(TimeLimit(ids[k]));
        }
        if q.knownInput + q.estimatedInput + q.reservedInput > q.limits.input {
          return Some(InputLimit(ids[k]));
        }
        if q.knownOutput + q.estimatedOutput + q.reservedOutput > q.limits.output {
          return Some(OutputLimit(ids[k]));
        }
        k := k + 1;
      }
      excess := None;
    }

    method Settle(reservation: Reservation, usage: Usage, estimated: bool, clock: Clock) returns (r: Option<Thrown>)
      requires Valid() && Known(View(), reservation.groups)
      modifies this`fatal, groups, reservation
      ensures reservation.settled
      ensures old(reservation.settled) ==> r == Some(DoubleSettlement) && View() == old(View())
      ensures !old(reservation.settled) ==>
                View() == LedgerBooks.Settle(old(View()), reservation.groups, reservation.input, reservation.output,
                                             usage, estimated, clock)
      ensures !old(reservation.settled) && r.None? ==> fatal == old(fatal)
      ensures !old(reservation.settled) ==>
                (r.None? <==> usage.Used? && usage.input <= reservation.input &&
                              FirstExcess(Accounts(), reservation.groups, 0, clock).None?)
      ensures !old(reservation.settled) && r.Some? ==> fatal.Some? && r == Some(Stopped(fatal.value))
    {
      if reservation.settled {
        return Some(DoubleSettlement);
      }
      reservation.settled := true;
      if usage.Unavailable? {
        Halt(UsageUnavailable);
        return Some(Stopped(fatal.value));
      }
      ReleaseAll(reservation.groups, reservation.input, reservation.output, usage.input, usage.output, estimated);
      if usage.input > reservation.input {
        Halt(InputReservationOverrun);
        return Some(Stopped(fatal.value));
      }
      var excess := FindExcess(reservation.groups, clock);
      if excess.Some? {
        Halt(excess.value);
        return Some(Stopped(fatal.value));
      }
      r := None;
    }
  }
}
