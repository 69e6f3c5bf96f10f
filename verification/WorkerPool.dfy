/**
 The in-process worker pool: workers share a counter of claimed items.  A worker may find the pool
 stopped whenever it looks, and work may be rejected; whole claims and completions interleave
 freely.
 */
module WorkerPool {
  datatype Worker = Ready | Working(item: nat) | Returned | Thrown

  datatype Pool = Pool(size: nat, next: nat, workers: seq<Worker>, claimed: seq<nat>, done: seq<nat>, lost: seq<nat>)

  /** `Claim` found the pool running, `Leave` found it stopped; `Complete` and `Reject` end an item's work. */
  datatype Step = Claim(w: nat) | Leave(w: nat) | Complete(w: nat) | Reject(w: nat)

  function Min(a: nat, b: nat): nat {
    if a < b then a else b
  }

  /** boundedWorkers before any worker has run; other concurrencies are refused. */
  function Initial(size: nat, concurrency: nat): Pool
    requires 1 <= concurrency <= 4
  {
    Pool(size, 0, seq(Min(concurrency, size), _ => Ready), [], [], [])
  }

  predicate CanStep(p: Pool, s: Step) {
    s.w < |p.workers| && if s.Claim? || s.Leave? then p.workers[s.w].Ready? else p.workers[s.w].Working?
  }

  function Next(p: Pool, s: Step): Pool
    requires CanStep(p, s)
  {
    match s
    case Claim(w) =>
      if p.next >= p.size then p.(next := p.next + 1, workers := p.workers[w := Returned])
      else p.(next := p.next + 1, workers := p.workers[w := Working(p.next)], claimed := p.claimed + [p.next])
    case Leave(w) => p.(workers := p.workers[w := Returned])
    case Complete(w) => p.(workers := p.workers[w := Ready], done := p.done + [p.workers[w].item])
    case Reject(w) => p.(workers := p.workers[w := Thrown], lost := p.lost + [p.workers[w].item])
  }

  predicate CanRun(p: Pool, steps: seq<Step>)
    decreases |steps|
  {
    |steps| == 0 || (CanStep(p, steps[0]) && CanRun(Next(p, steps[0]), steps[1..]))
  }

  function Run(p: Pool, steps: seq<Step>): Pool
    requires CanRun(p, steps)
    decreases |steps|
  {
    if |steps| == 0 then p else Run(Next(p, steps[0]), steps[1..])
  }

  // ---------------------------------------------------------------- the invariant

  /** 0, 1, ..., n - 1 */
  function Upto(n: nat): seq<nat> {
    if n == 0 then [] else Upto(n - 1) + [n - 1]
  }

  /** The items in progress. */
  function Active(workers: seq<Worker>): multiset<nat>
    decreases |workers|
  {
    if |workers| == 0 then multiset{} else
    var before, last := Active(workers[..|workers| - 1]), workers[|workers| - 1];
    if last.Working? then before + multiset{last.item} else before
  }

  /** Claimed items are a prefix, and each of them is in progress, done or lost exactly once. */
  ghost predicate Inv(p: Pool) {
    && p.claimed == Upto(Min(p.next, p.size))
    && multiset(p.claimed) == Active(p.workers) + multiset(p.done) + multiset(p.lost)
    && |Active(p.workers)| <= |p.workers|
  }

  lemma {:induction false} ActiveIs(workers: seq<Worker>)
    ensures |Active(workers)| <= |workers|
    decreases |workers|
  {
    if |workers| == 0 {
    } else {
      ActiveIs(workers[..|workers| - 1]);
    }
  }

  lemma {:induction false} ActiveAppend(workers: seq<Worker>, last: Worker)
    ensures Active(workers + [last]) == if last.Working? then Active(workers) + multiset{last.item} else Active(workers)
  {
    assert (workers + [last])[..|workers|] == workers;
  }

  lemma {:induction false} Swap(m: multiset<nat>, x: nat, y: nat)
    ensures m + multiset{x} + multiset{y} == m + multiset{y} + multiset{x}
  {}

  /** An idle worker takes an item up. */
  lemma {:induction false} ActiveTake(workers: seq<Worker>, w: nat, item: nat)
    requires w < |workers| && !workers[w].Working?
    ensures Active(workers[w := Working(item)]) == Active(workers) + multiset{item}
    decreases |workers|
  {
    var init, last := workers[..|workers| - 1], workers[|workers| - 1];
    assert workers == init + [last];
    ActiveAppend(init, last);
    if w == |init| {
      assert workers[w := Working(item)] == init + [Working(item)];
      ActiveAppend(init, Working(item));
    } else {
      assert workers[w := Working(item)] == init[w := Working(item)] + [last];
      ActiveAppend(init[w := Working(item)], last);
      ActiveTake(init, w, item);
      if last.Working? {
        Swap(Active(init), item, last.item);
      }
    }
  }

  lemma {:induction false} ActiveIdle(workers: seq<Worker>, w: nat, after: Worker)
    requires w < |workers| && !workers[w].Working? && !after.Working?
    ensures Active(workers[w := after]) == Active(workers)
    decreases |workers|
  {
    var init, last := workers[..|workers| - 1], workers[|workers| - 1];
    assert workers == init + [last];
    ActiveAppend(init, last);
    if w == |init| {
      assert workers[w := after] == init + [after];
      ActiveAppend(init, after);
    } else {
      assert workers[w := after] == init[w := after] + [last];
      ActiveAppend(init[w := after], last);
      ActiveIdle(init, w, after);
    }
  }

  /** Putting an item down is taking it up, undone. */
  lemma {:induction false} ActiveDrop(workers: seq<Worker>, w: nat, after: Worker)
    requires w < |workers| && workers[w].Working? && !after.Working?
    ensures Active(workers[w := after]) + multiset{workers[w].item} == Active(workers)
  {
    ActiveTake(workers[w := after], w, workers[w].item);
    assert workers[w := after][w := Working(workers[w].item)] == workers;
  }

  lemma {:induction false} MoveItem(
    before: multiset<nat>, after: multiset<nat>, x: nat, done: multiset<nat>, lost: multiset<nat>)
    requires after + multiset{x} == before
    ensures before + done + lost == after + (done + multiset{x}) + lost
    ensures before + done + lost == after + done + (lost + multiset{x})
  {
    assert after + multiset{x} + done + lost == after + (done + multiset{x}) + lost;
    assert after + multiset{x} + done + lost == after + done + (lost + multiset{x});
  }

  lemma {:induction false} StepKeeps(p: Pool, s: Step)
    requires Inv(p) && CanStep(p, s)
    ensures Inv(Next(p, s))
  {
    ActiveIs(Next(p, s).workers);
    match s {
      case Claim(w) => KeepClaim(p, w);
      case Leave(w) => ActiveIdle(p.workers, w, Returned);
      case Complete(w) =>
        ActiveDrop(p.workers, w, Ready);
        MoveItem(Active(p.workers), Active(p.workers[w := Ready]), p.workers[w].item, multiset(p.done),
            multiset(p.lost));
      case Reject(w) =>
        ActiveDrop(p.workers, w, Thrown);
        MoveItem(Active(p.workers), Active(p.workers[w := Thrown]), p.workers[w].item, multiset(p.done),
            multiset(p.lost));
    }
  }

  lemma {:induction false} KeepClaim(p: Pool, w: nat)
    requires Inv(p) && CanStep(p, Claim(w))
    ensures Next(p, Claim(w)).claimed == Upto(Min(p.next + 1, p.size))
    ensures var t := Next(p, Claim(w));
      multiset(t.claimed) == Active(t.workers) + multiset(p.done) + multiset(p.lost)
  {
    if p.next >= p.size {
      ActiveIdle(p.workers, w, Returned);
    } else {
      ActiveTake(p.workers, w, p.next);
      var a, d, l, x := Active(p.workers), multiset(p.done), multiset(p.lost), multiset{p.next};
      assert multiset(p.claimed + [p.next]) == multiset(p.claimed) + x;
      assert a + d + l + x == a + x + d + l;
    }
  }

  lemma {:induction false} RunKeeps(p: Pool, steps: seq<Step>)
    requires Inv(p) && CanRun(p, steps)
    ensures Inv(Run(p, steps)) && |Run(p, steps).workers| == |p.workers| && Run(p, steps).size == p.size
    decreases |steps|
  {
    if |steps| == 0 {
    } else {
      StepKeeps(p, steps[0]);
      RunKeeps(Next(p, steps[0]), steps[1..]);
    }
  }

  lemma {:induction false} InitialOk(size: nat, concurrency: nat)
    requires 1 <= concurrency <= 4
    ensures Inv(Initial(size, concurrency))
  {
    NobodyActive(Initial(size, concurrency).workers);
  }

  lemma {:induction false} NobodyActive(workers: seq<Worker>)
    requires forall k | 0 <= k < |workers| :: !workers[k].Working?
    ensures Active(workers) == multiset{}
    decreases |workers|
  {
    if |workers| == 0 {
    } else {
      NobodyActive(workers[..|workers| - 1]);
    }
  }

  // ---------------------------------------------------------------- what the pool promises

  /**
   In every interleaving at most `concurrency` items are in progress, the claimed items are a
   prefix, and no item is claimed, finished or lost twice.
   */
  lemma {:induction false} PoolIsBounded(size: nat, concurrency: nat, steps: seq<Step>)
    requires 1 <= concurrency <= 4 && CanRun(Initial(size, concurrency), steps)
    ensures var p := Run(Initial(size, concurrency), steps);
      && |Active(p.workers)| <= concurrency
      && p.claimed == Upto(Min(p.next, size))
      && multiset(p.claimed) == Active(p.workers) + multiset(p.done) + multiset(p.lost)
  {
    InitialOk(size, concurrency);
    RunKeeps(Initial(size, concurrency), steps);
  }

  predicate Smooth(steps: seq<Step>) {
    forall k | 0 <= k < |steps| :: !steps[k].Leave? && !steps[k].Reject?
  }

  /** While nothing stops the pool, a worker only returns once every item is claimed. */
  ghost predicate Eager(p: Pool) {
    p.lost == [] && forall k | 0 <= k < |p.workers| ::
        !p.workers[k].Thrown? && (p.workers[k].Returned? ==> p.next >= p.size)
  }

  lemma {:induction false} RunEager(p: Pool, steps: seq<Step>)
    requires CanRun(p, steps) && Smooth(steps) && Eager(p)
    ensures Eager(Run(p, steps))
    decreases |steps|
  {
    if |steps| == 0 {
    } else {
      assert !steps[0].Leave? && !steps[0].Reject?;
      assert forall k | 0 <= k < |steps[1..]| :: steps[1..][k] == steps[k + 1];
      RunEager(Next(p, steps[0]), steps[1..]);
    }
  }

  predicate AllReturned(p: Pool) {
    forall k | 0 <= k < |p.workers| :: p.workers[k].Returned?
  }

  lemma {:induction false} SettledCounts(p: Pool, done: multiset<nat>)
    requires multiset(p.claimed) == multiset{} + done + multiset(p.lost) && p.lost == []
    ensures multiset(p.claimed) == done
  {}

  /** If the pool is never stopped and no work is rejected, every item is processed exactly once. */
  lemma {:induction false} EveryItemOnce(size: nat, concurrency: nat, steps: seq<Step>)
    requires 1 <= concurrency <= 4 && CanRun(Initial(size, concurrency), steps) && Smooth(steps)
    requires AllReturned(Run(Initial(size, concurrency), steps))
    ensures multiset(Run(Initial(size, concurrency), steps).done) == multiset(Upto(size))
  {
    PoolIsBounded(size, concurrency, steps);
    RunEager(Initial(size, concurrency), steps);
    InitialOk(size, concurrency);
    RunKeeps(Initial(size, concurrency), steps);
    var p := Run(Initial(size, concurrency), steps);
    NobodyActive(p.workers);
    assert size > 0 ==> p.workers[0].Returned?;
    assert Min(p.next, size) == size;
    SettledCounts(p, multiset(p.done));
  }

  /** The pool has as many workers as may run at once, or as there are items; a claim takes the next item. */
  lemma {:induction false} PoolShape(size: nat, concurrency: nat, steps: seq<Step>)
    requires 1 <= concurrency <= 4 && CanRun(Initial(size, concurrency), steps)
    ensures var p := Run(Initial(size, concurrency), steps);
      && |p.workers| == (if concurrency < size then concurrency else size)
      && (forall w: nat | CanStep(p, Claim(w)) ::
            Next(p, Claim(w)).workers[w] == if p.next < size then Working(p.next) else Returned)
      && (forall w: nat | CanStep(p, Leave(w)) ::
            Next(p, Leave(w)) == p.(workers := Next(p, Leave(w)).workers) && Next(p, Leave(w)).workers[w] == Returned)
      && (forall w: nat | CanStep(p, Complete(w)) ::
            && Next(p, Complete(w)).workers[w] == Ready
            && Next(p, Complete(w)).done == p.done + [p.workers[w].item])
      && (forall w: nat | CanStep(p, Reject(w)) ::
            && Next(p, Reject(w)).workers[w] == Thrown
            && Next(p, Reject(w)).lost == p.lost + [p.workers[w].item])
  {
    InitialOk(size, concurrency);
    RunKeeps(Initial(size, concurrency), steps);
  }

  /** Until all workers have returned or thrown one of them can go on. */
  lemma {:induction false} SomeoneCanStep(p: Pool, w: nat)
    requires w < |p.workers| && !p.workers[w].Returned? && !p.workers[w].Thrown?
    ensures CanStep(p, if p.workers[w].Ready? then Claim(w) else Complete(w))
  {}
}
