/**
 Gateway price lists, their conversion into request-wide tiers, and the cost of a request.
 Prices are exact rationals here; token counts are integers.
 */
module GatewayPricing {
  import opened Wrappers

  datatype Rate = Input | Output | CacheRead | CacheWrite

  /** A bracket of prompt lengths: `min` inclusive, `max` exclusive, `cost` per token. */
  datatype Bracket = Bracket(cost: Option<real>, min: Option<int>, max: Option<int>)

  /** One rate of the price list: its base price and its brackets. */
  datatype RateList = RateList(base: Option<real>, brackets: seq<Bracket>)
  datatype Pricing = Pricing(input: RateList, output: RateList, cacheRead: RateList, cacheWrite: RateList)

  function ListOf(p: Pricing, rate: Rate): RateList {
    match rate
    case Input => p.input
    case Output => p.output
    case CacheRead => p.cacheRead
    case CacheWrite => p.cacheWrite
  }

  // ---------------------------------------------------------------- what the list says

  predicate Contains(b: Bracket, n: int) {
    (if b.min.Some? then b.min.value else 0) <= n && (b.max.Some? ==> n < b.max.value)
  }

  /** The first bracket that contains a prompt length. */
  function Find(brackets: seq<Bracket>, n: int): Option<Bracket> {
    if |brackets| == 0 then None
    else if Contains(brackets[0], n) then Some(brackets[0])
    else Find(brackets[1..], n)
  }

  function Price(x: Option<real>): real {
    if x.Some? then x.value else 0.0
  }

  /** The price per token that the list gives a rate for a prompt length. */
  function Listed(p: Pricing, rate: Rate, n: int): real {
    var list := ListOf(p, rate);
    var bracket := Find(list.brackets, n);
    if bracket.Some? && bracket.value.cost.Some? then bracket.value.cost.value else Price(list.base)
  }

  /** Bracket `k` is the first that reaches from its start, or zero, up to but not including its end. */
  predicate FirstAround(brackets: seq<Bracket>, n: int, k: nat) {
    && k < |brackets| && Around(brackets[k], n) && forall j | 0 <= j < k :: !Around(brackets[j], n)
  }

  predicate Around(b: Bracket, n: int) {
    && (match b.min case Some(min) => min <= n case None => 0 <= n)
    && (match b.max case Some(max) => n + 1 <= max case None => true)
  }

  lemma {:induction false} FindIsFirst(brackets: seq<Bracket>, n: int)
    ensures match Find(brackets, n)
            case None => forall k | 0 <= k < |brackets| :: !Around(brackets[k], n)
            case Some(b) => exists k: nat :: FirstAround(brackets, n, k) && brackets[k] == b
  {
    if |brackets| == 0 {
    } else if Contains(brackets[0], n) {
      assert FirstAround(brackets, n, 0);
    } else {
      FindIsFirst(brackets[1..], n);
      if Find(brackets[1..], n).Some? {
        var k: nat :| FirstAround(brackets[1..], n, k) && brackets[1..][k] == Find(brackets[1..], n).value;
        assert FirstAround(brackets, n, k + 1) by {
          forall j | 0 <= j < k + 1 ensures !Around(brackets[j], n) {
            assert j > 0 ==> brackets[j] == brackets[1..][j - 1];
          }
        }
      } else {
        assert forall k | 0 < k < |brackets| :: brackets[k] == brackets[1..][k - 1];
      }
    }
  }

  /** The listed price: that of the first bracket around the prompt length if it has one, else the base, or nothing. */
  lemma {:induction false} ListedIs(p: Pricing, rate: Rate, n: int, price: real)
    ensures var list := match rate
                        case Input => p.input
                        case Output => p.output
                        case CacheRead => p.cacheRead
                        case CacheWrite => p.cacheWrite;
      var base := if list.base.Some? then list.base.value else 0.0;
      Listed(p, rate, n) == price <==>
      || (price == base && forall k | 0 <= k < |list.brackets| :: !Around(list.brackets[k], n))
      || (exists k: nat :: FirstAround(list.brackets, n, k) &&
            price == if list.brackets[k].cost.Some? then list.brackets[k].cost.value else base)
  {
    FindIsFirst(ListOf(p, rate).brackets, n);
  }

  // ---------------------------------------------------------------- the conversion

  /** Prices per million tokens. */
  datatype Rates = Rates(input: real, output: real, cacheRead: real, cacheWrite: real)
  datatype Tier = Tier(inputTokensAbove: int, rates: Rates)
  datatype ModelCost = ModelCost(base: Rates, tiers: seq<Tier>)

  function RateOf(r: Rates, rate: Rate): real {
    match rate
    case Input => r.input
    case Output => r.output
    case CacheRead => r.cacheRead
    case CacheWrite => r.cacheWrite
  }

  function PerMillion(x: real): real {
    x * 1000000.0
  }

  function BaseRates(p: Pricing): Rates {
    Rates(PerMillion(Price(p.input.base)), PerMillion(Price(p.output.base)),
          PerMillion(Price(p.cacheRead.base)), PerMillion(Price(p.cacheWrite.base)))
  }

  function TierAt(p: Pricing, start: int): Tier {
    Tier(start - 1, Rates(PerMillion(Listed(p, Input, start)), PerMillion(Listed(p, Output, start)),
                          PerMillion(Listed(p, CacheRead, start)), PerMillion(Listed(p, CacheWrite, start))))
  }

  function StartsIn(brackets: seq<Bracket>): set<int>
    decreases |brackets|
  {
    if |brackets| == 0 then {} else
    var last := brackets[|brackets| - 1];
    StartsIn(brackets[..|brackets| - 1]) + if last.min.Some? && last.min.value > 0 then {last.min.value} else {}
  }

  function Starts(p: Pricing): set<int> {
    StartsIn(p.input.brackets) + StartsIn(p.output.brackets) +
    StartsIn(p.cacheRead.brackets) + StartsIn(p.cacheWrite.brackets)
  }

  predicate TierOfStart(p: Pricing, tier: Tier) {
    tier.inputTokensAbove + 1 in Starts(p) && tier == TierAt(p, tier.inputTokensAbove + 1)
  }

  /** A list with tiers for exactly the starts, in whatever order. */
  ghost predicate TiersOf(p: Pricing, tiers: seq<Tier>) {
    && (forall k | 0 <= k < |tiers| :: TierOfStart(p, tiers[k]))
    && (forall start | start in Starts(p) :: TierAt(p, start) in tiers)
  }

  /** Base prices are those of the list for a million tokens, and tiers start where brackets do above zero. */
  lemma {:induction false} ConvertedFrom(p: Pricing, start: int)
    ensures var base := (x: Option<real>) => 1000000.0 * if x.Some? then x.value else 0.0;
      BaseRates(p) == Rates(base(p.input.base), base(p.output.base), base(p.cacheRead.base), base(p.cacheWrite.base))
    ensures start in Starts(p) <==>
            start > 0 && exists rate, k | 0 <= k < |ListOf(p, rate).brackets| ::
                           ListOf(p, rate).brackets[k].min == Some(start)
  {
    forall rate ensures start in StartsIn(ListOf(p, rate).brackets) <==>
                        start > 0 && exists k | 0 <= k < |ListOf(p, rate).brackets| ::
                                       ListOf(p, rate).brackets[k].min == Some(start)
    {
      StartsInIff(ListOf(p, rate).brackets, start);
    }
    assert ListOf(p, Input) == p.input && ListOf(p, Output) == p.output;
    assert ListOf(p, CacheRead) == p.cacheRead && ListOf(p, CacheWrite) == p.cacheWrite;
  }

  lemma {:induction false} StartsInIff(brackets: seq<Bracket>, start: int)
    ensures start in StartsIn(brackets) <==>
            start > 0 && exists k | 0 <= k < |brackets| :: brackets[k].min == Some(start)
    decreases |brackets|
  {
    if |brackets| == 0 {
    } else {
      var init, last := brackets[..|brackets| - 1], brackets[|brackets| - 1];
      StartsInIff(init, start);
      if k :| 0 <= k < |brackets| && brackets[k].min == Some(start) {
        assert k < |init| ==> init[k] == brackets[k];
      }
      if k :| 0 <= k < |init| && init[k].min == Some(start) {
        assert brackets[k] == init[k];
      }
    }
  }

  method CollectStarts(brackets: seq<Bracket>) returns (starts: set<int>)
    ensures starts == StartsIn(brackets)
  {
    starts := {};
    var k := 0;
    while k < |brackets|
      invariant k <= |brackets| && starts == StartsIn(brackets[..k])
    {
      assert brackets[..k + 1][..k] == brackets[..k];
      if brackets[k].min.Some? && brackets[k].min.value > 0 {
        starts := starts + {brackets[k].min.value};
      }
      k := k + 1;
    }
    assert brackets[..k] == brackets;
  }

  /** The price a tier takes over from one rate's brackets, or the base price. */
  method TierRate(list: RateList, start: int) returns (price: real)
    ensures price == PerMillion(var b := Find(list.brackets, start);
                                if b.Some? && b.value.cost.Some? then b.value.cost.value else Price(list.base))
  {
    price := PerMillion(Price(list.base));
    var k := 0;
    while k < |list.brackets|
      invariant k <= |list.brackets| && Find(list.brackets, start) == Find(list.brackets[k..], start)
      invariant price == PerMillion(Price(list.base))
    {
      assert list.brackets[k..][1..] == list.brackets[k + 1..];
      if Contains(list.brackets[k], start) {
        if list.brackets[k].cost.Some? {
          price := PerMillion(list.brackets[k].cost.value);
        }
        return;
      }
      k := k + 1;
    }
  }

  predicate IsLeast(s: set<int>, x: int) {
    x in s && forall y | y in s :: x <= y
  }

  lemma {:induction false} HasLeast(s: set<int>)
    requires |s| > 0
    ensures exists x :: IsLeast(s, x)
    decreases |s|
  {
    assert (forall y :: y !in s) ==> s == {};
    var x :| x in s;
    var rest := s - {x};
    if |rest| == 0 {
      assert s == {x};
      assert IsLeast(s, x);
    } else {
      HasLeast(rest);
      var z :| IsLeast(rest, z);
      forall y | y in s ensures (if x < z then x else z) <= y {
        assert y == x || y in rest;
      }
      assert IsLeast(s, if x < z then x else z);
    }
  }

  method StartTier(p: Pricing, start: int) returns (tier: Tier)
    ensures tier == TierAt(p, start)
  {
    var input := TierRate(p.input, start);
    var output := TierRate(p.output, start);
    var cacheRead := TierRate(p.cacheRead, start);
    var cacheWrite := TierRate(p.cacheWrite, start);
    tier := Tier(start - 1, Rates(input, output, cacheRead, cacheWrite));
  }

  /** The starts that are not left have their tiers, in ascending order. */
  ghost predicate Built(p: Pricing, tiers: seq<Tier>, left: set<int>) {
    && left <= Starts(p)
    && (forall k | 0 <= k < |tiers| :: TierOfStart(p, tiers[k]))
    && (forall start | start in Starts(p) && start !in left :: TierAt(p, start) in tiers)
    && (forall k | 0 <= k < |tiers| :: Under(tiers[k], left))
    && (forall j, k | 0 <= j < k < |tiers| :: tiers[j].inputTokensAbove < tiers[k].inputTokensAbove)
  }

  ghost predicate Under(tier: Tier, left: set<int>) {
    forall start | start in left :: tier.inputTokensAbove < start - 1
  }

  lemma {:induction false} BuildOne(p: Pricing, tiers: seq<Tier>, left: set<int>, start: int)
    requires Built(p, tiers, left) && IsLeast(left, start)
    ensures Built(p, tiers + [TierAt(p, start)], left - {start})
  {
    var tier := TierAt(p, start);
    assert Under(tier, left - {start});
    forall k | 0 <= k < |tiers| ensures Under(tiers[k], left - {start}) && tiers[k].inputTokensAbove < start - 1 {
      assert Under(tiers[k], left);
    }
    forall other | other in Starts(p) && other !in left - {start} ensures TierAt(p, other) in tiers + [tier] {
      assert other == start || other !in left;
    }
  }

  /** getAiGatewayCost: tiers in ascending order of their starts. */
  method GetAiGatewayCost(p: Pricing) returns (cost: ModelCost)
    ensures cost.base == BaseRates(p) && TiersOf(p, cost.tiers)
    ensures forall j, k | 0 <= j < k < |cost.tiers| :: cost.tiers[j].inputTokensAbove < cost.tiers[k].inputTokensAbove
  {
    var inputs := CollectStarts(p.input.brackets);
    var outputs := CollectStarts(p.output.brackets);
    var cacheReads := CollectStarts(p.cacheRead.brackets);
    var cacheWrites := CollectStarts(p.cacheWrite.brackets);
    var left := inputs + outputs + cacheReads + cacheWrites;
    var tiers: seq<Tier> := [];
    while left != {}
      invariant Built(p, tiers, left)
      decreases |left|
    {
      HasLeast(left);
      var start :| IsLeast(left, start);
      var tier := StartTier(p, start);
      BuildOne(p, tiers, left, start);
      tiers := tiers + [tier];
      left := left - {start};
    }
    cost := ModelCost(BaseRates(p), tiers);
  }

  // ---------------------------------------------------------------- the rates of a request

  /** What the tier loop has matched: the rates, and the threshold they were matched at. */
  function Matched(base: Rates, tiers: seq<Tier>, n: int): (Rates, int)
    decreases |tiers|
  {
    if |tiers| == 0 then (base, -1) else
    var before, last := Matched(base, tiers[..|tiers| - 1], n), tiers[|tiers| - 1];
    if n > last.inputTokensAbove && last.inputTokensAbove > before.1
    then (last.rates, last.inputTokensAbove) else before
  }

  /** The matched tier has the greatest threshold below the prompt length, and at least -1. */
  lemma {:induction false} MatchedIsGreatest(base: Rates, tiers: seq<Tier>, n: int)
    ensures var (rates, at) := Matched(base, tiers, n);
      && at >= -1 && (forall k | 0 <= k < |tiers| && tiers[k].inputTokensAbove < n :: tiers[k].inputTokensAbove <= at)
      && (at == -1 ==> rates == base)
      && (at > -1 ==> at < n && exists k | 0 <= k < |tiers| :: tiers[k] == Tier(at, rates))
    decreases |tiers|
  {
    if |tiers| == 0 {
    } else {
      var init := tiers[..|tiers| - 1];
      MatchedIsGreatest(base, init, n);
      assert forall k | 0 <= k < |init| :: init[k] == tiers[k];
      var before := Matched(base, init, n);
      if before.1 > -1 {
        var k :| 0 <= k < |init| && init[k] == Tier(before.1, before.0);
        assert tiers[k] == Tier(before.1, before.0);
      }
      assert tiers[|tiers| - 1] == Tier(tiers[|tiers| - 1].inputTokensAbove, tiers[|tiers| - 1].rates);
    }
  }

  /** Same-threshold tiers have the same rates. */
  ghost predicate Unambiguous(tiers: seq<Tier>) {
    forall j, k | 0 <= j < |tiers| && 0 <= k < |tiers| && tiers[j].inputTokensAbove == tiers[k].inputTokensAbove ::
      tiers[j] == tiers[k]
  }

  /** The order of the tiers does not matter. */
  lemma {:induction false} TierOrderIsIrrelevant(base: Rates, a: seq<Tier>, b: seq<Tier>, n: int)
    requires Unambiguous(a) && forall tier :: tier in a <==> tier in b
    ensures Matched(base, a, n) == Matched(base, b, n)
  {
    MatchedIsGreatest(base, a, n);
    MatchedIsGreatest(base, b, n);
    var (ra, ta) := Matched(base, a, n);
    var (rb, tb) := Matched(base, b, n);
    if ta > -1 {
      var k :| 0 <= k < |a| && a[k] == Tier(ta, ra);
      assert a[k] in b;
      var j :| 0 <= j < |b| && b[j] == a[k];
      assert ta <= tb;
    }
    if tb > -1 {
      var k :| 0 <= k < |b| && b[k] == Tier(tb, rb);
      assert b[k] in a;
      var j :| 0 <= j < |a| && a[j] == b[k];
      assert tb <= ta;
    }
  }

  // ---------------------------------------------------------------- converted prices against listed ones

  /** What a converted list charges per million tokens for a rate at a prompt length. */
  function Charged(p: Pricing, tiers: seq<Tier>, rate: Rate, n: int): real {
    RateOf(Matched(BaseRates(p), tiers, n).0, rate)
  }

  lemma {:induction false} RateOfTier(p: Pricing, start: int, rate: Rate)
    ensures RateOf(TierAt(p, start).rates, rate) == PerMillion(Listed(p, rate, start))
    ensures RateOf(BaseRates(p), rate) == PerMillion(Price(ListOf(p, rate).base))
  {}

  lemma {:induction false} StartsArePositive(brackets: seq<Bracket>, x: int)
    requires x in StartsIn(brackets)
    ensures x > 0
    decreases |brackets|
  {
    if |brackets| > 0 && x in StartsIn(brackets[..|brackets| - 1]) {
      StartsArePositive(brackets[..|brackets| - 1], x);
    }
  }

  lemma {:induction false} AllStartsArePositive(p: Pricing, x: int)
    requires x in Starts(p)
    ensures x > 0
  {
    if x in StartsIn(p.input.brackets) { StartsArePositive(p.input.brackets, x); }
    if x in StartsIn(p.output.brackets) { StartsArePositive(p.output.brackets, x); }
    if x in StartsIn(p.cacheRead.brackets) { StartsArePositive(p.cacheRead.brackets, x); }
    if x in StartsIn(p.cacheWrite.brackets) { StartsArePositive(p.cacheWrite.brackets, x); }
  }

  /** The last start at or before a prompt length, or 0. */
  predicate LatestStart(p: Pricing, n: int, s: int) {
    && (s == 0 || (s in Starts(p) && s <= n))
    && forall x | x in Starts(p) && x <= n :: x <= s
  }

  function RatesAt(p: Pricing, s: int): Rates {
    if s == 0 then BaseRates(p) else TierAt(p, s).rates
  }

  lemma {:induction false} StartsBelow(p: Pricing, tiers: seq<Tier>, n: nat, at: int)
    requires TiersOf(p, tiers) && at >= -1
    requires forall k | 0 <= k < |tiers| && tiers[k].inputTokensAbove < n :: tiers[k].inputTokensAbove <= at
    ensures forall x | x in Starts(p) && x <= n :: x <= at + 1
  {
    forall x | x in Starts(p) && x <= n ensures x <= at + 1 {
      var k :| 0 <= k < |tiers| && tiers[k] == TierAt(p, x);
      assert tiers[k].inputTokensAbove == x - 1;
    }
  }

  lemma {:induction false} MatchedRates(p: Pricing, tiers: seq<Tier>, n: nat)
    requires TiersOf(p, tiers)
    ensures var (rates, at) := Matched(BaseRates(p), tiers, n);
      at >= -1 && rates == RatesAt(p, at + 1) && (at > -1 ==> at < n && at + 1 in Starts(p))
  {
    MatchedIsGreatest(BaseRates(p), tiers, n);
    var (rates, at) := Matched(BaseRates(p), tiers, n);
    if at > -1 {
      var k :| 0 <= k < |tiers| && tiers[k] == Tier(at, rates);
      assert TierOfStart(p, tiers[k]);
    }
  }

  lemma {:induction false} TierApplied(p: Pricing, tiers: seq<Tier>, n: nat) returns (s: int)
    requires TiersOf(p, tiers)
    ensures LatestStart(p, n, s) && Matched(BaseRates(p), tiers, n).0 == RatesAt(p, s)
  {
    MatchedRates(p, tiers, n);
    MatchedIsGreatest(BaseRates(p), tiers, n);
    var at := Matched(BaseRates(p), tiers, n).1;
    s := at + 1;
    StartsBelow(p, tiers, n, at);
  }

  lemma {:induction false} OneLatestStart(p: Pricing, n: int, s: int, t: int)
    requires LatestStart(p, n, s) && LatestStart(p, n, t)
    ensures s == t
  {
    if s != 0 { AllStartsArePositive(p, s); }
    if t != 0 { AllStartsArePositive(p, t); }
  }

  /** At a start the tier of that start applies. */
  lemma {:induction false} ChargedAtStart(p: Pricing, tiers: seq<Tier>, rate: Rate, n: nat)
    requires TiersOf(p, tiers) && n in Starts(p)
    ensures Charged(p, tiers, rate, n) == PerMillion(Listed(p, rate, n))
  {
    AllStartsArePositive(p, n);
    var s := TierApplied(p, tiers, n);
    OneLatestStart(p, n, s, n);
    RateOfTier(p, n, rate);
  }

  lemma {:induction false} SameLatestStart(p: Pricing, n: nat, s: int)
    requires LatestStart(p, n, s) && n !in Starts(p)
    ensures LatestStart(p, n - 1, s)
  {}

  /** Between starts the charge does not change. */
  lemma {:induction false} ChargedBetweenStarts(p: Pricing, tiers: seq<Tier>, rate: Rate, n: nat)
    requires TiersOf(p, tiers) && n !in Starts(p) && n > 0
    ensures Charged(p, tiers, rate, n) == Charged(p, tiers, rate, n - 1)
  {
    var s := TierApplied(p, tiers, n);
    var t := TierApplied(p, tiers, n - 1);
    SameLatestStart(p, n, s);
    OneLatestStart(p, n - 1, s, t);
  }

  lemma {:induction false} ChargedAtZero(p: Pricing, tiers: seq<Tier>, rate: Rate)
    requires TiersOf(p, tiers)
    ensures Charged(p, tiers, rate, 0) == PerMillion(Price(ListOf(p, rate).base))
  {
    MatchedIsGreatest(BaseRates(p), tiers, 0);
  }

  /** The list names `n` as the end of one of a rate's brackets. */
  predicate EndsAt(brackets: seq<Bracket>, n: int) {
    exists k | 0 <= k < |brackets| :: brackets[k].max == Some(n)
  }

  lemma {:induction false} StartsHave(brackets: seq<Bracket>, k: nat)
    requires k < |brackets| && brackets[k].min.Some? && brackets[k].min.value > 0
    ensures brackets[k].min.value in StartsIn(brackets)
    decreases |brackets|
  {
    if k < |brackets| - 1 {
      StartsHave(brackets[..|brackets| - 1], k);
    }
  }

  /** Where no bracket starts or ends, the same bracket is found as one token before. */
  lemma {:induction false} SameBracket(brackets: seq<Bracket>, n: int)
    requires n > 0 && !EndsAt(brackets, n)
    requires forall k | 0 <= k < |brackets| :: brackets[k].min != Some(n)
    ensures Find(brackets, n) == Find(brackets, n - 1)
  {
    if |brackets| == 0 {
    } else {
      var rest := brackets[1..];
      assert brackets[0].max != Some(n) && brackets[0].min != Some(n);
      assert Contains(brackets[0], n) == Contains(brackets[0], n - 1);
      assert !EndsAt(rest, n) by {
        assert forall k | 0 <= k < |rest| :: rest[k] == brackets[k + 1];
      }
      SameBracket(rest, n);
    }
  }

  lemma {:induction false} ListedBetween(p: Pricing, rate: Rate, n: int)
    requires n > 0 && n !in Starts(p) && !EndsAt(ListOf(p, rate).brackets, n)
    ensures Listed(p, rate, n) == Listed(p, rate, n - 1)
  {
    var brackets := ListOf(p, rate).brackets;
    forall k | 0 <= k < |brackets| ensures brackets[k].min != Some(n) {
      if brackets[k].min == Some(n) {
        StartsHave(brackets, k);
      }
    }
    SameBracket(brackets, n);
  }

  /** No rate changes its price at zero, or at an end of its brackets that starts no bracket of any rate. */
  predicate Convertible(p: Pricing) {
    && (forall rate :: Listed(p, rate, 0) == Price(ListOf(p, rate).base))
    && (forall rate, k | 0 <= k < |ListOf(p, rate).brackets| :: QuietEnd(p, rate, ListOf(p, rate).brackets[k].max))
  }

  predicate QuietEnd(p: Pricing, rate: Rate, end: Option<int>) {
    end.Some? && end.value > 0 && end.value !in Starts(p) ==>
      Listed(p, rate, end.value) == Listed(p, rate, end.value - 1)
  }

  lemma {:induction false} ListedUnchanged(p: Pricing, rate: Rate, n: nat)
    requires Convertible(p) && n > 0 && n !in Starts(p)
    ensures Listed(p, rate, n) == Listed(p, rate, n - 1)
  {
    var brackets := ListOf(p, rate).brackets;
    if EndsAt(brackets, n) {
      var k :| 0 <= k < |brackets| && brackets[k].max == Some(n);
      assert QuietEnd(p, rate, ListOf(p, rate).brackets[k].max);
    } else {
      ListedBetween(p, rate, n);
    }
  }

  lemma {:induction false} ConvertibleCharges(p: Pricing, tiers: seq<Tier>, rate: Rate, n: nat)
    requires TiersOf(p, tiers) && Convertible(p)
    ensures Charged(p, tiers, rate, n) == PerMillion(Listed(p, rate, n))
    decreases n
  {
    if n == 0 {
      ChargedAtZero(p, tiers, rate);
    } else if n in Starts(p) {
      ChargedAtStart(p, tiers, rate, n);
    } else {
      ChargedBetweenStarts(p, tiers, rate, n);
      ConvertibleCharges(p, tiers, rate, n - 1);
      ListedUnchanged(p, rate, n);
    }
  }

  ghost predicate ChargesAsListed(p: Pricing, tiers: seq<Tier>) {
    forall rate, n: nat :: Charged(p, tiers, rate, n) == PerMillion(Listed(p, rate, n))
  }

  /**
   The converted tiers, in any order, charge every rate at every prompt length what the list says,
   exactly when no price changes at zero or at a bracket end that starts no bracket.
   */
  lemma {:induction false} ChargedAsListedIff(p: Pricing, tiers: seq<Tier>)
    requires TiersOf(p, tiers)
    ensures ChargesAsListed(p, tiers) <==> Convertible(p)
  {
    if Convertible(p) {
      forall rate, n: nat ensures Charged(p, tiers, rate, n) == PerMillion(Listed(p, rate, n)) {
        ConvertibleCharges(p, tiers, rate, n);
      }
    }
    if ChargesAsListed(p, tiers) {
      forall rate ensures Listed(p, rate, 0) == Price(ListOf(p, rate).base) {
        ChargedAtZero(p, tiers, rate);
        assert Charged(p, tiers, rate, 0) == PerMillion(Listed(p, rate, 0));
      }
      forall rate, k | 0 <= k < |ListOf(p, rate).brackets| ensures QuietEnd(p, rate, ListOf(p, rate).brackets[k].max) {
        EndIsQuiet(p, tiers, rate, ListOf(p, rate).brackets[k].max);
      }
    }
  }

  /** Where nothing starts, what is charged as listed there and one token before is listed alike. */
  lemma {:induction false} ListedAlike(p: Pricing, tiers: seq<Tier>, rate: Rate, n: nat)
    requires TiersOf(p, tiers) && n !in Starts(p) && n > 0
    requires Charged(p, tiers, rate, n) == PerMillion(Listed(p, rate, n))
    requires Charged(p, tiers, rate, n - 1) == PerMillion(Listed(p, rate, n - 1))
    ensures Listed(p, rate, n) == Listed(p, rate, n - 1)
  {
    ChargedBetweenStarts(p, tiers, rate, n);
  }

  lemma {:induction false} EndIsQuiet(p: Pricing, tiers: seq<Tier>, rate: Rate, end: Option<int>)
    requires TiersOf(p, tiers) && ChargesAsListed(p, tiers)
    ensures QuietEnd(p, rate, end)
  {
    if end.Some? && end.value > 0 && end.value !in Starts(p) {
      var e: nat, before: nat := end.value, end.value - 1;
      assert Charged(p, tiers, rate, e) == PerMillion(Listed(p, rate, e));
      assert Charged(p, tiers, rate, before) == PerMillion(Listed(p, rate, before));
      ListedAlike(p, tiers, rate, e);
    }
  }

  /**
   Lists as the gateway documents them: the bracket at zero is the base price, and brackets end
   where others start.
   */
  predicate WellFormedList(p: Pricing) {
    && (forall rate :: Listed(p, rate, 0) == Price(ListOf(p, rate).base))
    && (forall rate, k | 0 <= k < |ListOf(p, rate).brackets| :: EndStarts(p, ListOf(p, rate).brackets[k].max))
  }

  predicate EndStarts(p: Pricing, end: Option<int>) {
    end.Some? ==> end.value in Starts(p)
  }

  lemma {:induction false} WellFormedListsConvert(p: Pricing, tiers: seq<Tier>)
    requires WellFormedList(p) && TiersOf(p, tiers)
    ensures ChargesAsListed(p, tiers)
  {
    forall rate, k | 0 <= k < |ListOf(p, rate).brackets| ensures QuietEnd(p, rate, ListOf(p, rate).brackets[k].max) {
      assert EndStarts(p, ListOf(p, rate).brackets[k].max);
    }
    ChargedAsListedIff(p, tiers);
  }

  /** A list whose only input bracket starts at zero and costs twice the base price. */
  function DearFromZero(): Pricing {
    var none := RateList(None, []);
    Pricing(RateList(Some(1.0), [Bracket(Some(2.0), Some(0), None)]), none, none, none)
  }

  /** It converts to no tier at all, so every request is charged half of what the list says. */
  lemma {:induction false} ZeroBracketIsNotCharged(tiers: seq<Tier>, n: nat)
    requires TiersOf(DearFromZero(), tiers)
    ensures tiers == [] && !ChargesAsListed(DearFromZero(), tiers)
    ensures PerMillion(Listed(DearFromZero(), Input, n)) == 2.0 * Charged(DearFromZero(), tiers, Input, n)
  {
    var p := DearFromZero();
    var brackets := p.input.brackets;
    assert StartsIn(brackets[..|brackets| - 1]) == {} && StartsIn(brackets) == {};
    assert StartsIn(p.output.brackets) == {};
    assert Starts(p) == {};
    assert |tiers| > 0 ==> TierOfStart(p, tiers[0]);
    assert Contains(brackets[0], n) && Contains(brackets[0], 0);
    assert Listed(p, Input, n) == 2.0 && Listed(p, Input, 0) == 2.0;
    ChargedAsListedIff(p, tiers);
  }

  // ---------------------------------------------------------------- the cost of a request

  class Usage {
    var input: nat
    var output: nat
    var cacheRead: nat
    var cacheWrite: nat
    var cacheWrite1h: Option<int>
    var costInput: real
    var costOutput: real
    var costCacheRead: real
    var costCacheWrite: real
    var costTotal: real

    function PromptLength(): nat
      reads this
    {
      input + cacheRead + cacheWrite
    }

    function LongWrites(): int
      reads this
    {
      if cacheWrite1h.Some? then cacheWrite1h.value else 0
    }

    /** The costs are what these rates per million tokens charge, and the total is their sum. */
    ghost predicate Costs(rates: Rates)
      reads this
    {
      var long := if cacheWrite1h.Some? then cacheWrite1h.value else 0;
      && costInput * 1000000.0 == rates.input * input as real
      && costOutput * 1000000.0 == rates.output * output as real
      && costCacheRead * 1000000.0 == rates.cacheRead * cacheRead as real
      && costCacheWrite * 1000000.0 ==
         rates.cacheWrite * (cacheWrite - long) as real + rates.input * 2.0 * long as real
      && costTotal == costInput + costOutput + costCacheRead + costCacheWrite
    }

    /** The costs are the listed prices per token for this prompt length, long-lived writes at twice the input price. */
    ghost predicate CostsListed(p: Pricing)
      reads this
    {
      var n, long := input + cacheRead + cacheWrite, if cacheWrite1h.Some? then cacheWrite1h.value else 0;
      && costInput == Listed(p, Input, n) * input as real
      && costOutput == Listed(p, Output, n) * output as real
      && costCacheRead == Listed(p, CacheRead, n) * cacheRead as real
      && costCacheWrite ==
         Listed(p, CacheWrite, n) * (cacheWrite - long) as real + Listed(p, Input, n) * 2.0 * long as real
      && costTotal == costInput + costOutput + costCacheRead + costCacheWrite
    }

    /** calculateCost: long-lived cache writes cost twice the input price. */
    method CalculateCost(cost: ModelCost)
      modifies this`costInput, this`costOutput, this`costCacheRead, this`costCacheWrite, this`costTotal
      ensures Costs(Matched(cost.base, cost.tiers, input + cacheRead + cacheWrite).0)
    {
      var inputTokens := input + cacheRead + cacheWrite;
      var rates := cost.base;
      var matchedThreshold := -1;
      var k := 0;
      while k < |cost.tiers|
        invariant k <= |cost.tiers| && (rates, matchedThreshold) == Matched(cost.base, cost.tiers[..k], inputTokens)
      {
        var tier := cost.tiers[k];
        assert cost.tiers[..k + 1][..k] == cost.tiers[..k];
        if inputTokens > tier.inputTokensAbove && tier.inputTokensAbove > matchedThreshold {
          rates := tier.rates;
          matchedThreshold := tier.inputTokensAbove;
        }
        k := k + 1;
      }
      assert cost.tiers[..k] == cost.tiers;
      var longWrite := if cacheWrite1h.Some? then cacheWrite1h.value else 0;
      var shortWrite := cacheWrite - longWrite;
      costInput := (rates.input / 1000000.0) * input as real;
      costOutput := (rates.output / 1000000.0) * output as real;
      costCacheRead := (rates.cacheRead / 1000000.0) * cacheRead as real;
      costCacheWrite := (rates.cacheWrite * shortWrite as real + rates.input * 2.0 * longWrite as real) / 1000000.0;
      costTotal := costInput + costOutput + costCacheRead + costCacheWrite;
      Millionth(rates.input, input as real);
      Millionth(rates.output, output as real);
      Millionth(rates.cacheRead, cacheRead as real);
    }
  }

  lemma {:induction false} Millionth(x: real, y: real)
    ensures (x / 1000000.0) * y * 1000000.0 == x * y
  {
    var z := x / 1000000.0;
    assert x == z * 1000000.0;
    assert z * 1000000.0 * y == z * y * 1000000.0;
  }

  lemma {:induction false} Million(charge: real, price: real, rate: real, tokens: real)
    requires charge * 1000000.0 == rate * tokens && rate == PerMillion(price)
    ensures charge == price * tokens
  {
    assert rate * tokens == (price * tokens) * 1000000.0;
  }

  lemma {:induction false} InputListed(p: Pricing, usage: Usage, rates: Rates)
    requires usage.Costs(rates) && rates.input == PerMillion(Listed(p, Input, usage.PromptLength()))
    ensures usage.costInput == Listed(p, Input, usage.PromptLength()) * usage.input as real
  {
    Million(usage.costInput, Listed(p, Input, usage.PromptLength()), rates.input, usage.input as real);
  }

  lemma {:induction false} OutputListed(p: Pricing, usage: Usage, rates: Rates)
    requires usage.Costs(rates) && rates.output == PerMillion(Listed(p, Output, usage.PromptLength()))
    ensures usage.costOutput == Listed(p, Output, usage.PromptLength()) * usage.output as real
  {
    Million(usage.costOutput, Listed(p, Output, usage.PromptLength()), rates.output, usage.output as real);
  }

  lemma {:induction false} CacheReadListed(p: Pricing, usage: Usage, rates: Rates)
    requires usage.Costs(rates) && rates.cacheRead == PerMillion(Listed(p, CacheRead, usage.PromptLength()))
    ensures usage.costCacheRead == Listed(p, CacheRead, usage.PromptLength()) * usage.cacheRead as real
  {
    Million(usage.costCacheRead, Listed(p, CacheRead, usage.PromptLength()), rates.cacheRead, usage.cacheRead as real);
  }

  lemma {:induction false} MillionTwice(
    charge: real, write: real, input: real, writeRate: real, inputRate: real, short: real, long: real)
    requires charge * 1000000.0 == writeRate * short + inputRate * 2.0 * long
    requires writeRate == PerMillion(write) && inputRate == PerMillion(input)
    ensures charge == write * short + input * 2.0 * long
  {
    assert writeRate * short == (write * short) * 1000000.0;
    assert inputRate * 2.0 * long == (input * 2.0 * long) * 1000000.0;
  }

  lemma {:induction false} CacheWriteListed(p: Pricing, usage: Usage, rates: Rates)
    requires usage.Costs(rates)
    requires rates.cacheWrite == PerMillion(Listed(p, CacheWrite, usage.PromptLength()))
    requires rates.input == PerMillion(Listed(p, Input, usage.PromptLength()))
    ensures usage.costCacheWrite ==
            Listed(p, CacheWrite, usage.PromptLength()) * (usage.cacheWrite - usage.LongWrites()) as real +
            Listed(p, Input, usage.PromptLength()) * 2.0 * usage.LongWrites() as real
  {
    var n := usage.PromptLength();
    MillionTwice(usage.costCacheWrite, Listed(p, CacheWrite, n), Listed(p, Input, n), rates.cacheWrite, rates.input,
                 (usage.cacheWrite - usage.LongWrites()) as real, usage.LongWrites() as real);
  }

  ghost predicate RatesListed(p: Pricing, rates: Rates, n: nat) {
    && rates.input == PerMillion(Listed(p, Input, n)) && rates.output == PerMillion(Listed(p, Output, n))
    && rates.cacheRead == PerMillion(Listed(p, CacheRead, n))
    && rates.cacheWrite == PerMillion(Listed(p, CacheWrite, n))
  }

  lemma {:induction false} ConvertedRates(p: Pricing, tiers: seq<Tier>, n: nat)
    requires Convertible(p) && TiersOf(p, tiers)
    ensures RatesListed(p, Matched(BaseRates(p), tiers, n).0, n)
  {
    ConvertibleCharges(p, tiers, Input, n);
    ConvertibleCharges(p, tiers, Output, n);
    ConvertibleCharges(p, tiers, CacheRead, n);
    ConvertibleCharges(p, tiers, CacheWrite, n);
  }

  lemma {:induction false} ListedFromRates(p: Pricing, usage: Usage, rates: Rates)
    requires usage.Costs(rates) && RatesListed(p, rates, usage.PromptLength())
    ensures usage.CostsListed(p)
  {
    InputListed(p, usage, rates);
    OutputListed(p, usage, rates);
    CacheReadListed(p, usage, rates);
    CacheWriteListed(p, usage, rates);
  }

  /** A request charged with the converted tiers of a convertible list costs what the list says. */
  lemma {:induction false} RequestCostsAsListed(p: Pricing, tiers: seq<Tier>, usage: Usage)
    requires Convertible(p) && TiersOf(p, tiers)
    requires usage.Costs(Matched(BaseRates(p), tiers, usage.PromptLength()).0)
    ensures usage.CostsListed(p)
  {
    ConvertedRates(p, tiers, usage.PromptLength());
    ListedFromRates(p, usage, Matched(BaseRates(p), tiers, usage.PromptLength()).0);
  }

  /** Conversion and charging together. */
  method ChargeRequest(p: Pricing, usage: Usage)
    modifies usage`costInput, usage`costOutput, usage`costCacheRead, usage`costCacheWrite, usage`costTotal
    ensures Convertible(p) ==> usage.CostsListed(p)
  {
    var cost := GetAiGatewayCost(p);
    usage.CalculateCost(cost);
    if Convertible(p) {
      RequestCostsAsListed(p, cost.tiers, usage);
    }
  }
}
