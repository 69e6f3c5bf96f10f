/**
 Which order version comparison is: item 11 of Semantic Versioning 2.0.0, said of the parts of two
 versions and without the comparison, and what it makes of catalog selection.
 */
module VersionPrecedence {
  import opened Wrappers
  import opened CatalogVersions

  // ---------------------------------------------------------------- identifiers

  predicate Dotless(parts: seq<string>) {
    forall k | 0 <= k < |parts| :: '.' !in parts[k]
  }

  lemma {:induction false} SplitIsDotless(s: string)
    ensures Dotless(Split(s))
  {
    if |s| == 0 {
    } else {
      SplitIsDotless(s[1..]);
    }
  }

  lemma {:induction false} SplitOfPart(part: string)
    requires '.' !in part
    ensures Split(part) == [part]
  {
    if |part| == 0 {
    } else {
      SplitOfPart(part[1..]);
      assert [part[0]] + part[1..] == part;
    }
  }

  lemma {:induction false} SplitFirst(part: string, rest: string)
    requires '.' !in part
    ensures Split(part + "." + rest) == [part] + Split(rest)
  {
    if |part| == 0 {
      assert (part + "." + rest)[1..] == rest;
    } else {
      SplitFirst(part[1..], rest);
      assert (part + "." + rest)[1..] == part[1..] + "." + rest;
      assert [part[0]] + part[1..] == part;
    }
  }

  lemma {:induction false} SplitOfJoin(parts: seq<string>)
    requires |parts| > 0 && Dotless(parts)
    ensures Split(Join(parts)) == parts
    decreases |parts|
  {
    if |parts| == 1 {
      SplitOfPart(parts[0]);
    } else {
      assert Dotless(parts[1..]);
      SplitOfJoin(parts[1..]);
      SplitFirst(parts[0], Join(parts[1..]));
      assert [parts[0]] + parts[1..] == parts;
    }
  }

  /** Splitting yields the one list of dotless identifiers that joins to the text. */
  lemma {:induction false} SplitIff(s: string, parts: seq<string>)
    ensures Split(s) == parts <==> |parts| > 0 && Dotless(parts) && Join(parts) == s
  {
    JoinSplit(s);
    SplitIsDotless(s);
    if |parts| > 0 && Dotless(parts) {
      SplitOfJoin(parts);
    }
  }

  // ---------------------------------------------------------------- numbers

  /** The first place where two texts of one length differ has the smaller digit in `x`. */
  ghost predicate LessAt(x: string, y: string, k: nat)
    requires |x| == |y|
  {
    k < |x| && x[..k] == y[..k] && x[k] < y[k]
  }

  ghost predicate FirstSmaller(x: string, y: string)
    requires |x| == |y|
  {
    exists k: nat :: LessAt(x, y, k)
  }

  ghost predicate DigitsLess(x: string, y: string) {
    |x| < |y| || (|x| == |y| && FirstSmaller(x, y))
  }

  lemma {:induction false} SmallerSnoc(a: string, b: string, c: char, d: char)
    requires |a| == |b|
    ensures FirstSmaller(a + [c], b + [d]) <==> FirstSmaller(a, b) || (a == b && c < d)
  {
    var x, y := a + [c], b + [d];
    assert x[..|a|] == a && y[..|b|] == b;
    if k: nat :| LessAt(x, y, k) {
      if k < |a| {
        assert a[..k] == x[..k] && b[..k] == y[..k];
        assert LessAt(a, b, k);
      }
    }
    if k: nat :| LessAt(a, b, k) {
      assert a[..k] == x[..k] && b[..k] == y[..k];
      assert LessAt(x, y, k);
    }
    if a == b && c < d {
      assert LessAt(x, y, |a|);
    }
  }

  predicate Digits(x: string) {
    forall k | 0 <= k < |x| :: Digit(x[k])
  }

  lemma {:induction false} ValueSnoc(a: string, c: char)
    requires Digits(a) && Digit(c)
    ensures Digits(a + [c]) && Value(a + [c]) == 10 * Value(a) + (c as int - '0' as int)
  {
    assert (a + [c])[..|a|] == a;
  }

  lemma {:induction false} SameLengthOrder(x: string, y: string)
    requires |x| == |y| && Digits(x) && Digits(y)
    ensures Value(x) == Value(y) <==> x == y
    ensures Value(x) < Value(y) <==> FirstSmaller(x, y)
    decreases |x|
  {
    if |x| == 0 {
    } else {
      var last := |x| - 1;
      var a, b, c, d := x[..last], y[..last], x[last], y[last];
      assert x == a + [c] && y == b + [d];
      SameLengthOrder(a, b);
      ValueSnoc(a, c);
      ValueSnoc(b, d);
      SmallerSnoc(a, b, c, d);
    }
  }

  lemma {:induction false} ShorterIsLess(x: string, y: string)
    requires Numeral(x) && Numeral(y) && y[0] != '0' && |x| < |y|
    ensures Value(x) < Value(y)
    decreases |x|
  {
    var a, b := x[..|x| - 1], y[..|y| - 1];
    assert forall k | 0 <= k < |a| :: a[k] == x[k];
    assert forall k | 0 <= k < |b| :: b[k] == y[k];
    if |a| == 0 {
      LeadingDigit(b);
    } else {
      ShorterIsLess(a, b);
    }
  }

  /** An identifier is a number when it consists of digits. */
  lemma {:induction false} NumeralIff(x: string)
    ensures Numeral(x) <==> x != "" && forall k | 0 <= k < |x| :: x[k] in "0123456789"
  {
    forall c: char ensures Digit(c) <==> c in "0123456789" {
      assert "0123456789"[0] == '0' && "0123456789"[9] == '9';
      if Digit(c) {
        var k := c as int - '0' as int;
        assert 0 <= k < 10 && "0123456789"[k] == c;
      }
    }
  }

  /** Numbers without leading zeros are compared as numbers: the shorter one, else the first smaller digit. */
  lemma {:induction false} NumeralsCompareByDigits(x: string, y: string)
    requires Numeral(x) && Numeral(y) && Plain(x) && Plain(y)
    ensures Value(x) < Value(y) <==> DigitsLess(x, y)
  {
    if |x| == |y| {
      SameLengthOrder(x, y);
    } else if |x| < |y| {
      ShorterIsLess(x, y);
    } else {
      ShorterIsLess(y, x);
    }
  }

  // ---------------------------------------------------------------- item 11

  predicate IdentifierPrecedes(cmp: Comparison, x: string, y: string) {
    || (Numeral(x) && Numeral(y) && Value(x) < Value(y))
    || (Numeral(x) && !Numeral(y))
    || (!Numeral(x) && !Numeral(y) && cmp(x, y) < 0)
  }

  /** The lists agree before `k` and not at `k`, where one of them may have ended. */
  predicate DifferAt(xs: seq<string>, ys: seq<string>, k: nat) {
    && k <= |xs| && k <= |ys| && xs[..k] == ys[..k]
    && (k < |xs| && k < |ys| ==> xs[k] != ys[k])
  }

  predicate AheadAt(cmp: Comparison, xs: seq<string>, ys: seq<string>, k: nat) {
    DifferAt(xs, ys, k) && k < |ys| && (k == |xs| || IdentifierPrecedes(cmp, xs[k], ys[k]))
  }

  ghost predicate ListPrecedes(cmp: Comparison, xs: seq<string>, ys: seq<string>) {
    exists k: nat :: AheadAt(cmp, xs, ys, k)
  }

  ghost predicate Precedes(cmp: Comparison, a: Version, b: Version) {
    || a.major < b.major
    || (a.major == b.major && a.minor < b.minor)
    || (a.major == b.major && a.minor == b.minor && a.patch < b.patch)
    || (a.major == b.major && a.minor == b.minor && a.patch == b.patch
        && PrereleasePrecedes(cmp, a.prerelease, b.prerelease))
  }

  /** A prerelease comes before its release; two are compared identifier by identifier. */
  ghost predicate PrereleasePrecedes(cmp: Comparison, x: string, y: string) {
    x != "" && (y == "" || ListPrecedes(cmp, Split(x), Split(y)))
  }

  lemma {:induction false} AheadInRest(cmp: Comparison, xs: seq<string>, ys: seq<string>)
    requires |xs| > 0 && |ys| > 0 && xs[0] == ys[0]
    ensures ListPrecedes(cmp, xs, ys) <==> ListPrecedes(cmp, xs[1..], ys[1..])
  {
    assert xs == [xs[0]] + xs[1..] && ys == [ys[0]] + ys[1..];
    if k: nat :| AheadAt(cmp, xs, ys, k) {
      var j: nat := k - 1;
      assert xs[1..][..j] == xs[..k][1..] && ys[1..][..j] == ys[..k][1..];
      assert AheadAt(cmp, xs[1..], ys[1..], j);
    }
    if j: nat :| AheadAt(cmp, xs[1..], ys[1..], j) {
      var k: nat := j + 1;
      assert xs[..k] == [xs[0]] + xs[1..][..j] && ys[..k] == [ys[0]] + ys[1..][..j];
      assert AheadAt(cmp, xs, ys, k);
    }
  }

  lemma {:induction false} AheadAtOnce(cmp: Comparison, xs: seq<string>, ys: seq<string>)
    requires |xs| == 0 || |ys| == 0 || xs[0] != ys[0]
    ensures ListPrecedes(cmp, xs, ys) <==> AheadAt(cmp, xs, ys, 0)
  {
    if k: nat :| AheadAt(cmp, xs, ys, k) {
      assert k > 0 ==> xs[..k][0] == ys[..k][0];
    }
  }

  lemma {:induction false} ListsCompareIff(cmp: Comparison, xs: seq<string>, ys: seq<string>)
    ensures CompareLists(cmp, xs, ys) < 0 <==> ListPrecedes(cmp, xs, ys)
    decreases |xs|
  {
    if |xs| > 0 && |ys| > 0 && xs[0] == ys[0] {
      AheadInRest(cmp, xs, ys);
      ListsCompareIff(cmp, xs[1..], ys[1..]);
    } else {
      AheadAtOnce(cmp, xs, ys);
    }
  }

  lemma {:induction false} NothingPrecedesItself(cmp: Comparison, xs: seq<string>)
    ensures !ListPrecedes(cmp, xs, xs)
  {}

  /** A version compares below another exactly when it precedes it, whatever compares names. */
  lemma {:induction false} ComparesBelowIff(cmp: Comparison, a: Version, b: Version)
    ensures Compare(cmp, a, b) < 0 <==> Precedes(cmp, a, b)
  {
    ListsCompareIff(cmp, Split(a.prerelease), Split(b.prerelease));
    NothingPrecedesItself(cmp, Split(a.prerelease));
  }

  /** And above it exactly when the other precedes it, when names are compared by an order. */
  lemma {:induction false} ComparesAboveIff(cmp: Comparison, a: Version, b: Version)
    requires TotalOrder(cmp)
    ensures Compare(cmp, a, b) > 0 <==> Precedes(cmp, b, a)
  {
    ComparesBelowIff(cmp, b, a);
    ListsOrdered(cmp, Split(b.prerelease), Split(a.prerelease));
  }

  // ---------------------------------------------------------------- selection

  /** The entry's minimum does not come after the request. */
  ghost predicate Served(cmp: Comparison, parse: Parser, e: Entry, requested: Version) {
    parse(e.minimumPiVersion).Some? && !Precedes(cmp, requested, parse(e.minimumPiVersion).value)
  }

  /** Entry `i` is served, no served entry has a later minimum, and no earlier one has the same. */
  ghost predicate FirstGreatest(cmp: Comparison, parse: Parser, catalogs: seq<Entry>, requested: Version, i: nat) {
    && i < |catalogs| && Served(cmp, parse, catalogs[i], requested)
    && (forall k: nat | k < |catalogs| && Served(cmp, parse, catalogs[k], requested) ::
          !Precedes(cmp, Minimum(parse, catalogs[i]), Minimum(parse, catalogs[k])))
    && (forall k: nat | k < i && Served(cmp, parse, catalogs[k], requested) ::
          Precedes(cmp, Minimum(parse, catalogs[k]), Minimum(parse, catalogs[i])))
  }

  lemma {:induction false} ServedFits(cmp: Comparison, parse: Parser, e: Entry, requested: Version)
    requires TotalOrder(cmp) && parse(e.minimumPiVersion).Some?
    ensures Served(cmp, parse, e, requested) <==> Fits(cmp, parse, e, requested)
  {
    ComparesAboveIff(cmp, Minimum(parse, e), requested);
  }

  /** What the selection loop has chosen: nothing while nothing is served, else the first greatest. */
  ghost predicate Chosen(
    cmp: Comparison, parse: Parser, catalogs: seq<Entry>, requested: Version, best: Option<Entry>)
  {
    match best
    case None => forall k | 0 <= k < |catalogs| :: !Served(cmp, parse, catalogs[k], requested)
    case Some(e) => exists i: nat :: FirstGreatest(cmp, parse, catalogs, requested, i) && catalogs[i] == e
  }

  lemma {:induction false} Overtaken(
    cmp: Comparison, parse: Parser, catalogs: seq<Entry>, requested: Version, i: nat, last: Entry)
    requires TotalOrder(cmp) && Unclashing(Minimums(parse, catalogs + [last]))
    requires FirstGreatest(cmp, parse, catalogs, requested, i) && Served(cmp, parse, last, requested)
    requires Precedes(cmp, Minimum(parse, catalogs[i]), Minimum(parse, last))
    ensures FirstGreatest(cmp, parse, catalogs + [last], requested, |catalogs|)
  {
    var more, h, l := catalogs + [last], Minimum(parse, catalogs[i]), Minimum(parse, last);
    MinimumsGrow(parse, catalogs, last);
    assert h in Minimums(parse, catalogs);
    forall k: nat | k < |catalogs| && Served(cmp, parse, catalogs[k], requested)
      ensures Precedes(cmp, Minimum(parse, catalogs[k]), l) && !Precedes(cmp, l, Minimum(parse, catalogs[k]))
    {
      var m := Minimum(parse, catalogs[k]);
      assert m in Minimums(parse, catalogs);
      Between(cmp, m, h, l);
    }
    ComparesBelowIff(cmp, l, l);
    OrderedIff(cmp, l, l);
    assert !Precedes(cmp, l, l);
    assert forall k: nat | k < |catalogs| :: more[k] == catalogs[k];
  }

  /** A version not after one that precedes a third precedes the third. */
  lemma {:induction false} Between(cmp: Comparison, m: Version, h: Version, l: Version)
    requires TotalOrder(cmp) && !Clash(m, h) && !Clash(h, l) && !Clash(m, l)
    requires !Precedes(cmp, h, m) && Precedes(cmp, h, l)
    ensures Precedes(cmp, m, l) && !Precedes(cmp, l, m)
  {
    ComparesAboveIff(cmp, m, h);
    ComparesBelowIff(cmp, h, l);
    ComparesBelowIff(cmp, m, l);
    ComparesAboveIff(cmp, m, l);
    OrderedIff(cmp, m, h);
    if m != h {
      BeforeIsTransitive(cmp, m, h, l);
    }
  }

  lemma {:induction false} Kept(
    cmp: Comparison, parse: Parser, catalogs: seq<Entry>, requested: Version, i: nat, last: Entry)
    requires FirstGreatest(cmp, parse, catalogs, requested, i)
    requires Served(cmp, parse, last, requested) ==>
               !Precedes(cmp, Minimum(parse, catalogs[i]), Minimum(parse, last))
    ensures FirstGreatest(cmp, parse, catalogs + [last], requested, i)
  {
    var more := catalogs + [last];
    assert forall k: nat | k < |catalogs| :: more[k] == catalogs[k];
  }

  lemma {:induction false} FirstServed(
    cmp: Comparison, parse: Parser, catalogs: seq<Entry>, requested: Version, last: Entry)
    requires TotalOrder(cmp) && Served(cmp, parse, last, requested)
    requires forall k | 0 <= k < |catalogs| :: !Served(cmp, parse, catalogs[k], requested)
    ensures FirstGreatest(cmp, parse, catalogs + [last], requested, |catalogs|)
  {
    var more, l := catalogs + [last], Minimum(parse, last);
    ComparesBelowIff(cmp, l, l);
    NotSpeltDifferently(Split(l.prerelease));
    OrderedIff(cmp, l, l);
    assert forall k: nat | k < |catalogs| :: more[k] == catalogs[k];
  }

  /**
   Selection, said of versions alone: nothing exactly when every entry's minimum comes after the
   request, otherwise the first of the served entries whose minimum no served minimum comes after.
   */
  lemma {:induction false} SelectionIsFirstGreatest(
    cmp: Comparison, parse: Parser, catalogs: seq<Entry>, requested: Version)
    requires TotalOrder(cmp) && AllParse(parse, catalogs) && Unclashing(Minimums(parse, catalogs))
    ensures Chosen(cmp, parse, catalogs, requested, Best(cmp, parse, catalogs, requested))
    decreases |catalogs|
  {
    if |catalogs| == 0 {
    } else {
      var init, last := catalogs[..|catalogs| - 1], catalogs[|catalogs| - 1];
      assert catalogs == init + [last] && AllParse(parse, init);
      MinimumsGrow(parse, init, last);
      SelectionIsFirstGreatest(cmp, parse, init, requested);
      ServedFits(cmp, parse, last, requested);
      ChooseLast(cmp, parse, init, requested, last, Best(cmp, parse, init, requested));
    }
  }

  lemma {:induction false} ChooseLast(
    cmp: Comparison, parse: Parser, catalogs: seq<Entry>, requested: Version, last: Entry, before: Option<Entry>)
    requires TotalOrder(cmp) && AllParse(parse, catalogs + [last]) && Unclashing(Minimums(parse, catalogs + [last]))
    requires Chosen(cmp, parse, catalogs, requested, before)
    requires Served(cmp, parse, last, requested) <==> Fits(cmp, parse, last, requested)
    ensures Chosen(cmp, parse, catalogs + [last], requested,
                   if Fits(cmp, parse, last, requested) && Beats(cmp, parse, last, before) then Some(last) else before)
  {
    var more := catalogs + [last];
    assert more[|catalogs|] == last && forall k: nat | k < |catalogs| :: more[k] == catalogs[k];
    if before.None? {
      if Served(cmp, parse, last, requested) {
        FirstServed(cmp, parse, catalogs, requested, last);
      }
    } else {
      var i: nat :| FirstGreatest(cmp, parse, catalogs, requested, i) && catalogs[i] == before.value;
      ComparesAboveIff(cmp, Minimum(parse, last), Minimum(parse, before.value));
      if Served(cmp, parse, last, requested) && Beats(cmp, parse, last, before) {
        Overtaken(cmp, parse, catalogs, requested, i, last);
      } else {
        Kept(cmp, parse, catalogs, requested, i, last);
      }
    }
  }
}
