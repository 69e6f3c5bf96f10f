/**
 Version precedence and the selection of a model catalog.  Identifiers that are not numbers are
 compared by the host's `localeCompare`, of which nothing but a total order is assumed; numbers are
 exact.
 */
module CatalogVersions {
  import opened Wrappers

  /** A parsed version; an empty prerelease stands for a release. */
  datatype Version = Version(major: nat, minor: nat, patch: nat, prerelease: string)

  type Comparison = (string, string) -> int

  ghost predicate TotalOrder(cmp: Comparison) {
    && (forall x, y :: cmp(x, y) == 0 <==> x == y)
    && (forall x, y :: cmp(x, y) < 0 <==> cmp(y, x) > 0)
    && (forall x, y, z :: cmp(x, y) <= 0 && cmp(y, z) <= 0 ==> cmp(x, z) <= 0)
  }

  // ---------------------------------------------------------------- identifiers

  /** `s.split(".")` */
  function Split(s: string): (parts: seq<string>)
    ensures |parts| > 0
  {
    if |s| == 0 then [""]
    else if s[0] == '.' then [""] + Split(s[1..])
    else var rest := Split(s[1..]); [[s[0]] + rest[0]] + rest[1..]
  }

  function Join(parts: seq<string>): string
    requires |parts| > 0
  {
    if |parts| == 1 then parts[0] else parts[0] + "." + Join(parts[1..])
  }

  lemma {:induction false} JoinMore(c: char, parts: seq<string>)
    requires |parts| > 0
    ensures Join([[c] + parts[0]] + parts[1..]) == [c] + Join(parts)
    ensures Join([""] + parts) == "." + Join(parts)
  {
    var longer, more := [[c] + parts[0]] + parts[1..], [""] + parts;
    assert longer[1..] == parts[1..] && more[1..] == parts;
    if |parts| == 1 {
    } else {
      assert Join(longer) == [c] + parts[0] + "." + Join(parts[1..]);
    }
  }

  lemma {:induction false} JoinSplit(s: string)
    ensures Join(Split(s)) == s
  {
    if |s| == 0 {
    } else {
      JoinSplit(s[1..]);
      JoinMore(s[0], Split(s[1..]));
      assert s == [s[0]] + s[1..];
    }
  }

  predicate Digit(c: char) {
    '0' <= c <= '9'
  }

  /** `/^\d+$/` */
  predicate Numeral(part: string) {
    |part| > 0 && forall k | 0 <= k < |part| :: Digit(part[k])
  }

  function DigitValue(c: char): (d: nat)
    requires Digit(c)
    ensures d < 10
  {
    (c as int) - ('0' as int)
  }

  function Value(part: string): nat
    requires forall k | 0 <= k < |part| :: Digit(part[k])
    decreases |part|
  {
    if |part| == 0 then 0 else 10 * Value(part[..|part| - 1]) + DigitValue(part[|part| - 1])
  }

  /** Semantic Versioning 2.0.0, item 9: numeric identifiers have no leading zero. */
  predicate Plain(part: string) {
    Numeral(part) && part[0] == '0' ==> |part| == 1
  }

  lemma {:induction false} LeadingDigit(part: string)
    requires Numeral(part) && part[0] != '0'
    ensures Value(part) > 0
    decreases |part|
  {
    var init := part[..|part| - 1];
    if |part| > 1 {
      assert init[0] == part[0] && forall k | 0 <= k < |init| :: init[k] == part[k];
      LeadingDigit(init);
    }
  }

  /** A number has one numeral without leading zeros. */
  lemma {:induction false} PlainNumeralsAreUnique(x: string, y: string)
    requires Numeral(x) && Numeral(y) && Plain(x) && Plain(y) && Value(x) == Value(y)
    ensures x == y
    decreases |x|
  {
    var a, b := x[..|x| - 1], y[..|y| - 1];
    assert forall k | 0 <= k < |a| :: a[k] == x[k];
    assert forall k | 0 <= k < |b| :: b[k] == y[k];
    assert x == a + [x[|x| - 1]] && y == b + [y[|y| - 1]];
    assert Value(a) == Value(b) && DigitValue(x[|x| - 1]) == DigitValue(y[|y| - 1]);
    assert x[|x| - 1] == y[|y| - 1];
    if a == [] && b != [] {
      LeadingDigit(b);
    } else if a != [] && b == [] {
      LeadingDigit(a);
    } else if a != [] {
      PlainNumeralsAreUnique(a, b);
    }
  }

  // ---------------------------------------------------------------- precedence

  /** Two different identifiers. */
  function CompareParts(cmp: Comparison, x: string, y: string): int {
    if Numeral(x) && Numeral(y) then Value(x) - Value(y)
    else if Numeral(x) then -1
    else if Numeral(y) then 1
    else cmp(x, y)
  }

  function CompareLists(cmp: Comparison, xs: seq<string>, ys: seq<string>): int {
    if |xs| == 0 && |ys| == 0 then 0
    else if |xs| == 0 then -1
    else if |ys| == 0 then 1
    else if xs[0] == ys[0] then CompareLists(cmp, xs[1..], ys[1..])
    else CompareParts(cmp, xs[0], ys[0])
  }

  function ComparePrereleases(cmp: Comparison, x: string, y: string): int {
    if x == y then 0
    else if |x| == 0 then 1
    else if |y| == 0 then -1
    else CompareLists(cmp, Split(x), Split(y))
  }

  function Compare(cmp: Comparison, a: Version, b: Version): int {
    if a.major != b.major then a.major - b.major
    else if a.minor != b.minor then a.minor - b.minor
    else if a.patch != b.patch then a.patch - b.patch
    else ComparePrereleases(cmp, a.prerelease, b.prerelease)
  }

  /** comparePiVersions, with its loop over the identifiers. */
  method ComparePiVersions(cmp: Comparison, left: Version, right: Version) returns (r: int)
    ensures r == Compare(cmp, left, right)
  {
    var ls, rs := [left.major, left.minor, left.patch], [right.major, right.minor, right.patch];
    var k := 0;
    while k < 3
      invariant 0 <= k <= 3 && forall j | 0 <= j < k :: ls[j] == rs[j]
    {
      var difference: int := (ls[k] as int) - (rs[k] as int);
      if difference != 0 {
        assert k > 0 ==> ls[0] == rs[0];
        assert k > 1 ==> ls[1] == rs[1];
        return difference;
      }
      k := k + 1;
    }
    assert ls[0] == rs[0] && ls[1] == rs[1] && ls[2] == rs[2];
    if left.prerelease == right.prerelease {
      return 0;
    }
    if left.prerelease == "" {
      return 1;
    }
    if right.prerelease == "" {
      return -1;
    }
    var leftParts, rightParts := Split(left.prerelease), Split(right.prerelease);
    var index := 0;
    while index < |leftParts| || index < |rightParts|
      invariant index <= |leftParts| && index <= |rightParts|
      invariant CompareLists(cmp, leftParts, rightParts) == CompareLists(cmp, leftParts[index..], rightParts[index..])
      decreases |leftParts| + |rightParts| - index
    {
      if index == |leftParts| {
        return -1;
      }
      if index == |rightParts| {
        return 1;
      }
      assert leftParts[index..][1..] == leftParts[index + 1..] && rightParts[index..][1..] == rightParts[index + 1..];
      if leftParts[index] != rightParts[index] {
        return CompareParts(cmp, leftParts[index], rightParts[index]);
      }
      index := index + 1;
    }
    return 0;
  }

  // ---------------------------------------------------------------- the order

  predicate PlainLists(xs: seq<string>) {
    forall k | 0 <= k < |xs| :: Plain(xs[k])
  }

  predicate Canonical(v: Version) {
    PlainLists(Split(v.prerelease))
  }

  lemma {:induction false} PartsOrdered(cmp: Comparison, x: string, y: string)
    requires TotalOrder(cmp) && x != y
    ensures CompareParts(cmp, x, y) == 0 <==> Numeral(x) && Numeral(y) && Value(x) == Value(y)
    ensures CompareParts(cmp, x, y) < 0 <==> CompareParts(cmp, y, x) > 0
    ensures Plain(x) && Plain(y) ==> CompareParts(cmp, x, y) != 0
  {
    assert cmp(x, y) == 0 <==> x == y;
    assert cmp(x, y) < 0 <==> cmp(y, x) > 0;
    if Plain(x) && Plain(y) && Numeral(x) && Numeral(y) && Value(x) == Value(y) {
      PlainNumeralsAreUnique(x, y);
    }
  }

  lemma {:induction false} PartsTransitive(cmp: Comparison, x: string, y: string, z: string)
    requires TotalOrder(cmp) && x != y && y != z
    requires CompareParts(cmp, x, y) < 0 && CompareParts(cmp, y, z) < 0
    ensures x != z && CompareParts(cmp, x, z) < 0
  {
    PartsOrdered(cmp, x, y);
    PartsOrdered(cmp, y, z);
    assert x != z;
    PartsOrdered(cmp, x, z);
    if !Numeral(x) && !Numeral(y) && !Numeral(z) {
      assert cmp(x, y) <= 0 && cmp(y, z) <= 0;
      assert cmp(x, z) <= 0;
    }
  }

  lemma {:induction false} ListsOrdered(cmp: Comparison, xs: seq<string>, ys: seq<string>)
    requires TotalOrder(cmp)
    ensures CompareLists(cmp, xs, ys) < 0 <==> CompareLists(cmp, ys, xs) > 0
    ensures xs == ys ==> CompareLists(cmp, xs, ys) == 0
    ensures PlainLists(xs) && PlainLists(ys) && CompareLists(cmp, xs, ys) == 0 ==> xs == ys
    decreases |xs|
  {
    if |xs| > 0 && |ys| > 0 {
      if xs[0] == ys[0] {
        ListsOrdered(cmp, xs[1..], ys[1..]);
        assert xs == [xs[0]] + xs[1..] && ys == [ys[0]] + ys[1..];
      } else {
        PartsOrdered(cmp, xs[0], ys[0]);
        PartsOrdered(cmp, ys[0], xs[0]);
      }
    }
  }

  /** Being before is transitive whatever the spelling of numbers. */
  lemma {:induction false} ListsTransitive(cmp: Comparison, xs: seq<string>, ys: seq<string>, zs: seq<string>)
    requires TotalOrder(cmp) && CompareLists(cmp, xs, ys) < 0 && CompareLists(cmp, ys, zs) < 0
    ensures CompareLists(cmp, xs, zs) < 0
    decreases |xs|
  {
    if |xs| > 0 && |ys| > 0 && |zs| > 0 {
      if xs[0] == ys[0] == zs[0] {
        ListsTransitive(cmp, xs[1..], ys[1..], zs[1..]);
      } else if xs[0] != ys[0] && ys[0] != zs[0] {
        PartsTransitive(cmp, xs[0], ys[0], zs[0]);
      }
    }
  }

  lemma {:induction false} BeforeIsTransitive(cmp: Comparison, a: Version, b: Version, c: Version)
    requires TotalOrder(cmp) && Compare(cmp, a, b) < 0 && Compare(cmp, b, c) < 0
    ensures Compare(cmp, a, c) < 0
  {
    var x, y, z := a.prerelease, b.prerelease, c.prerelease;
    if x != "" && y != "" && z != "" {
      if CompareLists(cmp, Split(x), Split(y)) < 0 && CompareLists(cmp, Split(y), Split(z)) < 0 {
        ListsTransitive(cmp, Split(x), Split(y), Split(z));
        ListsOrdered(cmp, Split(x), Split(z));
      }
    }
  }

  /**
   On versions whose numeric prerelease identifiers have no leading zero precedence is a total
   order, and only equal versions compare equal.
   */
  lemma {:induction false} PrecedenceIsTotalOrder(cmp: Comparison, a: Version, b: Version)
    requires TotalOrder(cmp) && Canonical(a) && Canonical(b)
    ensures Compare(cmp, a, b) == 0 <==> a == b
    ensures Compare(cmp, a, b) < 0 <==> Compare(cmp, b, a) > 0
  {
    ListsOrdered(cmp, Split(a.prerelease), Split(b.prerelease));
    JoinSplit(a.prerelease);
    JoinSplit(b.prerelease);
  }

  lemma {:induction false} PrecedenceIsTransitive(cmp: Comparison, a: Version, b: Version, c: Version)
    requires TotalOrder(cmp) && Canonical(a) && Canonical(b) && Canonical(c)
    requires Compare(cmp, a, b) <= 0 && Compare(cmp, b, c) <= 0
    ensures Compare(cmp, a, c) <= 0
  {
    PrecedenceIsTotalOrder(cmp, a, b);
    PrecedenceIsTotalOrder(cmp, b, c);
    if a != b && b != c {
      BeforeIsTransitive(cmp, a, b, c);
    }
  }

  /** Two identifier lists first differ in two spellings of one number. */
  predicate SpeltDifferently(xs: seq<string>, ys: seq<string>) {
    |xs| > 0 && |ys| > 0 &&
    if xs[0] == ys[0] then SpeltDifferently(xs[1..], ys[1..])
    else Numeral(xs[0]) && Numeral(ys[0]) && Value(xs[0]) == Value(ys[0])
  }

  lemma {:induction false} ListsEqualIff(cmp: Comparison, xs: seq<string>, ys: seq<string>)
    requires TotalOrder(cmp)
    ensures CompareLists(cmp, xs, ys) == 0 <==> xs == ys || SpeltDifferently(xs, ys)
    decreases |xs|
  {
    if |xs| > 0 && |ys| > 0 {
      if xs[0] == ys[0] {
        ListsEqualIff(cmp, xs[1..], ys[1..]);
        assert xs == [xs[0]] + xs[1..] && ys == [ys[0]] + ys[1..];
      } else {
        PartsOrdered(cmp, xs[0], ys[0]);
      }
    }
  }

  /** Exactly when two versions compare equal, leading zeros or not. */
  lemma {:induction false} ComparesEqualIff(cmp: Comparison, a: Version, b: Version)
    requires TotalOrder(cmp)
    ensures Compare(cmp, a, b) == 0 <==>
            a == b || Clash(a, b)
  {
    ListsEqualIff(cmp, Split(a.prerelease), Split(b.prerelease));
    JoinSplit(a.prerelease);
    JoinSplit(b.prerelease);
    if a.prerelease == b.prerelease {
      NotSpeltDifferently(Split(a.prerelease));
    }
  }

  lemma {:induction false} NotSpeltDifferently(xs: seq<string>)
    ensures !SpeltDifferently(xs, xs)
  {
    if |xs| == 0 {
    } else {
      NotSpeltDifferently(xs[1..]);
    }
  }

  /** The same release with prereleases that first differ in two spellings of one number. */
  predicate Clash(a: Version, b: Version) {
    && a.(prerelease := "") == b.(prerelease := "") && a.prerelease != "" && b.prerelease != ""
    && SpeltDifferently(Split(a.prerelease), Split(b.prerelease))
  }

  ghost predicate Unclashing(versions: iset<Version>) {
    forall a, b | a in versions && b in versions :: !Clash(a, b)
  }

  ghost predicate Ordered(cmp: Comparison, a: Version, b: Version) {
    (Compare(cmp, a, b) == 0 <==> a == b) && (Compare(cmp, a, b) < 0 <==> Compare(cmp, b, a) > 0)
  }

  ghost predicate Chains(cmp: Comparison, a: Version, b: Version, c: Version) {
    Compare(cmp, a, b) <= 0 && Compare(cmp, b, c) <= 0 ==> Compare(cmp, a, c) <= 0
  }

  /** Comparison is a total order on these versions. */
  ghost predicate IsOrder(cmp: Comparison, versions: iset<Version>) {
    && (forall a, b | a in versions && b in versions :: Ordered(cmp, a, b))
    && (forall a, b, c | a in versions && b in versions && c in versions :: Chains(cmp, a, b, c))
  }

  lemma {:induction false} OrderedIff(cmp: Comparison, a: Version, b: Version)
    requires TotalOrder(cmp)
    ensures Ordered(cmp, a, b) <==> !Clash(a, b)
  {
    ComparesEqualIff(cmp, a, b);
    ListsOrdered(cmp, Split(a.prerelease), Split(b.prerelease));
    NotSpeltDifferently(Split(a.prerelease));
  }

  lemma {:induction false} OrderedChains(cmp: Comparison, a: Version, b: Version, c: Version)
    requires TotalOrder(cmp) && !Clash(a, b) && !Clash(b, c)
    ensures Chains(cmp, a, b, c)
  {
    OrderedIff(cmp, a, b);
    OrderedIff(cmp, b, c);
    if Compare(cmp, a, b) < 0 && Compare(cmp, b, c) < 0 {
      BeforeIsTransitive(cmp, a, b, c);
    }
  }

  /** Comparison is a total order on a set of versions exactly when no two of them clash. */
  lemma {:induction false} PrecedenceIsOrderIff(cmp: Comparison, versions: iset<Version>)
    requires TotalOrder(cmp)
    ensures IsOrder(cmp, versions) <==> Unclashing(versions)
  {
    forall a, b | a in versions && b in versions ensures Ordered(cmp, a, b) <==> !Clash(a, b) {
      OrderedIff(cmp, a, b);
    }
    if Unclashing(versions) {
      forall a, b, c | a in versions && b in versions && c in versions ensures Chains(cmp, a, b, c) {
        OrderedChains(cmp, a, b, c);
      }
    }
  }

  /** Versions without leading zeros never clash. */
  lemma {:induction false} CanonicalVersionsDoNotClash(versions: iset<Version>)
    requires forall v | v in versions :: Canonical(v)
    ensures Unclashing(versions)
  {
    forall a, b | a in versions && b in versions ensures !Clash(a, b) {
      PlainListsAreSpeltAlike(Split(a.prerelease), Split(b.prerelease));
    }
  }

  lemma {:induction false} PlainListsAreSpeltAlike(xs: seq<string>, ys: seq<string>)
    requires PlainLists(xs) && PlainLists(ys)
    ensures !SpeltDifferently(xs, ys)
  {
    if |xs| > 0 && |ys| > 0 {
      if xs[0] == ys[0] {
        PlainListsAreSpeltAlike(xs[1..], ys[1..]);
      } else if Numeral(xs[0]) && Numeral(ys[0]) && Value(xs[0]) == Value(ys[0]) {
        PlainNumeralsAreUnique(xs[0], ys[0]);
      }
    }
  }

  lemma {:induction false} OneIsSpeltTwice()
    ensures Numeral("1") && Numeral("01") && Value("01") == Value("1")
  {
    assert "01"[..1] == "0" && "1"[..0] == "" && "0"[..0] == "";
    assert Value("0") == 0;
  }

  lemma {:induction false} OneOf(cmp: Comparison, x: string, y: string)
    requires '.' !in x && '.' !in y
    ensures Split("1." + x) == ["1", x] && Split("01." + y) == ["01", y]
    ensures CompareLists(cmp, ["1", x], ["01", y]) == 0 && CompareLists(cmp, ["01", y], ["1", x]) == 0
  {
    SplitTwo("1", x);
    SplitTwo("01", y);
    assert "1." + x == "1" + "." + x && "01." + y == "01" + "." + y;
    OneIsSpeltTwice();
  }

  /** With leading zeros the comparison is no order: `01.b` equals both `1.a` and `1.b`, which differ. */
  lemma {:induction false} LeadingZerosBreakTheOrder(cmp: Comparison)
    requires TotalOrder(cmp)
    ensures var a, b, c := Version(1, 0, 0, "1." + "a"), Version(1, 0, 0, "01." + "b"), Version(1, 0, 0, "1." + "b");
      Compare(cmp, a, b) == 0 && Compare(cmp, b, c) == 0 && Compare(cmp, a, c) != 0
  {
    OneOf(cmp, "a", "b");
    OneOf(cmp, "b", "b");
    assert ["1", "a"][1..] == ["a"] && ["1", "b"][1..] == ["b"];
    assert CompareLists(cmp, ["a"], ["b"]) == cmp("a", "b");
    assert cmp("a", "b") != 0;
  }

  lemma {:induction false} SplitTwo(x: string, y: string)
    requires '.' !in x && '.' !in y
    ensures Split(x + "." + y) == [x, y]
    decreases |x|
  {
    var s := x + "." + y;
    if |x| == 0 {
      SplitOne(y);
      assert s[1..] == y;
    } else {
      assert s[1..] == x[1..] + "." + y;
      SplitTwo(x[1..], y);
      assert [s[0]] + x[1..] == x;
    }
  }

  lemma {:induction false} SplitOne(y: string)
    requires '.' !in y
    ensures Split(y) == [y]
  {
    if |y| == 0 {
    } else {
      SplitOne(y[1..]);
      assert [y[0]] + y[1..] == y;
    }
  }

  // ---------------------------------------------------------------- selection

  datatype Entry = Entry(minimumPiVersion: string, revision: string)
  datatype Index = Index(defaultRevision: string, catalogs: seq<Entry>)

  /** Parsing is the program's regular expression; `None` stands for a string that is no version. */
  type Parser = string -> Option<Version>

  predicate AllParse(parse: Parser, catalogs: seq<Entry>) {
    forall k | 0 <= k < |catalogs| :: parse(catalogs[k].minimumPiVersion).Some?
  }

  function Minimum(parse: Parser, e: Entry): Version {
    match parse(e.minimumPiVersion) case Some(v) => v case None => Version(0, 0, 0, "")
  }

  predicate Fits(cmp: Comparison, parse: Parser, e: Entry, requested: Version) {
    Compare(cmp, Minimum(parse, e), requested) <= 0
  }

  /** Whether an entry replaces the best one so far. */
  predicate Beats(cmp: Comparison, parse: Parser, e: Entry, best: Option<Entry>) {
    best.Some? ==> Compare(cmp, Minimum(parse, e), Minimum(parse, best.value)) > 0
  }

  function Best(cmp: Comparison, parse: Parser, catalogs: seq<Entry>, requested: Version): Option<Entry>
    decreases |catalogs|
  {
    if |catalogs| == 0 then None else
    var before, last := Best(cmp, parse, catalogs[..|catalogs| - 1], requested), catalogs[|catalogs| - 1];
    if Fits(cmp, parse, last, requested) && Beats(cmp, parse, last, before) then Some(last) else before
  }

  /** Entry `k` is the first of the default revision. */
  predicate FirstDefault(index: Index, k: nat) {
    && k < |index.catalogs| && index.catalogs[k].revision == index.defaultRevision
    && forall j | 0 <= j < k :: index.catalogs[j].revision != index.defaultRevision
  }

  /** The first entry of the default revision; storage guarantees that there is one. */
  ghost predicate IsDefault(index: Index, r: Option<Entry>) {
    match r
    case None => forall k | 0 <= k < |index.catalogs| :: index.catalogs[k].revision != index.defaultRevision
    case Some(e) => exists k: nat :: FirstDefault(index, k) && index.catalogs[k] == e
  }

  method DefaultCatalog(index: Index) returns (r: Option<Entry>)
    ensures IsDefault(index, r)
  {
    var k := 0;
    while k < |index.catalogs|
      invariant k <= |index.catalogs|
      invariant forall j | 0 <= j < k :: index.catalogs[j].revision != index.defaultRevision
    {
      if index.catalogs[k].revision == index.defaultRevision {
        assert FirstDefault(index, k);
        return Some(index.catalogs[k]);
      }
      k := k + 1;
    }
    return None;
  }

  /** Whether `minimum` is at most the request and above what is selected. */
  method Improves(cmp: Comparison, minimum: Version, requested: Version, selected: Option<Version>) returns (b: bool)
    ensures b <==> Compare(cmp, minimum, requested) <= 0 &&
                   (selected.Some? ==> Compare(cmp, minimum, selected.value) > 0)
  {
    var order := ComparePiVersions(cmp, minimum, requested);
    if order > 0 {
      return false;
    }
    if selected.None? {
      return true;
    }
    var gain := ComparePiVersions(cmp, minimum, selected.value);
    return gain > 0;
  }

  lemma {:induction false} BestSoFar(cmp: Comparison, parse: Parser, catalogs: seq<Entry>, requested: Version, k: nat)
    requires k < |catalogs| && parse(catalogs[k].minimumPiVersion).Some? && AllParse(parse, catalogs[..k])
    ensures AllParse(parse, catalogs[..k + 1])
    ensures var before := Best(cmp, parse, catalogs[..k], requested);
      Best(cmp, parse, catalogs[..k + 1], requested) ==
      if Fits(cmp, parse, catalogs[k], requested) && Beats(cmp, parse, catalogs[k], before)
      then Some(catalogs[k]) else before
  {
    assert catalogs[..k + 1][..k] == catalogs[..k];
    assert catalogs[..k + 1] == catalogs[..k] + [catalogs[k]];
  }

  predicate MalformedAt(parse: Parser, catalogs: seq<Entry>, k: nat) {
    k < |catalogs| && parse(catalogs[k].minimumPiVersion).None? && AllParse(parse, catalogs[..k])
  }

  /** The first minimum that is no version. */
  ghost predicate FirstMalformed(parse: Parser, catalogs: seq<Entry>, version: string) {
    exists k: nat :: MalformedAt(parse, catalogs, k) && catalogs[k].minimumPiVersion == version
  }

  /** The selection loop; the error is the exception for an entry that is no version. */
  method NewestCatalog(cmp: Comparison, parse: Parser, catalogs: seq<Entry>, requested: Version)
    returns (r: Result<Option<Entry>, string>)
    ensures if AllParse(parse, catalogs) then r == Success(Best(cmp, parse, catalogs, requested))
            else r.Failure? && FirstMalformed(parse, catalogs, r.error)
  {
    var selected: Option<Entry> := None;
    var selectedVersion: Option<Version> := None;
    var k := 0;
    while k < |catalogs|
      invariant k <= |catalogs| && AllParse(parse, catalogs[..k])
      invariant selected == Best(cmp, parse, catalogs[..k], requested)
      invariant selectedVersion == if selected.Some? then Some(Minimum(parse, selected.value)) else None
    {
      var minimum := parse(catalogs[k].minimumPiVersion);
      if minimum.None? {
        assert MalformedAt(parse, catalogs, k);
        return Failure(catalogs[k].minimumPiVersion);
      }
      BestSoFar(cmp, parse, catalogs, requested, k);
      var better := Improves(cmp, minimum.value, requested, selectedVersion);
      if better {
        selected, selectedVersion := Some(catalogs[k]), minimum;
      }
      k := k + 1;
    }
    assert catalogs[..k] == catalogs;
    return Success(selected);
  }

  /** selectModelCatalog */
  method SelectModelCatalog(cmp: Comparison, parse: Parser, index: Index, piVersion: Option<string>)
    returns (r: Result<Option<Entry>, string>)
    ensures piVersion.Some? && parse(piVersion.value).None? ==> r == Success(None)
    ensures piVersion.Some? && parse(piVersion.value).Some? ==>
              if AllParse(parse, index.catalogs)
              then r == Success(Best(cmp, parse, index.catalogs, parse(piVersion.value).value))
              else r.Failure? && FirstMalformed(parse, index.catalogs, r.error)
    ensures piVersion.None? ==> r.Success? && IsDefault(index, r.value)
  {
    if piVersion.None? {
      var entry := DefaultCatalog(index);
      return Success(entry);
    }
    var requested := parse(piVersion.value);
    if requested.None? {
      return Success(None);
    }
    r := NewestCatalog(cmp, parse, index.catalogs, requested.value);
  }

  ghost function Minimums(parse: Parser, catalogs: seq<Entry>): iset<Version> {
    iset k | 0 <= k < |catalogs| :: Minimum(parse, catalogs[k])
  }

  /** The selected entry fits and no entry that fits has a greater minimum. */
  ghost predicate Greatest(cmp: Comparison, parse: Parser, catalogs: seq<Entry>, requested: Version, best: Entry) {
    && best in catalogs && Fits(cmp, parse, best, requested)
    && forall k | 0 <= k < |catalogs| && Fits(cmp, parse, catalogs[k], requested) ::
         Compare(cmp, Minimum(parse, catalogs[k]), Minimum(parse, best)) <= 0
  }

  /** Nothing is selected exactly when no entry is compatible, whatever the order. */
  lemma {:induction false} NothingIffIncompatible(
    cmp: Comparison, parse: Parser, catalogs: seq<Entry>, requested: Version)
    ensures Best(cmp, parse, catalogs, requested).None? <==>
            forall k | 0 <= k < |catalogs| :: !Fits(cmp, parse, catalogs[k], requested)
    decreases |catalogs|
  {
    if |catalogs| == 0 {
    } else {
      var init := catalogs[..|catalogs| - 1];
      NothingIffIncompatible(cmp, parse, init, requested);
      assert forall k | 0 <= k < |init| :: init[k] == catalogs[k];
      if Best(cmp, parse, init, requested).Some? {
        var k :| 0 <= k < |init| && Fits(cmp, parse, init[k], requested);
        assert Fits(cmp, parse, catalogs[k], requested);
      }
    }
  }

  lemma {:induction false} MinimumsGrow(parse: Parser, catalogs: seq<Entry>, e: Entry)
    ensures Minimums(parse, catalogs) <= Minimums(parse, catalogs + [e])
    ensures Minimum(parse, e) in Minimums(parse, catalogs + [e])
  {
    var more := catalogs + [e];
    assert more[|catalogs|] == e;
    forall v | v in Minimums(parse, catalogs) ensures v in Minimums(parse, more) {
      var k :| 0 <= k < |catalogs| && v == Minimum(parse, catalogs[k]);
      assert more[k] == catalogs[k];
    }
  }

  /** An entry above the best so far is above all that the best one was above. */
  lemma {:induction false} Overtakes(
    cmp: Comparison, parse: Parser, catalogs: seq<Entry>, requested: Version, held: Entry, last: Entry)
    requires TotalOrder(cmp) && Unclashing(Minimums(parse, catalogs + [last]))
    requires Greatest(cmp, parse, catalogs, requested, held) && Fits(cmp, parse, last, requested)
    requires Compare(cmp, Minimum(parse, last), Minimum(parse, held)) > 0
    ensures Greatest(cmp, parse, catalogs + [last], requested, last)
  {
    var more, h, l := catalogs + [last], Minimum(parse, held), Minimum(parse, last);
    MinimumsGrow(parse, catalogs, last);
    assert h in Minimums(parse, catalogs);
    OrderedIff(cmp, h, l);
    OrderedIff(cmp, l, l);
    forall k | 0 <= k < |more| && Fits(cmp, parse, more[k], requested)
      ensures Compare(cmp, Minimum(parse, more[k]), l) <= 0
    {
      if k < |catalogs| {
        assert Minimum(parse, catalogs[k]) in Minimums(parse, catalogs);
        OrderedChains(cmp, Minimum(parse, catalogs[k]), h, l);
      }
    }
    assert more[|catalogs|] == last;
  }

  /** An entry that does not fit, or is not above the best so far, changes nothing. */
  lemma {:induction false} Remains(
    cmp: Comparison, parse: Parser, catalogs: seq<Entry>, requested: Version, held: Entry, last: Entry)
    requires Greatest(cmp, parse, catalogs, requested, held)
    requires Fits(cmp, parse, last, requested) ==> Compare(cmp, Minimum(parse, last), Minimum(parse, held)) <= 0
    ensures Greatest(cmp, parse, catalogs + [last], requested, held)
  {}

  lemma {:induction false} FirstFit(
    cmp: Comparison, parse: Parser, catalogs: seq<Entry>, requested: Version, last: Entry)
    requires TotalOrder(cmp) && Fits(cmp, parse, last, requested)
    requires forall k | 0 <= k < |catalogs| :: !Fits(cmp, parse, catalogs[k], requested)
    ensures Greatest(cmp, parse, catalogs + [last], requested, last)
  {
    NotSpeltDifferently(Split(Minimum(parse, last).prerelease));
    OrderedIff(cmp, Minimum(parse, last), Minimum(parse, last));
    assert (catalogs + [last])[|catalogs|] == last;
  }

  lemma {:induction false} BestIsGreatest(cmp: Comparison, parse: Parser, catalogs: seq<Entry>, requested: Version)
    requires TotalOrder(cmp) && Unclashing(Minimums(parse, catalogs))
    ensures var best := Best(cmp, parse, catalogs, requested);
      best.Some? ==> Greatest(cmp, parse, catalogs, requested, best.value)
    decreases |catalogs|
  {
    if |catalogs| == 0 {
    } else {
      var init, last := catalogs[..|catalogs| - 1], catalogs[|catalogs| - 1];
      assert catalogs == init + [last];
      MinimumsGrow(parse, init, last);
      BestIsGreatest(cmp, parse, init, requested);
      NothingIffIncompatible(cmp, parse, init, requested);
      var before := Best(cmp, parse, init, requested);
      if before.None? {
        if Fits(cmp, parse, last, requested) {
          FirstFit(cmp, parse, init, requested, last);
        }
      } else if Fits(cmp, parse, last, requested) && Beats(cmp, parse, last, before) {
        Overtakes(cmp, parse, init, requested, before.value, last);
      } else {
        Remains(cmp, parse, init, requested, before.value, last);
      }
    }
  }

  /** A newer client never gets an older catalog, and never loses having one. */
  lemma {:induction false} SelectionIsMonotone(
    cmp: Comparison, parse: Parser, catalogs: seq<Entry>, older: Version, newer: Version)
    requires TotalOrder(cmp) && Unclashing(Minimums(parse, catalogs) + iset{older, newer})
    requires Compare(cmp, older, newer) <= 0 && Best(cmp, parse, catalogs, older).Some?
    ensures Best(cmp, parse, catalogs, newer).Some?
    ensures Compare(cmp, Minimum(parse, Best(cmp, parse, catalogs, older).value),
                         Minimum(parse, Best(cmp, parse, catalogs, newer).value)) <= 0
  {
    BestIsGreatest(cmp, parse, catalogs, older);
    BestIsGreatest(cmp, parse, catalogs, newer);
    NothingIffIncompatible(cmp, parse, catalogs, newer);
    var best := Best(cmp, parse, catalogs, older).value;
    var k :| 0 <= k < |catalogs| && catalogs[k] == best;
    assert Minimum(parse, best) in Minimums(parse, catalogs);
    OrderedChains(cmp, Minimum(parse, best), older, newer);
    assert Fits(cmp, parse, catalogs[k], newer);
  }

  /** No entry's minimum has a leading zero in a numeric prerelease identifier. */
  predicate CanonicalEntries(parse: Parser, catalogs: seq<Entry>) {
    forall k | 0 <= k < |catalogs| :: Canonical(Minimum(parse, catalogs[k]))
  }

  /** So without leading zeros each client gets the greatest fitting entry, and a newer one no older entry. */
  lemma {:induction false} CanonicalSelection(
    cmp: Comparison, parse: Parser, catalogs: seq<Entry>, older: Version, newer: Version)
    requires TotalOrder(cmp) && CanonicalEntries(parse, catalogs) && Canonical(older) && Canonical(newer)
    requires Compare(cmp, older, newer) <= 0 && Best(cmp, parse, catalogs, older).Some?
    ensures var was, now := Best(cmp, parse, catalogs, older), Best(cmp, parse, catalogs, newer);
      && now.Some?
      && Greatest(cmp, parse, catalogs, older, was.value) && Greatest(cmp, parse, catalogs, newer, now.value)
      && (Minimum(parse, was.value) == Minimum(parse, now.value)
          || Compare(cmp, Minimum(parse, was.value), Minimum(parse, now.value)) < 0)
  {
    CanonicalVersionsDoNotClash(Minimums(parse, catalogs) + iset{older, newer});
    SelectionIsMonotone(cmp, parse, catalogs, older, newer);
    BestIsGreatest(cmp, parse, catalogs, older);
    BestIsGreatest(cmp, parse, catalogs, newer);
    var was, now := Best(cmp, parse, catalogs, older).value, Best(cmp, parse, catalogs, newer).value;
    OrderedIff(cmp, Minimum(parse, was), Minimum(parse, now));
  }
}
