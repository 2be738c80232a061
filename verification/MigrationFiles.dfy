/** Migration file names: parsing, printing and sorting (internal/store/migrate.go, parseFilename). */
module MigrationFiles {
  import opened Common

  const MAX_INT: int := 0x7FFF_FFFF_FFFF_FFFF

  predicate IsDigit(c: char) {
    '0' <= c <= '9'
  }

  predicate AllDigits(s: string) {
    forall i :: 0 <= i < |s| ==> IsDigit(s[i])
  }

  function DigitValue(c: char): nat
    requires IsDigit(c)
  {
    c as int - '0' as int
  }

  function Value(s: string): nat
    requires AllDigits(s)
  {
    if s == [] then 0 else 10 * Value(s[..|s| - 1]) + DigitValue(s[|s| - 1])
  }

  /** strconv.Atoi on a 64-bit platform: an optional sign, then digits, within the range of int. */
  function Atoi(s: string): Option<int> {
    var digits := if s != [] && (s[0] == '+' || s[0] == '-') then s[1..] else s;
    if digits == [] || !AllDigits(digits) then None
    else
      var n: int := Value(digits);
      var v := if s[0] == '-' then -n else n;
      if -MAX_INT - 1 <= v <= MAX_INT then Some(v) else None
  }

  function TrimSuffix(s: string, suffix: string): string {
    if |suffix| <= |s| && s[|s| - |suffix|..] == suffix then s[..|s| - |suffix|] else s
  }

  /** Index of the first underscore, or the length of the string. */
  function Underscore(s: string): (i: nat)
    ensures i <= |s| && '_' !in s[..i]
    ensures i < |s| ==> s[i] == '_'
  {
    if s == [] || s[0] == '_' then 0 else
      var i := Underscore(s[1..]);
      assert s[..i + 1] == [s[0]] + s[1..][..i];
      i + 1
  }

  datatype Parsed = Parsed(version: int, name: string)

  function ParseFilename(filename: string): Parsed {
    var name := TrimSuffix(filename, ".sql");
    var i := Underscore(name);
    if i == |name| then Parsed(-1, name)
    else
      match Atoi(name[..i])
      case None => Parsed(-1, name)
      case Some(v) => Parsed(v, name[i + 1..])
  }

  // ----- Printing -----

  function Decimal(v: nat): (s: string)
    ensures s != [] && AllDigits(s) && Value(s) == v
  {
    var last := '0' + (v % 10) as char;
    if v < 10 then [last]
    else
      var s := Decimal(v / 10) + [last];
      assert s[..|s| - 1] == Decimal(v / 10);
      s
  }

  lemma {:induction false} NoLeadingZero(v: nat)
    ensures Decimal(v)[0] == '0' ==> Decimal(v) == "0"
  {
    if v < 10 {
    } else {
      NoLeadingZero(v / 10);
      assert Value("0") == 0 by { assert "0"[..0] == []; }
    }
  }

  function Zeros(n: int): (s: string)
    ensures AllDigits(s) && (n >= 0 ==> |s| == n)
  {
    if n <= 0 then [] else ['0'] + Zeros(n - 1)
  }

  /** The version printed with at least `width` digits. */
  function PrintVersion(v: nat, width: nat): string {
    Zeros(width - |Decimal(v)|) + Decimal(v)
  }

  function PrintFilename(v: nat, width: nat, name: string): string {
    PrintVersion(v, width) + "_" + name + ".sql"
  }

  lemma {:induction false} ZerosAddNothing(z: string, s: string)
    requires AllDigits(z) && (forall i :: 0 <= i < |z| ==> z[i] == '0') && AllDigits(s)
    ensures AllDigits(z + s) && Value(z + s) == Value(s)
  {
    if s == [] {
      assert z + s == z;
      if z != [] {
        ZerosAddNothing(z[..|z| - 1], []);
        assert z[..|z| - 1] + [] == z[..|z| - 1];
      }
    } else {
      ZerosAddNothing(z, s[..|s| - 1]);
      assert (z + s)[..|z + s| - 1] == z + s[..|s| - 1];
    }
  }

  lemma {:induction false} ZerosAreZero(n: int)
    ensures forall i :: 0 <= i < |Zeros(n)| ==> Zeros(n)[i] == '0'
  {
    if n <= 0 {
    } else {
      ZerosAreZero(n - 1);
    }
  }

  lemma PrintedVersion(v: nat, width: nat)
    ensures AllDigits(PrintVersion(v, width)) && Value(PrintVersion(v, width)) == v && PrintVersion(v, width) != []
  {
    ZerosAreZero(width - |Decimal(v)|);
    ZerosAddNothing(Zeros(width - |Decimal(v)|), Decimal(v));
  }

  lemma {:induction false} UnderscoreAfter(p: string, rest: string)
    requires '_' !in p
    ensures Underscore(p + ['_'] + rest) == |p|
  {
    if p == [] {
    } else {
      assert (p + ['_'] + rest)[1..] == p[1..] + ['_'] + rest;
      UnderscoreAfter(p[1..], rest);
    }
  }

  lemma SplitAtPrefix(digits: string, name: string)
    requires AllDigits(digits)
    ensures ParseFilename(digits + "_" + name + ".sql") ==
            match Atoi(digits)
            case None => Parsed(-1, digits + "_" + name)
            case Some(v) => Parsed(v, name)
  {
    var f, n := digits + "_" + name + ".sql", digits + "_" + name;
    assert f[|f| - 4..] == ".sql" && f[..|f| - 4] == n;
    UnderscoreAfter(digits, name);
    assert n[..|digits|] == digits && n[|digits| + 1..] == name;
  }

  /** Parsing undoes printing for every name, underscores and ".sql" included, and every version an int can hold;
      a larger version is refused. */
  lemma ParseUndoesPrint(v: nat, width: nat, name: string)
    ensures ParseFilename(PrintFilename(v, width, name)) == Parsed(v, name) <==> v <= 9223372036854775807
    ensures v > 9223372036854775807 ==> ParseFilename(PrintFilename(v, width, name)).version == -1
  {
    var p := PrintVersion(v, width);
    PrintedVersion(v, width);
    SplitAtPrefix(p, name);
    assert IsDigit(p[0]);
  }

  /** What is parsed: the number before the first underscore of the name without ".sql", and the rest; without an underscore,
      or without a number there, version -1. */
  lemma ParseIs(filename: string, p: string, rest: string)
    ensures var name := TrimSuffix(filename, ".sql");
            && ('_' !in name ==> ParseFilename(filename) == Parsed(-1, name))
            && (name == p + "_" + rest && '_' !in p ==>
                  ParseFilename(filename) == if IsNumber(p) then Parsed(NumberOf(p), rest) else Parsed(-1, name))
    ensures TrimSuffix(p + ".sql", ".sql") == p
  {
    var name := TrimSuffix(filename, ".sql");
    assert (p + ".sql")[|p|..] == ".sql";
    if name == p + "_" + rest && '_' !in p {
      UnderscoreAfter(p, rest);
      assert name[..|p|] == p && name[|p| + 1..] == rest;
    }
  }

  function NumberOf(p: string): int
    requires IsNumber(p)
  {
    var n: int := if p[0] == '-' || p[0] == '+' then Value(p[1..]) else Value(p);
    if p[0] == '-' then -n else n
  }

  /** Digits after at most one sign, of a value that a 64-bit integer holds. */
  predicate IsNumber(p: string) {
    var digits := if p != [] && (p[0] == '+' || p[0] == '-') then p[1..] else p;
    && digits != [] && AllDigits(digits)
    && if p[0] == '-' then Value(digits) <= 9223372036854775808 else Value(digits) <= 9223372036854775807
  }

  // ----- Sorting -----

  /** Go's string order; comparing UTF-8 bytes and comparing code points agree. */
  predicate StringLeq(a: string, b: string) {
    a == [] || (b != [] && (a[0] < b[0] || (a[0] == b[0] && StringLeq(a[1..], b[1..]))))
  }

  lemma {:induction false} SmallerDigitDecides(p: string, q: string, k: nat)
    requires |p| == |q| && AllDigits(p) && AllDigits(q)
    requires k < |p| && p[..k] == q[..k] && p[k] < q[k]
    ensures Value(p) < Value(q)
  {
    var m := |p| - 1;
    if k == m {
    } else {
      assert p[..m][..k] == p[..k] && q[..m][..k] == q[..k];
      SmallerDigitDecides(p[..m], q[..m], k);
    }
  }

  /** Either the prefixes agree or they differ first at some k, the smaller digit on the left. */
  lemma {:induction false} PrefixesCompare(p: string, x: string, q: string, y: string) returns (k: nat)
    requires |p| == |q| && StringLeq(p + x, q + y)
    ensures k <= |p| && p[..k] == q[..k]
    ensures k < |p| ==> p[k] < q[k]
  {
    if p == [] || p[0] != q[0] {
      k := 0;
      assert p != [] ==> (p + x)[0] == p[0] && (q + y)[0] == q[0];
    } else {
      assert (p + x)[1..] == p[1..] + x && (q + y)[1..] == q[1..] + y;
      k := PrefixesCompare(p[1..], x, q[1..], y);
      assert p[..k + 1] == [p[0]] + p[1..][..k] && q[..k + 1] == [q[0]] + q[1..][..k];
      k := k + 1;
    }
  }

  /** A file name with `width` digits, then an underscore, of a version an int can hold. */
  predicate HasWidth(f: string, width: nat) {
    && |f| >= width + 5 && AllDigits(f[..width]) && f[width] == '_' && f[|f| - 4..] == ".sql"
    && width > 0 && Value(f[..width]) <= MAX_INT
  }

  lemma VersionOfWidth(f: string, width: nat)
    requires HasWidth(f, width)
    ensures ParseFilename(f).version == Value(f[..width])
  {
    var name := f[width + 1..|f| - 4];
    assert f == f[..width] + "_" + name + ".sql";
    SplitAtPrefix(f[..width], name);
    assert IsDigit(f[..width][0]);
  }

  /** With prefixes of one width, the string order of file names is an order of versions. */
  lemma SameWidthSortsByVersion(f: string, g: string, width: nat)
    requires HasWidth(f, width) && HasWidth(g, width) && StringLeq(f, g)
    ensures ParseFilename(f).version <= ParseFilename(g).version
  {
    hide StringLeq, ParseFilename, Value;
    VersionOfWidth(f, width);
    VersionOfWidth(g, width);
    var p, q := f[..width], g[..width];
    assert f == p + f[width..] && g == q + g[width..];
    var k := PrefixesCompare(p, f[width..], q, g[width..]);
    if k < |p| {
      SmallerDigitDecides(p, q, k);
    } else {
      assert p[..k] == p && q[..k] == q;
    }
  }

  // ----- Sorting without a common width -----

  /** How names with the version prefixes p and q sort: the first differing digit of p is smaller, or q is a proper prefix
      of p, because the underscore sorts after the digits. */
  ghost predicate SortsFirst(p: string, q: string) {
    q < p || DiffersSmaller(p, q)
  }

  ghost predicate DiffersSmaller(p: string, q: string) {
    exists k :: DiffersSmallerAt(p, q, k)
  }

  predicate DiffersSmallerAt(p: string, q: string, k: int) {
    0 <= k < |p| && k < |q| && p[..k] == q[..k] && p[k] < q[k]
  }

  function Significant(p: string): (d: string)
    ensures |d| <= |p| && (d != [] ==> d[0] != '0')
    ensures AllDigits(p) ==> AllDigits(d)
  {
    if p != [] && p[0] == '0' then Significant(p[1..]) else p
  }

  /** How versions compare, by their significant digits: fewer digits, or the first differing digit is smaller. */
  ghost predicate CountsLess(p: string, q: string) {
    var a, b := Significant(p), Significant(q);
    |a| < |b| || (|a| == |b| && DiffersSmaller(a, b))
  }

  lemma SameHead(p: string, q: string, k: int)
    requires 0 <= k < |p| && k < |q| && p[..k] == q[..k]
    ensures k == 0 || p[0] == q[0]
  {
    if k > 0 {
      assert p[0] == p[..k][0] && q[0] == q[..k][0];
    }
  }

  lemma SortsFirstOfTails(p: string, q: string)
    requires p != [] && q != []
    ensures SortsFirst(p, q) <==> p[0] < q[0] || (p[0] == q[0] && SortsFirst(p[1..], q[1..]))
  {
    if p[0] < q[0] {
      assert DiffersSmallerAt(p, q, 0);
    }
    if p[0] == q[0] {
      if q[1..] < p[1..] {
        assert p == [p[0]] + p[1..] && q == [q[0]] + q[1..];
      }
      if k :| DiffersSmallerAt(p[1..], q[1..], k) {
        assert p[..k + 1] == [p[0]] + p[1..][..k] && q[..k + 1] == [q[0]] + q[1..][..k];
        assert DiffersSmallerAt(p, q, k + 1);
      }
      if k :| DiffersSmallerAt(p, q, k) {
        assert p[1..][..k - 1] == p[..k][1..] && q[1..][..k - 1] == q[..k][1..];
        assert DiffersSmallerAt(p[1..], q[1..], k - 1);
      }
    }
    forall k | DiffersSmallerAt(p, q, k) ensures k == 0 || p[0] == q[0] {
      SameHead(p, q, k);
    }
  }

  lemma {:induction false} NamesSortByPrefix(p: string, x: string, q: string, y: string)
    requires AllDigits(p) && AllDigits(q) && p != q
    ensures StringLeq(p + ['_'] + x, q + ['_'] + y) <==> SortsFirst(p, q)
  {
    if p == [] || q == [] {
      assert p != [] ==> (p + ['_'] + x)[0] == p[0];
      assert q != [] ==> (q + ['_'] + y)[0] == q[0];
    } else {
      SortsFirstOfTails(p, q);
      assert (p + ['_'] + x)[1..] == p[1..] + ['_'] + x && (q + ['_'] + y)[1..] == q[1..] + ['_'] + y;
      if p[0] == q[0] {
        assert p == [p[0]] + p[1..] && q == [q[0]] + q[1..];
        NamesSortByPrefix(p[1..], x, q[1..], y);
      }
    }
  }

  lemma {:induction false} SignificantValue(p: string)
    requires AllDigits(p)
    ensures Value(Significant(p)) == Value(p)
  {
    if p == [] || p[0] != '0' {
    } else {
      SignificantValue(p[1..]);
      ZerosAddNothing(['0'], p[1..]);
      assert p == ['0'] + p[1..];
    }
  }

  lemma MoreDigitsAreMore(a: string, b: string)
    requires AllDigits(a) && AllDigits(b) && |a| < |b| && b[0] != '0'
    ensures Value(a) < Value(b)
  {
    var z := Zeros(|b| - |a|);
    ZerosAreZero(|b| - |a|);
    ZerosAddNothing(z, a);
    assert (z + a)[0] == '0';
    SmallerDigitDecides(z + a, b, 0);
  }

  lemma {:induction false} FirstDifference(a: string, b: string) returns (k: nat)
    requires |a| == |b| && a != b
    ensures k < |a| && a[..k] == b[..k] && a[k] != b[k]
  {
    if a[0] != b[0] {
      k := 0;
    } else {
      assert a == [a[0]] + a[1..] && b == [b[0]] + b[1..];
      k := FirstDifference(a[1..], b[1..]);
      assert a[..k + 1] == [a[0]] + a[1..][..k] && b[..k + 1] == [b[0]] + b[1..][..k];
      k := k + 1;
    }
  }

  lemma DigitsDecide(a: string, b: string)
    requires AllDigits(a) && AllDigits(b) && |a| == |b|
    ensures Value(a) < Value(b) <==> DiffersSmaller(a, b)
  {
    if a != b {
      var k := FirstDifference(a, b);
      if a[k] < b[k] {
        SmallerDigitDecides(a, b, k);
        assert DiffersSmallerAt(a, b, k);
      } else {
        SmallerDigitDecides(b, a, k);
      }
    }
    if k :| DiffersSmallerAt(a, b, k) {
      SmallerDigitDecides(a, b, k);
    }
  }

  lemma ValuesCompare(p: string, q: string)
    requires AllDigits(p) && AllDigits(q)
    ensures Value(p) < Value(q) <==> CountsLess(p, q)
  {
    var a, b := Significant(p), Significant(q);
    SignificantValue(p);
    SignificantValue(q);
    if |a| < |b| {
      MoreDigitsAreMore(a, b);
    } else if |b| < |a| {
      MoreDigitsAreMore(b, a);
    } else {
      DigitsDecide(a, b);
    }
  }

  predicate IsVersion(p: string) {
    p != [] && AllDigits(p) && Value(p) <= MAX_INT
  }

  lemma NamedVersion(p: string, x: string)
    requires IsVersion(p)
    ensures AllDigits(p) && ParseFilename(p + "_" + x + ".sql").version == Value(p)
  {
    SplitAtPrefix(p, x);
    assert IsDigit(p[0]);
  }

  lemma VersionValues(p: string, q: string)
    requires IsVersion(p) && IsVersion(q)
    ensures Value(q) < Value(p) <==> CountsLess(q, p)
  {
    ValuesCompare(q, p);
  }

  lemma NamesSort(p: string, x: string, q: string, y: string)
    requires IsVersion(p) && IsVersion(q) && p != q
    ensures StringLeq(p + "_" + x + ".sql", q + "_" + y + ".sql") <==> SortsFirst(p, q)
  {
    NamesSortByPrefix(p, x + ".sql", q, y + ".sql");
    hide StringLeq, SortsFirst;
    assert p + "_" + x + ".sql" == p + ['_'] + (x + ".sql");
    assert q + "_" + y + ".sql" == q + ['_'] + (y + ".sql");
  }

  /** Two files with different version prefixes sort against their versions if and only if p sorts first although q counts
      less. */
  lemma SortedWronglyExactlyWhen(p: string, x: string, q: string, y: string)
    requires IsVersion(p) && IsVersion(q) && p != q
    ensures var f, g := p + "_" + x + ".sql", q + "_" + y + ".sql";
            && (StringLeq(f, g) <==> SortsFirst(p, q))
            && (ParseFilename(g).version < ParseFilename(f).version <==> CountsLess(q, p))
            && (StringLeq(f, g) && ParseFilename(g).version < ParseFilename(f).version <==>
                  SortsFirst(p, q) && CountsLess(q, p))
  {
    hide *;
    NamedVersion(p, x);
    NamedVersion(q, y);
    VersionValues(p, q);
    NamesSort(p, x, q, y);
  }

  lemma {:induction false} LongerIsMore(q: string, d: string)
    requires AllDigits(q + d) && AllDigits(q) && Value(q) > 0 && d != []
    ensures Value(q + d) > Value(q)
  {
    var e := d[..|d| - 1];
    assert (q + d)[..|q + d| - 1] == q + e;
    if e == [] {
      assert q + e == q;
    } else {
      LongerIsMore(q, e);
    }
  }

  /** In particular every file whose version prefix extends another one's sorts before it, like 10 before 1. */
  lemma ExtendedPrefixSortsWrongly(q: string, d: string, x: string, y: string)
    requires IsVersion(q) && IsVersion(q + d) && d != [] && Value(q) > 0
    ensures var f, g := q + d + "_" + x + ".sql", q + "_" + y + ".sql";
            StringLeq(f, g) && ParseFilename(g).version < ParseFilename(f).version
  {
    LongerIsMore(q, d);
    ValuesCompare(q, q + d);
    SortedWronglyExactlyWhen(q + d, x, q, y);
    hide ParseFilename, StringLeq, CountsLess;
  }

  /** Version 10 printed with one digit or more sorts before version 2. */
  lemma MixedWidthsSortWrongly(x: string, y: string)
    ensures var f, g := PrintFilename(10, 1, x), PrintFilename(2, 1, y);
            StringLeq(f, g) && ParseFilename(f) == Parsed(10, x) && ParseFilename(g) == Parsed(2, y)
  {
    var f, g := PrintFilename(10, 1, x), PrintFilename(2, 1, y);
    ParseUndoesPrint(10, 1, x);
    ParseUndoesPrint(2, 1, y);
    hide ParseFilename;
    assert Decimal(10) == Decimal(1) + ['0'];
    assert f[0] == '1' && g[0] == '2';
  }
}
