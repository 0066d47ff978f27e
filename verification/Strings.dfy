/** The string operations of Go's `strings` and `strconv` packages that the system relies on,
    with the inversion laws the encodings need. */
module Strings {

  datatype Option<+T> = None | Some(value: T)

  /* ---------- prefixes and suffixes ---------- */

  predicate HasPrefix(s: string, p: string) {
    p <= s
  }

  predicate HasSuffix(s: string, p: string) {
    |p| <= |s| && s[|s| - |p|..] == p
  }

  function TrimSuffix(s: string, p: string): string {
    if HasSuffix(s, p) then s[..|s| - |p|] else s
  }

  lemma TrimOfAppend(s: string, p: string)
    ensures TrimSuffix(s + p, p) == s
  {
    assert (s + p)[|s|..] == p;
    assert (s + p)[..|s|] == s;
  }

  /** A prefix or suffix is what something can be put after or before; trimming takes it off, if it is there. */
  lemma AffixesMean(s: string, p: string)
    ensures HasPrefix(s, p) <==> exists rest :: s == p + rest
    ensures HasSuffix(s, p) <==> exists rest :: s == rest + p
    ensures if exists rest :: s == rest + p then TrimSuffix(s, p) + p == s else TrimSuffix(s, p) == s
  {
    if HasPrefix(s, p) { assert s == p + s[|p|..]; }
    if HasSuffix(s, p) { assert s == s[..|s| - |p|] + p; }
    forall rest | s == rest + p ensures HasSuffix(s, p) {
      assert s[|s| - |p|..] == p;
    }
  }

  /* ---------- strings.Split and strings.Join on a one-character separator ---------- */

  function Split(s: string, sep: char): (r: seq<string>)
    ensures |r| >= 1
  {
    if s == [] then [[]]
    else
      var rest := Split(s[1..], sep);
      if s[0] == sep then [[]] + rest else [[s[0]] + rest[0]] + rest[1..]
  }

  function Join(parts: seq<string>, sep: char): string {
    if parts == [] then []
    else if |parts| == 1 then parts[0]
    else parts[0] + [sep] + Join(parts[1..], sep)
  }

  predicate NoneContains(parts: seq<string>, sep: char) {
    forall i :: 0 <= i < |parts| ==> sep !in parts[i]
  }

  lemma {:induction false} SplitAtSeparator(a: string, b: string, sep: char)
    requires sep !in a
    ensures Split(a + [sep] + b, sep) == [a] + Split(b, sep)
  {
    if a == [] {
      assert ([] + [sep] + b)[1..] == b;
    } else {
      SplitAtSeparator(a[1..], b, sep);
      assert (a + [sep] + b)[1..] == a[1..] + [sep] + b;
      assert [a[0]] + a[1..] == a;
    }
  }

  lemma {:induction false} SplitWithoutSeparator(a: string, sep: char)
    requires sep !in a
    ensures Split(a, sep) == [a]
  {
    if a != [] {
      SplitWithoutSeparator(a[1..], sep);
      assert [a[0]] + a[1..] == a;
    }
  }

  /** Splitting undoes joining, provided no part holds the separator. */
  lemma {:induction false} SplitOfJoin(parts: seq<string>, sep: char)
    requires parts != [] && NoneContains(parts, sep)
    ensures Split(Join(parts, sep), sep) == parts
  {
    if |parts| == 1 {
      SplitWithoutSeparator(parts[0], sep);
    } else {
      assert NoneContains(parts[1..], sep);
      SplitOfJoin(parts[1..], sep);
      SplitAtSeparator(parts[0], Join(parts[1..], sep), sep);
    }
  }

  /** Joining undoes splitting, and no part of a split holds the separator. */
  lemma {:induction false} JoinOfSplit(s: string, sep: char)
    ensures Join(Split(s, sep), sep) == s
    ensures NoneContains(Split(s, sep), sep)
  {
    if s != [] {
      var rest := Split(s[1..], sep);
      JoinOfSplit(s[1..], sep);
      assert s == [s[0]] + s[1..];
      if s[0] == sep {
        assert Split(s, sep)[1..] == rest;
      } else if |rest| > 1 {
        assert Split(s, sep)[1..] == rest[1..];
      }
    }
  }

  lemma JoinOfAppend(parts: seq<string>, last: string, sep: char)
    requires parts != []
    ensures Join(parts + [last], sep) == Join(parts, sep) + [sep] + last
  {
    if |parts| > 1 {
      assert (parts + [last])[1..] == parts[1..] + [last];
      JoinOfAppend(parts[1..], last, sep);
    } else {
      assert (parts + [last])[1..] == [last];
    }
  }

  /* ---------- strconv in base 10 ---------- */

  function DigitChar(d: nat): (c: char)
    requires d < 10
    ensures IsDigit(c) && DigitValue(c) == d
  {
    '0' + d as char
  }

  predicate IsDigit(c: char) {
    '0' <= c <= '9'
  }

  function DigitValue(c: char): nat
    requires IsDigit(c)
  {
    (c - '0') as nat
  }

  function FormatNat(n: nat): (s: string)
    ensures s != [] && forall i :: 0 <= i < |s| ==> IsDigit(s[i])
  {
    if n < 10 then [DigitChar(n)] else FormatNat(n / 10) + [DigitChar(n % 10)]
  }

  function ParseDigits(s: string): Option<nat> {
    if s == [] then Some(0)
    else if !IsDigit(s[|s| - 1]) then None
    else
      match ParseDigits(s[..|s| - 1])
      case None => None
      case Some(v) => Some(10 * v + DigitValue(s[|s| - 1]))
  }

  function ParseUint(s: string, limit: nat): Option<nat> {
    if s == [] then None
    else
      match ParseDigits(s)
      case None => None
      case Some(v) => if v < limit then Some(v) else None
  }

  function FormatInt(n: int): string {
    if n < 0 then ['-'] + FormatNat(-n) else FormatNat(n)
  }

  /** `strconv.ParseInt(s, 10, bits)` with half == 2^(bits-1). */
  function ParseInt(s: string, half: nat): Option<int> {
    if s == [] then None
    else
      var negative := s[0] == '-';
      var digits := if s[0] == '-' || s[0] == '+' then s[1..] else s;
      if digits == [] then None
      else
        match ParseDigits(digits)
        case None => None
        case Some(v) =>
          if negative then (if v <= half then Some(0 - v) else None)
          else if v < half then Some(v) else None
  }

  function Power10(n: nat): nat {
    if n == 0 then 1 else 10 * Power10(n - 1)
  }

  const DIGITS := "0123456789"

  /** The ten digits and their values. */
  lemma DigitIsListed(c: char)
    ensures IsDigit(c) <==> c in DIGITS
    ensures forall d: nat :: d < 10 ==> (DIGITS[d] == c <==> IsDigit(c) && DigitValue(c) == d)
  {
    if IsDigit(c) { assert DIGITS[DigitValue(c)] == c; }
  }

  predicate AllDigits(s: string) {
    forall i :: 0 <= i < |s| ==> IsDigit(s[i])
  }

  /** The number that digits stand for, by their places. */
  function PlaceValue(s: string): nat
    requires AllDigits(s)
  {
    if s == [] then 0 else DigitValue(s[0]) * Power10(|s| - 1) + PlaceValue(s[1..])
  }

  /** The last digit counts once, all others ten times what they did. */
  lemma {:induction false} LastDigit(s: string)
    requires s != [] && AllDigits(s)
    ensures PlaceValue(s) == 10 * PlaceValue(s[..|s| - 1]) + DigitValue(s[|s| - 1])
  {
    hide DigitValue;
    var n := |s| - 1;
    var front, rest := s[..n], s[1..];
    if n > 0 {
      LastDigit(rest);
      assert rest[..n - 1] == front[1..] && rest[n - 1] == s[n] && front[0] == s[0];
      var d, p := DigitValue(s[0]), Power10(n - 1);
      assert PlaceValue(s) == d * (10 * p) + PlaceValue(rest);
      assert PlaceValue(front) == d * p + PlaceValue(front[1..]);
      TenTimes(d, p, PlaceValue(front[1..]), DigitValue(s[n]));
    } else {
      OneDigit(s);
    }
  }

  lemma OneDigit(s: string)
    requires |s| == 1 && AllDigits(s)
    ensures PlaceValue(s) == DigitValue(s[0]) && PlaceValue(s[..0]) == 0
  {
    hide DigitValue;
    assert PlaceValue(s) == DigitValue(s[0]) * 1 + PlaceValue(s[1..]);
  }

  lemma TenTimes(d: nat, p: nat, rest: nat, last: nat)
    ensures d * (10 * p) + (10 * rest + last) == 10 * (d * p + rest) + last
  {
  }

  /** Digits parse to the number they stand for, and nothing else parses. */
  lemma {:induction false} ParseIsPositional(s: string)
    ensures ParseDigits(s) == if AllDigits(s) then Some(PlaceValue(s)) else None
  {
    if s != [] {
      var n := |s| - 1;
      ParseIsPositional(s[..n]);
      if AllDigits(s) {
        LastDigit(s);
      } else if IsDigit(s[n]) {
        var i :| 0 <= i < |s| && !IsDigit(s[i]);
        assert s[..n][i] == s[i];
      }
    }
  }

  /** An integer is written as digits, possibly after one sign, and accepted exactly if it fits the width. */
  lemma ParseIntIsExact(s: string, half: nat, v: int)
    ensures ParseInt(s, half) == Some(v) <==>
              exists digits ::
                && digits != [] && AllDigits(digits)
                && (|| ((s == digits || s == "+" + digits) && v == PlaceValue(digits) && v < half)
                    || (s == "-" + digits && v == 0 - PlaceValue(digits) && 0 - v <= half))
  {
    hide ParseDigits, PlaceValue;
    if s != [] {
      var signed := s[0] == '-' || s[0] == '+';
      var digits := if signed then s[1..] else s;
      ParseIsPositional(digits);
      assert s == [s[0]] + s[1..];
      forall other | other != [] && AllDigits(other) && (s == other || s == "+" + other || s == "-" + other)
        ensures other == digits
      {
        assert IsDigit(other[0]);
      }
    }
  }

  lemma ParseUintIsExact(s: string, limit: nat, v: nat)
    ensures ParseUint(s, limit) == Some(v) <==> s != [] && AllDigits(s) && v == PlaceValue(s) && v < limit
  {
    hide ParseDigits, PlaceValue;
    ParseIsPositional(s);
  }

  /** Numbers are written without leading zeros. */
  lemma {:induction false} FormatIsShort(n: nat)
    ensures n > 0 ==> FormatNat(n)[0] != '0'
    ensures FormatNat(0) == "0"
  {
    if n >= 10 { FormatIsShort(n / 10); }
  }

  const HALF_32: nat := 0x8000_0000
  const HALF_64: nat := 0x8000_0000_0000_0000
  const FULL_32: nat := 0x1_0000_0000
  const FULL_64: nat := 0x1_0000_0000_0000_0000

  lemma {:induction false} ParseOfFormatNat(n: nat)
    ensures ParseDigits(FormatNat(n)) == Some(n)
  {
    if n < 10 {
      assert FormatNat(n)[..0] == [];
    } else {
      ParseOfFormatNat(n / 10);
      assert FormatNat(n)[..|FormatNat(n)| - 1] == FormatNat(n / 10);
    }
  }

  /** Parsing a formatted integer gives it back exactly when it fits the width. */
  lemma ParseOfFormatInt(n: int, half: nat)
    ensures ParseInt(FormatInt(n), half) == (if 0 - half <= n < half then Some(n) else None)
  {
    hide ParseDigits, FormatNat;
    var digits := FormatNat(if n < 0 then -n else n);
    ParseOfFormatNat(if n < 0 then -n else n);
    assert IsDigit(digits[0]);
    if n < 0 {
      assert FormatInt(n)[0] == '-' && FormatInt(n)[1..] == digits;
    } else {
      assert FormatInt(n) == digits;
    }
  }

  lemma ParseOfFormatUint(n: nat, limit: nat)
    ensures ParseUint(FormatNat(n), limit) == (if n < limit then Some(n) else None)
  {
    ParseOfFormatNat(n);
  }

  lemma FormatNatInjective(m: nat, n: nat)
    requires FormatNat(m) == FormatNat(n)
    ensures m == n
  {
    ParseOfFormatNat(m);
    ParseOfFormatNat(n);
  }

  /* ---------- byte-wise string order and sorting ---------- */

  predicate AtMost(a: string, b: string) {
    if a == [] then true
    else if b == [] then false
    else if a[0] != b[0] then a[0] < b[0]
    else AtMost(a[1..], b[1..])
  }

  lemma {:induction false} OrderIsTotal(a: string, b: string)
    ensures AtMost(a, b) || AtMost(b, a)
    ensures AtMost(a, b) && AtMost(b, a) ==> a == b
  {
    if a != [] && b != [] && a[0] == b[0] {
      OrderIsTotal(a[1..], b[1..]);
      assert a == [a[0]] + a[1..] && b == [b[0]] + b[1..];
    }
  }

  lemma {:induction false} OrderIsTransitive(a: string, b: string, c: string)
    requires AtMost(a, b) && AtMost(b, c)
    ensures AtMost(a, c)
  {
    if a != [] && b != [] && c != [] && a[0] == b[0] == c[0] {
      OrderIsTransitive(a[1..], b[1..], c[1..]);
    }
  }

  /** Strings are in order when one begins the other, or the first characters in which they differ are. */
  lemma {:induction false} OrderIsLexicographic(a: string, b: string)
    ensures AtMost(a, b) <==>
              || a <= b
              || exists i :: 0 <= i < |a| && i < |b| && a[..i] == b[..i] && a[i] < b[i]
  {
    if a != [] && b != [] {
      if a[0] == b[0] {
        OrderIsLexicographic(a[1..], b[1..]);
        OneDown(a, b);
      } else if a[0] < b[0] {
        assert a[..0] == b[..0];
      } else {
        forall i | 0 < i < |a| && i < |b| ensures a[..i] != b[..i] {
          assert a[..i][0] == a[0] && b[..i][0] == b[0];
        }
      }
    }
  }

  lemma OneDown(a: string, b: string)
    requires a != [] && b != [] && a[0] == b[0]
    ensures a <= b <==> a[1..] <= b[1..]
    ensures (exists i :: 0 <= i < |a| && i < |b| && a[..i] == b[..i] && a[i] < b[i])
            <==> exists i :: 0 <= i < |a[1..]| && i < |b[1..]| && a[1..][..i] == b[1..][..i] && a[1..][i] < b[1..][i]
  {
    var c, d := a[1..], b[1..];
    assert a == [a[0]] + c && b == [b[0]] + d;
    if i :| 0 <= i < |a| && i < |b| && a[..i] == b[..i] && a[i] < b[i] {
      assert i > 0;
      assert c[..i - 1] == a[..i][1..] && d[..i - 1] == b[..i][1..];
      assert c[i - 1] < d[i - 1];
    }
    if i :| 0 <= i < |c| && i < |d| && c[..i] == d[..i] && c[i] < d[i] {
      assert a[..i + 1] == [a[0]] + c[..i] && b[..i + 1] == [b[0]] + d[..i];
      assert a[i + 1] < b[i + 1];
    }
  }

  predicate Sorted(s: seq<string>) {
    forall i, j :: 0 <= i < j < |s| ==> AtMost(s[i], s[j])
  }

  function Insert(x: string, s: seq<string>): (r: seq<string>)
    ensures multiset(r) == multiset(s) + multiset{x}
  {
    if s == [] then [x]
    else if AtMost(x, s[0]) then [x] + s
    else
      assert s == [s[0]] + s[1..];
      [s[0]] + Insert(x, s[1..])
  }

  function Sort(s: seq<string>): (r: seq<string>)
    ensures multiset(r) == multiset(s)
  {
    if s == [] then []
    else
      assert s == [s[0]] + s[1..];
      Insert(s[0], Sort(s[1..]))
  }

  lemma {:induction false} InsertKeepsSorted(x: string, s: seq<string>)
    requires Sorted(s)
    ensures Sorted(Insert(x, s))
  {
    if s != [] {
      OrderIsTotal(x, s[0]);
      if AtMost(x, s[0]) {
        forall j | 0 <= j < |s| ensures AtMost(x, s[j]) {
          if j > 0 { OrderIsTransitive(x, s[0], s[j]); }
        }
      } else {
        InsertKeepsSorted(x, s[1..]);
        var r := Insert(x, s[1..]);
        forall j | 0 <= j < |r| ensures AtMost(s[0], r[j]) {
          assert r[j] in multiset(r);
          assert r[j] in multiset(s[1..]) + multiset{x};
        }
      }
    }
  }

  lemma {:induction false} SortSorts(s: seq<string>)
    ensures Sorted(Sort(s))
  {
    if s != [] {
      SortSorts(s[1..]);
      InsertKeepsSorted(s[0], Sort(s[1..]));
    }
  }

  lemma HeadIsLeast(a: seq<string>, x: string)
    requires Sorted(a) && x in a
    ensures AtMost(a[0], x)
  {
    hide AtMost;
    var i :| 0 <= i < |a| && a[i] == x;
    OrderIsTotal(x, x);
  }

  lemma SameHead(a: seq<string>, b: seq<string>)
    requires Sorted(a) && Sorted(b) && multiset(a) == multiset(b) && a != []
    ensures b != [] && a[0] == b[0]
  {
    hide AtMost, Sorted;
    assert a[0] in multiset(a);
    assert a[0] in b;
    assert b[0] in multiset(b);
    assert b[0] in a;
    HeadIsLeast(a, b[0]);
    HeadIsLeast(b, a[0]);
    OrderIsTotal(a[0], b[0]);
  }

  lemma {:induction false} SortedIsUnique(a: seq<string>, b: seq<string>)
    requires Sorted(a) && Sorted(b) && multiset(a) == multiset(b)
    ensures a == b
  {
    hide AtMost;
    if a == [] {
      assert |multiset(b)| == |multiset(a)| == 0;
    } else {
      SameHead(a, b);
      var x := a[0];
      assert a == [x] + a[1..] && b == [x] + b[1..];
      assert multiset(a[1..]) == multiset(a) - multiset{x};
      assert multiset(b[1..]) == multiset(b) - multiset{x};
      SortedIsUnique(a[1..], b[1..]);
    }
  }

  /** Sorting depends only on which strings occur, and how often. */
  lemma SortIsCanonical(a: seq<string>, b: seq<string>)
    requires multiset(a) == multiset(b)
    ensures Sort(a) == Sort(b)
  {
    SortSorts(a);
    SortSorts(b);
    SortedIsUnique(Sort(a), Sort(b));
  }
}
