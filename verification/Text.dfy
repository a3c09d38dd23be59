/** Strings as the rest of the model uses them: Go's byte order on UTF-8 text, which is the
    order of the Unicode scalar values, and the sorted listings that order gives. */
module Text {

  datatype Option<+T> = None | Some(value: T)

  /** `a <= b` as Go compares strings. */
  predicate Leq(a: string, b: string) {
    a == [] || (b != [] && (a[0] < b[0] || (a[0] == b[0] && Leq(a[1..], b[1..]))))
  }

  predicate Less(a: string, b: string) {
    Leq(a, b) && a != b
  }

  lemma {:induction false} LeqTotal(a: string, b: string)
    ensures Leq(a, b) || Leq(b, a)
  {
    if a != [] && b != [] && a[0] == b[0] {
      LeqTotal(a[1..], b[1..]);
    }
  }

  lemma {:induction false} LeqAntisymmetric(a: string, b: string)
    requires Leq(a, b) && Leq(b, a)
    ensures a == b
  {
    if a != [] {
      LeqAntisymmetric(a[1..], b[1..]);
      assert a == [a[0]] + a[1..] && b == [b[0]] + b[1..];
    }
  }

  lemma {:induction false} LeqTransitive(a: string, b: string, c: string)
    requires Leq(a, b) && Leq(b, c)
    ensures Leq(a, c)
  {
    if a != [] && a[0] == b[0] == c[0] {
      LeqTransitive(a[1..], b[1..], c[1..]);
    }
  }

  lemma {:induction false} LeqReflexive(a: string)
    ensures Leq(a, a)
  {
    if a != [] { LeqReflexive(a[1..]); }
  }

  lemma LessTransitive(a: string, b: string, c: string)
    requires Less(a, b) && Less(b, c)
    ensures Less(a, c)
  {
    LeqTransitive(a, b, c);
    if a == c { LeqAntisymmetric(a, b); }
  }

  predicate IsLeast(m: string, s: set<string>) {
    m in s && forall x | x in s :: Leq(m, x)
  }

  lemma {:induction false} FindLeast(s: set<string>) returns (m: string)
    requires s != {}
    ensures IsLeast(m, s)
    decreases |s|
  {
    var k :| k in s;
    var rest := s - {k};
    LeqReflexive(k);
    if rest == {} {
      m := k;
      assert s == {k};
    } else {
      var n := FindLeast(rest);
      LeqTotal(k, n);
      m := if Leq(k, n) then k else n;
      forall x | x in s ensures Leq(m, x) {
        if x != k {
          assert x in rest;
          if m == k { LeqTransitive(k, n, x); }
        }
      }
    }
  }

  lemma LeastUnique(s: set<string>)
    requires s != {}
    ensures exists m :: IsLeast(m, s)
    ensures forall m, n | IsLeast(m, s) && IsLeast(n, s) :: m == n
  {
    var m := FindLeast(s);
    forall m, n | IsLeast(m, s) && IsLeast(n, s) ensures m == n {
      LeqAntisymmetric(m, n);
    }
  }

  function Least(s: set<string>): (m: string)
    requires s != {}
    ensures IsLeast(m, s)
  {
    LeastUnique(s);
    var m :| IsLeast(m, s);
    m
  }

  predicate Lists(r: seq<string>, s: set<string>) {
    && |r| == |s|
    && (forall x | x in r :: x in s)
    && (forall x | x in s :: x in r)
    && (forall i, j | 0 <= i < j < |r| :: Less(r[i], r[j]))
  }

  lemma {:induction false} ListingExists(s: set<string>)
    ensures exists r :: Lists(r, s)
    decreases |s|
  {
    if s == {} {
      assert Lists([], s);
    } else {
      var m := Least(s);
      ListingExists(s - {m});
      var rest :| Lists(rest, s - {m});
      assert forall x | x in rest :: Less(m, x);
      assert Lists([m] + rest, s);
    }
  }

  lemma {:induction false} ListingUnique(r: seq<string>, q: seq<string>, s: set<string>)
    requires Lists(r, s) && Lists(q, s)
    ensures r == q
    decreases |r|
  {
    if r != [] {
      assert q != [];
      assert r[0] in q && q[0] in r by { assert r[0] in r && q[0] in q; }
      var i :| 0 <= i < |q| && q[i] == r[0];
      var j :| 0 <= j < |r| && r[j] == q[0];
      if i != 0 && j != 0 { LeqAntisymmetric(r[0], q[0]); }
      assert r[0] == q[0];
      var t := s - {r[0]};
      assert Lists(r[1..], t) by { TailLists(r, s); }
      assert Lists(q[1..], t) by { TailLists(q, s); }
      ListingUnique(r[1..], q[1..], t);
    }
  }

  lemma TailLists(r: seq<string>, s: set<string>)
    requires Lists(r, s) && r != []
    ensures Lists(r[1..], s - {r[0]})
  {
  }

  /** The members of a set in ascending order: what a listing shows after `sort.Strings`. */
  function Sorted(s: set<string>): (r: seq<string>)
    ensures Lists(r, s)
  {
    ListingExists(s);
    assert forall r, q | Lists(r, s) && Lists(q, s) :: r == q by {
      forall r, q | Lists(r, s) && Lists(q, s) ensures r == q { ListingUnique(r, q, s); }
    }
    var r :| Lists(r, s);
    r
  }

  /** The two maps agree on every key but `k`. */
  ghost predicate SameExcept<K(!new), V>(m: map<K, V>, m': map<K, V>, k: K) {
    forall x | x != k :: (x in m' <==> x in m) && (x in m ==> m'[x] == m[x])
  }

  function Elements(xs: seq<string>): set<string> { set x | x in xs }

  lemma ElementsSnoc(xs: seq<string>, i: nat)
    requires i < |xs|
    ensures Elements(xs[..i + 1]) == Elements(xs[..i]) + {xs[i]}
  {
    assert xs[..i + 1] == xs[..i] + [xs[i]];
  }

  lemma ElementsAll(xs: seq<string>)
    ensures Elements(xs[..0]) == {} && Elements(xs[..|xs|]) == Elements(xs)
  {
    assert xs[..|xs|] == xs;
  }

  function Digit(d: nat): char
    requires d < 10
  {
    ['0', '1', '2', '3', '4', '5', '6', '7', '8', '9'][d]
  }

  /** Decimal rendering without a sign or padding. */
  function Decimal(n: nat): string {
    if n < 10 then [Digit(n)] else Decimal(n / 10) + [Digit(n % 10)]
  }

  // ---------------------------------------------------------------- trimming and searching

  /** Unicode's white space, as `unicode.IsSpace` has it. */
  predicate IsSpace(c: char) {
    || '\t' <= c <= '\r' || c == ' ' || c == '\U{0085}' || c == '\U{00A0}' || c == '\U{1680}'
    || '\U{2000}' <= c <= '\U{200A}' || c == '\U{2028}' || c == '\U{2029}' || c == '\U{202F}' || c == '\U{205F}'
    || c == '\U{3000}'
  }

  const WHITE_SPACE := "\t\n\U{000B}\U{000C}\r \U{0085}\U{00A0}\U{1680}\U{2000}\U{2001}\U{2002}\U{2003}\U{2004}\U{2005}"
                       + "\U{2006}\U{2007}\U{2008}\U{2009}\U{200A}\U{2028}\U{2029}\U{202F}\U{205F}\U{3000}"

  /** The twenty-five characters that are white space. */
  lemma SpacesAre(c: char)
    ensures IsSpace(c) <==> c in WHITE_SPACE
  {
    if '\t' <= c <= '\r' { assert WHITE_SPACE[c as int - '\t' as int] == c; }
    if '\U{2000}' <= c <= '\U{200A}' { assert WHITE_SPACE[c as int - '\U{2000}' as int + 9] == c; }
    if c == ' ' { assert WHITE_SPACE[5] == c; }
    if c == '\U{0085}' { assert WHITE_SPACE[6] == c; }
    if c == '\U{00A0}' { assert WHITE_SPACE[7] == c; }
    if c == '\U{1680}' { assert WHITE_SPACE[8] == c; }
    if c == '\U{2028}' { assert WHITE_SPACE[20] == c; }
    if c == '\U{2029}' { assert WHITE_SPACE[21] == c; }
    if c == '\U{202F}' { assert WHITE_SPACE[22] == c; }
    if c == '\U{205F}' { assert WHITE_SPACE[23] == c; }
    if c == '\U{3000}' { assert WHITE_SPACE[24] == c; }
  }

  function TrimLeft(s: string): string {
    if s != [] && IsSpace(s[0]) then TrimLeft(s[1..]) else s
  }

  function TrimRight(s: string): string {
    if s != [] && IsSpace(s[|s| - 1]) then TrimRight(s[..|s| - 1]) else s
  }

  /** `strings.TrimSpace`. */
  function Trim(s: string): string { TrimRight(TrimLeft(s)) }

  predicate Trimmed(s: string) {
    s == [] || (!IsSpace(s[0]) && !IsSpace(s[|s| - 1]))
  }

  predicate Spaces(s: string) { forall i | 0 <= i < |s| :: IsSpace(s[i]) }

  lemma {:induction false} TrimLeftCuts(s: string) returns (a: string)
    ensures s == a + TrimLeft(s) && Spaces(a)
    ensures TrimLeft(s) == [] || !IsSpace(TrimLeft(s)[0])
  {
    hide IsSpace;
    if s != [] && IsSpace(s[0]) {
      var b := TrimLeftCuts(s[1..]);
      a := [s[0]] + b;
      assert s == [s[0]] + s[1..];
    } else {
      a := [];
    }
  }

  lemma {:induction false} TrimRightCuts(s: string) returns (b: string)
    ensures s == TrimRight(s) + b && Spaces(b)
    ensures TrimRight(s) == [] || !IsSpace(TrimRight(s)[|TrimRight(s)| - 1])
  {
    hide IsSpace;
    if s != [] && IsSpace(s[|s| - 1]) {
      var a := TrimRightCuts(s[..|s| - 1]);
      b := a + [s[|s| - 1]];
      assert s == s[..|s| - 1] + [s[|s| - 1]];
    } else {
      b := [];
    }
  }

  /** Trimming cuts white space off both ends and nothing else. */
  lemma TrimCuts(s: string) returns (a: string, b: string)
    ensures s == a + Trim(s) + b && Trimmed(Trim(s)) && Spaces(a) && Spaces(b)
  {
    a := TrimLeftCuts(s);
    b := TrimRightCuts(TrimLeft(s));
    hide TrimLeft, TrimRight, IsSpace;
    assert a + (Trim(s) + b) == a + Trim(s) + b;
    if Trim(s) != [] { assert TrimLeft(s)[0] == Trim(s)[0]; }
  }

  lemma TrimmedStays(s: string)
    requires Trimmed(s)
    ensures Trim(s) == s
  {
  }

  /** What is left of `n` after `k`. */
  function Minus(n: nat, k: nat): nat { if n > k then n - k else 0 }

  predicate HasPrefix(s: string, p: string) { p <= s }

  /** The index of the first `c`, or -1: `strings.Index`. */
  function Index(s: string, c: char): (i: int)
    ensures -1 <= i < |s| && (i >= 0 ==> s[i] == c)
    ensures forall k | 0 <= k < |s| && (i < 0 || k < i) :: s[k] != c
  {
    if s == [] then -1
    else if s[0] == c then 0
    else
      var i := Index(s[1..], c);
      assert forall k | 0 < k < |s| :: s[k] == s[1..][k - 1];
      if i < 0 then -1 else i + 1
  }

  /** The index of the last `c`, or -1: `strings.LastIndex`. */
  function LastIndex(s: string, c: char): (i: int)
    ensures -1 <= i < |s| && (i >= 0 ==> s[i] == c)
    ensures forall k | 0 <= k < |s| && i < k :: s[k] != c
  {
    if s == [] then -1
    else if s[|s| - 1] == c then |s| - 1
    else
      assert forall k | 0 <= k < |s| - 1 :: s[k] == s[..|s| - 1][k];
      LastIndex(s[..|s| - 1], c)
  }
}
