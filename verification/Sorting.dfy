/** Sorting by any order, as the standard library's stable sorts do it. */
module Sorting {
  ghost predicate TotalOrder<T(!new)>(leq: (T, T) -> bool) {
    && (forall a, b :: leq(a, b) || leq(b, a))
    && (forall a, b, c | leq(a, b) && leq(b, c) :: leq(a, c))
  }

  function Insert<T>(leq: (T, T) -> bool, x: T, xs: seq<T>): (r: seq<T>)
    ensures multiset(r) == multiset{x} + multiset(xs) && |r| == |xs| + 1
    decreases |xs|
  {
    if xs == [] then [x]
    else if leq(x, xs[0]) then [x] + xs
    else
      assert xs == [xs[0]] + xs[1..];
      [xs[0]] + Insert(leq, x, xs[1..])
  }

  function Sort<T>(leq: (T, T) -> bool, xs: seq<T>): (r: seq<T>)
    ensures multiset(r) == multiset(xs) && |r| == |xs|
    decreases |xs|
  {
    if xs == [] then []
    else
      assert xs == [xs[0]] + xs[1..];
      Insert(leq, xs[0], Sort(leq, xs[1..]))
  }

  ghost predicate Ascending<T>(leq: (T, T) -> bool, xs: seq<T>) {
    forall i, j | 0 <= i < j < |xs| :: leq(xs[i], xs[j])
  }

  lemma {:induction false} InsertAscends<T(!new)>(leq: (T, T) -> bool, x: T, xs: seq<T>)
    requires TotalOrder(leq) && Ascending(leq, xs)
    ensures Ascending(leq, Insert(leq, x, xs))
    decreases |xs|
  {
    if xs != [] && !leq(x, xs[0]) {
      var rest := Insert(leq, x, xs[1..]);
      InsertAscends(leq, x, xs[1..]);
      forall i | 0 <= i < |rest| ensures leq(xs[0], rest[i]) {
        assert rest[i] in multiset(rest);
        assert rest[i] == x || rest[i] in xs[1..];
      }
    }
  }

  lemma {:induction false} SortAscends<T(!new)>(leq: (T, T) -> bool, xs: seq<T>)
    requires TotalOrder(leq)
    ensures Ascending(leq, Sort(leq, xs))
    decreases |xs|
  {
    if xs != [] {
      SortAscends(leq, xs[1..]);
      InsertAscends(leq, xs[0], Sort(leq, xs[1..]));
    }
  }

  predicate Ties<T>(leq: (T, T) -> bool, x: T, k: T) { leq(x, k) && leq(k, x) }

  lemma InsertIs<T>(leq: (T, T) -> bool, x: T, xs: seq<T>)
    ensures Insert(leq, x, xs)
            == if xs == [] || leq(x, xs[0]) then [x] + xs else [xs[0]] + Insert(leq, x, xs[1..])
  {
  }

  lemma TiedCons<T>(leq: (T, T) -> bool, x: T, xs: seq<T>, k: T)
    ensures Tied(leq, [x] + xs, k) == (if Ties(leq, x, k) then [x] else []) + Tied(leq, xs, k)
  {
    assert ([x] + xs)[1..] == xs;
  }

  lemma TiesAgree<T(!new)>(leq: (T, T) -> bool, x: T, y: T, k: T)
    requires TotalOrder(leq) && Ties(leq, x, k) && Ties(leq, y, k)
    ensures leq(x, y)
  {
  }

  /** The elements that tie with `k`, in order. */
  function Tied<T>(leq: (T, T) -> bool, xs: seq<T>, k: T): seq<T> {
    if xs == [] then [] else (if Ties(leq, xs[0], k) then [xs[0]] else []) + Tied(leq, xs[1..], k)
  }

  lemma {:induction false} InsertKeepsTied<T(!new)>(leq: (T, T) -> bool, x: T, xs: seq<T>, k: T)
    requires TotalOrder(leq)
    ensures Tied(leq, Insert(leq, x, xs), k) == (if Ties(leq, x, k) then [x] else []) + Tied(leq, xs, k)
    decreases |xs|
  {
    hide TotalOrder, Ties, Tied, Insert;
    InsertIs(leq, x, xs);
    if xs == [] {
      assert [x] + xs == [x];
      TiedCons(leq, x, xs, k);
    } else if leq(x, xs[0]) {
      TiedCons(leq, x, xs, k);
    } else {
      var rest := Insert(leq, x, xs[1..]);
      if Ties(leq, x, k) && Ties(leq, xs[0], k) { TiesAgree(leq, x, xs[0], k); }
      InsertKeepsTied(leq, x, xs[1..], k);
      TiedCons(leq, xs[0], rest, k);
      TiedCons(leq, xs[0], xs[1..], k);
      assert xs == [xs[0]] + xs[1..];
      Commute(if Ties(leq, xs[0], k) then [xs[0]] else [], if Ties(leq, x, k) then [x] else [], Tied(leq, xs[1..], k));
    }
  }

  lemma Commute<T>(a: seq<T>, b: seq<T>, c: seq<T>)
    requires a == [] || b == []
    ensures a + (b + c) == b + (a + c)
  {
  }

  /** Elements that tie keep their order. */
  lemma {:induction false} SortIsStable<T(!new)>(leq: (T, T) -> bool, xs: seq<T>, k: T)
    requires TotalOrder(leq)
    ensures Tied(leq, Sort(leq, xs), k) == Tied(leq, xs, k)
    decreases |xs|
  {
    if xs != [] {
      SortIsStable(leq, xs[1..], k);
      InsertKeepsTied(leq, xs[0], Sort(leq, xs[1..]), k);
    }
  }

  lemma {:induction false} SortedStays<T>(leq: (T, T) -> bool, xs: seq<T>)
    requires Ascending(leq, xs)
    ensures Sort(leq, xs) == xs
    decreases |xs|
  {
    if xs != [] {
      SortedStays(leq, xs[1..]);
      assert xs == [xs[0]] + xs[1..];
    }
  }
}
