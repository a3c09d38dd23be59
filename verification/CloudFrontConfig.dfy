/** A distribution's configuration: what foray wants of it, when an existing one differs, and
    the read-modify-write that repairs it (internal/deploy/cloudfront.go). */
module CloudFrontConfig {
  import opened Text
  import opened Sorting

  /** `rest` stands for the fields of each record foray neither compares nor names. */
  datatype Origin = Origin(id: string, host: string, oac: string, rest: string)

  datatype DefaultBehavior = DefaultBehavior(target: string, cache: string, viewer: string, rest: string)

  datatype Behavior = Behavior(pattern: string, target: string, cache: string, originRequest: string, rest: string)

  /** `aliases` and `other` (certificate, firewall, logging, ...) belong to the operator. */
  datatype Config = Config(
    comment: string, enabled: bool, rootObject: string, priceClass: string,
    origins: Option<seq<Origin>>, defaultBehavior: Option<DefaultBehavior>, behaviors: Option<seq<Behavior>>,
    errorResponses: Option<nat>, aliases: Option<seq<string>>, other: string)

  // ---- signatures: each list as one comparable string, whatever its order

  function Join(parts: seq<string>): string {
    if parts == [] then "" else if |parts| == 1 then parts[0] else parts[0] + "," + Join(parts[1..])
  }

  function OriginPart(o: Origin): string { o.id + "|" + o.host + "|" + o.oac }

  function BehaviorPart(b: Behavior): string {
    b.pattern + "|" + b.target + "|" + b.cache + "|" + b.originRequest
  }

  function OriginSignature(o: Option<seq<Origin>>): string {
    if o == None then "" else Join(Sort(Leq, Parts(o.value, OriginPart)))
  }

  function BehaviorSignature(b: Option<seq<Behavior>>): string {
    if b == None then "" else Join(Sort(Leq, Parts(b.value, BehaviorPart)))
  }

  function DefaultSignature(b: Option<DefaultBehavior>): string {
    if b == None then "" else b.value.target + "|" + b.value.cache + "|" + b.value.viewer
  }

  function ErrorCount(c: Config): nat {
    if c.errorResponses == None then 0 else c.errorResponses.value
  }

  predicate Differs(cur: Config, want: Config) {
    || cur.rootObject != want.rootObject
    || cur.priceClass != want.priceClass
    || cur.enabled != want.enabled
    || ErrorCount(cur) != ErrorCount(want)
    || OriginSignature(cur.origins) != OriginSignature(want.origins)
    || DefaultSignature(cur.defaultBehavior) != DefaultSignature(want.defaultBehavior)
    || BehaviorSignature(cur.behaviors) != BehaviorSignature(want.behaviors)
  }

  /** The update sent back: the managed fields of `want`, everything else from `cur`. */
  function Merge(cur: Config, want: Config): Config {
    cur.(origins := want.origins, defaultBehavior := want.defaultBehavior, behaviors := want.behaviors,
         errorResponses := want.errorResponses, rootObject := want.rootObject, priceClass := want.priceClass)
  }

  /** Only an enabled distribution is repaired for good: `Enabled` is compared and never
      written back, so a disabled one differs again after every update. */
  lemma MergeConvergesIffEnabled(cur: Config, want: Config)
    ensures Differs(Merge(cur, want), want) <==> cur.enabled != want.enabled
  {
  }

  // ---- the order of origins and behaviors never causes an update

  lemma LeqOrders()
    ensures TotalOrder(Leq)
  {
    forall a, b ensures Leq(a, b) || Leq(b, a) { LeqTotal(a, b); }
    forall a, b, c | Leq(a, b) && Leq(b, c) ensures Leq(a, c) { LeqTransitive(a, b, c); }
  }

  lemma {:induction false} AscendingUnique(xs: seq<string>, ys: seq<string>)
    requires Ascending(Leq, xs) && Ascending(Leq, ys) && multiset(xs) == multiset(ys)
    ensures xs == ys
    decreases |xs|
  {
    hide Leq, Ascending;
    if xs == [] {
      assert |multiset(ys)| == 0;
    } else {
      assert |multiset(xs)| == |xs| && |multiset(ys)| == |ys|;
      HeadsAgree(xs, ys);
      TailAscends(xs);
      TailAscends(ys);
      assert xs == [xs[0]] + xs[1..] && ys == [ys[0]] + ys[1..];
      assert multiset(xs[1..]) == multiset(xs) - multiset{xs[0]};
      assert multiset(ys[1..]) == multiset(ys) - multiset{ys[0]};
      AscendingUnique(xs[1..], ys[1..]);
    }
  }

  lemma TailAscends(xs: seq<string>)
    requires xs != [] && Ascending(Leq, xs)
    ensures Ascending(Leq, xs[1..])
  {
    hide Leq;
  }

  lemma HeadsAgree(xs: seq<string>, ys: seq<string>)
    requires xs != [] && ys != [] && Ascending(Leq, xs) && Ascending(Leq, ys) && multiset(xs) == multiset(ys)
    ensures xs[0] == ys[0]
  {
    hide Leq;
    assert xs[0] in multiset(ys) && ys[0] in multiset(xs);
    var i :| 0 <= i < |ys| && ys[i] == xs[0];
    var j :| 0 <= j < |xs| && xs[j] == ys[0];
    if xs[0] != ys[0] { LeqAntisymmetric(xs[0], ys[0]); }
  }

  /** Two configurations whose origins and behaviors are the same up to order (and which agree
      on the remaining compared fields) never differ: a listing order is not a change. */
  lemma OrderIsNotADifference(cur: Config, want: Config)
    requires cur.origins.Some? && want.origins.Some? && cur.behaviors.Some? && want.behaviors.Some?
    requires multiset(cur.origins.value) == multiset(want.origins.value)
    requires multiset(cur.behaviors.value) == multiset(want.behaviors.value)
    requires cur.rootObject == want.rootObject && cur.priceClass == want.priceClass && cur.enabled == want.enabled
    requires cur.defaultBehavior == want.defaultBehavior && ErrorCount(cur) == ErrorCount(want)
    ensures !Differs(cur, want)
  {
    hide Join, Sort, Parts, OriginPart, BehaviorPart, DefaultSignature;
    JoinedEqual(cur.origins.value, want.origins.value, OriginPart);
    JoinedEqual(cur.behaviors.value, want.behaviors.value, BehaviorPart);
  }

  lemma JoinedEqual<T>(xs: seq<T>, ys: seq<T>, f: T -> string)
    requires multiset(xs) == multiset(ys)
    ensures Join(Sort(Leq, Parts(xs, f))) == Join(Sort(Leq, Parts(ys, f)))
  {
    PartsMultiset(xs, ys, f);
    LeqOrders();
    SortAscends(Leq, Parts(xs, f));
    SortAscends(Leq, Parts(ys, f));
    AscendingUnique(Sort(Leq, Parts(xs, f)), Sort(Leq, Parts(ys, f)));
  }

  function Parts<T>(xs: seq<T>, f: T -> string): seq<string> {
    seq(|xs|, i requires 0 <= i < |xs| => f(xs[i]))
  }

  lemma PartsConcat<T>(xs: seq<T>, ys: seq<T>, f: T -> string)
    ensures Parts(xs + ys, f) == Parts(xs, f) + Parts(ys, f)
  {
  }

  lemma SplitAt<T>(ys: seq<T>, i: nat)
    requires i < |ys|
    ensures ys == ys[..i] + ([ys[i]] + ys[i + 1..])
    ensures multiset(ys[..i] + ys[i + 1..]) == multiset(ys) - multiset{ys[i]}
  {
    assert ys == ys[..i] + ([ys[i]] + ys[i + 1..]);
  }

  lemma {:induction false} PartsMultiset<T>(xs: seq<T>, ys: seq<T>, f: T -> string)
    requires multiset(xs) == multiset(ys)
    ensures multiset(Parts(xs, f)) == multiset(Parts(ys, f))
    decreases |xs|
  {
    if xs == [] {
      assert |multiset(ys)| == 0;
    } else {
      assert xs[0] in multiset(ys);
      var i :| 0 <= i < |ys| && ys[i] == xs[0];
      SplitAt(xs, 0);
      SplitAt(ys, i);
      assert xs[..0] + xs[1..] == xs[1..];
      PartsMultiset(xs[1..], ys[..i] + ys[i + 1..], f);
      PartsAround(xs, 0, f);
      PartsAround(ys, i, f);
    }
  }

  lemma PartsAround<T>(ys: seq<T>, i: nat, f: T -> string)
    requires i < |ys|
    ensures multiset(Parts(ys, f)) == multiset(Parts(ys[..i] + ys[i + 1..], f)) + multiset{f(ys[i])}
  {
    SplitAt(ys, i);
    PartsConcat(ys[..i], [ys[i]] + ys[i + 1..], f);
    PartsConcat([ys[i]], ys[i + 1..], f);
    PartsConcat(ys[..i], ys[i + 1..], f);
    assert Parts([ys[i]], f) == [f(ys[i])];
  }

  // ---- and what is no matter of order does

  function PartsOf<T>(o: Option<seq<T>>, f: T -> string): seq<string> {
    if o == None then [] else Parts(o.value, f)
  }

  /** No part holds the mark that joins them. */
  predicate Plain(parts: seq<string>) { forall p | p in parts :: ',' !in p }

  predicate Barless(b: Option<DefaultBehavior>) {
    b.Some? ==> '|' !in b.value.target && '|' !in b.value.cache
  }

  /** The two name the same positive number of error responses, or none of them names any. */
  ghost predicate SameErrors(cur: Config, want: Config) {
    forall n: nat | n > 0 :: cur.errorResponses == Some(n) <==> want.errorResponses == Some(n)
  }

  /** Both defaults are missing, or they agree on the origin, the caching and the viewer's protocol. */
  ghost predicate SameDefault(a: Option<DefaultBehavior>, b: Option<DefaultBehavior>) {
    && (a == None <==> b == None)
    && (a.Some? && b.Some? ==>
          a.value.target == b.value.target && a.value.cache == b.value.cache && a.value.viewer == b.value.viewer)
  }

  /** While no part holds a comma and no default a bar, two configurations differ exactly when a compared setting
      does, or the parts of the origins or of the behaviors do as multisets; no list is the empty one. */
  lemma DiffersIff(cur: Config, want: Config)
    requires Plain(PartsOf(cur.origins, OriginPart)) && Plain(PartsOf(want.origins, OriginPart))
    requires Plain(PartsOf(cur.behaviors, BehaviorPart)) && Plain(PartsOf(want.behaviors, BehaviorPart))
    requires Barless(cur.defaultBehavior) && Barless(want.defaultBehavior)
    ensures !Differs(cur, want) <==>
              && cur.rootObject == want.rootObject && cur.priceClass == want.priceClass && cur.enabled == want.enabled
              && SameErrors(cur, want) && SameDefault(cur.defaultBehavior, want.defaultBehavior)
              && multiset(PartsOf(cur.origins, OriginPart)) == multiset(PartsOf(want.origins, OriginPart))
              && multiset(PartsOf(cur.behaviors, BehaviorPart)) == multiset(PartsOf(want.behaviors, BehaviorPart))
  {
    DefaultSignatureInjective(cur.defaultBehavior, want.defaultBehavior);
    ErrorCounts(cur, want);
    hide Join, Sort, Parts, DefaultSignature, Plain, SameErrors, SameDefault, ErrorCount;
    PartsMarked(cur.origins, OriginPart);
    PartsMarked(want.origins, OriginPart);
    PartsMarked(cur.behaviors, BehaviorPart);
    PartsMarked(want.behaviors, BehaviorPart);
    JoinSortIff(PartsOf(cur.origins, OriginPart), PartsOf(want.origins, OriginPart));
    JoinSortIff(PartsOf(cur.behaviors, BehaviorPart), PartsOf(want.behaviors, BehaviorPart));
    JoinNone();
  }

  lemma ErrorCounts(cur: Config, want: Config)
    ensures ErrorCount(cur) == ErrorCount(want) <==> SameErrors(cur, want)
  {
    if SameErrors(cur, want) {
      var n := ErrorCount(cur);
      var k := ErrorCount(want);
      if n > 0 { assert cur.errorResponses == Some(n); }
      if k > 0 { assert want.errorResponses == Some(k); }
    }
  }

  lemma DefaultSignatureInjective(a: Option<DefaultBehavior>, b: Option<DefaultBehavior>)
    requires Barless(a) && Barless(b)
    ensures DefaultSignature(a) == DefaultSignature(b) <==> SameDefault(a, b)
  {
    if a.Some? && b.Some? && DefaultSignature(a) == DefaultSignature(b) {
      var x, y := a.value, b.value;
      assert DefaultSignature(a) == x.target + ['|'] + (x.cache + ['|'] + x.viewer);
      assert DefaultSignature(b) == y.target + ['|'] + (y.cache + ['|'] + y.viewer);
      CutUnique(x.target, x.cache + ['|'] + x.viewer, y.target, y.cache + ['|'] + y.viewer, '|');
      CutUnique(x.cache, x.viewer, y.cache, y.viewer, '|');
    }
  }

  lemma JoinNone()
    ensures Join(Sort(Leq, [])) == ""
  {
  }

  /** Every part holds a mark between its fields. */
  lemma PartsMarked<T(!new)>(o: Option<seq<T>>, f: T -> string)
    requires forall x :: f(x) != ""
    ensures forall p | p in PartsOf(o, f) :: p != ""
  {
  }

  lemma JoinSortIff(ps: seq<string>, qs: seq<string>)
    requires Plain(ps) && Plain(qs) && "" !in ps && "" !in qs
    ensures Join(Sort(Leq, ps)) == Join(Sort(Leq, qs)) <==> multiset(ps) == multiset(qs)
  {
    hide Join, Leq;
    LeqOrders();
    SortAscends(Leq, ps);
    SortAscends(Leq, qs);
    SortKeepsPlain(ps);
    SortKeepsPlain(qs);
    if Join(Sort(Leq, ps)) == Join(Sort(Leq, qs)) {
      JoinInjective(Sort(Leq, ps), Sort(Leq, qs));
    } else if multiset(ps) == multiset(qs) {
      AscendingUnique(Sort(Leq, ps), Sort(Leq, qs));
    }
  }

  lemma SortKeepsPlain(ps: seq<string>)
    requires Plain(ps) && "" !in ps
    ensures Plain(Sort(Leq, ps)) && "" !in Sort(Leq, ps)
  {
    var qs := Sort(Leq, ps);
    assert forall p | p in qs :: p in multiset(qs) && p in multiset(ps);
  }

  lemma {:induction false} JoinInjective(ps: seq<string>, qs: seq<string>)
    requires Plain(ps) && Plain(qs) && "" !in ps && "" !in qs && Join(ps) == Join(qs)
    ensures ps == qs
    decreases |ps|
  {
    hide Plain;
    JoinShape(ps);
    JoinShape(qs);
    if |ps| >= 2 && |qs| >= 2 {
      TailPlain(ps);
      TailPlain(qs);
      CutUnique(ps[0], Join(ps[1..]), qs[0], Join(qs[1..]), ',');
      JoinInjective(ps[1..], qs[1..]);
      assert ps == [ps[0]] + ps[1..] && qs == [qs[0]] + qs[1..];
    }
  }

  lemma TailPlain(ps: seq<string>)
    requires ps != [] && Plain(ps) && "" !in ps
    ensures Plain(ps[1..]) && "" !in ps[1..] && ',' !in ps[0]
  {
    assert ps[0] in ps;
  }

  lemma JoinShape(ps: seq<string>)
    requires Plain(ps) && "" !in ps
    ensures ps == [] <==> Join(ps) == ""
    ensures |ps| == 1 ==> Join(ps) == ps[0] && ',' !in Join(ps)
    ensures |ps| >= 2 ==> Join(ps) == ps[0] + [','] + Join(ps[1..]) && ',' in Join(ps)
  {
    if ps != [] {
      assert ps[0] in ps;
      if |ps| >= 2 { assert (ps[0] + [','] + Join(ps[1..]))[|ps[0]|] == ','; }
    }
  }

  /** What stands before and after the first mark is determined. */
  lemma CutUnique(a: string, x: string, b: string, y: string, mark: char)
    requires a + [mark] + x == b + [mark] + y && mark !in a && mark !in b
    ensures a == b && x == y
  {
    NoEarlierMark(a, x, b, y, mark);
    NoEarlierMark(b, y, a, x, mark);
    var s := a + [mark] + x;
    assert a == s[..|a|] && b == s[..|b|] && x == s[|a| + 1..] && y == s[|b| + 1..];
  }

  lemma NoEarlierMark(a: string, x: string, b: string, y: string, mark: char)
    requires a + [mark] + x == b + [mark] + y && mark !in b
    ensures |b| <= |a|
  {
    assert (a + [mark] + x)[|a|] == mark;
    NoMarkYet(b, y, mark);
  }

  lemma NoMarkYet(b: string, y: string, mark: char)
    requires mark !in b
    ensures forall k | 0 <= k < |b| :: (b + [mark] + y)[k] != mark
  {
    assert forall k | 0 <= k < |b| :: b[k] in b;
  }

  /** While no field holds a bar, a part determines the fields compared. */
  lemma OriginPartInjective(o: Origin, p: Origin)
    requires '|' !in o.id && '|' !in o.host && '|' !in p.id && '|' !in p.host
    ensures OriginPart(o) == OriginPart(p) <==> o.id == p.id && o.host == p.host && o.oac == p.oac
  {
    if OriginPart(o) == OriginPart(p) {
      assert OriginPart(o) == o.id + ['|'] + (o.host + ['|'] + o.oac);
      assert OriginPart(p) == p.id + ['|'] + (p.host + ['|'] + p.oac);
      CutUnique(o.id, o.host + ['|'] + o.oac, p.id, p.host + ['|'] + p.oac, '|');
      CutUnique(o.host, o.oac, p.host, p.oac, '|');
    }
  }

  lemma BehaviorPartInjective(b: Behavior, c: Behavior)
    requires '|' !in b.pattern && '|' !in b.target && '|' !in b.cache
    requires '|' !in c.pattern && '|' !in c.target && '|' !in c.cache
    ensures BehaviorPart(b) == BehaviorPart(c) <==>
              b.pattern == c.pattern && b.target == c.target && b.cache == c.cache && b.originRequest == c.originRequest
  {
    if BehaviorPart(b) == BehaviorPart(c) {
      var x, y := b.cache + ['|'] + b.originRequest, c.cache + ['|'] + c.originRequest;
      assert BehaviorPart(b) == b.pattern + ['|'] + (b.target + ['|'] + x);
      assert BehaviorPart(c) == c.pattern + ['|'] + (c.target + ['|'] + y);
      CutUnique(b.pattern, b.target + ['|'] + x, c.pattern, c.target + ['|'] + y, '|');
      CutUnique(b.target, x, c.target, y, '|');
      CutUnique(b.cache, b.originRequest, c.cache, c.originRequest, '|');
    }
  }
}
