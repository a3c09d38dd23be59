/** The distribution, its origin access control, and the two bucket settings that name it:
    internal/deploy/cloudfront.go. */
module DistributionResource {
  import opened Text
  import opened Listings
  import opened CloudFrontConfig
  import opened CloudFront
  import ApiGateway
  import S3
  import Api = HttpApiResource
  import opened Accounts
  import opened Actions

  datatype DistSpec = DistSpec(webBucket: string, dataBucket: string, region: string, apiName: string)

  const OAC_NAME := "foray-web-oac"

  /** The comment is the distribution's identity: it has no name. */
  const COMMENT := "foray control plane"

  const CACHING_OPTIMIZED := "658327ea-f89d-4fab-a63d-7e88639e58f6"
  const CACHING_DISABLED := "4135ea2d-6df8-44a3-9df3-4b5a84be39ad"
  const ALL_BUT_HOST := "b689b0a8-53d0-40ab-baf2-68738e2966ac"

  /** Seconds a change is waited for, and between two looks. */
  const DEPLOY_WAIT := 1200
  const DEPLOY_POLL := 15

  /** The looks that fit: one at 0s, then one every poll until the wait is exceeded. */
  const DEPLOY_LOOKS := DEPLOY_WAIT / DEPLOY_POLL + 2

  function ApiHost(region: string, api: nat): string {
    Decimal(api) + ".execute-api." + region + ".amazonaws.com"
  }

  function ApiBehavior(pattern: string): Behavior {
    Behavior(pattern, "api-gw", CACHING_DISABLED, ALL_BUT_HOST, "")
  }

  /** The desired configuration: the page from S3, and two patterns passed through uncached. */
  function Want(spec: DistSpec, oac: nat, api: nat): Config {
    Config(COMMENT, true, "index.html", "PriceClass_100",
           Some([Origin("web-s3", spec.webBucket + ".s3." + spec.region + ".amazonaws.com", OacText(oac), ""),
                 Origin("api-gw", ApiHost(spec.region, api), "", "")]),
           Some(DefaultBehavior("web-s3", CACHING_OPTIMIZED, "redirect-to-https", "")),
           Some([ApiBehavior("/api/*"), ApiBehavior("/sessions/*")]),
           Some(0), None, "")
  }

  // ---------------------------------------------------------------- invariants

  ghost predicate Ours(s: State, id: nat) {
    id in s.dists && s.dists[id].config.comment == COMMENT
  }

  ghost predicate OurOac(s: State, id: nat) {
    id in s.oacs && s.oacs[id].name == OAC_NAME
  }

  /** Ids in use were given out before. */
  ghost predicate CfFresh(s: State) {
    && (forall i | i in s.dists :: i < s.next)
    && (forall i | i in s.oacs :: i < s.next)
  }

  /** At most one distribution carries the comment and at most one access control the name. */
  ghost predicate CfInv(s: State) {
    && CfFresh(s)
    && (forall i, j | Ours(s, i) && Ours(s, j) :: i == j)
    && (forall i, j | OurOac(s, i) && OurOac(s, j) :: i == j)
    && (forall i | Ours(s, i) :: s.dists[i].ticks <= s.settle)
  }

  /** Two distributions carry the comment. */
  ghost predicate Doubled(s: State) {
    exists i, j :: i != j && Ours(s, i) && Ours(s, j)
  }

  ghost predicate EnabledOrAbsent(s: State) {
    forall i | Ours(s, i) :: s.dists[i].config.enabled
  }

  ghost predicate DistConvergedAt(spec: DistSpec, id: nat, oac: nat, api: nat, gw: ApiGateway.State, s: State,
                                  s3: S3.State) {
    && Ours(s, id) && OurOac(s, oac) && Api.Mine(spec.apiName, gw, api)
    && !Differs(s.dists[id].config, Want(spec, oac, api))
    && SettingsConverged(spec, id, s3)
  }

  ghost predicate SettingsConverged(spec: DistSpec, id: nat, s3: S3.State) {
    && spec.webBucket in s3.buckets && s3.buckets[spec.webBucket].policy == Some(id)
    && spec.dataBucket in s3.buckets && s3.buckets[spec.dataBucket].cors == Some(PageOrigin(id))
  }

  function PageOrigin(id: nat): string { "https://" + Domain(id) }

  ghost predicate DistConverged(spec: DistSpec, gw: ApiGateway.State, s: State, s3: S3.State) {
    exists id, oac, api :: DistConvergedAt(spec, id, oac, api, gw, s, s3)
  }

  // ---------------------------------------------------------------- what a converged distribution serves

  /** The text holds none of the marks that join a configuration's parts. */
  predicate Unmarked(s: string) { forall i | 0 <= i < |s| :: s[i] != ',' && s[i] != '|' }

  ghost predicate PlainConfig(c: Config) {
    && (c.origins.Some? ==> forall o | o in c.origins.value :: PlainOrigin(o))
    && (c.behaviors.Some? ==> forall b | b in c.behaviors.value :: PlainBehavior(b))
    && Barless(c.defaultBehavior)
  }

  predicate PlainOrigin(o: Origin) { Unmarked(o.id) && Unmarked(o.host) && Unmarked(o.oac) }

  predicate PlainBehavior(b: Behavior) {
    Unmarked(b.pattern) && Unmarked(b.target) && Unmarked(b.cache) && Unmarked(b.originRequest)
  }

  /** No field of ours holds a mark. */
  ghost predicate PlainOurs(s: State) {
    forall i | Ours(s, i) :: PlainConfig(s.dists[i].config)
  }

  predicate PlainSpec(spec: DistSpec) { Unmarked(spec.webBucket) && Unmarked(spec.region) }

  /** There is an origin of that id, and it is the one that host and access control name. */
  ghost predicate Leads(c: Config, target: string, host: string, oac: string) {
    && c.origins.Some?
    && (exists o :: o in c.origins.value && o.id == target)
    && (forall o | o in c.origins.value && o.id == target :: o.host == host && o.oac == oac)
  }

  /** Requests for the pattern are passed to that host, never cached, and with every header but its own name. */
  ghost predicate PassesThrough(c: Config, pattern: string, host: string) {
    && c.behaviors.Some?
    && (exists b :: b in c.behaviors.value && b.pattern == pattern)
    && (forall b | b in c.behaviors.value && b.pattern == pattern ::
          Leads(c, b.target, host, "") && b.cache == CACHING_DISABLED && b.originRequest == ALL_BUT_HOST)
  }

  /** What visitors get: the page from the web bucket, read through that access control, and the two patterns from
      the endpoint of that API; errors are passed on as they are. */
  ghost predicate Serves(spec: DistSpec, oac: nat, api: nat, c: Config) {
    var host := Decimal(api) + ".execute-api." + spec.region + ".amazonaws.com";
    && c.enabled && c.rootObject == "index.html" && c.priceClass == "PriceClass_100"
    && (c.errorResponses == None || c.errorResponses == Some(0))
    && c.defaultBehavior.Some? && c.defaultBehavior.value.viewer == "redirect-to-https"
    && c.defaultBehavior.value.cache == CACHING_OPTIMIZED
    && Leads(c, c.defaultBehavior.value.target, spec.webBucket + ".s3." + spec.region + ".amazonaws.com", OacText(oac))
    && PassesThrough(c, "/api/*", host) && PassesThrough(c, "/sessions/*", host)
  }

  lemma NoMarkIn(a: string, b: string)
    requires Unmarked(a) && Unmarked(b)
    ensures Unmarked(a + b)
  {
  }

  lemma {:induction false} DecimalUnmarked(n: nat)
    ensures Unmarked(Decimal(n))
  {
    if n >= 10 {
      DecimalUnmarked(n / 10);
      NoMarkIn(Decimal(n / 10), [Digit(n % 10)]);
    }
  }

  lemma ConstantsUnmarked()
    ensures Unmarked("OAC") && Unmarked(".s3.") && Unmarked(".amazonaws.com") && Unmarked(".execute-api.")
            && Unmarked("web-s3") && Unmarked("api-gw") && Unmarked("") && Unmarked("/api/*") && Unmarked("/sessions/*")
  {
  }

  lemma OptimizedUnmarked()
    ensures Unmarked(CACHING_OPTIMIZED)
  {
  }

  lemma DisabledUnmarked()
    ensures Unmarked(CACHING_DISABLED)
  {
  }

  lemma AllButHostUnmarked()
    ensures Unmarked(ALL_BUT_HOST)
  {
  }

  lemma WantPlain(spec: DistSpec, oac: nat, api: nat)
    requires PlainSpec(spec)
    ensures PlainConfig(Want(spec, oac, api))
  {
    ConstantsUnmarked();
    DisabledUnmarked();
    AllButHostUnmarked();
    DecimalUnmarked(oac);
    DecimalUnmarked(api);
    hide Unmarked, Decimal;
    NoMarkIn("OAC", Decimal(oac));
    NoMarkIn(spec.webBucket, ".s3.");
    NoMarkIn(spec.webBucket + ".s3.", spec.region);
    NoMarkIn(spec.webBucket + ".s3." + spec.region, ".amazonaws.com");
    NoMarkIn(Decimal(api), ".execute-api.");
    NoMarkIn(Decimal(api) + ".execute-api.", spec.region);
    NoMarkIn(Decimal(api) + ".execute-api." + spec.region, ".amazonaws.com");
    var want := Want(spec, oac, api);
    assert forall o | o in want.origins.value :: PlainOrigin(o);
    assert forall b | b in want.behaviors.value :: PlainBehavior(b);
    BarlessDefault();
  }

  lemma BarlessDefault()
    ensures forall rest :: Barless(Some(DefaultBehavior("web-s3", CACHING_OPTIMIZED, "redirect-to-https", rest)))
  {
    OptimizedUnmarked();
  }

  lemma PartsPlain(c: Config)
    requires PlainConfig(c)
    ensures Plain(PartsOf(c.origins, OriginPart)) && Plain(PartsOf(c.behaviors, BehaviorPart))
  {
    if c.origins.Some? {
      forall o | o in c.origins.value ensures ',' !in OriginPart(o) { assert PlainOrigin(o); }
    }
    if c.behaviors.Some? {
      forall b | b in c.behaviors.value ensures ',' !in BehaviorPart(b) { assert PlainBehavior(b); }
    }
  }

  /** The same parts come from elements with the same part. */
  lemma PartFrom<T>(xs: seq<T>, ys: seq<T>, f: T -> string, x: T)
    requires multiset(Parts(xs, f)) == multiset(Parts(ys, f)) && x in xs
    ensures exists y :: y in ys && f(y) == f(x)
  {
    var i :| 0 <= i < |xs| && xs[i] == x;
    assert Parts(xs, f)[i] in multiset(Parts(ys, f));
    var j :| 0 <= j < |Parts(ys, f)| && Parts(ys, f)[j] == f(x);
    assert ys[j] in ys;
  }

  /** Both list the same origins, up to what is not compared. */
  ghost predicate OriginsMatch(xs: seq<Origin>, ys: seq<Origin>) {
    forall o | o in xs :: exists p :: p in ys && p.id == o.id && p.host == o.host && p.oac == o.oac
  }

  ghost predicate BehaviorsMatch(xs: seq<Behavior>, ys: seq<Behavior>) {
    forall b | b in xs :: exists c :: c in ys && c.pattern == b.pattern && c.target == b.target && c.cache == b.cache
                                      && c.originRequest == b.originRequest
  }

  lemma SameOrigins(xs: seq<Origin>, ys: seq<Origin>)
    requires multiset(Parts(xs, OriginPart)) == multiset(Parts(ys, OriginPart))
    requires (forall o | o in xs :: PlainOrigin(o)) && forall o | o in ys :: PlainOrigin(o)
    ensures OriginsMatch(xs, ys)
  {
    hide Parts, OriginPart;
    forall o | o in xs ensures exists p :: p in ys && p.id == o.id && p.host == o.host && p.oac == o.oac {
      PartFrom(xs, ys, OriginPart, o);
      var p :| p in ys && OriginPart(p) == OriginPart(o);
      OriginPartInjective(o, p);
    }
  }

  lemma SameBehaviors(xs: seq<Behavior>, ys: seq<Behavior>)
    requires multiset(Parts(xs, BehaviorPart)) == multiset(Parts(ys, BehaviorPart))
    requires (forall b | b in xs :: PlainBehavior(b)) && forall b | b in ys :: PlainBehavior(b)
    ensures BehaviorsMatch(xs, ys)
  {
    hide Parts, BehaviorPart;
    forall b | b in xs
      ensures exists c :: c in ys && c.pattern == b.pattern && c.target == b.target && c.cache == b.cache
                          && c.originRequest == b.originRequest
    {
      PartFrom(xs, ys, BehaviorPart, b);
      var c :| c in ys && BehaviorPart(c) == BehaviorPart(b);
      BehaviorPartInjective(b, c);
    }
  }

  /** What does not differ from what is wanted serves: the compared fields are all that matters. */
  lemma ConvergedServes(spec: DistSpec, oac: nat, api: nat, c: Config)
    requires PlainSpec(spec) && PlainConfig(c) && !Differs(c, Want(spec, oac, api))
    ensures Serves(spec, oac, api, c)
  {
    var want := Want(spec, oac, api);
    WantPlain(spec, oac, api);
    PartsPlain(c);
    PartsPlain(want);
    DiffersIff(c, want);
    SomeParts(c.origins, want.origins, OriginPart);
    SomeParts(c.behaviors, want.behaviors, BehaviorPart);
    SameOrigins(c.origins.value, want.origins.value);
    SameOrigins(want.origins.value, c.origins.value);
    SameBehaviors(c.behaviors.value, want.behaviors.value);
    SameBehaviors(want.behaviors.value, c.behaviors.value);
    hide Differs, PlainConfig, Plain;
    MatchServes(spec, oac, api, c);
  }

  lemma SomeParts<T>(x: Option<seq<T>>, y: Option<seq<T>>, f: T -> string)
    requires multiset(PartsOf(x, f)) == multiset(PartsOf(y, f)) && y.Some? && y.value != []
    ensures x.Some? && multiset(Parts(x.value, f)) == multiset(Parts(y.value, f))
  {
    assert Parts(y.value, f)[0] in multiset(PartsOf(y, f));
  }

  lemma MatchServes(spec: DistSpec, oac: nat, api: nat, c: Config)
    requires var want := Want(spec, oac, api);
             && c.enabled == want.enabled && c.rootObject == want.rootObject && c.priceClass == want.priceClass
             && SameErrors(c, want)
             && SameDefault(c.defaultBehavior, want.defaultBehavior)
             && c.origins.Some? && c.behaviors.Some?
             && OriginsMatch(c.origins.value, want.origins.value) && OriginsMatch(want.origins.value, c.origins.value)
             && BehaviorsMatch(c.behaviors.value, want.behaviors.value)
             && BehaviorsMatch(want.behaviors.value, c.behaviors.value)
    ensures Serves(spec, oac, api, c)
  {
    hide OriginsMatch, BehaviorsMatch, Leads, PassesThrough, Decimal, OacText;
    var want := Want(spec, oac, api);
    assert c.errorResponses.Some? && c.errorResponses.value > 0 ==> want.errorResponses == c.errorResponses;
    var web, gw := want.origins.value[0], want.origins.value[1];
    OriginLeads(c, want.origins.value, web);
    OriginLeads(c, want.origins.value, gw);
    BehaviorPasses(c, want.behaviors.value, want.behaviors.value[0], gw.host);
    BehaviorPasses(c, want.behaviors.value, want.behaviors.value[1], gw.host);
  }

  lemma OriginLeads(c: Config, ws: seq<Origin>, w: Origin)
    requires c.origins.Some? && OriginsMatch(c.origins.value, ws) && OriginsMatch(ws, c.origins.value)
    requires w in ws && forall v | v in ws && v.id == w.id :: v == w
    ensures Leads(c, w.id, w.host, w.oac)
  {
    hide OriginsMatch;
    var xs := c.origins.value;
    var o := MatchOf(ws, xs, w);
    forall o | o in xs && o.id == w.id ensures o.host == w.host && o.oac == w.oac {
      var v := MatchOf(xs, ws, o);
    }
  }

  lemma MatchOf(xs: seq<Origin>, ys: seq<Origin>, o: Origin) returns (p: Origin)
    requires OriginsMatch(xs, ys) && o in xs
    ensures p in ys && p.id == o.id && p.host == o.host && p.oac == o.oac
  {
    p :| p in ys && p.id == o.id && p.host == o.host && p.oac == o.oac;
  }

  lemma BehaviorPasses(c: Config, ws: seq<Behavior>, w: Behavior, host: string)
    requires c.behaviors.Some? && BehaviorsMatch(c.behaviors.value, ws) && BehaviorsMatch(ws, c.behaviors.value)
    requires w in ws && forall v | v in ws && v.pattern == w.pattern :: v == w
    requires Leads(c, w.target, host, "") && w.cache == CACHING_DISABLED && w.originRequest == ALL_BUT_HOST
    ensures PassesThrough(c, w.pattern, host)
  {
    hide Leads;
  }

  // ---------------------------------------------------------------- what a run may change

  /** The fields foray neither compares nor writes, and the one it compares only. */
  ghost predicate SameUnmanaged(c: Config, c': Config) {
    c'.comment == c.comment && c'.enabled == c.enabled && c'.aliases == c.aliases && c'.other == c.other
  }

  ghost predicate OthersKept(s: State, s': State) {
    && s.next <= s'.next && s'.settle == s.settle && s'.refused == s.refused
    && (forall i | i in s.dists && !Ours(s, i) :: i in s'.dists && s'.dists[i] == s.dists[i])
    && (forall i | i in s'.dists && !Ours(s', i) :: i in s.dists && !Ours(s, i))
    && (forall i | i in s.oacs && !OurOac(s, i) :: i in s'.oacs && s'.oacs[i] == s.oacs[i])
    && (forall i | i in s'.oacs && !OurOac(s', i) :: i in s.oacs && !OurOac(s, i))
  }

  /** What converging may do: nothing goes, and the operator's fields stay. */
  ghost predicate Grown(s: State, s': State) {
    && OthersKept(s, s')
    && (forall i | Ours(s, i) :: Ours(s', i) && SameUnmanaged(s.dists[i].config, s'.dists[i].config))
    && (forall i | Ours(s', i) && !Ours(s, i) :: s'.dists[i].config.enabled)
    && (forall i | OurOac(s, i) :: OurOac(s', i))
    && (CfFresh(s) ==> CfFresh(s'))
    && (CfInv(s) ==> CfInv(s'))
  }

  lemma GrownTransitive(s: State, t: State, u: State)
    requires Grown(s, t) && Grown(t, u)
    ensures Grown(s, u)
  {
    hide CfFresh, CfInv;
  }

  ghost predicate OnlySettings(spec: DistSpec, s: S3.State, s': S3.State) {
    && s'.foreign == s.foreign && s'.refused == s.refused && s'.buckets.Keys == s.buckets.Keys
    && forall b | b in s.buckets ::
         && s'.buckets[b] == s.buckets[b].(policy := s'.buckets[b].policy, cors := s'.buckets[b].cors)
         && (b != spec.webBucket ==> s'.buckets[b].policy == s.buckets[b].policy)
         && (b != spec.dataBucket ==> s'.buckets[b].cors == s.buckets[b].cors)
  }

  // ---------------------------------------------------------------- finding

  method ListDists(a: Account, from: nat) returns (r: Reply)
    modifies a`cf, a`calls
    ensures a.cf == old(a.cf)
    ensures r.Summaries? ==>
              && (r.more.Some? ==> from < r.more.value <= a.cf.next)
              && var stop := if r.more.Some? then r.more.value else a.cf.next;
                 && (forall x | x in r.items ::
                       from <= x.id < stop && x.id in a.cf.dists && x.text == a.cf.dists[x.id].config.comment)
                 && (forall i | i in a.cf.dists && from <= i < stop :: Item(i, a.cf.dists[i].config.comment) in r.items)
                 && (forall i, j | 0 <= i < j < |r.items| :: r.items[i].id < r.items[j].id)
    ensures old(a.Calm()) ==> r.Summaries? && a.Calm()
    ensures a.Faults() <= old(a.Faults()) + (if r != Fault then 0 else 1)
  {
    r := a.CallCf(CloudFront.ListDistributions(a.cf, from, a.Limit()));
  }

  /** Pages through the listing; a second distribution of the comment is an error, not a choice. */
  method FindDist(a: Account) returns (r: Found)
    requires CfFresh(a.cf)
    modifies a`cf, a`calls
    ensures a.cf == old(a.cf)
    ensures r.At? ==> Ours(a.cf, r.id) && forall i: nat | Ours(a.cf, i) :: i == r.id
    ensures r == Nowhere ==> forall i: nat :: !Ours(a.cf, i)
    ensures Doubled(a.cf) ==> r == Error
    ensures old(a.Calm()) ==> a.Calm() && (r == Error ==> Doubled(a.cf))
    ensures a.Faults() <= old(a.Faults()) + (if r != Error then 0 else 1)
  {
    var found: seq<nat> := [];
    var token: Option<nat> := Some(0);
    ghost var from: nat := 0;
    while token.Some?
      invariant a.Faults() <= old(a.Faults())
      invariant a.cf == old(a.cf)
      invariant old(a.Calm()) ==> a.Calm()
      invariant from <= a.cf.next && from == if token.Some? then token.value else a.cf.next
      invariant forall i: nat :: i in found <==> Ours(a.cf, i) && i < from
      invariant Climbs(found)
      decreases token.Some?, a.cf.next - from
    {
      var page := ListDists(a, token.value);
      if !page.Summaries? { return Error; }
      var hits := Matching(page.items, COMMENT);
      MatchingClimbs(page.items, COMMENT);
      AppendHits(found, hits, from);
      found := found + hits;
      token := page.more;
      from := if token.Some? then token.value else a.cf.next;
    }
    if |found| == 0 { return Nowhere; }
    assert found[0] in found && Climbs(found);
    if |found| == 1 { return At(found[0]); }
    assert found[1] in found;
    return Error;
  }

  /** The first access control of the name; None when the listing failed. */
  method FindOac(a: Account) returns (r: Option<Option<nat>>)
    requires CfFresh(a.cf)
    modifies a`cf, a`calls
    ensures a.cf == old(a.cf)
    ensures r.Some? && r.value.Some? ==> OurOac(a.cf, r.value.value)
    ensures r == Some(None) ==> forall i: nat :: !OurOac(a.cf, i)
    ensures old(a.Calm()) ==> r.Some? && a.Calm()
    ensures a.Faults() <= old(a.Faults()) + (if r.Some? then 0 else 1)
  {
    var g := a.CallCf(CloudFront.ListOacs(a.cf));
    if !g.Summaries? { return None; }
    var hits := Matching(g.items, OAC_NAME);
    forall i: nat | OurOac(a.cf, i) ensures i in hits {
      assert Item(i, OAC_NAME) in g.items;
    }
    if hits == [] { return Some(None); }
    assert hits[0] in hits;
    return Some(Some(hits[0]));
  }

  method EnsureOac(a: Account) returns (r: Option<nat>)
    requires CfFresh(a.cf)
    modifies a`cf, a`calls
    ensures Grown(old(a.cf), a.cf) && CfFresh(a.cf) && a.cf.dists == old(a.cf).dists
    ensures r.Some? ==> OurOac(a.cf, r.value)
    ensures (exists i :: OurOac(old(a.cf), i)) ==> a.cf == old(a.cf)
    ensures old(a.Calm()) ==> r.Some? && a.Calm()
    ensures a.Faults() <= old(a.Faults()) + (if r.Some? then 0 else 1)
  {
    var found := FindOac(a);
    if found == None { return None; }
    if found.value.Some? { return found.value; }
    var c := a.CallCf(CloudFront.CreateOac(a.cf, OAC_NAME));
    if !c.Created? { return None; }
    return Some(c.id);
  }

  /** The API whose endpoint is the second origin: an error while there is none. */
  method FindOrigin(a: Account, apiName: string) returns (r: Option<nat>)
    requires Api.Fresh(a.gw)
    modifies a`gw, a`calls
    ensures a.gw == old(a.gw)
    ensures r.Some? ==> Api.Mine(apiName, a.gw, r.value) && forall i | Api.Mine(apiName, a.gw, i) :: i == r.value
    ensures old(a.Calm()) ==> a.Calm()
    ensures old(a.Calm()) && Api.GwInv(apiName, a.gw) && (exists i :: Api.Mine(apiName, a.gw, i)) ==> r.Some?
    ensures a.Faults() <= old(a.Faults()) + (if r.Some? then 0 else 1)
  {
    var found := Api.FindApi(a, apiName);
    if !found.At? { return None; }
    return Some(found.id);
  }

  // ---------------------------------------------------------------- converging

  method CreateDist(a: Account, spec: DistSpec, oac: nat) returns (r: Option<nat>, ghost api: nat)
    requires CfFresh(a.cf) && Api.Fresh(a.gw) && forall i :: !Ours(a.cf, i)
    modifies a`cf, a`gw, a`calls
    ensures a.gw == old(a.gw) && Grown(old(a.cf), a.cf) && a.cf.oacs == old(a.cf).oacs
    ensures r.Some? ==>
              Ours(a.cf, r.value) && (forall i | Ours(a.cf, i) :: i == r.value) && Api.Mine(spec.apiName, a.gw, api)
                        && !Differs(a.cf.dists[r.value].config, Want(spec, oac, api))
                        && a.cf.dists[r.value].ticks == old(a.cf).settle
    ensures PlainSpec(spec) ==> PlainOurs(a.cf)
    ensures old(a.Calm()) ==> a.Calm()
    ensures old(a.Calm()) && Api.GwInv(spec.apiName, a.gw) && (exists i :: Api.Mine(spec.apiName, a.gw, i)) ==> r.Some?
    ensures a.Faults() <= old(a.Faults()) + (if r.Some? then 0 else 1)
  {
    hide Want, Differs, Grown, CreateDistribution, Api.GwInv, Api.Fresh, Api.Mine, PlainConfig;
    api := 0;
    var origin := FindOrigin(a, spec.apiName);
    if origin == None {
      GrownReflexive(a.cf);
      return None, api;
    }
    api := origin.value;
    ghost var s, want := a.cf, Want(spec, oac, origin.value);
    WantIs(spec, oac, api);
    if PlainSpec(spec) { WantPlain(spec, oac, api); }
    Created(s, want);
    GrownReflexive(s);
    CreateGrows(s, want);
    var c := a.CallCf(CloudFront.CreateDistribution(a.cf, Want(spec, oac, origin.value)));
    if !c.Created? { return None, api; }
    return Some(c.id), api;
  }

  lemma WantIs(spec: DistSpec, oac: nat, api: nat)
    ensures var want := Want(spec, oac, api); want.comment == COMMENT && want.enabled && want.aliases == None
  {
  }

  lemma AliasesAreNotCompared(want: Config)
    ensures !Differs(want.(aliases := Some([])), want)
  {
  }

  lemma Created(s: State, want: Config)
    requires want.aliases == None
    ensures CreateDistribution(s, want)
            == (WithDist(s, s.next, Dist(want.(aliases := Some([])), s.settle, 0)).(next := s.next + 1),
                Reply.Created(s.next))
  {
  }

  lemma CreateGrows(s: State, want: Config)
    requires CfFresh(s) && (forall i :: !Ours(s, i))
    requires want.comment == COMMENT && want.enabled && want.aliases == None
    ensures var t := CreateDistribution(s, want).0;
            && Grown(s, t) && t.oacs == s.oacs
            && Ours(t, s.next) && (forall i | Ours(t, i) :: i == s.next)
            && !Differs(t.dists[s.next].config, want) && t.dists[s.next].ticks == s.settle
            && (PlainConfig(want) ==> PlainConfig(t.dists[s.next].config))
  {
    hide Differs, CreateDistribution;
    var t := CreateDistribution(s, want).0;
    AliasesAreNotCompared(want);
    Created(s, want);
    forall i ensures Ours(t, i) <==> i == s.next {
      assert !Ours(s, i);
    }
    assert forall i :: OurOac(t, i) <==> OurOac(s, i);
  }

  lemma MergeKeeps(cur: Config, want: Config)
    ensures SameUnmanaged(cur, Merge(cur, want))
    ensures cur.enabled == want.enabled ==> !Differs(Merge(cur, want), want)
    ensures cur.enabled != want.enabled ==> Differs(cur, want) && Differs(Merge(cur, want), want)
    ensures PlainConfig(want) ==> PlainConfig(Merge(cur, want))
  {
    MergeConvergesIffEnabled(cur, want);
  }

  /** Read-modify-write under the ETag just read; no update when nothing differs. */
  method Converge(a: Account, spec: DistSpec, id: nat, oac: nat) returns (ok: bool, ghost api: nat)
    requires Api.Fresh(a.gw) && Ours(a.cf, id)
    modifies a`cf, a`gw, a`calls
    ensures a.gw == old(a.gw)
    ensures a.cf == old(a.cf) || exists c ::
              SameUnmanaged(old(a.cf).dists[id].config, c)
                && a.cf == WithDist(old(a.cf), id, Dist(c, a.cf.settle, old(a.cf).dists[id].etag + 1))
    ensures PlainSpec(spec) && PlainOurs(old(a.cf)) ==> PlainOurs(a.cf)
    ensures ok ==> Api.Mine(spec.apiName, a.gw, api) && (forall i | Api.Mine(spec.apiName, a.gw, i) :: i == api)
                   && (a.cf == old(a.cf) <==> !Differs(old(a.cf).dists[id].config, Want(spec, oac, api)))
    ensures ok ==>
              id in a.cf.dists
                && (Differs(a.cf.dists[id].config, Want(spec, oac, api)) <==> !old(a.cf).dists[id].config.enabled)
    ensures a.cf != old(a.cf) ==>
              exists i :: Api.Mine(spec.apiName, a.gw, i) && Differs(old(a.cf).dists[id].config, Want(spec, oac, i))
    ensures old(a.Calm()) ==> a.Calm()
    ensures old(a.Calm()) && Api.GwInv(spec.apiName, a.gw) && (exists i :: Api.Mine(spec.apiName, a.gw, i)) ==> ok
    ensures a.Faults() <= old(a.Faults()) + (if ok then 0 else 1)
  {
    hide Befalls, FaultCount, Api.Mine, Api.Fresh, Api.GwInv, Want, Differs, Merge, PlainConfig, PlainSpec;
    api := 0;
    ghost var s := a.cf;
    var cur := a.CallCf(CloudFront.GetConfig(a.cf, id));
    if !cur.ConfigIs? { return false, api; }
    var origin := FindOrigin(a, spec.apiName);
    if origin == None { return false, api; }
    api := origin.value;
    var want := Want(spec, oac, origin.value);
    if PlainSpec(spec) { WantPlain(spec, oac, api); }
    MergeKeeps(cur.config, want);
    assert want.enabled by { WantEnabled(spec, oac, api); }
    if !Differs(cur.config, want) { return true, api; }
    ghost var c := Merge(cur.config, want);
    assert a.cf == s;
    ok := PutConfig(a, id, cur.etag, Merge(cur.config, want));
    return ok, api;
  }

  /** Replaces the configuration under the current ETag, the aliases kept. */
  method PutConfig(a: Account, id: nat, etag: nat, c: Config) returns (ok: bool)
    requires id in a.cf.dists && etag == a.cf.dists[id].etag && c.aliases == a.cf.dists[id].config.aliases
    modifies a`cf, a`calls
    ensures a.cf == (if ok then Updated(old(a.cf), id, c) else old(a.cf))
            || (!ok && a.cf == Updated(old(a.cf), id, c))
    ensures old(a.Calm()) ==> ok && a.Calm()
    ensures a.Faults() <= old(a.Faults()) + (if ok then 0 else 1)
  {
    assert CloudFront.UpdateDistribution(a.cf, id, etag, c) == (Updated(a.cf, id, c), Ok);
    var u := a.CallCf(CloudFront.UpdateDistribution(a.cf, id, etag, c));
    return u == Ok;
  }

  /** The distribution after an update. */
  function Updated(s: State, id: nat, c: Config): State
    requires id in s.dists
  {
    WithDist(s, id, Dist(c, s.settle, s.dists[id].etag + 1))
  }

  lemma WantEnabled(spec: DistSpec, oac: nat, api: nat)
    ensures Want(spec, oac, api).enabled
  {
  }

  lemma ConvergeGrows(s: State, s': State, id: nat)
    requires Ours(s, id)
    requires s' == s || exists c ::
               SameUnmanaged(s.dists[id].config, c) && s' == WithDist(s, id, Dist(c, s.settle, s.dists[id].etag + 1))
    ensures Grown(s, s') && Ours(s', id) && s'.dists[id].config.enabled == s.dists[id].config.enabled
  {
    assert forall i :: Ours(s', i) <==> Ours(s, i);
    assert forall i :: OurOac(s', i) <==> OurOac(s, i);
  }

  /** The web bucket's read policy and the data bucket's CORS origin. */
  method WriteSettings(a: Account, spec: DistSpec, id: nat) returns (ok: bool)
    modifies a`s3, a`calls
    ensures OnlySettings(spec, old(a.s3), a.s3)
    ensures ok ==> SettingsConverged(spec, id, a.s3)
    ensures SettingsConverged(spec, id, old(a.s3)) ==> a.s3 == old(a.s3)
    ensures old(a.Calm()) ==> a.Calm() && (spec.webBucket in a.s3.buckets && spec.dataBucket in a.s3.buckets ==> ok)
    ensures a.Faults() <= old(a.Faults()) + (if ok then 0 else 1)
  {
    ghost var s := a.s3;
    hide OnlySettings, PageOrigin;
    var r := a.CallS3(S3.PutPolicy(a.s3, spec.webBucket, id));
    ghost var t := a.s3;
    assert t == s || t == S3.PutPolicy(s, spec.webBucket, id).0;
    if r != S3.Ok {
      SettingsWritten(spec, id, s, t, t);
      return false;
    }
    r := a.CallS3(S3.PutCors(a.s3, spec.dataBucket, PageOrigin(id)));
    SettingsWritten(spec, id, s, t, a.s3);
    return r == S3.Ok;
  }

  lemma SettingsWritten(spec: DistSpec, id: nat, s: S3.State, t: S3.State, u: S3.State)
    requires t == s || t == S3.PutPolicy(s, spec.webBucket, id).0
    requires u == t || u == S3.PutCors(t, spec.dataBucket, PageOrigin(id)).0
    ensures OnlySettings(spec, s, u)
    ensures SettingsConverged(spec, id, s) ==> u == s
  {
    hide PageOrigin, OnlySettings, SettingsConverged, S3.PutPolicy, S3.PutCors;
    PolicyWritten(spec, id, s);
    CorsWritten(spec, PageOrigin(id), t);
    NoSettings(spec, s);
    NoSettings(spec, t);
    SettingsCompose(spec, s, t, u);
    if SettingsConverged(spec, id, s) { NothingWritten(spec, id, s, t, u); }
  }

  lemma NoSettings(spec: DistSpec, s: S3.State)
    ensures OnlySettings(spec, s, s)
  {
  }

  lemma PolicyWritten(spec: DistSpec, id: nat, s: S3.State)
    ensures OnlySettings(spec, s, S3.PutPolicy(s, spec.webBucket, id).0)
  {
  }

  lemma CorsWritten(spec: DistSpec, origin: string, s: S3.State)
    ensures OnlySettings(spec, s, S3.PutCors(s, spec.dataBucket, origin).0)
  {
  }

  lemma SettingsCompose(spec: DistSpec, s: S3.State, t: S3.State, u: S3.State)
    requires OnlySettings(spec, s, t) && OnlySettings(spec, t, u)
    ensures OnlySettings(spec, s, u)
  {
  }

  lemma NothingWritten(spec: DistSpec, id: nat, s: S3.State, t: S3.State, u: S3.State)
    requires t == s || t == S3.PutPolicy(s, spec.webBucket, id).0
    requires u == t || u == S3.PutCors(t, spec.dataBucket, PageOrigin(id)).0
    requires SettingsConverged(spec, id, s)
    ensures u == s
  {
    hide PageOrigin;
    assert t.buckets == s.buckets;
    assert u.buckets == s.buckets;
  }

  /** Polls until the change has reached every edge. */
  method WaitDeployed(a: Account, id: nat) returns (ok: bool)
    requires id in a.cf.dists
    modifies a`cf, a`calls
    ensures id in a.cf.dists && a.cf.dists[id].ticks <= old(a.cf).dists[id].ticks
    ensures a.cf == WithDist(old(a.cf), id, old(a.cf).dists[id].(ticks := a.cf.dists[id].ticks))
    ensures ok ==> a.cf.dists[id].ticks == 0
    ensures old(a.Calm()) ==> a.Calm() && (ok <==> old(a.cf).dists[id].ticks <= DEPLOY_LOOKS)
    ensures old(a.Calm()) && !ok ==> a.cf.dists[id].ticks == old(a.cf).dists[id].ticks - DEPLOY_LOOKS
    ensures a.Faults() <= old(a.Faults()) + (if ok then 0 else 1)
  {
    ghost var s := a.cf;
    var elapsed := 0;
    while true
      invariant a.Faults() <= old(a.Faults())
      invariant elapsed % DEPLOY_POLL == 0 && 0 <= elapsed <= DEPLOY_WAIT + DEPLOY_POLL
      invariant id in a.cf.dists && a.cf.dists[id].ticks <= s.dists[id].ticks
      invariant a.cf == WithDist(s, id, s.dists[id].(ticks := a.cf.dists[id].ticks))
      invariant old(a.Calm()) ==>
                  a.Calm() && a.cf.dists[id].ticks == Minus(s.dists[id].ticks, elapsed / DEPLOY_POLL)
      decreases DEPLOY_WAIT + DEPLOY_POLL - elapsed
    {
      var r := a.CallCf(CloudFront.GetDistribution(a.cf, id));
      if !r.StatusIs? { return false; }
      if !r.inProgress { return true; }
      if elapsed > DEPLOY_WAIT { return false; }
      elapsed := elapsed + DEPLOY_POLL;
    }
    return false;
  }

  // ---------------------------------------------------------------- the whole resource

  /** What a run needs to get through: the API and both buckets, and, to wait for a new
      distribution, a propagation that ends in time. */
  ghost predicate DistReady(spec: DistSpec, noWait: bool, gw: ApiGateway.State, s: State, s3: S3.State) {
    && (exists i :: Api.Mine(spec.apiName, gw, i))
    && spec.webBucket in s3.buckets && spec.dataBucket in s3.buckets
    && ((exists i :: Ours(s, i)) || noWait || s.settle <= DEPLOY_LOOKS)
  }

  ghost predicate DistEnsured(spec: DistSpec, noWait: bool, gw: ApiGateway.State, s: State, s': State, s3: S3.State,
                              s3': S3.State, calm: bool, o: Outcome) {
    && Grown(s, s')
    && OnlySettings(spec, s3, s3')
    && (PlainSpec(spec) && PlainOurs(s) ==> PlainOurs(s'))
    && (Doubled(s) ==> o.Failed? && s'.dists == s.dists && s3' == s3)
    && (CfInv(s) && Api.GwInv(spec.apiName, gw) ==>
          && (o.Done? ==>
                // It converges exactly when the distribution was not disabled.
                && (DistConverged(spec, gw, s', s3') <==> EnabledOrAbsent(s))
                && (o.op == (if exists i :: Ours(s, i) then Exists else Create))
                && (o.op == Create && !noWait ==> forall i | Ours(s', i) :: s'.dists[i].ticks == 0)
                && (DistConverged(spec, gw, s, s3) ==> s' == s && s3' == s3))
          && (calm ==> (o.Done? <==> DistReady(spec, noWait, gw, s, s3))))
  }

  lemma DistStopped(spec: DistSpec, noWait: bool, gw: ApiGateway.State, s: State, s': State, s3: S3.State,
                    s3': S3.State, calm: bool)
    requires Grown(s, s') && OnlySettings(spec, s3, s3') && (PlainSpec(spec) && PlainOurs(s) ==> PlainOurs(s'))
    requires Doubled(s) ==> s'.dists == s.dists && s3' == s3
    requires calm ==> !CfInv(s) || !Api.GwInv(spec.apiName, gw) || !DistReady(spec, noWait, gw, s, s3)
    ensures DistEnsured(spec, noWait, gw, s, s', s3, s3', calm, Failed)
  {
    hide Grown, OnlySettings, CfInv, Api.GwInv, PlainOurs;
  }

  /** The distribution and its state after the find-or-create step. */
  method EstablishDist(a: Account, spec: DistSpec, oac: nat) returns (r: Option<nat>, op: Op, ghost api: nat)
    requires CfFresh(a.cf) && Api.Fresh(a.gw)
    modifies a`cf, a`gw, a`calls
    ensures a.gw == old(a.gw) && Grown(old(a.cf), a.cf) && a.cf.oacs == old(a.cf).oacs
    ensures Doubled(old(a.cf)) ==> r == None && a.cf == old(a.cf)
    ensures r.Some? ==>
              Ours(a.cf, r.value) && Api.Mine(spec.apiName, a.gw, api) && forall i | Ours(a.cf, i) :: i == r.value
    ensures r.Some? ==> op == (if exists i :: Ours(old(a.cf), i) then Exists else Create)
    ensures r.Some? && op == Create ==> a.cf.dists[r.value].ticks == old(a.cf).settle
    ensures PlainSpec(spec) && PlainOurs(old(a.cf)) ==> PlainOurs(a.cf)
    ensures r.Some? ==> (Differs(a.cf.dists[r.value].config, Want(spec, oac, api)) <==> !EnabledOrAbsent(old(a.cf)))
    ensures r.Some? && a.cf != old(a.cf) && op == Exists ==>
              Ours(old(a.cf), r.value) && Differs(old(a.cf).dists[r.value].config, Want(spec, oac, api))
    ensures old(a.Calm()) ==> a.Calm()
    ensures (exists i :: Api.Mine(spec.apiName, a.gw, i)) ==>
              old(a.Calm()) && CfInv(a.cf) && Api.GwInv(spec.apiName, a.gw) ==> r.Some?
    ensures a.Faults() <= old(a.Faults()) + (if r.Some? then 0 else 1)
  {
    hide Want, Differs, SameUnmanaged, Api.GwInv, Api.Fresh, Grown, PlainConfig;
    ghost var s := a.cf;
    var found := FindDist(a);
    api := 0;
    if found == Error {
      GrownReflexive(s);
      return None, Exists, api;
    }
    if found == Nowhere {
      r, api := CreateDist(a, spec, oac);
      return r, Create, api;
    }
    var ok;
    ok, api := Converge(a, spec, found.id, oac);
    ConvergeGrows(s, a.cf, found.id);
    return if ok then Some(found.id) else None, Exists, api;
  }

  lemma GrownReflexive(s: State)
    ensures Grown(s, s)
  {
  }

  lemma SameDists(s: State, t: State)
    requires t.dists == s.dists
    ensures Doubled(s) <==> Doubled(t)
    ensures EnabledOrAbsent(s) <==> EnabledOrAbsent(t)
    ensures PlainOurs(s) <==> PlainOurs(t)
    ensures (exists i :: Ours(s, i)) <==> (exists i :: Ours(t, i))
  {
    assert forall i :: Ours(s, i) <==> Ours(t, i);
  }

  /** A run that gets through: `t` has the access control, `u` the distribution, `v` has waited. */
  lemma DistDone(spec: DistSpec, noWait: bool, gw: ApiGateway.State, s: State, t: State, u: State, v: State,
                 s3: S3.State, s3': S3.State, calm: bool, op: Op, id: nat, oac: nat, api: nat)
    requires Grown(s, t) && t.dists == s.dists && OurOac(t, oac) && ((exists i :: OurOac(s, i)) ==> t == s)
    requires Grown(t, u) && u.oacs == t.oacs && !Doubled(t) && (PlainSpec(spec) && PlainOurs(s) ==> PlainOurs(v))
    requires Ours(u, id) && (forall i | Ours(u, i) :: i == id) && Api.Mine(spec.apiName, gw, api)
    requires op == (if exists i :: Ours(t, i) then Exists else Create)
    requires Differs(u.dists[id].config, Want(spec, oac, api)) <==> !EnabledOrAbsent(t)
    requires u != t && op == Exists ==> Ours(t, id) && Differs(t.dists[id].config, Want(spec, oac, api))
    requires OnlySettings(spec, s3, s3') && SettingsConverged(spec, id, s3')
             && (SettingsConverged(spec, id, s3) ==> s3' == s3)
    requires id in v.dists && v == WithDist(u, id, u.dists[id].(ticks := v.dists[id].ticks))
             && v.dists[id].ticks <= u.dists[id].ticks
    requires op == Exists ==> v == u
    requires op == Create && !noWait ==> v.dists[id].ticks == 0
    requires calm && op == Create && !noWait ==> s.settle <= DEPLOY_LOOKS
    ensures DistEnsured(spec, noWait, gw, s, v, s3, s3', calm, Done(op)) && Grown(s, v)
  {
    hide Grown, CfInv, CfFresh, Ours, OurOac, DistReady, Doubled, DistConverged, EnabledOrAbsent, PlainOurs;
    hide Differs, Want, OnlySettings, SettingsConverged, Api.GwInv, Api.Mine;
    Chained(s, t, u, v, id, oac);
    SameDists(s, t);
    if calm { DoneReady(spec, noWait, gw, s, s3, s3', id, api); }
    if CfInv(s) && Api.GwInv(spec.apiName, gw) {
      ConvergedMeans(spec, gw, v, s3', id, oac, api);
      if DistConverged(spec, gw, s, s3) {
        ConvergedAlready(spec, gw, s, t, u, s3, op, id, oac, api);
      }
    }
  }

  lemma DoneReady(spec: DistSpec, noWait: bool, gw: ApiGateway.State, s: State, s3: S3.State, s3': S3.State,
                  id: nat, api: nat)
    requires Api.Mine(spec.apiName, gw, api) && OnlySettings(spec, s3, s3') && SettingsConverged(spec, id, s3')
    requires (exists i :: Ours(s, i)) || noWait || s.settle <= DEPLOY_LOOKS
    ensures DistReady(spec, noWait, gw, s, s3)
  {
    hide PageOrigin, Domain;
  }

  lemma Chained(s: State, t: State, u: State, v: State, id: nat, oac: nat)
    requires Grown(s, t) && Grown(t, u) && Ours(u, id) && OurOac(t, oac) && u.oacs == t.oacs
    requires t.dists == s.dists && !Doubled(t)
    requires id in v.dists && v == WithDist(u, id, u.dists[id].(ticks := v.dists[id].ticks))
             && v.dists[id].ticks <= u.dists[id].ticks
    ensures Grown(s, v) && (CfInv(s) ==> CfInv(v)) && !Doubled(s)
    ensures Ours(v, id) && OurOac(v, oac) && v.dists[id].config == u.dists[id].config
    ensures forall i :: Ours(v, i) <==> Ours(u, i)
  {
    Ticked(u, v, id);
    hide Doubled, EnabledOrAbsent;
    SameDists(s, t);
    assert OurOac(v, oac);
    hide OurOac;
    GrownTransitive(s, t, u);
    GrownTransitive(s, u, v);
    GrownMeans(s, v);
  }

  /** Being converged is a matter of the configuration, the other parts being in place. */
  lemma ConvergedMeans(spec: DistSpec, gw: ApiGateway.State, v: State, s3: S3.State, id: nat, oac: nat, api: nat)
    requires CfInv(v) && Api.GwInv(spec.apiName, gw)
    requires Ours(v, id) && OurOac(v, oac) && Api.Mine(spec.apiName, gw, api) && SettingsConverged(spec, id, s3)
    ensures DistConverged(spec, gw, v, s3) <==> !Differs(v.dists[id].config, Want(spec, oac, api))
  {
    hide Differs, Want, SettingsConverged, Api.GwInv;
    ApisUnique(spec.apiName, gw);
    if !Differs(v.dists[id].config, Want(spec, oac, api)) {
      assert DistConvergedAt(spec, id, oac, api, gw, v, s3);
    }
  }

  lemma ConvergedAlready(spec: DistSpec, gw: ApiGateway.State, s: State, t: State, u: State, s3: S3.State, op: Op,
                         id: nat, oac: nat, api: nat)
    requires CfInv(s) && Api.GwInv(spec.apiName, gw) && DistConverged(spec, gw, s, s3)
    requires t.dists == s.dists && OurOac(t, oac) && ((exists i :: OurOac(s, i)) ==> t == s)
    requires Grown(t, u) && (forall i | Ours(u, i) :: i == id) && Api.Mine(spec.apiName, gw, api)
    requires op == (if exists i :: Ours(t, i) then Exists else Create)
    requires u != t && op == Exists ==> Ours(t, id) && Differs(t.dists[id].config, Want(spec, oac, api))
    ensures u == s && op == Exists && SettingsConverged(spec, id, s3)
  {
    hide Differs, Want, SettingsConverged, Api.GwInv;
    ApisUnique(spec.apiName, gw);
    var id', oac', api' :| DistConvergedAt(spec, id', oac', api', gw, s, s3);
    assert OurOac(s, oac') && t == s;
    assert Ours(t, id') && Ours(u, id');
  }

  lemma ApisUnique(name: string, gw: ApiGateway.State)
    requires Api.GwInv(name, gw)
    ensures forall i, j | Api.Mine(name, gw, i) && Api.Mine(name, gw, j) :: i == j
  {
  }

  lemma Ticked(u: State, v: State, id: nat)
    requires Ours(u, id) && id in v.dists
    requires v == WithDist(u, id, u.dists[id].(ticks := v.dists[id].ticks)) && v.dists[id].ticks <= u.dists[id].ticks
    ensures Grown(u, v) && (PlainOurs(u) ==> PlainOurs(v))
    ensures forall i :: Ours(v, i) <==> Ours(u, i)
  {
    assert forall i :: Ours(v, i) <==> Ours(u, i);
    assert forall i :: OurOac(v, i) <==> OurOac(u, i);
  }

  method EnsureDist(a: Account, spec: DistSpec, noWait: bool) returns (o: Outcome)
    requires CfFresh(a.cf) && Api.Fresh(a.gw)
    modifies a`cf, a`gw, a`s3, a`calls
    ensures a.gw == old(a.gw)
    ensures DistEnsured(spec, noWait, a.gw, old(a.cf), a.cf, old(a.s3), a.s3, old(a.Calm()), o)
    ensures CfFresh(a.cf)
    ensures old(a.Calm()) ==> a.Calm()
    ensures a.Faults() <= old(a.Faults()) + (if o.Done? then 0 else 1)
  {
    hide Grown, OnlySettings, SettingsConverged, DistEnsured, Differs, Want, Api.GwInv, Api.Mine, Api.Fresh, CfFresh;
    hide CfInv, EnabledOrAbsent, Doubled, PlainOurs;
    ghost var gw, s, s3, calm := a.gw, a.cf, a.s3, a.Calm();
    Untouched(spec, s3);
    var oac := EnsureOac(a);
    ghost var t := a.cf;
    SameDists(s, t);
    GrownMeans(s, t);
    if oac == None {
      DistStopped(spec, noWait, gw, s, t, s3, s3, calm);
      return Failed;
    }
    var found, op;
    ghost var api;
    found, op, api := EstablishDist(a, spec, oac.value);
    ghost var u := a.cf;
    GrownTransitive(s, t, u);
    GrownMeans(t, u);
    if found == None {
      ReadyHasApi(spec, noWait, gw, s, s3);
      DistStopped(spec, noWait, gw, s, u, s3, s3, calm);
      return Failed;
    }
    var id := found.value;
    var ok := WriteSettings(a, spec, id);
    if !ok {
      ReadyHasApi(spec, noWait, gw, s, s3);
      BucketsStay(spec, s3, a.s3);
      DistStopped(spec, noWait, gw, s, u, s3, a.s3, calm);
      return Failed;
    }
    if !noWait && op == Create {
      ok := WaitDeployed(a, id);
      Ticked(u, a.cf, id);
      GrownTransitive(s, u, a.cf);
      GrownMeans(u, a.cf);
      if !ok {
        if calm && CfInv(s) && DistReady(spec, noWait, gw, s, s3) { TicksFit(spec, noWait, gw, s, u, s3, id); }
        DistStopped(spec, noWait, gw, s, a.cf, s3, a.s3, calm);
        return Failed;
      }
    }
    assert a.cf == WithDist(u, id, u.dists[id].(ticks := a.cf.dists[id].ticks));
    DistDone(spec, noWait, gw, s, t, u, a.cf, s3, a.s3, calm, op, id, oac.value, api);
    return Done(op);
  }

  /** The one distribution serves the page and the endpoint of the one API, and both buckets name it. */
  ghost predicate ServesAt(spec: DistSpec, id: nat, oac: nat, api: nat, gw: ApiGateway.State, s: State, s3: S3.State) {
    && (forall i :: Ours(s, i) <==> i == id) && (forall i :: OurOac(s, i) <==> i == oac)
    && (forall i :: Api.Mine(spec.apiName, gw, i) <==> i == api)
    && id in s.dists && Serves(spec, oac, api, s.dists[id].config)
    && spec.webBucket in s3.buckets && s3.buckets[spec.webBucket].policy == Some(id)
    && spec.dataBucket in s3.buckets && s3.buckets[spec.dataBucket].cors == Some("https://" + Domain(id))
  }

  /** What a finished run leaves visitors with, unless the distribution was disabled. */
  lemma EnsuredServes(spec: DistSpec, noWait: bool, gw: ApiGateway.State, s: State, s': State, s3: S3.State,
                      s3': S3.State, calm: bool, o: Outcome)
    requires DistEnsured(spec, noWait, gw, s, s', s3, s3', calm, o) && o.Done?
    requires CfInv(s) && Api.GwInv(spec.apiName, gw) && EnabledOrAbsent(s) && PlainSpec(spec) && PlainOurs(s)
    ensures exists id, oac, api :: ServesAt(spec, id, oac, api, gw, s', s3')
  {
    GrownMeans(s, s');
    hide PlainConfig, Grown, OnlySettings, CfInv, Api.GwInv, PlainSpec, EnabledOrAbsent, SettingsConverged, Doubled;
    hide DistConvergedAt;
    var id, oac, api :| DistConvergedAt(spec, id, oac, api, gw, s', s3');
    ConvergedServesAt(spec, id, oac, api, gw, s', s3');
  }

  lemma ConvergedServesAt(spec: DistSpec, id: nat, oac: nat, api: nat, gw: ApiGateway.State, s: State, s3: S3.State)
    requires DistConvergedAt(spec, id, oac, api, gw, s, s3) && PlainSpec(spec) && PlainOurs(s)
    requires CfInv(s) && Api.GwInv(spec.apiName, gw)
    ensures ServesAt(spec, id, oac, api, gw, s, s3)
  {
    hide Serves, PlainConfig, CfFresh, Api.GwInv, Differs, Want, PlainSpec;
    ApisUnique(spec.apiName, gw);
    ConvergedServes(spec, oac, api, s.dists[id].config);
  }

  lemma Untouched(spec: DistSpec, s3: S3.State)
    ensures OnlySettings(spec, s3, s3)
  {
  }

  lemma GrownMeans(s: State, t: State)
    requires Grown(s, t)
    ensures CfInv(s) ==> CfInv(t)
    ensures CfFresh(s) ==> CfFresh(t)
    ensures t.settle == s.settle
  {
  }

  lemma ReadyHasApi(spec: DistSpec, noWait: bool, gw: ApiGateway.State, s: State, s3: S3.State)
    ensures DistReady(spec, noWait, gw, s, s3) ==>
              (exists i :: Api.Mine(spec.apiName, gw, i)) && spec.webBucket in s3.buckets
                && spec.dataBucket in s3.buckets
  {
  }

  lemma BucketsStay(spec: DistSpec, s: S3.State, s': S3.State)
    requires OnlySettings(spec, s, s')
    ensures s'.buckets.Keys == s.buckets.Keys
  {
  }

  lemma TicksFit(spec: DistSpec, noWait: bool, gw: ApiGateway.State, s: State, u: State, s3: S3.State, id: nat)
    requires CfInv(u) && u.settle == s.settle && DistReady(spec, noWait, gw, s, s3) && !noWait
             && (forall i :: !Ours(s, i)) && Ours(u, id)
    ensures u.dists[id].ticks <= DEPLOY_LOOKS
  {
  }

  // ---------------------------------------------------------------- removal

  /** What removing may do: ours are disabled or go, and nothing else changes. */
  ghost predicate Shrunk(s: State, s': State) {
    && OthersKept(s, s') && s'.next == s.next
    && (forall i | Ours(s', i) ::
          Ours(s, i) && s'.dists[i].config in {s.dists[i].config, s.dists[i].config.(enabled := false)})
    && (forall i | OurOac(s', i) :: OurOac(s, i))
    && (CfFresh(s) ==> CfFresh(s'))
    && (CfInv(s) ==> CfInv(s'))
  }

  lemma ShrunkTransitive(s: State, t: State, u: State)
    requires Shrunk(s, t) && Shrunk(t, u)
    ensures Shrunk(s, u)
  {
    hide CfFresh, CfInv;
  }

  lemma ShrunkReflexive(s: State)
    ensures Shrunk(s, s)
  {
  }

  ghost predicate DistRemoved(s: State, s': State, calm: bool, o: Outcome) {
    && Shrunk(s, s')
    && (Doubled(s) ==> o.Failed? && s' == s)
    && (CfInv(s) ==>
          && (o.Done? ==>
                && (forall i :: !Ours(s', i) && !OurOac(s', i))
                && (o.op == (if exists i :: Ours(s, i) then Delete else Absent)))
          && (calm ==> (o.Done? <==> Settles(s)))
          // Not settled in time, it is left disabled, with that much less to wait for.
          && (calm && o.Failed? ==> WaitedFor(s, s')))
  }

  /** How many looks the disabled state still takes to reach every edge: a distribution already disabled is not
      updated again. */
  function Wait(s: State, id: nat): nat
    requires id in s.dists
  {
    if s.dists[id].config.enabled then s.settle else s.dists[id].ticks
  }

  /** What removing waits for ends in time. */
  ghost predicate Settles(s: State) {
    forall i | Ours(s, i) :: Wait(s, i) <= DEPLOY_LOOKS
  }

  /** The looks our distribution takes, if there is one. */
  ghost function Waits(s: State): nat {
    if i :| Ours(s, i) then Wait(s, i) else 0
  }

  lemma WaitsMeans(s: State)
    requires CfInv(s)
    ensures forall i | Ours(s, i) :: Waits(s) == Wait(s, i)
    ensures (forall i :: !Ours(s, i)) ==> Waits(s) == 0
    ensures Settles(s) <==> Waits(s) <= DEPLOY_LOOKS
  {
    hide CfFresh;
    if exists i :: Ours(s, i) {
      var i :| Ours(s, i);
      assert forall j | Ours(s, j) :: j == i;
    }
  }

  /** A fault-free remove waits as long as it can, and what it does not get through is left for the next. */
  lemma RemoveShortensWait(s: State, s': State, o: Outcome)
    requires DistRemoved(s, s', true, o) && CfInv(s)
    ensures CfInv(s') && Waits(s') == Minus(Waits(s), DEPLOY_LOOKS)
    ensures o.Failed? ==> !EnabledOrAbsent(s')
  {
    hide CfFresh, OthersKept, Waits, Settles;
    WaitsMeans(s);
    WaitsMeans(s');
    if o.Failed? {
      assert exists i :: Ours(s, i) by { NotSettled(s); }
      var i :| Ours(s, i);
      assert Ours(s', i) && Wait(s', i) == Wait(s, i) - DEPLOY_LOOKS;
    }
  }

  lemma NotSettled(s: State)
    requires !Settles(s)
    ensures exists i :: Ours(s, i)
  {
  }

  ghost predicate WaitedFor(s: State, s': State) {
    && (forall i :: Ours(s', i) <==> Ours(s, i))
    && (forall i | Ours(s, i) :: !s'.dists[i].config.enabled && s'.dists[i].ticks == Wait(s, i) - DEPLOY_LOOKS)
  }

  /** Disables the distribution if it is enabled, under the ETag just read. */
  method Disable(a: Account, id: nat) returns (ok: bool)
    requires Ours(a.cf, id)
    modifies a`cf, a`calls
    ensures Shrunk(old(a.cf), a.cf) && Ours(a.cf, id) && a.cf.oacs == old(a.cf).oacs
    ensures forall i :: Ours(a.cf, i) <==> Ours(old(a.cf), i)
    ensures ok ==> !a.cf.dists[id].config.enabled
    ensures ok ==> a.cf.dists[id].ticks == Wait(old(a.cf), id)
    ensures old(a.Calm()) ==> ok && a.Calm()
    ensures a.Faults() <= old(a.Faults()) + (if ok then 0 else 1)
  {
    ghost var s := a.cf;
    ShrunkReflexive(s);
    DisabledShrinks(s, id);
    assert id in s.dists;
    hide Shrunk, Ours;
    var cur := a.CallCf(CloudFront.GetConfig(a.cf, id));
    if !cur.ConfigIs? { return false; }
    if !cur.config.enabled { return true; }
    var disabled := cur.config.(enabled := false);
    ok := PutConfig(a, id, cur.etag, disabled);
  }

  lemma DisabledShrinks(s: State, id: nat)
    requires Ours(s, id)
    ensures var s' := Updated(s, id, s.dists[id].config.(enabled := false));
            Shrunk(s, s') && forall i :: Ours(s', i) <==> Ours(s, i)
  {
  }

  lemma TickedShrinks(u: State, v: State, id: nat)
    requires Ours(u, id) && id in v.dists
    requires v == WithDist(u, id, u.dists[id].(ticks := v.dists[id].ticks)) && v.dists[id].ticks <= u.dists[id].ticks
    ensures Shrunk(u, v)
    ensures forall i :: Ours(v, i) <==> Ours(u, i)
  {
  }

  /** Re-reads the ETag and deletes. */
  method DeleteDist(a: Account, id: nat) returns (ok: bool)
    requires Ours(a.cf, id) && !a.cf.dists[id].config.enabled
    modifies a`cf, a`calls
    ensures Shrunk(old(a.cf), a.cf) && a.cf.oacs == old(a.cf).oacs
    ensures ok ==> !Ours(a.cf, id)
    ensures old(a.Calm()) ==> ok && a.Calm()
    ensures a.Faults() <= old(a.Faults()) + (if ok then 0 else 1)
  {
    ghost var s := a.cf;
    ShrunkReflexive(s);
    DeletedShrinks(s, id);
    hide Shrunk;
    var cur := a.CallCf(CloudFront.GetConfig(a.cf, id));
    if !cur.ConfigIs? { return false; }
    var d := a.CallCf(CloudFront.DeleteDistribution(a.cf, id, cur.etag));
    return d == Ok;
  }

  lemma DeletedShrinks(s: State, id: nat)
    requires Ours(s, id)
    ensures Shrunk(s, s.(dists := s.dists - {id}))
  {
  }

  /** Deletes the access control, the first of the name if there are several. */
  method RemoveOac(a: Account) returns (ok: bool)
    requires CfFresh(a.cf)
    modifies a`cf, a`calls
    ensures Shrunk(old(a.cf), a.cf) && a.cf.dists == old(a.cf).dists
    ensures ok && CfInv(old(a.cf)) ==> forall i :: !OurOac(a.cf, i)
    ensures old(a.Calm()) ==> ok && a.Calm()
    ensures a.Faults() <= old(a.Faults()) + (if ok then 0 else 1)
  {
    ghost var s := a.cf;
    ShrunkReflexive(s);
    hide Shrunk;
    var found := FindOac(a);
    if found == None { return false; }
    if found.value == None { return true; }
    var id := found.value.value;
    OacDeletedShrinks(s, id);
    var cur := a.CallCf(CloudFront.GetOac(a.cf, id));
    if !cur.ETagIs? { return false; }
    var d := a.CallCf(CloudFront.DeleteOac(a.cf, id, cur.etag));
    return d == Ok;
  }

  lemma OacDeletedShrinks(s: State, id: nat)
    requires OurOac(s, id)
    ensures Shrunk(s, s.(oacs := s.oacs - {id}))
  {
  }

  /** Disable, wait for every edge, delete, and then the access control: in that order, since a
      distribution is deleted only when disabled, and under its current ETag. */
  method RemoveDist(a: Account) returns (o: Outcome)
    requires CfFresh(a.cf)
    modifies a`cf, a`calls
    ensures DistRemoved(old(a.cf), a.cf, old(a.Calm()), o)
    ensures CfFresh(a.cf)
    ensures old(a.Calm()) ==> a.Calm()
    ensures a.Faults() <= old(a.Faults()) + (if o.Done? then 0 else 1)
  {
    hide CfFresh, CfInv, Shrunk, OurOac, Doubled;
    ghost var s := a.cf;
    ShrunkReflexive(s);
    var found := FindDist(a);
    if found == Error {
      DoubledBreaksInv(s);
      return Failed;
    }
    if found == Nowhere {
      var ok := RemoveOac(a);
      ShrunkMeans(s, a.cf);
      return if ok then Done(Absent) else Failed;
    }
    var id := found.id;
    var ok := Disable(a, id);
    ghost var t := a.cf;
    ShrunkMeans(s, t);
    if !ok { return Failed; }
    ok := WaitDeployed(a, id);
    ghost var u := a.cf;
    TickedShrinks(t, u, id);
    ShrunkTransitive(s, t, u);
    ShrunkMeans(s, u);
    SettlesIff(s, id);
    if !ok { return Failed; }
    ok := DeleteDist(a, id);
    ghost var v := a.cf;
    ShrunkTransitive(s, u, v);
    ShrunkMeans(s, v);
    if !ok { return Failed; }
    ok := RemoveOac(a);
    ShrunkTransitive(s, v, a.cf);
    ShrunkMeans(s, a.cf);
    ShrunkMeans(u, v);
    return if ok then Done(Delete) else Failed;
  }

  lemma DoubledBreaksInv(s: State)
    ensures CfInv(s) ==> !Doubled(s)
  {
  }

  lemma ShrunkMeans(s: State, t: State)
    requires Shrunk(s, t)
    ensures CfInv(s) ==> CfInv(t)
    ensures CfFresh(s) ==> CfFresh(t)
    ensures t.settle == s.settle
    ensures forall i | Ours(t, i) :: Ours(s, i)
  {
  }

  lemma SettlesIff(s: State, id: nat)
    requires Ours(s, id) && forall i | Ours(s, i) :: i == id
    ensures Settles(s) <==> Wait(s, id) <= DEPLOY_LOOKS
  {
  }
}
