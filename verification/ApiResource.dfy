/** The HTTP API and the invoke permissions it writes onto the functions:
    internal/deploy/apigateway.go. */
module HttpApiResource {
  import opened Text
  import opened Listings
  import opened ApiGateway
  import Lambda
  import opened Accounts
  import opened Actions

  datatype RouteSpec = RouteSpec(key: string, fn: string)

  /** `arnPrefix` is what a function's ARN starts with, the name being the rest. */
  datatype ApiSpec = ApiSpec(name: string, routes: seq<RouteSpec>, arnPrefix: string, logArn: string)

  const STAGE := "$default"

  /** The fixed statement id of the grant on each function's resource policy. */
  const INVOKE_SID := "AllowAPIGatewayInvoke"

  function FunctionUri(spec: ApiSpec, fn: string): string { spec.arnPrefix + fn }

  /** The distinct functions the routes target, in first-seen order. */
  method Functions(routes: seq<RouteSpec>) returns (out: seq<string>)
    ensures forall f :: f in out <==> exists r :: r in routes && r.fn == f
    ensures forall i, j | 0 <= i < j < |out| :: out[i] != out[j]
  {
    out := [];
    for i := 0 to |routes|
      invariant forall f :: f in out <==> exists j :: 0 <= j < i && routes[j].fn == f
      invariant forall j, k | 0 <= j < k < |out| :: out[j] != out[k]
    {
      if routes[i].fn !in out { out := out + [routes[i].fn]; }
    }
  }

  // ---------------------------------------------------------------- invariants

  ghost predicate Mine(name: string, s: State, id: nat) {
    id in s.apis && s.apis[id].name == name
  }

  ghost predicate UriUnique(x: Api) {
    forall i, j | i in x.integrations && j in x.integrations && x.integrations[i] == x.integrations[j] :: i == j
  }

  /** Ids in use were given out before. */
  ghost predicate Fresh(s: State) {
    forall i | i in s.apis :: i < s.next && forall j | j in s.apis[i].integrations :: j < s.next
  }

  /** At most one API has the name, and its integrations have distinct targets. */
  ghost predicate GwInv(name: string, s: State) {
    && Fresh(s)
    && (forall i, j | Mine(name, s, i) && Mine(name, s, j) :: i == j)
    && (forall i | Mine(name, s, i) :: UriUnique(s.apis[i]))
  }

  /** Every invoke statement on a function names the API that exists now. */
  ghost predicate PermInv(spec: ApiSpec, s: State, lam: Lambda.State) {
    forall r, f | r in spec.routes && f == r.fn && f in lam.functions && INVOKE_SID in lam.functions[f].perms ::
      Mine(spec.name, s, lam.functions[f].perms[INVOKE_SID])
  }

  ghost predicate RouteConverged(spec: ApiSpec, x: Api, r: RouteSpec) {
    && r.key in x.routes
    && x.routes[r.key] in x.integrations
    && x.integrations[x.routes[r.key]] == FunctionUri(spec, r.fn)
  }

  ghost predicate GrantConverged(id: nat, lam: Lambda.State, fn: string) {
    && fn in lam.functions
    && INVOKE_SID in lam.functions[fn].perms
    && lam.functions[fn].perms[INVOKE_SID] == id
  }

  ghost predicate ApiConvergedAt(spec: ApiSpec, id: nat, s: State, lam: Lambda.State) {
    && Mine(spec.name, s, id)
    && (forall r | r in spec.routes :: RouteConverged(spec, s.apis[id], r))
    && STAGE in s.apis[id].stages && s.apis[id].stages[STAGE] == Stage(true, spec.logArn)
    && (forall r | r in spec.routes :: GrantConverged(id, lam, r.fn))
  }

  ghost predicate ApiConverged(spec: ApiSpec, s: State, lam: Lambda.State) {
    exists id :: ApiConvergedAt(spec, id, s, lam)
  }

  // ---------------------------------------------------------------- what a run may change

  /** Other APIs are untouched and ids only grow. */
  ghost predicate OthersKept(name: string, s: State, s': State) {
    && s.next <= s'.next
    && (forall i | i in s.apis && s.apis[i].name != name :: i in s'.apis && s'.apis[i] == s.apis[i])
    && (forall i | i in s'.apis && s'.apis[i].name != name :: i in s.apis && s'.apis[i] == s.apis[i])
  }

  /** Function code and configuration stay; only the invoke statement may be added or dropped. */
  ghost predicate OnlyGrants(lam: Lambda.State, lam': Lambda.State) {
    && lam'.notReady == lam.notReady
    && lam'.functions.Keys == lam.functions.Keys
    && forall f | f in lam.functions ::
         lam'.functions[f] == lam.functions[f].(perms := lam'.functions[f].perms)
  }

  /** Functions no route targets are untouched. */
  ghost predicate OtherFunctionsKept(spec: ApiSpec, lam: Lambda.State, lam': Lambda.State) {
    forall f | f in lam.functions && f in lam'.functions && (forall r | r in spec.routes :: r.fn != f) ::
      lam'.functions[f] == lam.functions[f]
  }

  /** Two APIs have the name. */
  ghost predicate Ambiguous(name: string, s: State) {
    exists i, j :: i != j && Mine(name, s, i) && Mine(name, s, j)
  }

  ghost predicate ApiEnsured(spec: ApiSpec, s: State, s': State, lam: Lambda.State, lam': Lambda.State, calm: bool,
                             o: Outcome) {
    && OthersKept(spec.name, s, s')
    && OnlyGrants(lam, lam')
    && (forall i | Mine(spec.name, s, i) :: Mine(spec.name, s', i))
    && OtherFunctionsKept(spec, lam, lam')
    // A second API of the name is reported, not guessed at.
    && (Ambiguous(spec.name, s) ==> o.Failed? && s' == s && lam' == lam)
    && (GwInv(spec.name, s) && PermInv(spec, s, lam) ==>
          && GwInv(spec.name, s') && PermInv(spec, s', lam')
          && (o.Done? ==>
                && ApiConverged(spec, s', lam')
                && (o.op == (if exists i :: Mine(spec.name, s, i) then Exists else Create))
                && (ApiConverged(spec, s, lam) ==> s' == s && lam' == lam))
          && (calm && (forall r | r in spec.routes :: r.fn in lam.functions) ==> o.Done?))
  }

  // ---------------------------------------------------------------- finding it

  method ListApis(a: Account, from: nat) returns (r: Reply)
    modifies a`gw, a`calls
    ensures a.gw == old(a.gw)
    ensures r.Items? ==>
              && (r.more.Some? ==> from < r.more.value <= a.gw.next)
              && var stop := if r.more.Some? then r.more.value else a.gw.next;
                 && (forall x | x in r.items ::
                       from <= x.id < stop && x.id in a.gw.apis && x.text == a.gw.apis[x.id].name)
                 && (forall i | i in a.gw.apis && from <= i < stop :: Item(i, a.gw.apis[i].name) in r.items)
                 && (forall i, j | 0 <= i < j < |r.items| :: r.items[i].id < r.items[j].id)
    ensures old(a.Calm()) ==> r.Items? && a.Calm()
    ensures a.Faults() <= old(a.Faults()) + (if r != Fault then 0 else 1)
  {
    r := a.CallGw(ApiGateway.GetApis(a.gw, from, a.Limit()));
  }

  /** Pages through the listing; a second API of the name is an error, not a choice. */
  method FindApi(a: Account, name: string) returns (r: Found)
    modifies a`gw, a`calls
    ensures a.gw == old(a.gw)
    ensures r.At? ==> Mine(name, a.gw, r.id) && forall i: nat | Mine(name, a.gw, i) && i < a.gw.next :: i == r.id
    ensures r == Nowhere ==> forall i: nat | i < a.gw.next :: !Mine(name, a.gw, i)
    ensures (exists i: nat, j: nat | i < a.gw.next && j < a.gw.next && i != j ::
               Mine(name, a.gw, i) && Mine(name, a.gw, j)) ==> r == Error
    ensures old(a.Calm()) ==> a.Calm()
    ensures old(a.Calm()) && (forall i, j | Mine(name, a.gw, i) && Mine(name, a.gw, j) :: i == j) ==> r != Error
    ensures a.Faults() <= old(a.Faults()) + (if r != Error then 0 else 1)
  {
    var found: seq<nat> := [];
    var token: Option<nat> := Some(0);
    ghost var from: nat := 0;
    while token.Some?
      invariant a.Faults() <= old(a.Faults())
      invariant a.gw == old(a.gw)
      invariant old(a.Calm()) ==> a.Calm()
      invariant from <= a.gw.next && from == if token.Some? then token.value else a.gw.next
      invariant forall i: nat :: i in found <==> Mine(name, a.gw, i) && i < from
      invariant forall x | x in found :: x < from
      invariant Climbs(found)
      decreases token.Some?, a.gw.next - from
    {
      var page := ListApis(a, token.value);
      if !page.Items? { return Error; }
      var hits := Matching(page.items, name);
      MatchingClimbs(page.items, name);
      AppendHits(found, hits, from);
      found := found + hits;
      token := page.more;
      from := if token.Some? then token.value else a.gw.next;
    }
    if |found| == 0 { return Nowhere; }
    assert found[0] in found && Climbs(found);
    if |found| == 1 { return At(found[0]); }
    assert found[1] in found;
    return Error;
  }

  // ---------------------------------------------------------------- converging it

  /** Only the API `id` differs; it keeps its name and its integrations and may gain some. */
  ghost predicate ApiGrown(id: nat, s: State, s': State) {
    && id in s.apis && id in s'.apis && SameExcept(s.apis, s'.apis, id) && s.next <= s'.next
    && s'.apis[id].name == s.apis[id].name
    && (forall i | i in s.apis[id].integrations ::
          i in s'.apis[id].integrations && s'.apis[id].integrations[i] == s.apis[id].integrations[i])
    && (forall i | i in s'.apis[id].integrations && i !in s.apis[id].integrations :: s.next <= i < s'.next)
    && (UriUnique(s.apis[id]) ==> UriUnique(s'.apis[id]))
  }

  /** The API is there, and its integrations carry ids that were given out. */
  ghost predicate Sound(id: nat, s: State) {
    id in s.apis && forall j | j in s.apis[id].integrations :: j < s.next
  }

  ghost predicate HasIntegration(x: Api, uri: string) {
    exists i | i in x.integrations :: x.integrations[i] == uri
  }

  /** One function's integration: the one already there, or a new one. */
  method EnsureIntegration(a: Account, id: nat, uri: string, byUri: map<string, nat>) returns (r: Option<nat>)
    requires Sound(id, a.gw)
    requires ByUri(a.gw.apis[id], byUri)
    requires uri !in byUri ==> !HasIntegration(a.gw.apis[id], uri)
    modifies a`gw, a`calls
    ensures ApiGrown(id, old(a.gw), a.gw) && Sound(id, a.gw)
    ensures a.gw.apis[id] == old(a.gw).apis[id].(integrations := a.gw.apis[id].integrations)
    ensures forall i | i in a.gw.apis[id].integrations && i !in old(a.gw).apis[id].integrations ::
              a.gw.apis[id].integrations[i] == uri
    ensures r.Some? ==> r.value in a.gw.apis[id].integrations && a.gw.apis[id].integrations[r.value] == uri
    ensures uri in byUri ==> a.gw == old(a.gw)
    ensures old(a.Calm()) ==> r.Some? && a.Calm()
    ensures a.Faults() <= old(a.Faults()) + (if r.Some? then 0 else 1)
  {
    if uri in byUri { return Some(byUri[uri]); }
    var c := a.CallGw(ApiGateway.CreateIntegration(a.gw, id, uri));
    if !c.Created? { return None; }
    return Some(c.id);
  }

  method IntegrationsByUri(a: Account, id: nat) returns (r: Option<map<string, nat>>)
    requires Sound(id, a.gw)
    modifies a`gw, a`calls
    ensures a.gw == old(a.gw)
    ensures r.Some? ==> ByUri(a.gw.apis[id], r.value)
    ensures r.Some? ==> forall i | i in a.gw.apis[id].integrations :: a.gw.apis[id].integrations[i] in r.value
    ensures old(a.Calm()) ==> r.Some? && a.Calm()
    ensures a.Faults() <= old(a.Faults()) + (if r.Some? then 0 else 1)
  {
    hide FaultCount, Befalls, Between;
    var g := a.CallGw(ApiGateway.GetIntegrations(a.gw, id));
    if !g.Items? { return None; }
    ghost var x := a.gw.apis[id];
    var byUri: map<string, nat> := map[];
    for i := 0 to |g.items|
      invariant forall u | u in byUri :: byUri[u] in x.integrations && x.integrations[byUri[u]] == u
      invariant forall j | 0 <= j < i :: g.items[j].text in byUri
    {
      assert g.items[i] in g.items;
      byUri := byUri[g.items[i].text := g.items[i].id];
    }
    forall i | i in x.integrations ensures x.integrations[i] in byUri {
      assert Item(i, x.integrations[i]) in g.items;
    }
    return Some(byUri);
  }

  lemma UriInjective(spec: ApiSpec, f: string, g: string)
    requires FunctionUri(spec, f) == FunctionUri(spec, g)
    ensures f == g
  {
    assert f == FunctionUri(spec, f)[|spec.arnPrefix|..];
    assert g == FunctionUri(spec, g)[|spec.arnPrefix|..];
  }

  /** The first `i` functions have integrations, `out` says which, and nothing else was added. */
  ghost predicate Wired(spec: ApiSpec, fns: seq<string>, i: nat, x0: Api, x: Api, out: map<string, nat>)
    requires i <= |fns|
  {
    && x == x0.(integrations := x.integrations)
    && (forall j | j in x.integrations && j !in x0.integrations ::
          exists k :: 0 <= k < i && x.integrations[j] == FunctionUri(spec, fns[k]))
    && (forall j | 0 <= j < i :: fns[j] in out && out[fns[j]] in x.integrations
                                 && x.integrations[out[fns[j]]] == FunctionUri(spec, fns[j]))
  }

  ghost predicate ByUri(x: Api, byUri: map<string, nat>) {
    forall u | u in byUri :: byUri[u] in x.integrations && x.integrations[byUri[u]] == u
  }

  /** The next function's target is new exactly when the listing did not show it. */
  lemma NotYetWired(spec: ApiSpec, fns: seq<string>, i: nat, s: State, s': State, id: nat, out: map<string, nat>,
                    byUri: map<string, nat>)
    requires i < |fns| && forall j, k | 0 <= j < k < |fns| :: fns[j] != fns[k]
    requires ApiGrown(id, s, s') && Wired(spec, fns, i, s.apis[id], s'.apis[id], out)
    requires ByUri(s.apis[id], byUri) && forall j | j in s.apis[id].integrations :: s.apis[id].integrations[j] in byUri
    ensures ByUri(s'.apis[id], byUri)
    ensures FunctionUri(spec, fns[i]) !in byUri ==> !HasIntegration(s'.apis[id], FunctionUri(spec, fns[i]))
    ensures HasIntegration(s.apis[id], FunctionUri(spec, fns[i])) ==> FunctionUri(spec, fns[i]) in byUri
  {
    var x, uri := s'.apis[id], FunctionUri(spec, fns[i]);
    if uri !in byUri && HasIntegration(x, uri) {
      var j :| j in x.integrations && x.integrations[j] == uri;
      var k :| 0 <= k < i && x.integrations[j] == FunctionUri(spec, fns[k]);
      UriInjective(spec, fns[i], fns[k]);
    }
  }

  lemma WiredStep(spec: ApiSpec, fns: seq<string>, i: nat, x0: Api, s: State, s': State, id: nat, out: map<string, nat>,
                  r: nat)
    requires i < |fns| && forall j, k | 0 <= j < k < |fns| :: fns[j] != fns[k]
    requires ApiGrown(id, s, s') && Wired(spec, fns, i, x0, s.apis[id], out)
    requires s'.apis[id] == s.apis[id].(integrations := s'.apis[id].integrations)
    requires forall j | j in s'.apis[id].integrations && j !in s.apis[id].integrations ::
               s'.apis[id].integrations[j] == FunctionUri(spec, fns[i])
    requires r in s'.apis[id].integrations && s'.apis[id].integrations[r] == FunctionUri(spec, fns[i])
    ensures Wired(spec, fns, i + 1, x0, s'.apis[id], out[fns[i] := r])
  {
  }

  lemma GrownTransitive(id: nat, s: State, t: State, u: State)
    requires ApiGrown(id, s, t) && ApiGrown(id, t, u)
    ensures ApiGrown(id, s, u)
  {
  }

  lemma GrownReflexive(id: nat, s: State)
    requires Sound(id, s)
    ensures ApiGrown(id, s, s)
  {
  }

  /** The integrations of functions by their targets: the listed ones, then new ones. */
  method EnsureIntegrations(a: Account, id: nat, spec: ApiSpec, fns: seq<string>) returns (r: Option<map<string, nat>>)
    requires Sound(id, a.gw)
    requires forall i, j | 0 <= i < j < |fns| :: fns[i] != fns[j]
    modifies a`gw, a`calls
    ensures ApiGrown(id, old(a.gw), a.gw) && Sound(id, a.gw)
    ensures a.gw.apis[id] == old(a.gw).apis[id].(integrations := a.gw.apis[id].integrations)
    ensures r.Some? ==> Wired(spec, fns, |fns|, old(a.gw).apis[id], a.gw.apis[id], r.value)
    ensures (forall f | f in fns :: HasIntegration(old(a.gw).apis[id], FunctionUri(spec, f))) ==> a.gw == old(a.gw)
    ensures old(a.Calm()) ==> r.Some? && a.Calm()
    ensures a.Faults() <= old(a.Faults()) + (if r.Some? then 0 else 1)
  {
    hide HasIntegration, UriUnique, SameExcept, FunctionUri;
    ghost var s := a.gw;
    GrownReflexive(id, s);
    var byUri := IntegrationsByUri(a, id);
    if byUri == None { return None; }
    var out: map<string, nat> := map[];
    for i := 0 to |fns|
      invariant a.Faults() <= old(a.Faults())
      invariant old(a.Calm()) ==> a.Calm()
      invariant ApiGrown(id, s, a.gw) && Sound(id, a.gw)
      invariant Wired(spec, fns, i, s.apis[id], a.gw.apis[id], out)
      invariant (forall f | f in fns :: HasIntegration(s.apis[id], FunctionUri(spec, f))) ==> a.gw == s
    {
      hide ApiGrown, Wired, Sound;
      ghost var t := a.gw;
      NotYetWired(spec, fns, i, s, t, id, out, byUri.value);
      assert fns[i] in fns;
      var one := EnsureIntegration(a, id, FunctionUri(spec, fns[i]), byUri.value);
      GrownTransitive(id, s, t, a.gw);
      if one == None { return None; }
      WiredStep(spec, fns, i, s.apis[id], t, a.gw, id, out, one.value);
      out := out[fns[i] := one.value];
    }
    return Some(out);
  }

  method EnsureRoutes(a: Account, id: nat, spec: ApiSpec, targets: map<string, nat>) returns (ok: bool)
    requires id in a.gw.apis && DistinctRoutes(spec)
    modifies a`gw, a`calls
    ensures id in a.gw.apis && a.gw == WithApi(old(a.gw), id, old(a.gw).apis[id].(routes := a.gw.apis[id].routes))
    ensures ok ==>
              forall r | r in spec.routes ::
                       r.fn in targets && r.key in a.gw.apis[id].routes && a.gw.apis[id].routes[r.key] == targets[r.fn]
    ensures (forall r | r in spec.routes ::
               r.fn in targets && r.key in old(a.gw).apis[id].routes
                 && old(a.gw).apis[id].routes[r.key] == targets[r.fn]) ==> a.gw == old(a.gw)
    ensures old(a.Calm()) ==> a.Calm() && ((forall r | r in spec.routes :: r.fn in targets) ==> ok)
    ensures a.Faults() <= old(a.Faults()) + (if ok then 0 else 1)
  {
    hide FaultCount, Befalls, RoutedUpTo, DistinctRoutes;
    ghost var s := a.gw;
    assert WithApi(s, id, s.apis[id].(routes := s.apis[id].routes)) == s;
    var g := a.CallGw(ApiGateway.GetRoutes(a.gw, id));
    if !g.Routes? { return false; }
    var byKey := g.routes;
    RoutedNone(spec, targets, byKey);
    for i := 0 to |spec.routes|
      invariant a.Faults() <= old(a.Faults())
      invariant old(a.Calm()) ==> a.Calm()
      invariant id in a.gw.apis && a.gw == WithApi(s, id, s.apis[id].(routes := a.gw.apis[id].routes))
      invariant RoutedUpTo(spec, i, targets, byKey, a.gw.apis[id].routes)
      invariant (forall r | r in spec.routes :: r.fn in targets && r.key in byKey && byKey[r.key] == targets[r.fn]) ==>
                  a.gw == s
    {
      var want := spec.routes[i];
      assert want in spec.routes;
      ghost var before := a.gw.apis[id].routes;
      if want.fn !in targets { return false; }
      if want.key !in byKey || byKey[want.key] != targets[want.fn] {
        var r := a.CallGw(ApiGateway.PutRoute(a.gw, id, want.key, targets[want.fn]));
        if r != Ok { return false; }
      }
      RoutedStep(spec, i, targets, byKey, before, a.gw.apis[id].routes);
    }
    RoutedAll(spec, targets, byKey, a.gw.apis[id].routes);
    return true;
  }

  /** The first `i` routes target their functions' integrations, and the other keys are as they were. */
  ghost predicate RoutedUpTo(spec: ApiSpec, i: nat, targets: map<string, nat>, byKey: map<string, nat>,
                             routes: map<string, nat>)
    requires i <= |spec.routes|
  {
    && (forall k | (forall j | 0 <= j < i :: spec.routes[j].key != k) ::
          (k in routes <==> k in byKey) && (k in byKey ==> routes[k] == byKey[k]))
    && (forall j | 0 <= j < i :: spec.routes[j].fn in targets && spec.routes[j].key in routes
                                 && routes[spec.routes[j].key] == targets[spec.routes[j].fn])
  }

  lemma RoutedNone(spec: ApiSpec, targets: map<string, nat>, byKey: map<string, nat>)
    ensures RoutedUpTo(spec, 0, targets, byKey, byKey)
  {
  }

  lemma RoutedAll(spec: ApiSpec, targets: map<string, nat>, byKey: map<string, nat>, routes: map<string, nat>)
    requires RoutedUpTo(spec, |spec.routes|, targets, byKey, routes)
    ensures forall r | r in spec.routes :: r.fn in targets && r.key in routes && routes[r.key] == targets[r.fn]
  {
  }

  lemma RoutedStep(spec: ApiSpec, i: nat, targets: map<string, nat>, byKey: map<string, nat>,
                   before: map<string, nat>, routes: map<string, nat>)
    requires i < |spec.routes| && DistinctRoutes(spec) && RoutedUpTo(spec, i, targets, byKey, before)
    requires spec.routes[i].fn in targets
    requires var want := spec.routes[i];
             if want.key in byKey && byKey[want.key] == targets[want.fn] then routes == before
             else routes == before[want.key := targets[want.fn]]
    ensures RoutedUpTo(spec, i + 1, targets, byKey, routes)
  {
  }

  ghost predicate DistinctRoutes(spec: ApiSpec) {
    forall i, j | 0 <= i < j < |spec.routes| :: spec.routes[i].key != spec.routes[j].key
  }

  method EnsureStage(a: Account, id: nat, spec: ApiSpec) returns (ok: bool)
    requires id in a.gw.apis
    modifies a`gw, a`calls
    ensures id in a.gw.apis && a.gw == WithApi(old(a.gw), id, old(a.gw).apis[id].(stages := a.gw.apis[id].stages))
    ensures ok ==> a.gw.apis[id].stages == old(a.gw).apis[id].stages[STAGE := Stage(true, spec.logArn)]
    ensures STAGE in old(a.gw).apis[id].stages && old(a.gw).apis[id].stages[STAGE] == Stage(true, spec.logArn) ==>
              a.gw == old(a.gw)
    ensures old(a.Calm()) ==> ok && a.Calm()
    ensures a.Faults() <= old(a.Faults()) + (if ok then 0 else 1)
  {
    ghost var s := a.gw;
    assert WithApi(s, id, s.apis[id].(stages := s.apis[id].stages)) == s;
    var settings := Stage(true, spec.logArn);
    assert STAGE in s.apis[id].stages && s.apis[id].stages[STAGE] == settings ==>
             s.apis[id].stages[STAGE := settings] == s.apis[id].stages;
    var r := a.CallGw(ApiGateway.GetStage(a.gw, id, STAGE));
    if r != Ok && r != ApiGateway.NotFound { return false; }
    if r == Ok {
      r := a.CallGw(ApiGateway.UpdateStage(a.gw, id, STAGE, settings));
    } else {
      r := a.CallGw(ApiGateway.CreateStage(a.gw, id, STAGE, settings));
    }
    return r == Ok;
  }

  /** Nothing changed but that some of `fns` gained the statement for this API. */
  ghost predicate Granted(id: nat, fns: seq<string>, s: Lambda.State, s': Lambda.State) {
    && OnlyGrants(s, s')
    && forall f | f in s.functions ::
         || s'.functions[f] == s.functions[f]
         || (f in fns && INVOKE_SID !in s.functions[f].perms
             && s'.functions[f].perms == s.functions[f].perms[INVOKE_SID := id])
  }

  lemma GrantStep(id: nat, fns: seq<string>, fn: string, s: Lambda.State, t: Lambda.State, u: Lambda.State)
    requires Granted(id, fns, s, t) && fn in fns
    requires u == t || u == Lambda.AddPermission(t, fn, INVOKE_SID, id).0
    ensures Granted(id, fns, s, u)
  {
  }

  /** Grants this API the right to invoke each function; a statement that is already there is
      taken as it is. */
  method EnsureGrants(a: Account, id: nat, fns: seq<string>) returns (ok: bool)
    modifies a`lam, a`calls
    ensures Granted(id, fns, old(a.lam), a.lam)
    ensures ok ==> forall f | f in fns :: f in a.lam.functions && INVOKE_SID in a.lam.functions[f].perms
    ensures (forall f | f in fns :: f in old(a.lam).functions && INVOKE_SID in old(a.lam).functions[f].perms) ==>
              a.lam == old(a.lam)
    ensures old(a.Calm()) ==> a.Calm() && ((forall f | f in fns :: f in old(a.lam).functions) ==> ok)
    ensures a.Faults() <= old(a.Faults()) + (if ok then 0 else 1)
  {
    hide Granted, OnlyGrants;
    ghost var s := a.lam;
    NothingGranted(id, fns, s);
    for i := 0 to |fns|
      invariant a.Faults() <= old(a.Faults())
      invariant old(a.Calm()) ==> a.Calm()
      invariant Granted(id, fns, s, a.lam)
      invariant forall j | 0 <= j < i :: fns[j] in a.lam.functions && INVOKE_SID in a.lam.functions[fns[j]].perms
      invariant (forall f | f in fns :: f in s.functions && INVOKE_SID in s.functions[f].perms) ==> a.lam == s
    {
      assert fns[i] in fns;
      ghost var t := a.lam;
      GrantedKeys(id, fns, s, t);
      var r := a.CallLam(Lambda.AddPermission(a.lam, fns[i], INVOKE_SID, id));
      GrantStep(id, fns, fns[i], s, t, a.lam);
      if r != Lambda.Ok && r != Lambda.Conflict { return false; }
    }
    return true;
  }

  lemma NothingGranted(id: nat, fns: seq<string>, s: Lambda.State)
    ensures Granted(id, fns, s, s)
  {
  }

  lemma GrantedKeys(id: nat, fns: seq<string>, s: Lambda.State, t: Lambda.State)
    requires Granted(id, fns, s, t)
    ensures t.functions.Keys == s.functions.Keys
  {
  }

  // ---------------------------------------------------------------- the whole resource

  /** `s'` is `s` with the API grown, after creating it if there was none. */
  ghost predicate Reached(name: string, id: nat, s: State, s': State) {
    || (Mine(name, s, id) && ApiGrown(id, s, s'))
    || ((forall i :: !Mine(name, s, i)) && id == s.next && ApiGrown(id, CreateApi(s, name).0, s'))
  }

  /** The API reached is the only one of its name. */
  lemma ReachedAlone(name: string, id: nat, s: State, s': State)
    requires Fresh(s) && Reached(name, id, s, s') && !Ambiguous(name, s)
    ensures Mine(name, s', id) && forall i | Mine(name, s', i) :: i == id
    ensures Fresh(s') && OthersKept(name, s, s') && forall i | Mine(name, s, i) :: Mine(name, s', i)
    ensures GwInv(name, s) ==> GwInv(name, s')
  {
    hide UriUnique;
    if Mine(name, s, id) {
      forall i | Mine(name, s', i) ensures i == id {
        assert Mine(name, s, i);
      }
    } else {
      forall i | Mine(name, s', i) ensures i == id {
        if i in s.apis { assert !Mine(name, s, i); }
      }
      assert CreateApi(s, name).0.apis[id].integrations == map[];
      NoUris(CreateApi(s, name).0.apis[id]);
    }
  }

  lemma NoUris(x: Api)
    requires x.integrations == map[]
    ensures UriUnique(x)
  {
  }

  lemma PermsKept(spec: ApiSpec, id: nat, fns: seq<string>, s: State, s': State, lam: Lambda.State, lam': Lambda.State)
    requires PermInv(spec, s, lam) && Granted(id, fns, lam, lam')
    requires Mine(spec.name, s', id) && forall i | Mine(spec.name, s, i) :: Mine(spec.name, s', i)
    ensures PermInv(spec, s', lam')
  {
  }

  /** Whatever step it stops at, a run keeps the invariants and touches nothing else. */
  lemma ApiStopped(spec: ApiSpec, id: nat, fns: seq<string>, s: State, s': State, lam: Lambda.State, lam': Lambda.State,
                   calm: bool)
    requires Fresh(s) && Reached(spec.name, id, s, s') && !Ambiguous(spec.name, s)
    requires (forall f | f in fns :: exists r :: r in spec.routes && r.fn == f) && Granted(id, fns, lam, lam')
    requires calm ==> exists r :: r in spec.routes && r.fn !in lam.functions
    ensures ApiEnsured(spec, s, s', lam, lam', calm, Failed) && Fresh(s')
  {
    ReachedAlone(spec.name, id, s, s');
    hide GwInv, Reached, Fresh;
    if GwInv(spec.name, s) && PermInv(spec, s, lam) {
      PermsKept(spec, id, fns, s, s', lam, lam');
    }
  }

  /** A run that gets through converges the API, and changes nothing if it already was. */
  lemma ApiDone(spec: ApiSpec, id: nat, fns: seq<string>, s: State, t: State, s': State,
                lam: Lambda.State, lam': Lambda.State, calm: bool, op: Op)
    requires Fresh(s) && Reached(spec.name, id, s, s') && !Ambiguous(spec.name, s)
    requires (forall f | f in fns :: exists r :: r in spec.routes && r.fn == f) && Granted(id, fns, lam, lam')
    requires op == (if exists i :: Mine(spec.name, s, i) then Exists else Create)
    requires op == Exists ==> t == s
    requires StructureConverged(spec, id, s')
    requires id in t.apis && (StructureConverged(spec, id, t) && UriUnique(t.apis[id]) ==> s' == t)
    requires forall r | r in spec.routes :: r.fn in fns
    requires forall f | f in fns :: f in lam'.functions && INVOKE_SID in lam'.functions[f].perms
    requires (forall f | f in fns :: f in lam.functions && INVOKE_SID in lam.functions[f].perms) ==> lam' == lam
    ensures ApiEnsured(spec, s, s', lam, lam', calm, Done(op)) && Fresh(s')
  {
    hide Reached, Fresh, RouteConverged, UriUnique, Granted, OthersKept, OnlyGrants, OtherFunctionsKept;
    hide StructureConverged, PermInv, ApiConvergedAt, GwInv, Ambiguous;
    ReachedAlone(spec.name, id, s, s');
    ApiStopped(spec, id, fns, s, s', lam, lam', false);
    if GwInv(spec.name, s) && PermInv(spec, s, lam) {
      ConvergedAt(spec, id, fns, s', lam');
      if ApiConverged(spec, s, lam) {
        NothingMissing(spec, id, fns, s, s', lam);
      }
    }
  }

  lemma ConvergedAt(spec: ApiSpec, id: nat, fns: seq<string>, s: State, lam: Lambda.State)
    requires Mine(spec.name, s, id) && (forall i | Mine(spec.name, s, i) :: i == id) && PermInv(spec, s, lam)
    requires StructureConverged(spec, id, s)
    requires forall r | r in spec.routes :: r.fn in fns
    requires forall f | f in fns :: f in lam.functions && INVOKE_SID in lam.functions[f].perms
    ensures ApiConvergedAt(spec, id, s, lam)
  {
  }

  /** A converged account already has what each step looks for, on the API it finds. */
  lemma NothingMissing(spec: ApiSpec, id: nat, fns: seq<string>, s: State, s': State, lam: Lambda.State)
    requires GwInv(spec.name, s) && ApiConverged(spec, s, lam)
    requires forall i | Mine(spec.name, s, i) :: Mine(spec.name, s', i)
    requires forall i | Mine(spec.name, s', i) :: i == id
    requires forall f | f in fns :: exists r :: r in spec.routes && r.fn == f
    ensures exists i :: Mine(spec.name, s, i)
    ensures StructureConverged(spec, id, s) && UriUnique(s.apis[id])
    ensures forall f | f in fns :: f in lam.functions && INVOKE_SID in lam.functions[f].perms
  {
  }

  lemma RoutesGrow(id: nat, s: State, x: Api)
    requires id in s.apis && x == s.apis[id].(routes := x.routes, stages := x.stages)
    ensures ApiGrown(id, s, WithApi(s, id, x))
  {
  }

  method EstablishApi(a: Account, name: string) returns (r: Option<nat>, op: Op)
    requires Fresh(a.gw)
    modifies a`gw, a`calls
    ensures r.Some? ==> Reached(name, r.value, old(a.gw), a.gw) && Sound(r.value, a.gw) && !Ambiguous(name, old(a.gw))
    ensures r.Some? ==> op == (if exists i :: Mine(name, old(a.gw), i) then Exists else Create)
    ensures r.Some? && op == Exists ==> a.gw == old(a.gw)
    ensures r == None ==>
              a.gw == old(a.gw) || exists i :: !Ambiguous(name, old(a.gw)) && Reached(name, i, old(a.gw), a.gw)
    ensures old(a.Calm()) ==> a.Calm() && (r == None ==> Ambiguous(name, old(a.gw)) && a.gw == old(a.gw))
    ensures a.Faults() <= old(a.Faults()) + (if r.Some? then 0 else 1)
  {
    ghost var s := a.gw;
    var found := FindApi(a, name);
    if found == Error { return None, Exists; }
    if found.At? {
      GrownReflexive(found.id, s);
      return Some(found.id), Exists;
    }
    assert forall i :: !Mine(name, s, i);
    assert CreateApi(s, name).0.apis[s.next].integrations == map[];
    GrownReflexive(s.next, CreateApi(s, name).0);
    assert Reached(name, s.next, s, CreateApi(s, name).0);
    var c := a.CallGw(ApiGateway.CreateApi(a.gw, name));
    if !c.Created? { return None, Create; }
    return Some(c.id), Create;
  }

  /** Integrations, routes and stage of the API. */
  method ConvergeApi(a: Account, id: nat, spec: ApiSpec, fns: seq<string>) returns (ok: bool)
    requires Sound(id, a.gw) && DistinctRoutes(spec)
    requires forall i, j | 0 <= i < j < |fns| :: fns[i] != fns[j]
    requires forall r | r in spec.routes :: r.fn in fns
    requires forall f | f in fns :: exists r :: r in spec.routes && r.fn == f
    modifies a`gw, a`calls
    ensures ApiGrown(id, old(a.gw), a.gw)
    ensures ok ==> StructureConverged(spec, id, a.gw)
    ensures StructureConverged(spec, id, old(a.gw)) && UriUnique(old(a.gw).apis[id]) ==> a.gw == old(a.gw)
    ensures old(a.Calm()) ==> ok && a.Calm()
    ensures a.Faults() <= old(a.Faults()) + (if ok then 0 else 1)
  {
    hide UriUnique, ApiGrown, SameExcept, Wired;
    ghost var s := a.gw;
    if StructureConverged(spec, id, s) {
      forall f | f in fns ensures HasIntegration(s.apis[id], FunctionUri(spec, f)) {
        var r :| r in spec.routes && r.fn == f;
        assert RouteConverged(spec, s.apis[id], r);
      }
    }
    var targets := EnsureIntegrations(a, id, spec, fns);
    if targets == None { return false; }
    ghost var t := a.gw;
    TargetsMatch(spec, fns, id, s, t, targets.value);
    ok := EnsureRoutes(a, id, spec, targets.value);
    ghost var u := a.gw;
    RoutesGrow(id, t, u.apis[id]);
    GrownTransitive(id, s, t, u);
    if !ok { return false; }
    ok := EnsureStage(a, id, spec);
    RoutesGrow(id, u, a.gw.apis[id]);
    GrownTransitive(id, s, u, a.gw);
  }

  /** The API's own part of being converged: routes and stage. */
  ghost predicate StructureConverged(spec: ApiSpec, id: nat, s: State) {
    && id in s.apis
    && (forall r | r in spec.routes :: RouteConverged(spec, s.apis[id], r))
    && STAGE in s.apis[id].stages && s.apis[id].stages[STAGE] == Stage(true, spec.logArn)
  }

  /** The integrations found serve the routes, and are the ones a converged API's routes have. */
  lemma TargetsMatch(spec: ApiSpec, fns: seq<string>, id: nat, s: State, t: State, targets: map<string, nat>)
    requires ApiGrown(id, s, t) && Wired(spec, fns, |fns|, s.apis[id], t.apis[id], targets)
    requires forall r | r in spec.routes :: r.fn in fns
    ensures forall r | r in spec.routes ::
              r.fn in targets && targets[r.fn] in t.apis[id].integrations
                && t.apis[id].integrations[targets[r.fn]] == FunctionUri(spec, r.fn)
    ensures t == s && UriUnique(s.apis[id]) ==>
              forall r | r in spec.routes && RouteConverged(spec, s.apis[id], r) ::
                       s.apis[id].routes[r.key] == targets[r.fn]
  {
  }

  method EnsureApi(a: Account, spec: ApiSpec) returns (o: Outcome)
    requires Fresh(a.gw) && DistinctRoutes(spec)
    modifies a`gw, a`lam, a`calls
    ensures ApiEnsured(spec, old(a.gw), a.gw, old(a.lam), a.lam, old(a.Calm()), o)
    ensures Fresh(a.gw)
    ensures old(a.Calm()) ==> a.Calm()
    ensures a.Faults() <= old(a.Faults()) + (if o.Done? then 0 else 1)
  {
    hide *;
    ghost var s, lam, calm := a.gw, a.lam, a.Calm();
    var fns := Functions(spec.routes);
    var found, op := EstablishApi(a, spec.name);
    if found == None {
      ApiNotReached(spec, fns, s, a.gw, lam, calm);
      return Failed;
    }
    var id := found.value;
    ghost var t := a.gw;
    var ok := ConvergeApi(a, id, spec, fns);
    ReachedFurther(spec.name, id, s, t, a.gw);
    GrantedNothing(id, fns, lam);
    if !ok {
      ApiStopped(spec, id, fns, s, a.gw, lam, a.lam, calm);
      return Failed;
    }
    ok := EnsureGrants(a, id, fns);
    if !ok {
      ApiStopped(spec, id, fns, s, a.gw, lam, a.lam, calm);
      return Failed;
    }
    ApiDone(spec, id, fns, s, t, a.gw, lam, a.lam, calm, op);
    return Done(op);
  }

  lemma ReachedFurther(name: string, id: nat, s: State, t: State, u: State)
    requires Reached(name, id, s, t) && ApiGrown(id, t, u)
    ensures Reached(name, id, s, u)
  {
  }

  lemma GrantedNothing(id: nat, fns: seq<string>, lam: Lambda.State)
    ensures Granted(id, fns, lam, lam)
  {
  }

  lemma ApiNotReached(spec: ApiSpec, fns: seq<string>, s: State, s': State, lam: Lambda.State, calm: bool)
    requires Fresh(s) && (forall f | f in fns :: exists r :: r in spec.routes && r.fn == f)
    requires s' == s || exists i :: !Ambiguous(spec.name, s) && Reached(spec.name, i, s, s')
    requires calm ==> Ambiguous(spec.name, s) && s' == s
    ensures ApiEnsured(spec, s, s', lam, lam, calm, Failed) && Fresh(s')
  {
    if s' != s {
      var i :| Reached(spec.name, i, s, s');
      GrantedNothing(i, fns, lam);
      ApiStopped(spec, i, fns, s, s', lam, lam, calm);
    } else if GwInv(spec.name, s) && Ambiguous(spec.name, s) {
      assert false;
    }
  }

  // ---------------------------------------------------------------- removal

  /** Nothing changed but that some of `fns` lost the statement. */
  ghost predicate Revoked(fns: seq<string>, s: Lambda.State, s': Lambda.State) {
    && OnlyGrants(s, s')
    && forall f | f in s.functions ::
         || s'.functions[f] == s.functions[f]
         || (f in fns && s'.functions[f].perms == s.functions[f].perms - {INVOKE_SID})
  }

  lemma RevokeStep(fns: seq<string>, fn: string, s: Lambda.State, t: Lambda.State, u: Lambda.State)
    requires Revoked(fns, s, t) && fn in fns
    requires u == t || u == Lambda.RemovePermission(t, fn, INVOKE_SID).0
    ensures Revoked(fns, s, u)
    ensures forall f | f in u.functions && INVOKE_SID in u.functions[f].perms ::
              f in t.functions && INVOKE_SID in t.functions[f].perms
  {
  }

  predicate Granting(s: Lambda.State, f: string) {
    f in s.functions && INVOKE_SID in s.functions[f].perms
  }

  method RevokeGrants(a: Account, fns: seq<string>) returns (ok: bool)
    modifies a`lam, a`calls
    ensures Revoked(fns, old(a.lam), a.lam)
    ensures ok ==> forall f | f in fns :: !Granting(a.lam, f)
    ensures old(a.Calm()) ==> ok && a.Calm()
    ensures a.Faults() <= old(a.Faults()) + (if ok then 0 else 1)
  {
    ghost var s := a.lam;
    for i := 0 to |fns|
      invariant a.Faults() <= old(a.Faults())
      invariant old(a.Calm()) ==> a.Calm()
      invariant Revoked(fns, s, a.lam)
      invariant forall j | 0 <= j < i :: !Granting(a.lam, fns[j])
    {
      assert fns[i] in fns;
      ghost var t := a.lam;
      hide Revoked, OnlyGrants;
      var r := a.CallLam(Lambda.RemovePermission(a.lam, fns[i], INVOKE_SID));
      RevokeStep(fns, fns[i], s, t, a.lam);
      if r != Lambda.Ok && r != Lambda.NotFound { return false; }
    }
    return true;
  }

  ghost predicate ApiRemoved(spec: ApiSpec, s: State, s': State, lam: Lambda.State, lam': Lambda.State, calm: bool,
                             o: Outcome) {
    && OthersKept(spec.name, s, s')
    && (forall i | Mine(spec.name, s', i) :: Mine(spec.name, s, i) && s'.apis[i] == s.apis[i])
    && OnlyGrants(lam, lam')
    && OtherFunctionsKept(spec, lam, lam')
    && (forall f | f in lam.functions && f in lam'.functions ::
          lam'.functions[f].perms.Keys <= lam.functions[f].perms.Keys)
    && (Ambiguous(spec.name, s) ==> o.Failed? && s' == s && lam' == lam)
    && (GwInv(spec.name, s) && PermInv(spec, s, lam) ==>
          && GwInv(spec.name, s') && PermInv(spec, s', lam')
          && (o.Done? ==>
                && (forall i :: !Mine(spec.name, s', i))
                // No statement is stranded: none names the API that is gone.
                && (forall r | r in spec.routes :: !Granting(lam', r.fn))
                && (o.op == (if exists i :: Mine(spec.name, s, i) then Delete else Absent)))
          && (calm ==> o.Done?))
  }

  lemma ApiRevoked(spec: ApiSpec, id: nat, fns: seq<string>, s: State, s': State, lam: Lambda.State, lam': Lambda.State,
                   calm: bool, o: Outcome)
    requires Fresh(s) && Mine(spec.name, s, id) && forall i | Mine(spec.name, s, i) :: i == id
    requires forall f :: f in fns <==> exists r :: r in spec.routes && r.fn == f
    requires Revoked(fns, lam, lam')
    requires s' == s || (s' == DeleteApi(s, id).0 && forall f | f in fns :: !Granting(lam', f))
    requires o == Failed || (o == Done(Delete) && s' == DeleteApi(s, id).0)
    requires calm ==> o.Done?
    ensures ApiRemoved(spec, s, s', lam, lam', calm, o) && Fresh(s')
  {
    DeletedApi(spec.name, id, s);
    RevokedMeans(spec, fns, lam, lam');
    hide Fresh, GwInv, Revoked, OthersKept;
    if GwInv(spec.name, s) && PermInv(spec, s, lam) {
      forall r, f | r in spec.routes && f == r.fn && f in lam'.functions && INVOKE_SID in lam'.functions[f].perms
        ensures Mine(spec.name, s', lam'.functions[f].perms[INVOKE_SID]) {
        assert f in fns && Granting(lam', f);
        assert s' == s;
      }
    }
  }

  lemma DeletedApi(name: string, id: nat, s: State)
    requires Fresh(s) && Mine(name, s, id) && forall i | Mine(name, s, i) :: i == id
    ensures var t := DeleteApi(s, id).0;
            Fresh(t) && OthersKept(name, s, t) && (forall i :: !Mine(name, t, i)) && (GwInv(name, s) ==> GwInv(name, t))
    ensures OthersKept(name, s, s) && !Ambiguous(name, s)
  {
    hide UriUnique;
    var t := DeleteApi(s, id).0;
    forall i ensures !Mine(name, t, i) {
      assert Mine(name, t, i) ==> Mine(name, s, i);
    }
  }

  lemma RevokedMeans(spec: ApiSpec, fns: seq<string>, s: Lambda.State, s': Lambda.State)
    requires Revoked(fns, s, s') && forall f :: f in fns <==> exists r :: r in spec.routes && r.fn == f
    ensures OnlyGrants(s, s') && OtherFunctionsKept(spec, s, s')
    ensures forall f | f in s.functions && f in s'.functions :: s'.functions[f].perms.Keys <= s.functions[f].perms.Keys
    ensures forall f | f in s.functions && Granting(s', f) :: s'.functions[f] == s.functions[f]
  {
  }

  lemma ApiAlreadyGone(spec: ApiSpec, s: State, lam: Lambda.State, calm: bool)
    requires Fresh(s) && forall i :: !Mine(spec.name, s, i)
    ensures ApiRemoved(spec, s, s, lam, lam, calm, Done(Absent))
  {
  }

  method RemoveApi(a: Account, spec: ApiSpec) returns (o: Outcome)
    requires Fresh(a.gw)
    modifies a`gw, a`lam, a`calls
    ensures ApiRemoved(spec, old(a.gw), a.gw, old(a.lam), a.lam, old(a.Calm()), o)
    ensures Fresh(a.gw)
    ensures old(a.Calm()) ==> a.Calm()
    ensures a.Faults() <= old(a.Faults()) + (if o.Done? then 0 else 1)
  {
    ghost var s, lam, calm := a.gw, a.lam, a.Calm();
    var fns := Functions(spec.routes);
    var found := FindApi(a, spec.name);
    if found == Error { return Failed; }
    if found == Nowhere {
      ApiAlreadyGone(spec, s, lam, calm);
      return Done(Absent);
    }
    hide Revoked, ApiRemoved, UriUnique;
    var ok := RevokeGrants(a, fns);
    if !ok {
      ApiRevoked(spec, found.id, fns, s, a.gw, lam, a.lam, calm, Failed);
      return Failed;
    }
    var r := a.CallGw(ApiGateway.DeleteApi(a.gw, found.id));
    o := if r == Ok then Done(Delete) else Failed;
    ApiRevoked(spec, found.id, fns, s, a.gw, lam, a.lam, calm, o);
  }
}
