/** The resource list and the two runs over it: internal/deploy/new.go and deploy.go. */
module Deployment {
  import opened Text
  import opened Accounts
  import opened Actions
  import opened TableResource
  import opened BucketResource
  import opened IamResources
  import opened LogGroupResource
  import opened FunctionResource
  import Api = HttpApiResource
  import Cdn = DistributionResource
  import Web = WebSyncResource
  import Lambda
  import ApiGateway
  import Iam
  import opened CloudFrontConfig

  /** `gatewayCode` and `webApiCode` are the packages' digests, `site` the directory to publish;
      both can be unreadable. */
  datatype Cfg = Cfg(
    region: string, account: string, webBucket: string, dataBucket: string, table: string,
    planModel: string, ceiling: string, layer: string, retentionDays: int,
    gatewayCode: Option<string>, webApiCode: Option<string>, site: Web.Local)

  /** What validation guarantees, and that a directory lists a path once. */
  predicate Valid(cfg: Cfg) {
    cfg.webBucket != cfg.dataBucket && (cfg.site.Some? ==> Web.DistinctKeys(cfg.site.value))
  }

  datatype Resource =
    | Table(table: string)
    | Bucket(bucket: string, lifecycle: bool)
    | Role(role: RoleSpec)
    | Profile(profile: string, holds: string)
    | LogGroup(group: string, days: int)
    | Function(fn: FnSpec)
    | HttpApi(api: Api.ApiSpec)
    | Distribution(dist: Cdn.DistSpec)
    | WebSync(target: string, site: Web.Local)

  const GATEWAY_ROLE := "foray-gateway-lambda"
  const WEBAPI_ROLE := "foray-webapi-lambda"
  const SPAWN_ROLE := "foray-spawn-instance"
  const GATEWAY_FN := "foray-gateway"
  const WEBAPI_FN := "foray-webapi"
  const API_LOGS := "/aws/apigateway/foray"
  const API_NAME := "foray"
  const BASIC_EXECUTION := "arn:aws:iam::aws:policy/service-role/AWSLambdaBasicExecutionRole"

  function TableArn(cfg: Cfg): string {
    "arn:aws:dynamodb:" + cfg.region + ":" + cfg.account + ":table/" + cfg.table
  }

  /** A policy document, by what it is written from. */
  function Doc(name: string, scope: string): Policy { Policy(name, name + " on " + scope) }

  function GatewayRole(cfg: Cfg): RoleSpec {
    RoleSpec(GATEWAY_ROLE, "lambda.amazonaws.com", [BASIC_EXECUTION], [Doc("sessions-table", TableArn(cfg))])
  }

  function WebApiRole(cfg: Cfg): RoleSpec {
    RoleSpec(WEBAPI_ROLE, "lambda.amazonaws.com", [BASIC_EXECUTION],
             [Doc("sessions-table", TableArn(cfg)), Doc("bedrock-invoke", cfg.account + "/" + cfg.planModel),
              Doc("truffle-spot-pricing", "*"), Doc("data-bucket-sessions", cfg.dataBucket),
              Doc("pass-spawn-role", cfg.account)])
  }

  function SpawnRole(cfg: Cfg): RoleSpec {
    RoleSpec(SPAWN_ROLE, "ec2.amazonaws.com", [],
             [Doc("session-saves", cfg.dataBucket), Doc("self-terminate-foray-tagged", cfg.account)])
  }

  function FnEnv(port: string): map<string, string> {
    map["AWS_LAMBDA_EXEC_WRAPPER" := "/opt/bootstrap", "AWS_LWA_READINESS_CHECK_PATH" := "/healthz",
        "AWS_LWA_PORT" := port]
  }

  function GatewayFn(cfg: Cfg): FnSpec {
    FnSpec(GATEWAY_FN, cfg.gatewayCode,
           Lambda.Config("arn:aws:iam::" + cfg.account + ":role/" + GATEWAY_ROLE, cfg.layer, 600, 256,
                         FnEnv("8080")["FORAY_SESSIONS_TABLE" := cfg.table]))
  }

  function WebApiFn(cfg: Cfg): FnSpec {
    FnSpec(WEBAPI_FN, cfg.webApiCode,
           Lambda.Config("arn:aws:iam::" + cfg.account + ":role/" + WEBAPI_ROLE, cfg.layer, 600, 512,
                         FnEnv("8090")["FORAY_SESSIONS_TABLE" := cfg.table]["FORAY_DATA_BUCKET" := cfg.dataBucket]
                         ["FORAY_PLAN_MODEL" := cfg.planModel]["FORAY_BUDGET_CEILING" := cfg.ceiling]
                         ["PATH" := "/var/task/bin:/usr/local/bin:/usr/bin:/bin"]))
  }

  function ApiOf(cfg: Cfg): Api.ApiSpec {
    Api.ApiSpec(API_NAME,
                [Api.RouteSpec("ANY /sessions/{proxy+}", GATEWAY_FN), Api.RouteSpec("ANY /api/{proxy+}", WEBAPI_FN),
                 Api.RouteSpec("GET /healthz", WEBAPI_FN)],
                "arn:aws:lambda:" + cfg.region + ":" + cfg.account + ":function:",
                "arn:aws:logs:" + cfg.region + ":" + cfg.account + ":log-group:" + API_LOGS)
  }

  function DistOf(cfg: Cfg): Cdn.DistSpec {
    Cdn.DistSpec(cfg.webBucket, cfg.dataBucket, cfg.region, API_NAME)
  }

  function FnLogs(fn: string): string { "/aws/lambda/" + fn }

  /** In dependency order: Apply walks it forward, Teardown backward. */
  function Resources(cfg: Cfg): (rs: seq<Resource>)
    ensures |rs| == COUNT
  {
    [Table(cfg.table),
     Bucket(cfg.webBucket, false),
     Bucket(cfg.dataBucket, true),
     Role(GatewayRole(cfg)),
     Role(WebApiRole(cfg)),
     Role(SpawnRole(cfg)),
     Profile(SPAWN_ROLE, SPAWN_ROLE),
     LogGroup(FnLogs(GATEWAY_FN), cfg.retentionDays),
     LogGroup(FnLogs(WEBAPI_FN), cfg.retentionDays),
     Function(GatewayFn(cfg)),
     Function(WebApiFn(cfg)),
     LogGroup(API_LOGS, cfg.retentionDays),
     HttpApi(ApiOf(cfg)),
     Distribution(DistOf(cfg)),
     WebSync(cfg.webBucket, cfg.site)]
  }

  const COUNT := 15

  function At(cfg: Cfg, i: nat): Resource
    requires i < COUNT
  {
    Resources(cfg)[i]
  }

  /** Where the resources others wait for stand. */
  lemma Positions(cfg: Cfg)
    ensures At(cfg, 0) == Table(cfg.table)
    ensures At(cfg, 1) == Bucket(cfg.webBucket, false) && At(cfg, 2) == Bucket(cfg.dataBucket, true)
    ensures At(cfg, 6) == Profile(SPAWN_ROLE, SPAWN_ROLE)
    ensures At(cfg, 9) == Function(GatewayFn(cfg)) && At(cfg, 10) == Function(WebApiFn(cfg))
    ensures At(cfg, 12) == HttpApi(ApiOf(cfg)) && At(cfg, 13) == Distribution(DistOf(cfg))
            && At(cfg, 14) == WebSync(cfg.webBucket, cfg.site)
  {
    hide GatewayRole, WebApiRole, SpawnRole, GatewayFn, WebApiFn, ApiOf, DistOf, FnLogs;
  }

  lemma RolesAndLogs(cfg: Cfg)
    ensures At(cfg, 3) == Role(GatewayRole(cfg)) && At(cfg, 4) == Role(WebApiRole(cfg))
            && At(cfg, 5) == Role(SpawnRole(cfg)) && At(cfg, 6) == Profile(SPAWN_ROLE, SPAWN_ROLE)
    ensures At(cfg, 7) == LogGroup(FnLogs(GATEWAY_FN), cfg.retentionDays)
            && At(cfg, 8) == LogGroup(FnLogs(WEBAPI_FN), cfg.retentionDays)
            && At(cfg, 11) == LogGroup(API_LOGS, cfg.retentionDays)
  {
    hide GatewayRole, WebApiRole, SpawnRole, GatewayFn, WebApiFn, ApiOf, DistOf, FnLogs;
  }

  lemma RoleNames(cfg: Cfg)
    ensures GatewayRole(cfg).name == GATEWAY_ROLE && WebApiRole(cfg).name == WEBAPI_ROLE
            && SpawnRole(cfg).name == SPAWN_ROLE
  {
  }

  lemma FnNames(cfg: Cfg)
    ensures GatewayFn(cfg).name == GATEWAY_FN && WebApiFn(cfg).name == WEBAPI_FN
  {
  }

  // ---------------------------------------------------------------- one resource

  /** What a resource's own code demands: distinct policy names, route keys and paths, and ids
      that were given out before. */
  ghost predicate Callable(r: Resource, w: World) {
    && (r.Role? ==> DistinctNames(r.role.inline))
    && (r.HttpApi? ==> Api.DistinctRoutes(r.api))
    && (r.WebSync? && r.site.Some? ==> Web.DistinctKeys(r.site.value))
    && Api.Fresh(w.gw) && Cdn.CfFresh(w.cf)
  }

  ghost predicate EnsureRel(r: Resource, noWait: bool, w: World, w': World, calm: bool, o: Outcome) {
    match r
    case Table(t) => w' == w.(ddb := w'.ddb) && TableEnsured(t, w.ddb, w'.ddb, calm, o)
    case Bucket(b, l) => w' == w.(s3 := w'.s3) && BucketEnsured(b, l, w.s3, w'.s3, calm, o)
    case Role(spec) => w' == w.(iam := w'.iam) && RoleEnsured(spec, w.iam, w'.iam, calm, o)
    case Profile(p, h) => w' == w.(iam := w'.iam) && ProfileEnsured(p, h, w.iam, w'.iam, calm, o)
    case LogGroup(g, d) => w' == w.(logs := w'.logs) && GroupEnsured(g, d, w.logs, w'.logs, calm, o)
    case Function(f) => w' == w.(lam := w'.lam) && FunctionEnsured(f, w.lam, w'.lam, calm, o)
    case HttpApi(spec) =>
      w' == w.(gw := w'.gw, lam := w'.lam) && Api.Fresh(w'.gw)
        && Api.ApiEnsured(spec, w.gw, w'.gw, w.lam, w'.lam, calm, o)
    case Distribution(spec) =>
      w' == w.(cf := w'.cf, s3 := w'.s3) && Cdn.CfFresh(w'.cf)
      && Cdn.DistEnsured(spec, noWait, w.gw, w.cf, w'.cf, w.s3, w'.s3, calm, o)
    case WebSync(b, site) => w' == w.(s3 := w'.s3) && Web.SyncEnsured(b, site, w.s3, w'.s3, calm, o)
  }

  ghost predicate RemoveRel(r: Resource, w: World, w': World, calm: bool, o: Outcome) {
    match r
    case Table(t) => w' == w.(ddb := w'.ddb) && TableRemoved(t, w.ddb, w'.ddb, calm, o)
    case Bucket(b, _) => w' == w.(s3 := w'.s3) && BucketRemoved(b, w.s3, w'.s3, calm, o)
    case Role(spec) => w' == w.(iam := w'.iam) && RoleRemoved(spec.name, w.iam, w'.iam, calm, o)
    case Profile(p, _) => w' == w.(iam := w'.iam) && ProfileRemoved(p, w.iam, w'.iam, calm, o)
    case LogGroup(g, _) => w' == w.(logs := w'.logs) && GroupRemoved(g, w.logs, w'.logs, calm, o)
    case Function(f) => w' == w.(lam := w'.lam) && FunctionRemoved(f.name, w.lam, w'.lam, calm, o)
    case HttpApi(spec) =>
      w' == w.(gw := w'.gw, lam := w'.lam) && Api.Fresh(w'.gw)
        && Api.ApiRemoved(spec, w.gw, w'.gw, w.lam, w'.lam, calm, o)
    case Distribution(_) => w' == w.(cf := w'.cf) && Cdn.CfFresh(w'.cf) && Cdn.DistRemoved(w.cf, w'.cf, calm, o)
    case WebSync(_, _) => w' == w && o == Done(Absent)
  }

  method Ensure(a: Account, r: Resource, noWait: bool) returns (o: Outcome)
    requires Callable(r, a.W())
    modifies a
    ensures EnsureRel(r, noWait, old(a.W()), a.W(), old(a.Calm()), o)
    ensures old(a.Calm()) ==> a.Calm()
    // An error is not passed over, but for a log group's tags.
    ensures a.Faults() <= old(a.Faults()) + (if o.Done? && !r.LogGroup? then 0 else 1)
  {
    hide TableEnsured, BucketEnsured, RoleEnsured, ProfileEnsured, GroupEnsured, FunctionEnsured;
    hide Api.ApiEnsured, Cdn.DistEnsured, Web.SyncEnsured, Api.Fresh, Cdn.CfFresh, Account.Calm, DistinctNames;
    hide Web.DistinctKeys;
    match r
    case Table(t) => o := EnsureTable(a, t);
    case Bucket(b, l) => o := EnsureBucket(a, b, l);
    case Role(spec) => o := EnsureRole(a, spec);
    case Profile(p, h) => o := EnsureProfile(a, p, h);
    case LogGroup(g, d) => o := EnsureGroup(a, g, d);
    case Function(f) => o := EnsureFunction(a, f);
    case HttpApi(spec) => o := Api.EnsureApi(a, spec);
    case Distribution(spec) => o := Cdn.EnsureDist(a, spec, noWait);
    case WebSync(b, site) =>
      var up, gone;
      o, up, gone := Web.EnsureSync(a, b, site);
  }

  method Remove(a: Account, r: Resource) returns (o: Outcome)
    requires Callable(r, a.W())
    modifies a
    ensures RemoveRel(r, old(a.W()), a.W(), old(a.Calm()), o)
    ensures old(a.Calm()) ==> a.Calm()
    ensures a.Faults() <= old(a.Faults()) + (if o.Done? then 0 else 1)
  {
    hide TableRemoved, BucketRemoved, RoleRemoved, ProfileRemoved, GroupRemoved, FunctionRemoved;
    hide Api.ApiRemoved, Cdn.DistRemoved, Api.Fresh, Cdn.CfFresh, Account.Calm, DistinctNames, Web.DistinctKeys;
    match r
    case Table(t) => o := RemoveTable(a, t);
    case Bucket(b, _) => o := RemoveBucket(a, b);
    case Role(spec) => o := RemoveRole(a, spec.name);
    case Profile(p, _) => o := RemoveProfile(a, p);
    case LogGroup(g, _) => o := RemoveGroup(a, g);
    case Function(f) => o := RemoveFunction(a, f.name);
    case HttpApi(spec) => o := Api.RemoveApi(a, spec);
    case Distribution(_) => o := Cdn.RemoveDist(a);
    case WebSync(_, _) => o := Done(Absent);
  }

  // ---------------------------------------------------------------- states

  ghost predicate ConvergedOf(r: Resource, w: World) {
    match r
    case Table(t) => TableConverged(t, w.ddb)
    case Bucket(b, l) => b !in w.s3.foreign && BucketConverged(b, l, w.s3)
    case Role(spec) => RoleConverged(spec, w.iam)
    case Profile(p, h) => ProfileConverged(p, h, w.iam)
    case LogGroup(g, d) => GroupConverged(g, d, w.logs)
    case Function(f) => FunctionConverged(f, w.lam)
    case HttpApi(spec) => Api.ApiConverged(spec, w.gw, w.lam)
    case Distribution(spec) => Cdn.DistConverged(spec, w.gw, w.cf, w.s3)
    case WebSync(b, site) =>
      site.Some? && (site.value == [] || (b in w.s3.buckets && Web.Mirrors(w.s3.buckets[b].objects, site.value)))
  }

  ghost predicate Converged(cfg: Cfg, w: World) {
    forall i | 0 <= i < COUNT :: ConvergedOf(At(cfg, i), w)
  }

  ghost predicate GoneOf(r: Resource, w: World) {
    match r
    case Table(t) => t !in w.ddb.tables
    case Bucket(b, _) => b !in w.s3.buckets
    case Role(spec) => spec.name !in w.iam.roles
    case Profile(p, _) => p !in w.iam.profiles
    case LogGroup(g, _) => g !in w.logs.groups
    case Function(f) => f.name !in w.lam.functions
    case HttpApi(spec) => forall i :: !Api.Mine(spec.name, w.gw, i)
    case Distribution(_) => forall i :: !Cdn.Ours(w.cf, i) && !Cdn.OurOac(w.cf, i)
    case WebSync(_, _) => true
  }

  ghost predicate Clean(cfg: Cfg, w: World) {
    forall i | 0 <= i < COUNT :: GoneOf(At(cfg, i), w)
  }

  /** The refusals a deploy must never provoke, over the whole account. */
  function Refusals(w: World): nat { w.ddb.refused + w.s3.refused + w.iam.refused + w.cf.refused }

  /** A refusal by any of the services counts. */
  lemma EveryRefusalCounts(w: World, k: nat)
    ensures Refusals(w.(ddb := w.ddb.(refused := w.ddb.refused + k))) == Refusals(w) + k
    ensures Refusals(w.(s3 := w.s3.(refused := w.s3.refused + k))) == Refusals(w) + k
    ensures Refusals(w.(iam := w.iam.(refused := w.iam.refused + k))) == Refusals(w) + k
    ensures Refusals(w.(cf := w.cf.(refused := w.cf.refused + k))) == Refusals(w) + k
  {
  }

  /** The spawn profile holds at most the spawn role, and no other profile holds a foray role. */
  ghost predicate IamInv(s: Iam.State) {
    && (SPAWN_ROLE in s.profiles ==> s.profiles[SPAWN_ROLE] <= {SPAWN_ROLE})
    && (forall p | p in s.profiles && p != SPAWN_ROLE ::
          GATEWAY_ROLE !in s.profiles[p] && WEBAPI_ROLE !in s.profiles[p] && SPAWN_ROLE !in s.profiles[p])
  }

  /** What every step of every run keeps, faults included. */
  ghost predicate Inv(cfg: Cfg, w: World) {
    && Api.GwInv(API_NAME, w.gw)
    && Api.PermInv(ApiOf(cfg), w.gw, w.lam)
    && Cdn.CfInv(w.cf)
    && IamInv(w.iam)
    && TtlActive(cfg.table, w.ddb)
  }

  /** The resource is one this configuration lists, as far as the invariant is concerned. */
  ghost predicate Belongs(cfg: Cfg, r: Resource) {
    && (r.Profile? ==> r.profile == SPAWN_ROLE == r.holds)
    && (r.HttpApi? ==> r.api == ApiOf(cfg))
    && (r.Distribution? ==> r.dist == DistOf(cfg))
  }

  lemma AllBelong(cfg: Cfg)
    ensures |Resources(cfg)| == COUNT
    ensures forall i | 0 <= i < COUNT :: Belongs(cfg, At(cfg, i))
  {
    hide GatewayRole, WebApiRole, SpawnRole, GatewayFn, WebApiFn, ApiOf, DistOf, FnLogs;
  }

  lemma EnsureKeepsInv(cfg: Cfg, r: Resource, noWait: bool, w: World, w': World, calm: bool, o: Outcome)
    requires Belongs(cfg, r) && EnsureRel(r, noWait, w, w', calm, o) && Inv(cfg, w)
    ensures Inv(cfg, w')
  {
    hide Api.GwInv, Cdn.CfInv, TableEnsured, BucketEnsured, GroupEnsured, Web.SyncEnsured, DistOf;
    if r.HttpApi? || r.Distribution? {
      if r.Distribution? { Cdn.GrownMeans(w.cf, w'.cf); }
      hide Cdn.Grown, Api.PermInv;
    } else if r.Function? {
      hide ApiOf;
      FunctionKeepsPerms(ApiOf(cfg), r.fn, w.gw, w.lam, w'.lam, calm, o);
    } else if r.Role? || r.Profile? {
      hide Api.PermInv, RoleConverged;
    } else if r.Table? {
      TableKeepsTtl(r.table, cfg.table, w, w', calm, o);
    }
  }

  lemma TableKeepsTtl(t: string, x: string, w: World, w': World, calm: bool, o: Outcome)
    requires TableEnsured(t, w.ddb, w'.ddb, calm, o) && TtlActive(x, w.ddb)
    ensures TtlActive(x, w'.ddb)
  {
    hide TableReady, TablePasses;
  }

  lemma FunctionKeepsPerms(spec: Api.ApiSpec, f: FnSpec, gw: ApiGateway.State, s: Lambda.State, s': Lambda.State,
                           calm: bool, o: Outcome)
    requires FunctionEnsured(f, s, s', calm, o) && Api.PermInv(spec, gw, s)
    ensures Api.PermInv(spec, gw, s')
  {
  }

  lemma RemoveKeepsInv(cfg: Cfg, r: Resource, w: World, w': World, calm: bool, o: Outcome)
    requires Belongs(cfg, r) && RemoveRel(r, w, w', calm, o) && Inv(cfg, w)
    ensures Inv(cfg, w')
  {
    hide Api.GwInv, Cdn.CfInv, BucketRemoved, GroupRemoved, DistOf;
    if r.HttpApi? || r.Distribution? {
      if r.Distribution? { Cdn.ShrunkMeans(w.cf, w'.cf); }
      hide Cdn.Shrunk, Api.PermInv;
    } else if r.Function? {
      hide ApiOf;
    } else if r.Role? || r.Profile? {
      hide Api.PermInv;
    }
  }

  // ---------------------------------------------------------------- one step never undoes another

  function Key(r: Resource): (nat, string) {
    match r
    case Table(t) => (0, t)
    case Bucket(b, _) => (1, b)
    case Role(spec) => (2, spec.name)
    case Profile(p, _) => (3, p)
    case LogGroup(g, _) => (4, g)
    case Function(f) => (5, f.name)
    case HttpApi(_) => (6, "")
    case Distribution(_) => (7, "")
    case WebSync(_, _) => (8, "")
  }

  /** The two are different things in the account. */
  predicate Apart(r: Resource, q: Resource) { Key(r) != Key(q) }

  lemma NamesApart()
    ensures GATEWAY_ROLE != WEBAPI_ROLE && GATEWAY_ROLE != SPAWN_ROLE && WEBAPI_ROLE != SPAWN_ROLE
    ensures GATEWAY_FN != WEBAPI_FN
    ensures FnLogs(GATEWAY_FN) != FnLogs(WEBAPI_FN) && FnLogs(GATEWAY_FN) != API_LOGS && FnLogs(WEBAPI_FN) != API_LOGS
  {
  }

  /** The list's identities: what kind of thing each resource is, and under which name. */
  function Keys(cfg: Cfg): seq<(nat, string)> {
    KeyList(cfg.table, cfg.webBucket, cfg.dataBucket, GATEWAY_ROLE, WEBAPI_ROLE, SPAWN_ROLE,
            FnLogs(GATEWAY_FN), FnLogs(WEBAPI_FN), GATEWAY_FN, WEBAPI_FN, API_LOGS)
  }

  function KeyList(t: string, b1: string, b2: string, r1: string, r2: string, r3: string,
                   g1: string, g2: string, f1: string, f2: string, g3: string): seq<(nat, string)> {
    [(0, t), (1, b1), (1, b2), (2, r1), (2, r2), (2, r3), (3, r3), (4, g1), (4, g2), (5, f1), (5, f2), (4, g3),
     (6, ""), (7, ""), (8, "")]
  }

  lemma KeyListDistinct(t: string, b1: string, b2: string, r1: string, r2: string, r3: string,
                        g1: string, g2: string, f1: string, f2: string, g3: string, i: nat, j: nat)
    requires i < COUNT && j < COUNT && i != j
    requires b1 != b2 && r1 != r2 && r1 != r3 && r2 != r3 && g1 != g2 && g1 != g3 && g2 != g3 && f1 != f2
    ensures var ks := KeyList(t, b1, b2, r1, r2, r3, g1, g2, f1, f2, g3); ks[i] != ks[j]
  {
    var ks := KeyList(t, b1, b2, r1, r2, r3, g1, g2, f1, f2, g3);
    var kinds := [0, 1, 1, 2, 2, 2, 3, 4, 4, 5, 5, 4, 6, 7, 8];
    assert ks[i].0 == kinds[i] && ks[j].0 == kinds[j];
    if kinds[i] == kinds[j] {
      assert (i in {1, 2} && j in {1, 2}) || (i in {3, 4, 5} && j in {3, 4, 5}) || (i in {7, 8, 11} && j in {7, 8, 11})
          || (i in {9, 10} && j in {9, 10});
    }
  }

  lemma Keyed(cfg: Cfg, i: nat)
    requires i < COUNT
    ensures Key(At(cfg, i)) == Keys(cfg)[i]
  {
    hide GatewayRole, WebApiRole, SpawnRole, GatewayFn, WebApiFn, ApiOf, DistOf, FnLogs;
    RoleNames(cfg);
    FnNames(cfg);
  }

  lemma Kinds(cfg: Cfg, i: nat)
    requires i < COUNT
    ensures At(cfg, i).Table? <==> i == 0
    ensures At(cfg, i).Bucket? <==> i in {1, 2}
    ensures At(cfg, i).Function? <==> i in {9, 10}
    ensures At(cfg, i).Distribution? <==> i == 13
  {
    hide At, KeyList;
    Keyed(cfg, i);
    KeyKinds(cfg, i);
  }

  lemma KeyKinds(cfg: Cfg, i: nat)
    requires i < COUNT
    ensures |Keys(cfg)| == COUNT
    ensures (Keys(cfg)[i].0 == 0 <==> i == 0) && (Keys(cfg)[i].0 == 1 <==> i in {1, 2})
    ensures (Keys(cfg)[i].0 == 5 <==> i in {9, 10}) && (Keys(cfg)[i].0 == 7 <==> i == 13)
  {
    hide FnLogs;
  }

  lemma ResourcesApart(cfg: Cfg, i: nat, j: nat)
    requires Valid(cfg) && i < COUNT && j < COUNT && i != j
    ensures Apart(At(cfg, i), At(cfg, j))
  {
    NamesApart();
    Keyed(cfg, i);
    Keyed(cfg, j);
    hide FnLogs, At, Key, KeyList;
    KeyListDistinct(cfg.table, cfg.webBucket, cfg.dataBucket, GATEWAY_ROLE, WEBAPI_ROLE, SPAWN_ROLE,
                    FnLogs(GATEWAY_FN), FnLogs(WEBAPI_FN), GATEWAY_FN, WEBAPI_FN, API_LOGS, i, j);
  }

  /** What is converged stays so while another resource is ensured, faults or not. */
  lemma EnsureKeepsOthers(r: Resource, q: Resource, noWait: bool, w: World, w': World, calm: bool, o: Outcome)
    requires EnsureRel(r, noWait, w, w', calm, o) && Apart(r, q) && ConvergedOf(q, w)
    requires r.HttpApi? && q.Distribution? ==> q.dist.apiName == r.api.name
    ensures ConvergedOf(q, w')
  {
    hide Web.Mirrors, Cdn.DistConverged, RoleConverged, Api.ApiConverged, Api.ApiEnsured, Cdn.DistEnsured;
    hide Web.SyncEnsured;
    match r
    case Table(t) =>
    case Bucket(b, _) => BucketEnsureKeeps(r, q, noWait, w, w', calm, o);
    case Role(spec) => if q.Role? { RoleEnsureKeeps(q.role, w.iam, w'.iam); }
    case Profile(p, h) => if q.Role? { RoleEnsureKeeps(q.role, w.iam, w'.iam); }
    case LogGroup(g, d) =>
    case Function(f) => FunctionEnsureKeeps(r, q, noWait, w, w', calm, o);
    case HttpApi(spec) => ApiEnsureKeeps(r, q, noWait, w, w', calm, o);
    case Distribution(spec) => DistEnsureKeeps(r, q, noWait, w, w', calm, o);
    case WebSync(b, site) => SyncEnsureKeeps(r, q, noWait, w, w', calm, o);
  }

  lemma RoleEnsureKeeps(spec: RoleSpec, s: Iam.State, s': Iam.State)
    requires RoleConverged(spec, s)
    requires spec.name in s.roles ==> spec.name in s'.roles && s'.roles[spec.name] == s.roles[spec.name]
    ensures RoleConverged(spec, s')
  {
  }

  lemma SettingsStay(spec: Cdn.DistSpec, w: World, w': World)
    requires Cdn.DistConverged(spec, w.gw, w.cf, w.s3) && w' == w.(s3 := w'.s3)
    requires forall b | b in w.s3.buckets ::
               b in w'.s3.buckets && w'.s3.buckets[b].policy == w.s3.buckets[b].policy
                 && w'.s3.buckets[b].cors == w.s3.buckets[b].cors
    ensures Cdn.DistConverged(spec, w'.gw, w'.cf, w'.s3)
  {
    hide Differs, Cdn.Ours, Cdn.OurOac, Api.Mine;
    var id, oac, api :| Cdn.DistConvergedAt(spec, id, oac, api, w.gw, w.cf, w.s3);
    assert Cdn.DistConvergedAt(spec, id, oac, api, w'.gw, w'.cf, w'.s3);
  }

  lemma BucketEnsureKeeps(r: Resource, q: Resource, noWait: bool, w: World, w': World, calm: bool, o: Outcome)
    requires r.Bucket? && EnsureRel(r, noWait, w, w', calm, o) && Apart(r, q) && ConvergedOf(q, w)
    ensures ConvergedOf(q, w')
  {
    hide Web.Mirrors, RoleConverged, Cdn.DistConverged;
    if q.Distribution? {
      SettingsStay(q.dist, w, w');
    }
  }

  lemma SyncEnsureKeeps(r: Resource, q: Resource, noWait: bool, w: World, w': World, calm: bool, o: Outcome)
    requires r.WebSync? && EnsureRel(r, noWait, w, w', calm, o) && Apart(r, q) && ConvergedOf(q, w)
    ensures ConvergedOf(q, w')
  {
    hide Web.Mirrors, RoleConverged, Cdn.DistConverged;
    if q.Distribution? {
      SettingsStay(q.dist, w, w');
    }
  }

  lemma DistEnsureKeeps(r: Resource, q: Resource, noWait: bool, w: World, w': World, calm: bool, o: Outcome)
    requires r.Distribution? && EnsureRel(r, noWait, w, w', calm, o) && Apart(r, q) && ConvergedOf(q, w)
    ensures ConvergedOf(q, w')
  {
    hide Web.Mirrors, Cdn.Grown, Cdn.CfInv, Cdn.DistConverged, RoleConverged;
  }

  lemma FunctionEnsureKeeps(r: Resource, q: Resource, noWait: bool, w: World, w': World, calm: bool, o: Outcome)
    requires r.Function? && EnsureRel(r, noWait, w, w', calm, o) && Apart(r, q) && ConvergedOf(q, w)
    ensures ConvergedOf(q, w')
  {
    hide Web.Mirrors, Cdn.DistConverged, RoleConverged;
    if q.HttpApi? {
      var id :| Api.ApiConvergedAt(q.api, id, w.gw, w.lam);
      forall x | x in q.api.routes ensures Api.GrantConverged(id, w'.lam, x.fn) {
        assert Api.GrantConverged(id, w.lam, x.fn);
        if x.fn == r.fn.name { assert Perms(w'.lam, x.fn) == Perms(w.lam, x.fn); }
      }
      assert Api.ApiConvergedAt(q.api, id, w'.gw, w'.lam) by { hide Api.RouteConverged; }
    }
  }

  lemma ApiEnsureKeeps(r: Resource, q: Resource, noWait: bool, w: World, w': World, calm: bool, o: Outcome)
    requires r.HttpApi? && EnsureRel(r, noWait, w, w', calm, o) && Apart(r, q) && ConvergedOf(q, w)
    requires q.Distribution? ==> q.dist.apiName == r.api.name
    ensures ConvergedOf(q, w')
  {
    hide Web.Mirrors, RoleConverged, Api.ApiConverged, Api.ApiEnsured, Cdn.DistConverged, Api.Fresh;
    ApiFrame(r.api, w, w', calm, o);
    if q.Distribution? { DistSeesApi(q.dist, w, w'); }
  }

  lemma ApiFrame(spec: Api.ApiSpec, w: World, w': World, calm: bool, o: Outcome)
    requires Api.ApiEnsured(spec, w.gw, w'.gw, w.lam, w'.lam, calm, o)
    ensures Api.OnlyGrants(w.lam, w'.lam) && forall i | Api.Mine(spec.name, w.gw, i) :: Api.Mine(spec.name, w'.gw, i)
  {
    hide Api.GwInv, Api.PermInv, Api.ApiConverged, Api.OthersKept, Api.Ambiguous;
  }

  lemma DistSeesApi(spec: Cdn.DistSpec, w: World, w': World)
    requires Cdn.DistConverged(spec, w.gw, w.cf, w.s3) && w' == w.(gw := w'.gw, lam := w'.lam)
    requires forall i | Api.Mine(spec.apiName, w.gw, i) :: Api.Mine(spec.apiName, w'.gw, i)
    ensures Cdn.DistConverged(spec, w'.gw, w'.cf, w'.s3)
  {
    hide Differs, Cdn.Ours, Cdn.OurOac, Api.Mine, Cdn.SettingsConverged;
    var id, oac, api :| Cdn.DistConvergedAt(spec, id, oac, api, w.gw, w.cf, w.s3);
    assert Cdn.DistConvergedAt(spec, id, oac, api, w'.gw, w'.cf, w'.s3);
  }

  /** What is gone stays gone while another resource is removed, faults or not. */
  lemma RemoveKeepsGone(r: Resource, q: Resource, w: World, w': World, calm: bool, o: Outcome)
    requires RemoveRel(r, w, w', calm, o) && GoneOf(q, w)
    ensures GoneOf(q, w')
  {
    hide Api.GwInv, Api.PermInv, Cdn.CfInv, Cdn.Doubled, Api.Ambiguous, Api.OtherFunctionsKept;
    if r.HttpApi? && q.HttpApi? {
      forall i ensures !Api.Mine(q.api.name, w'.gw, i) {
        assert !Api.Mine(q.api.name, w.gw, i);
      }
    }
  }

  // ---------------------------------------------------------------- one good step

  /** What one resource needs for its ensure to get through and converge it. */
  ghost predicate ReadyOf(r: Resource, noWait: bool, w: World) {
    match r
    case Table(t) => TableReady(t, w.ddb)
    case Bucket(b, _) => b !in w.s3.foreign
    case Role(_) => true
    case Profile(p, h) => p in w.iam.profiles ==> w.iam.profiles[p] <= {h}
    case LogGroup(_, _) => true
    case Function(f) => f.code.Some? && (f.name in w.lam.functions || w.lam.notReady < CREATE_ATTEMPTS)
    case HttpApi(spec) =>
      && Api.GwInv(spec.name, w.gw) && Api.PermInv(spec, w.gw, w.lam)
      && (forall x | x in spec.routes :: x.fn in w.lam.functions)
    case Distribution(spec) =>
      && Cdn.CfInv(w.cf) && Api.GwInv(spec.apiName, w.gw)
      && Cdn.EnabledOrAbsent(w.cf) && Cdn.DistReady(spec, noWait, w.gw, w.cf, w.s3)
    case WebSync(b, site) => b in w.s3.buckets && site.Some? && Web.Readable(site.value)
  }

  lemma GoodEnsure(r: Resource, noWait: bool, w: World, w': World, calm: bool, o: Outcome)
    requires EnsureRel(r, noWait, w, w', calm, o) && ReadyOf(r, noWait, w)
    ensures Refusals(w') == Refusals(w)
    ensures o.Done? ==> ConvergedOf(r, w')
    ensures calm ==> o.Done?
    ensures o.Done? && ConvergedOf(r, w) ==> w' == w && o.op == Exists
  {
    hide Api.GwInv, Api.PermInv, Cdn.CfInv, Api.Fresh, Cdn.CfFresh, Cdn.DistReady;
    hide Api.ApiConverged, Api.OthersKept, Api.OnlyGrants, Cdn.DistConverged, Cdn.EnabledOrAbsent, RoleConverged;
    hide Web.Mirrors;
    if r.HttpApi? {
      if Api.ApiConverged(r.api, w.gw, w.lam) { ConvergedApiExists(r.api, w); }
    } else if r.Distribution? {
      if Cdn.DistConverged(r.dist, w.gw, w.cf, w.s3) { ConvergedDistExists(r.dist, w); }
    } else if r.Role? {
      if o.Done? && RoleConverged(r.role, w.iam) { ConvergedRoleExists(r.role, w.iam); }
    }
  }

  lemma ConvergedApiExists(spec: Api.ApiSpec, w: World)
    requires Api.ApiConverged(spec, w.gw, w.lam)
    ensures exists i :: Api.Mine(spec.name, w.gw, i)
  {
  }

  lemma ConvergedDistExists(spec: Cdn.DistSpec, w: World)
    requires Cdn.DistConverged(spec, w.gw, w.cf, w.s3)
    ensures exists i :: Cdn.Ours(w.cf, i)
    ensures exists i :: Api.Mine(spec.apiName, w.gw, i)
    ensures spec.webBucket in w.s3.buckets && spec.dataBucket in w.s3.buckets
    ensures Cdn.CfInv(w.cf) ==> Cdn.EnabledOrAbsent(w.cf)
  {
    var id, oac, api :| Cdn.DistConvergedAt(spec, id, oac, api, w.gw, w.cf, w.s3);
    assert w.cf.dists[id].config.enabled by { hide *; EnabledOfSame(w.cf.dists[id].config, spec, oac, api); }
  }

  lemma EnabledOfSame(c: Config, spec: Cdn.DistSpec, oac: nat, api: nat)
    ensures !Differs(c, Cdn.Want(spec, oac, api)) ==> c.enabled
  {
  }

  lemma ConvergedRoleExists(spec: RoleSpec, s: Iam.State)
    requires RoleConverged(spec, s)
    ensures spec.name in s.roles
  {
  }

  /** Exactly when a fault-free remove completes, a role being free: its bucket's name is not another account's,
      and its distribution is disabled everywhere in time. */
  ghost predicate RemovableOf(r: Resource, w: World) {
    && (r.Bucket? ==> r.bucket !in w.s3.foreign)
    && (r.Distribution? ==> Cdn.Settles(w.cf))
  }

  lemma GoodRemove(cfg: Cfg, r: Resource, w: World, w': World, calm: bool, o: Outcome)
    requires RemoveRel(r, w, w', calm, o) && Belongs(cfg, r) && Inv(cfg, w)
    ensures o.Done? ==> GoneOf(r, w')
    ensures (r.Role? ==> !Iam.Held(w.iam, r.role.name)) ==> Refusals(w') == Refusals(w)
    ensures calm && (r.Role? ==> !Iam.Held(w.iam, r.role.name)) ==> (o.Done? <==> RemovableOf(r, w))
  {
    hide Cdn.Settles, Cdn.WaitedFor, Cdn.CfFresh, Cdn.CfInv, Api.PermInv, Api.Fresh, Api.GwInv, Iam.Held, IamInv;
    hide ApiOf, DistOf;
    assert ApiOf(cfg).name == API_NAME by { ApiName(cfg); }
  }

  lemma ApiName(cfg: Cfg)
    ensures ApiOf(cfg).name == API_NAME && DistOf(cfg).apiName == API_NAME
  {
  }
}
