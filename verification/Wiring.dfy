/** What a converged account is as a whole: one control plane, every part of it naming the others as they are
    (internal/deploy/new.go, with the definitions in iam.go, lambda.go, apigateway.go and cloudfront.go). */
module Wiring {
  import opened Text
  import opened Accounts
  import opened Deployment
  import DeployRuns
  import opened Actions
  import Api = HttpApiResource
  import ApiGateway
  import Cdn = DistributionResource
  import Iam
  import IamResources
  import Lambda
  import LogGroupResource
  import Web = WebSyncResource
  import FunctionResource
  import TableResource
  import BucketResource

  /** The role carries the named policy, written for that scope. */
  ghost predicate Granted(role: Iam.Role, policy: string, scope: string) {
    policy in role.inline && role.inline[policy] == policy + " on " + scope
  }

  /** The function runs that package under a role Lambda may assume, and what its environment names is there and
      open to that role. */
  ghost predicate Equipped(cfg: Cfg, w: World, fn: string, role: string, code: Option<string>, port: string) {
    && fn in w.lam.functions && role in w.iam.roles
    && var c, r := w.lam.functions[fn].config, w.iam.roles[role];
    && Some(w.lam.functions[fn].code) == code
    && c.role == "arn:aws:iam::" + cfg.account + ":role/" + role && c.layer == cfg.layer && c.timeout == 600
    && r.trust == "lambda.amazonaws.com"
    && "arn:aws:iam::aws:policy/service-role/AWSLambdaBasicExecutionRole" in r.attached
    && "AWS_LAMBDA_EXEC_WRAPPER" in c.env && c.env["AWS_LAMBDA_EXEC_WRAPPER"] == "/opt/bootstrap"
    && "AWS_LWA_PORT" in c.env && c.env["AWS_LWA_PORT"] == port
    && "AWS_LWA_READINESS_CHECK_PATH" in c.env && c.env["AWS_LWA_READINESS_CHECK_PATH"] == "/healthz"
    && "FORAY_SESSIONS_TABLE" in c.env && c.env["FORAY_SESSIONS_TABLE"] in w.ddb.tables
    && Granted(r, "sessions-table", "arn:aws:dynamodb:" + cfg.region + ":" + cfg.account + ":table/"
                                    + c.env["FORAY_SESSIONS_TABLE"])
    && LogsKept(cfg, w, "/aws/lambda/" + fn)
  }

  /** The group is there and does not keep its logs for ever. */
  ghost predicate LogsKept(cfg: Cfg, w: World, group: string) {
    group in w.logs.groups && w.logs.groups[group] == if cfg.retentionDays > 0 then cfg.retentionDays else 14
  }

  /** What the page's functions need besides: the data bucket, the planning model and the role of the instances. */
  ghost predicate CanPlanAndLaunch(cfg: Cfg, w: World, fn: string, role: string) {
    && fn in w.lam.functions && role in w.iam.roles
    && var c, r := w.lam.functions[fn].config, w.iam.roles[role];
    && "FORAY_DATA_BUCKET" in c.env && c.env["FORAY_DATA_BUCKET"] in w.s3.buckets
    && w.s3.buckets[c.env["FORAY_DATA_BUCKET"]].lifecycle
    && Granted(r, "data-bucket-sessions", c.env["FORAY_DATA_BUCKET"])
    && "FORAY_PLAN_MODEL" in c.env && Granted(r, "bedrock-invoke", cfg.account + "/" + c.env["FORAY_PLAN_MODEL"])
    && "FORAY_BUDGET_CEILING" in c.env && c.env["FORAY_BUDGET_CEILING"] == cfg.ceiling
    && "PATH" in c.env && "/var/task/bin:" <= c.env["PATH"]
    && Granted(r, "truffle-spot-pricing", "*") && Granted(r, "pass-spawn-role", cfg.account)
  }

  /** Instances take on the one role of the profile, and may save where the page's API reads and end themselves. */
  ghost predicate InstancesCanSave(w: World, api: string) {
    && api in w.lam.functions && "FORAY_DATA_BUCKET" in w.lam.functions[api].config.env
    && "foray-spawn-instance" in w.iam.profiles && w.iam.profiles["foray-spawn-instance"] == {"foray-spawn-instance"}
    && "foray-spawn-instance" in w.iam.roles
    && w.iam.roles["foray-spawn-instance"].trust == "ec2.amazonaws.com"
    && Granted(w.iam.roles["foray-spawn-instance"], "session-saves",
               w.lam.functions[api].config.env["FORAY_DATA_BUCKET"])
    && "self-terminate-foray-tagged" in w.iam.roles["foray-spawn-instance"].inline
  }

  /** Requests on the route of that key reach the function, which lets this API invoke it. */
  ghost predicate RouteReaches(cfg: Cfg, w: World, api: nat, key: string, fn: string) {
    && api in w.gw.apis && key in w.gw.apis[api].routes
    && w.gw.apis[api].routes[key] in w.gw.apis[api].integrations
    && w.gw.apis[api].integrations[w.gw.apis[api].routes[key]]
       == "arn:aws:lambda:" + cfg.region + ":" + cfg.account + ":function:" + fn
    && fn in w.lam.functions && Api.INVOKE_SID in w.lam.functions[fn].perms
    && w.lam.functions[fn].perms[Api.INVOKE_SID] == api
  }

  /** Requests to the API are deployed as they are routed and logged to a group that is there. */
  ghost predicate StageLogs(cfg: Cfg, w: World, api: nat) {
    && api in w.gw.apis && "$default" in w.gw.apis[api].stages && w.gw.apis[api].stages["$default"].autoDeploy
    && w.gw.apis[api].stages["$default"].logArn
       == "arn:aws:logs:" + cfg.region + ":" + cfg.account + ":log-group:/aws/apigateway/foray"
    && LogsKept(cfg, w, "/aws/apigateway/foray")
  }

  /** The page is what the local directory holds, in the bucket the distribution reads. */
  ghost predicate PagePublished(cfg: Cfg, w: World) {
    && cfg.site.Some? && cfg.webBucket in w.s3.buckets
    && (cfg.site.value != [] ==> Web.Mirrors(w.s3.buckets[cfg.webBucket].objects, cfg.site.value))
  }

  /** One control plane. */
  ghost predicate Wired(cfg: Cfg, w: World, id: nat, oac: nat, api: nat) {
    && Cdn.ServesAt(Cdn.DistSpec(cfg.webBucket, cfg.dataBucket, cfg.region, "foray"), id, oac, api, w.gw, w.cf, w.s3)
    && PagePublished(cfg, w)
    && RouteReaches(cfg, w, api, "ANY /sessions/{proxy+}", "foray-gateway")
    && RouteReaches(cfg, w, api, "ANY /api/{proxy+}", "foray-webapi")
    && RouteReaches(cfg, w, api, "GET /healthz", "foray-webapi")
    && StageLogs(cfg, w, api)
    && Equipped(cfg, w, "foray-gateway", "foray-gateway-lambda", cfg.gatewayCode, "8080")
    && Equipped(cfg, w, "foray-webapi", "foray-webapi-lambda", cfg.webApiCode, "8090")
    && CanPlanAndLaunch(cfg, w, "foray-webapi", "foray-webapi-lambda")
    && InstancesCanSave(w, "foray-webapi")
  }

  /** A converged account is one control plane: the page in front of the API, its routes on the functions, each
      function on a role that opens what its environment names, and the instances' role on the same bucket. */
  lemma ConvergedIsWired(cfg: Cfg, w: World)
    requires Inv(cfg, w) && Converged(cfg, w) && Cdn.PlainSpec(DistOf(cfg)) && Cdn.PlainOurs(w.cf)
    ensures exists id, oac, api :: Wired(cfg, w, id, oac, api)
  {
    hide Inv, Converged, Cdn.PlainSpec, Cdn.PlainOurs, PagePublished, RouteReaches, StageLogs, Equipped;
    hide CanPlanAndLaunch, InstancesCanSave, DistOf;
    var id, oac, api := DistributionServes(cfg, w);
    RoutesReach(cfg, w, api);
    PageIs(cfg, w);
    GatewayEquipped(cfg, w);
    WebApiEquipped(cfg, w);
    WebApiPlans(cfg, w);
    InstancesSave(cfg, w);
    hide Cdn.ServesAt;
    assert Wired(cfg, w, id, oac, api);
  }

  /** So a fault-free Apply from any fit account, unless its table is still being created, leaves one control plane. */
  lemma ApplyWires(cfg: Cfg, noWait: bool, ws: seq<World>, os: seq<Outcome>)
    requires DeployRuns.Applied(cfg, noWait, ws, os, true)
    requires DeployRuns.Fit(cfg, noWait, ws[0]) && !TableResource.TooEarly(cfg.table, ws[0].ddb)
    requires Cdn.PlainSpec(DistOf(cfg)) && Cdn.PlainOurs(ws[0].cf)
    ensures |os| == COUNT && DeployRuns.AllDone(os) && exists id, oac, api :: Wired(cfg, ws[COUNT], id, oac, api)
  {
    hide Converged, Inv, Wired, EnsureRel, TableResource.TooEarly, DeployRuns.Runnable, Cdn.PlainOurs, Cdn.PlainSpec;
    hide DistOf, At, Cdn.EnabledOrAbsent;
    DeployRuns.ApplyConverges(cfg, noWait, ws, os);
    DeployRuns.RunnableValid(cfg, noWait, ws[0]);
    DeployRuns.ApplyKeepsInv(cfg, noWait, ws, os, true);
    AllBelong(cfg);
    hide Belongs;
    for k := 0 to COUNT
      invariant Cdn.PlainOurs(ws[k].cf)
    {
      PlainKept(cfg, At(cfg, k), noWait, ws[k], ws[k + 1], true, os[k]);
    }
    ConvergedIsWired(cfg, ws[COUNT]);
  }

  lemma PlainKept(cfg: Cfg, r: Resource, noWait: bool, w: World, w': World, calm: bool, o: Outcome)
    requires EnsureRel(r, noWait, w, w', calm, o) && Belongs(cfg, r)
    requires Cdn.PlainSpec(DistOf(cfg)) && Cdn.PlainOurs(w.cf)
    ensures Cdn.PlainOurs(w'.cf)
  {
    hide Cdn.PlainOurs, Cdn.PlainSpec, Cdn.Grown, Cdn.OnlySettings, Cdn.DistConverged, Cdn.CfInv, DistOf;
  }

  lemma DistributionServes(cfg: Cfg, w: World) returns (id: nat, oac: nat, api: nat)
    requires Inv(cfg, w) && Converged(cfg, w) && Cdn.PlainSpec(DistOf(cfg)) && Cdn.PlainOurs(w.cf)
    ensures Cdn.ServesAt(Cdn.DistSpec(cfg.webBucket, cfg.dataBucket, cfg.region, "foray"), id, oac, api, w.gw, w.cf,
                         w.s3)
    ensures Api.Mine("foray", w.gw, api)
  {
    hide Converged, Api.GwInv, Api.PermInv, Cdn.CfInv, Cdn.PlainSpec, Cdn.PlainOurs, Cdn.Serves, Cdn.DistConvergedAt;
    hide At;
    Positions(cfg);
    DeployRuns.ConvergedHas(cfg, 13, w);
    var spec := DistOf(cfg);
    assert Cdn.DistConverged(spec, w.gw, w.cf, w.s3);
    id, oac, api :| Cdn.DistConvergedAt(spec, id, oac, api, w.gw, w.cf, w.s3);
    Cdn.ConvergedServesAt(spec, id, oac, api, w.gw, w.cf, w.s3);
  }

  lemma RoutesReach(cfg: Cfg, w: World, api: nat)
    requires Inv(cfg, w) && Converged(cfg, w) && Api.Mine("foray", w.gw, api)
    ensures RouteReaches(cfg, w, api, "ANY /sessions/{proxy+}", "foray-gateway")
    ensures RouteReaches(cfg, w, api, "ANY /api/{proxy+}", "foray-webapi")
    ensures RouteReaches(cfg, w, api, "GET /healthz", "foray-webapi")
    ensures StageLogs(cfg, w, api)
  {
    hide Converged, Api.PermInv, Cdn.CfInv, At, Api.UriUnique, Api.Fresh, Api.RouteConverged, Api.GrantConverged;
    hide RouteReaches, StageLogs, LogsKept;
    Positions(cfg);
    DeployRuns.ConvergedHas(cfg, 12, w);
    var spec := ApiOf(cfg);
    var id :| Api.ApiConvergedAt(spec, id, w.gw, w.lam);
    assert id == api;
    assert spec.routes[0] in spec.routes && spec.routes[1] in spec.routes && spec.routes[2] in spec.routes;
    RouteIs(cfg, w, api, spec.routes[0]);
    RouteIs(cfg, w, api, spec.routes[1]);
    RouteIs(cfg, w, api, spec.routes[2]);
    LogsAre(cfg, w);
    StageIs(cfg, w, api);
  }

  lemma RouteIs(cfg: Cfg, w: World, api: nat, r: Api.RouteSpec)
    requires Api.Mine("foray", w.gw, api) && Api.RouteConverged(ApiOf(cfg), w.gw.apis[api], r)
    requires Api.GrantConverged(api, w.lam, r.fn)
    ensures RouteReaches(cfg, w, api, r.key, r.fn)
  {
  }

  lemma StageIs(cfg: Cfg, w: World, api: nat)
    requires Api.ApiConvergedAt(ApiOf(cfg), api, w.gw, w.lam) && LogsKept(cfg, w, "/aws/apigateway/foray")
    ensures StageLogs(cfg, w, api)
  {
    hide Api.RouteConverged, Api.GrantConverged, LogsKept, ApiOf;
    LogArnIs(cfg);
  }

  lemma LogArnIs(cfg: Cfg)
    ensures ApiOf(cfg).logArn == "arn:aws:logs:" + cfg.region + ":" + cfg.account + ":log-group:/aws/apigateway/foray"
  {
    assert ":log-group:" + API_LOGS == ":log-group:/aws/apigateway/foray";
  }

  lemma StorageParts(cfg: Cfg, w: World)
    requires Converged(cfg, w)
    ensures TableResource.TableConverged(cfg.table, w.ddb)
    ensures BucketResource.BucketConverged(cfg.webBucket, false, w.s3)
    ensures BucketResource.BucketConverged(cfg.dataBucket, true, w.s3)
    ensures ConvergedOf(WebSync(cfg.webBucket, cfg.site), w)
  {
    hide Converged, At, Web.Mirrors;
    Positions(cfg);
    DeployRuns.ConvergedHas(cfg, 0, w);
    DeployRuns.ConvergedHas(cfg, 1, w);
    DeployRuns.ConvergedHas(cfg, 2, w);
    DeployRuns.ConvergedHas(cfg, 14, w);
  }

  lemma RoleParts(cfg: Cfg, w: World)
    requires Converged(cfg, w)
    ensures IamResources.RoleConverged(GatewayRole(cfg), w.iam) && IamResources.RoleConverged(WebApiRole(cfg), w.iam)
    ensures IamResources.RoleConverged(SpawnRole(cfg), w.iam)
    ensures IamResources.ProfileConverged(SPAWN_ROLE, SPAWN_ROLE, w.iam)
  {
    hide Converged, At, IamResources.RoleConverged, GatewayRole, WebApiRole, SpawnRole;
    RolesAndLogs(cfg);
    DeployRuns.ConvergedHas(cfg, 3, w);
    DeployRuns.ConvergedHas(cfg, 4, w);
    DeployRuns.ConvergedHas(cfg, 5, w);
    DeployRuns.ConvergedHas(cfg, 6, w);
  }

  lemma FunctionParts(cfg: Cfg, w: World)
    requires Converged(cfg, w)
    ensures FunctionResource.FunctionConverged(GatewayFn(cfg), w.lam)
    ensures FunctionResource.FunctionConverged(WebApiFn(cfg), w.lam)
  {
    hide Converged, At, FunctionResource.FunctionConverged, GatewayFn, WebApiFn;
    Positions(cfg);
    DeployRuns.ConvergedHas(cfg, 9, w);
    DeployRuns.ConvergedHas(cfg, 10, w);
  }

  lemma LogsAre(cfg: Cfg, w: World)
    requires Converged(cfg, w)
    ensures LogsKept(cfg, w, FnLogs(GATEWAY_FN)) && LogsKept(cfg, w, FnLogs(WEBAPI_FN))
    ensures LogsKept(cfg, w, "/aws/apigateway/foray")
  {
    hide Converged, At, LogsKept;
    RolesAndLogs(cfg);
    DeployRuns.ConvergedHas(cfg, 7, w);
    DeployRuns.ConvergedHas(cfg, 8, w);
    DeployRuns.ConvergedHas(cfg, 11, w);
    LogIs(cfg, w, FnLogs(GATEWAY_FN));
    LogIs(cfg, w, FnLogs(WEBAPI_FN));
    LogIs(cfg, w, API_LOGS);
  }

  lemma LogIs(cfg: Cfg, w: World, group: string)
    requires ConvergedOf(LogGroup(group, cfg.retentionDays), w)
    ensures LogsKept(cfg, w, group)
  {
  }

  lemma PageIs(cfg: Cfg, w: World)
    requires Converged(cfg, w)
    ensures PagePublished(cfg, w)
  {
    hide Converged, Web.Mirrors;
    StorageParts(cfg, w);
  }

  /** What a converged role carries. */
  lemma RoleIs(spec: IamResources.RoleSpec, w: World, i: nat)
    requires IamResources.RoleConverged(spec, w.iam) && i < |spec.inline|
    ensures spec.name in w.iam.roles
    ensures spec.inline[i].name in w.iam.roles[spec.name].inline
            && w.iam.roles[spec.name].inline[spec.inline[i].name] == spec.inline[i].doc
  {
    assert spec.inline[i] in spec.inline;
  }

  /** The role is there, Lambda may assume it, and it carries that policy on that scope. */
  lemma GrantIs(spec: IamResources.RoleSpec, w: World, i: nat, policy: string, scope: string)
    requires IamResources.RoleConverged(spec, w.iam) && i < |spec.inline| && spec.inline[i] == Doc(policy, scope)
    ensures spec.name in w.iam.roles && Granted(w.iam.roles[spec.name], policy, scope)
  {
    RoleIs(spec, w, i);
  }

  lemma TrustIs(spec: IamResources.RoleSpec, w: World)
    requires IamResources.RoleConverged(spec, w.iam)
    ensures spec.name in w.iam.roles && w.iam.roles[spec.name].trust == spec.trust
    ensures forall a | a in spec.managed :: a in w.iam.roles[spec.name].attached
  {
  }

  /** The environment starts the adapter on that port, with the table. */
  predicate Starts(env: map<string, string>, port: string, table: string) {
    && "AWS_LAMBDA_EXEC_WRAPPER" in env && env["AWS_LAMBDA_EXEC_WRAPPER"] == "/opt/bootstrap"
    && "AWS_LWA_PORT" in env && env["AWS_LWA_PORT"] == port
    && "AWS_LWA_READINESS_CHECK_PATH" in env && env["AWS_LWA_READINESS_CHECK_PATH"] == "/healthz"
    && "FORAY_SESSIONS_TABLE" in env && env["FORAY_SESSIONS_TABLE"] == table
  }

  lemma GatewayEnv(cfg: Cfg)
    ensures Starts(GatewayFn(cfg).config.env, "8080", cfg.table)
  {
  }

  lemma WebApiEnv(cfg: Cfg)
    ensures var env := WebApiFn(cfg).config.env;
            && Starts(env, "8090", cfg.table)
            && "FORAY_DATA_BUCKET" in env && env["FORAY_DATA_BUCKET"] == cfg.dataBucket
            && "FORAY_PLAN_MODEL" in env && env["FORAY_PLAN_MODEL"] == cfg.planModel
            && "FORAY_BUDGET_CEILING" in env && env["FORAY_BUDGET_CEILING"] == cfg.ceiling
            && "PATH" in env && "/var/task/bin:" <= env["PATH"]
  {
    assert "FORAY_BUDGET_CEILING"[6] != "FORAY_SESSIONS_TABLE"[6];
  }

  lemma FnEquipped(cfg: Cfg, w: World, f: FunctionResource.FnSpec, spec: IamResources.RoleSpec, port: string)
    requires FunctionResource.FunctionConverged(f, w.lam) && TableResource.TableConverged(cfg.table, w.ddb)
    requires f.config.role == "arn:aws:iam::" + cfg.account + ":role/" + spec.name && f.config.layer == cfg.layer
             && f.config.timeout == 600
    requires Starts(f.config.env, port, cfg.table) && LogsKept(cfg, w, FnLogs(f.name))
    requires IamResources.RoleConverged(spec, w.iam) && spec.trust == "lambda.amazonaws.com"
    requires spec.managed == ["arn:aws:iam::aws:policy/service-role/AWSLambdaBasicExecutionRole"]
    requires |spec.inline| > 0 && spec.inline[0] == Doc("sessions-table", TableArn(cfg))
    ensures Equipped(cfg, w, f.name, spec.name, f.code, port)
  {
    hide Granted, IamResources.RoleConverged, LogsKept;
    TrustIs(spec, w);
    GrantIs(spec, w, 0, "sessions-table", TableArn(cfg));
    assert spec.managed[0] in spec.managed;
  }

  lemma GatewayEquipped(cfg: Cfg, w: World)
    requires Converged(cfg, w)
    ensures Equipped(cfg, w, "foray-gateway", "foray-gateway-lambda", cfg.gatewayCode, "8080")
  {
    hide Converged, LogsKept, IamResources.RoleConverged, FunctionResource.FunctionConverged, Equipped, Starts, FnEnv;
    StorageParts(cfg, w);
    RoleParts(cfg, w);
    FunctionParts(cfg, w);
    LogsAre(cfg, w);
    GatewayEnv(cfg);
    FnEquipped(cfg, w, GatewayFn(cfg), GatewayRole(cfg), "8080");
  }

  lemma WebApiEquipped(cfg: Cfg, w: World)
    requires Converged(cfg, w)
    ensures Equipped(cfg, w, "foray-webapi", "foray-webapi-lambda", cfg.webApiCode, "8090")
  {
    hide Converged, LogsKept, IamResources.RoleConverged, FunctionResource.FunctionConverged, Equipped, Starts, FnEnv;
    StorageParts(cfg, w);
    RoleParts(cfg, w);
    FunctionParts(cfg, w);
    LogsAre(cfg, w);
    WebApiEnv(cfg);
    FnEquipped(cfg, w, WebApiFn(cfg), WebApiRole(cfg), "8090");
  }

  lemma WebApiPlans(cfg: Cfg, w: World)
    requires Converged(cfg, w)
    ensures CanPlanAndLaunch(cfg, w, "foray-webapi", "foray-webapi-lambda")
  {
    hide Converged, Granted, IamResources.RoleConverged;
    StorageParts(cfg, w);
    RoleParts(cfg, w);
    FunctionParts(cfg, w);
    WebApiEnv(cfg);
    var spec := WebApiRole(cfg);
    GrantIs(spec, w, 1, "bedrock-invoke", cfg.account + "/" + cfg.planModel);
    GrantIs(spec, w, 2, "truffle-spot-pricing", "*");
    GrantIs(spec, w, 3, "data-bucket-sessions", cfg.dataBucket);
    GrantIs(spec, w, 4, "pass-spawn-role", cfg.account);
  }

  lemma ProfileIs(w: World)
    requires IamInv(w.iam) && IamResources.ProfileConverged(SPAWN_ROLE, SPAWN_ROLE, w.iam)
    ensures SPAWN_ROLE in w.iam.profiles && w.iam.profiles[SPAWN_ROLE] == {SPAWN_ROLE}
  {
  }

  lemma InstancesSave(cfg: Cfg, w: World)
    requires Inv(cfg, w) && Converged(cfg, w)
    ensures InstancesCanSave(w, "foray-webapi")
  {
    hide Converged, Granted, IamResources.RoleConverged, Api.GwInv, Api.PermInv, Cdn.CfInv;
    RoleParts(cfg, w);
    FunctionParts(cfg, w);
    WebApiEnv(cfg);
    ProfileIs(w);
    TrustIs(SpawnRole(cfg), w);
    GrantIs(SpawnRole(cfg), w, 0, "session-saves", cfg.dataBucket);
    RoleIs(SpawnRole(cfg), w, 1);
  }
}
