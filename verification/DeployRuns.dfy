/** Apply and Teardown over the whole list (internal/deploy/deploy.go), and what any sequence of
    runs, interrupted anywhere, leaves behind. */
module DeployRuns {
  import opened Text
  import opened Accounts
  import opened Actions
  import opened Deployment
  import opened TableResource
  import Api = HttpApiResource
  import Cdn = DistributionResource
  import Web = WebSyncResource
  import FunctionResource
  import Iam

  /** One line of the report. */
  datatype Action = Action(resource: Resource, op: Op, failed: bool)

  // ---------------------------------------------------------------- runs as traces

  /** `ws` are the account's states between the steps of an Apply and `os` the steps' outcomes:
      it walks the list forward and stops at the first failure. */
  ghost predicate Applied(cfg: Cfg, noWait: bool, ws: seq<World>, os: seq<Outcome>, calm: bool) {
    && |os| <= COUNT && |ws| == |os| + 1
    && StopsAtFailure(os)
    && (forall i | 0 <= i < |os| :: EnsureRel(At(cfg, i), noWait, ws[i], ws[i + 1], calm, os[i]))
  }

  ghost predicate StopsAtFailure(os: seq<Outcome>) {
    && (forall i | 0 <= i < |os| - 1 :: os[i].Done?)
    && (|os| < COUNT ==> |os| > 0 && os[|os| - 1].Failed?)
  }

  /** The resource the i-th step of a Teardown removes. */
  function Backward(cfg: Cfg, i: nat): Resource
    requires i < COUNT
  {
    At(cfg, COUNT - 1 - i)
  }

  /** A Teardown walks the list backward and attempts every resource whatever fails. */
  ghost predicate TornDown(cfg: Cfg, ws: seq<World>, os: seq<Outcome>, calm: bool) {
    && |os| == COUNT && |ws| == COUNT + 1
    && (forall i | 0 <= i < COUNT :: RemoveRel(Backward(cfg, i), ws[i], ws[i + 1], calm, os[i]))
  }

  ghost predicate AllDone(os: seq<Outcome>) {
    forall i | 0 <= i < |os| :: os[i].Done?
  }

  lemma EnsureWeakens(r: Resource, noWait: bool, w: World, w': World, c: bool, calm: bool, o: Outcome)
    requires EnsureRel(r, noWait, w, w', c, o) && (calm ==> c)
    ensures EnsureRel(r, noWait, w, w', calm, o)
  {
    hide Api.GwInv, Api.PermInv, Api.OthersKept, Api.OnlyGrants, Cdn.Grown, Cdn.OnlySettings, Cdn.DistConverged;
    hide Web.Mirrors, BucketResource.OnlyBucket;
  }

  lemma RemoveWeakens(r: Resource, w: World, w': World, c: bool, calm: bool, o: Outcome)
    requires RemoveRel(r, w, w', c, o) && (calm ==> c)
    ensures RemoveRel(r, w, w', calm, o)
  {
    hide Api.GwInv, Api.PermInv, Api.OthersKept, Api.OnlyGrants, Cdn.Shrunk;
  }

  lemma FreshKept(cfg: Cfg, i: nat, w: World)
    requires Valid(cfg) && i < COUNT && Api.Fresh(w.gw) && Cdn.CfFresh(w.cf)
    ensures Callable(At(cfg, i), w)
  {
    hide Api.Fresh, Cdn.CfFresh, GatewayFn, WebApiFn;
    PolicyNames(cfg);
    hide GatewayRole, WebApiRole, SpawnRole;
    RouteKeys(cfg);
    hide ApiOf;
  }

  lemma FreshBackward(cfg: Cfg, i: nat, w: World)
    requires Valid(cfg) && i < COUNT && Api.Fresh(w.gw) && Cdn.CfFresh(w.cf)
    ensures Callable(Backward(cfg, i), w)
  {
    FreshKept(cfg, COUNT - 1 - i, w);
  }

  lemma PolicyNames(cfg: Cfg)
    ensures IamResources.DistinctNames(GatewayRole(cfg).inline)
    ensures IamResources.DistinctNames(WebApiRole(cfg).inline)
    ensures IamResources.DistinctNames(SpawnRole(cfg).inline)
  {
  }

  lemma RouteKeys(cfg: Cfg)
    ensures Api.DistinctRoutes(ApiOf(cfg))
  {
  }

  lemma EnsureFresh(r: Resource, noWait: bool, w: World, w': World, calm: bool, o: Outcome)
    requires EnsureRel(r, noWait, w, w', calm, o) && Api.Fresh(w.gw) && Cdn.CfFresh(w.cf)
    ensures Api.Fresh(w'.gw) && Cdn.CfFresh(w'.cf)
  {
    hide Api.Fresh, Cdn.CfFresh;
  }

  lemma RemoveFresh(r: Resource, w: World, w': World, calm: bool, o: Outcome)
    requires RemoveRel(r, w, w', calm, o) && Api.Fresh(w.gw) && Cdn.CfFresh(w.cf)
    ensures Api.Fresh(w'.gw) && Cdn.CfFresh(w'.cf)
  {
    hide Api.Fresh, Cdn.CfFresh;
  }

  /** Creates what is missing, in dependency order, stopping at the first failure. */
  method Apply(a: Account, cfg: Cfg, dryRun: bool, noWait: bool)
    returns (out: seq<Action>, ok: bool, ghost ws: seq<World>, ghost os: seq<Outcome>)
    requires Valid(cfg) && Api.Fresh(a.gw) && Cdn.CfFresh(a.cf)
    modifies a
    ensures dryRun ==> ok && a.W() == old(a.W()) && |out| == COUNT
                       && forall i | 0 <= i < COUNT :: out[i] == Action(At(cfg, i), Plan, false)
    ensures !dryRun ==>
              && Applied(cfg, noWait, ws, os, old(a.Calm())) && ws[0] == old(a.W()) && ws[|os|] == a.W()
              && (ok <==> AllDone(os))
              && |out| == (if ok then COUNT else |os| - 1)
              && forall i | 0 <= i < |out| :: out[i] == Action(At(cfg, i), os[i].op, false)
    ensures Api.Fresh(a.gw) && Cdn.CfFresh(a.cf)
    ensures old(a.Calm()) ==> a.Calm()
  {
    hide Api.Fresh, Cdn.CfFresh, EnsureRel, Account.Calm, Callable, At, Valid;
    ghost var calm := a.Calm();
    out, ws, os := [], [a.W()], [];
    for i := 0 to COUNT
      invariant |out| == i && Api.Fresh(a.gw) && Cdn.CfFresh(a.cf)
      invariant calm ==> a.Calm()
      invariant dryRun ==> a.W() == old(a.W()) && forall j | 0 <= j < i :: out[j] == Action(At(cfg, j), Plan, false)
      invariant !dryRun ==> |os| == i && |ws| == i + 1 && ws[0] == old(a.W()) && ws[i] == a.W() && AllDone(os)
      invariant !dryRun ==> forall j | 0 <= j < i :: EnsureRel(At(cfg, j), noWait, ws[j], ws[j + 1], calm, os[j])
      invariant !dryRun ==> forall j | 0 <= j < i :: out[j] == Action(At(cfg, j), os[j].op, false)
    {
      var r := At(cfg, i);
      if dryRun {
        out := out + [Action(r, Plan, false)];
      } else {
        FreshKept(cfg, i, a.W());
        ghost var w, c := a.W(), a.Calm();
        var o := Ensure(a, r, noWait);
        EnsureWeakens(r, noWait, w, a.W(), c, calm, o);
        EnsureFresh(r, noWait, w, a.W(), calm, o);
        ws, os := ws + [a.W()], os + [o];
        if o.Failed? { return out, false, ws, os; }
        out := out + [Action(r, o.op, false)];
      }
    }
    ok := true;
  }

  /** Removes everything, in reverse order, whatever fails; `errs` are the resources that did. */
  method Teardown(a: Account, cfg: Cfg, dryRun: bool)
    returns (out: seq<Action>, errs: seq<Resource>, ghost ws: seq<World>, ghost os: seq<Outcome>)
    requires Valid(cfg) && Api.Fresh(a.gw) && Cdn.CfFresh(a.cf)
    modifies a
    ensures |out| == COUNT && forall i | 0 <= i < COUNT :: out[i].resource == Backward(cfg, i)
    // The errors are the actions marked as failed, one for one and in order.
    ensures errs == FailedOf(out)
    ensures dryRun ==> errs == [] && a.W() == old(a.W()) && forall i | 0 <= i < COUNT :: out[i].op == Plan
    ensures !dryRun ==>
              && TornDown(cfg, ws, os, old(a.Calm())) && ws[0] == old(a.W()) && ws[COUNT] == a.W()
              && forall i | 0 <= i < COUNT ::
                   out[i] == Action(Backward(cfg, i), if os[i].Done? then os[i].op else Delete, os[i].Failed?)
    ensures Api.Fresh(a.gw) && Cdn.CfFresh(a.cf)
    ensures old(a.Calm()) ==> a.Calm()
  {
    hide Api.Fresh, Cdn.CfFresh, RemoveRel, Account.Calm, Callable, At, Backward, Valid, FailedOf;
    FailedNone();
    ghost var calm := a.Calm();
    out, errs, ws, os := [], [], [a.W()], [];
    for i := 0 to COUNT
      invariant |out| == i && Api.Fresh(a.gw) && Cdn.CfFresh(a.cf)
      invariant calm ==> a.Calm()
      invariant forall j | 0 <= j < i :: out[j].resource == Backward(cfg, j)
      invariant errs == FailedOf(out)
      invariant dryRun ==> errs == [] && a.W() == old(a.W()) && forall j | 0 <= j < i :: out[j].op == Plan
      invariant !dryRun ==> |os| == i && |ws| == i + 1 && ws[0] == old(a.W()) && ws[i] == a.W()
      invariant !dryRun ==> forall j | 0 <= j < i :: RemoveRel(Backward(cfg, j), ws[j], ws[j + 1], calm, os[j])
      invariant !dryRun ==> forall j | 0 <= j < i ::
                  out[j] == Action(Backward(cfg, j), if os[j].Done? then os[j].op else Delete, os[j].Failed?)
    {
      var r := Backward(cfg, i);
      if dryRun {
        FailedSnoc(out, Action(r, Plan, false));
        out := out + [Action(r, Plan, false)];
      } else {
        FreshBackward(cfg, i, a.W());
        ghost var w, c := a.W(), a.Calm();
        var o := Remove(a, r);
        RemoveWeakens(r, w, a.W(), c, calm, o);
        RemoveFresh(r, w, a.W(), calm, o);
        ws, os := ws + [a.W()], os + [o];
        if o.Failed? {
          errs := errs + [r];
          FailedSnoc(out, Action(r, Delete, true));
          out := out + [Action(r, Delete, true)];
        } else {
          FailedSnoc(out, Action(r, o.op, false));
          out := out + [Action(r, o.op, false)];
        }
      }
    }
  }

  /** The resources of the actions marked as failed. */
  function FailedOf(out: seq<Action>): seq<Resource> {
    if out == [] then []
    else
      var last := out[|out| - 1];
      FailedOf(out[..|out| - 1]) + (if last.failed then [last.resource] else [])
  }

  lemma FailedNone()
    ensures FailedOf([]) == []
  {
  }

  lemma FailedSnoc(out: seq<Action>, x: Action)
    ensures FailedOf(out + [x]) == FailedOf(out) + (if x.failed then [x.resource] else [])
  {
    assert (out + [x])[..|out|] == out;
  }

  lemma {:induction false} NothingFailed(out: seq<Action>)
    ensures FailedOf(out) == [] <==> forall i | 0 <= i < |out| :: !out[i].failed
  {
    if out != [] { NothingFailed(out[..|out| - 1]); }
  }

  // ---------------------------------------------------------------- the invariant, under any faults

  lemma ApplyKeepsInv(cfg: Cfg, noWait: bool, ws: seq<World>, os: seq<Outcome>, calm: bool)
    requires Applied(cfg, noWait, ws, os, calm) && Inv(cfg, ws[0])
    ensures forall k | 0 <= k < |ws| :: Inv(cfg, ws[k])
  {
    hide EnsureRel, Inv, Belongs;
    for k := 0 to |os|
      invariant forall j | 0 <= j <= k :: Inv(cfg, ws[j])
    {
      AllBelong(cfg);
      hide At;
      EnsureKeepsInv(cfg, At(cfg, k), noWait, ws[k], ws[k + 1], calm, os[k]);
    }
  }

  lemma TeardownKeepsInv(cfg: Cfg, ws: seq<World>, os: seq<Outcome>, calm: bool)
    requires TornDown(cfg, ws, os, calm) && Inv(cfg, ws[0])
    ensures forall k | 0 <= k < |ws| :: Inv(cfg, ws[k])
  {
    hide RemoveRel, Inv, Belongs;
    for k := 0 to COUNT
      invariant forall j | 0 <= j <= k :: Inv(cfg, ws[j])
    {
      AllBelong(cfg);
      hide At;
      RemoveKeepsInv(cfg, Backward(cfg, k), ws[k], ws[k + 1], calm, os[k]);
    }
  }

  // ---------------------------------------------------------------- Apply converges

  /** Both functions are there, or IAM propagates within the attempts made to create one. */
  predicate FunctionsFit(w: World) {
    (GATEWAY_FN in w.lam.functions && WEBAPI_FN in w.lam.functions) || w.lam.notReady < FunctionResource.CREATE_ATTEMPTS
  }

  /** The packages and the page can be read, and the bucket names are not another account's. */
  predicate Deployable(cfg: Cfg, w: World) {
    && cfg.gatewayCode.Some? && cfg.webApiCode.Some? && cfg.site.Some? && Web.Readable(cfg.site.value)
    && cfg.webBucket !in w.s3.foreign && cfg.dataBucket !in w.s3.foreign
  }

  /** Besides that, what propagates does so within the waits. */
  ghost predicate Passable(cfg: Cfg, noWait: bool, w: World) {
    && Deployable(cfg, w) && FunctionsFit(w)
    && ((exists i :: Cdn.Ours(w.cf, i)) || noWait || w.cf.settle <= Cdn.DEPLOY_LOOKS)
  }

  /** The configuration is valid and the account satisfies the invariant. */
  ghost predicate Runnable(cfg: Cfg, noWait: bool, w: World) {
    Valid(cfg) && Inv(cfg, w) && Passable(cfg, noWait, w)
  }

  /** What converging takes beyond that: the table absent or on-demand, the distribution absent or enabled. */
  ghost predicate Fit(cfg: Cfg, noWait: bool, w: World) {
    Runnable(cfg, noWait, w) && TableFit(cfg.table, w.ddb) && Cdn.EnabledOrAbsent(w.cf)
  }

  lemma RunnableKept(cfg: Cfg, r: Resource, noWait: bool, w: World, w': World, calm: bool, o: Outcome)
    requires Belongs(cfg, r) && EnsureRel(r, noWait, w, w', calm, o) && Runnable(cfg, noWait, w)
    ensures Runnable(cfg, noWait, w')
  {
    hide Inv, Belongs, EnsureRel, Valid, Web.Readable;
    EnsureKeepsInv(cfg, r, noWait, w, w', calm, o);
    EnsureFrame(r, noWait, w, w', calm, o);
  }

  /** What no ensure changes, whatever faults: who owns a name, how long a change takes to propagate, which
      functions are there, and that IAM only settles. */
  lemma EnsureFrame(r: Resource, noWait: bool, w: World, w': World, calm: bool, o: Outcome)
    requires EnsureRel(r, noWait, w, w', calm, o)
    ensures w'.s3.foreign == w.s3.foreign && w.lam.functions.Keys <= w'.lam.functions.Keys
    ensures w'.lam.notReady <= w.lam.notReady && w'.cf.settle == w.cf.settle
    ensures !r.Distribution? ==> w'.cf == w.cf
    ensures (exists i :: Cdn.Ours(w.cf, i)) ==> exists i :: Cdn.Ours(w'.cf, i)
    ensures !r.Table? ==> w'.ddb == w.ddb
    ensures !r.Function? ==> w'.lam.functions.Keys == w.lam.functions.Keys && w'.lam.notReady == w.lam.notReady
  {
    hide Cdn.DistEnsured, Api.ApiEnsured, TableEnsured, Web.Mirrors, IamResources.RoleConverged;
    if r.Distribution? { DistKeepsSettled(r.dist, noWait, w, w', calm, o); }
    if r.HttpApi? { ApiKeepsFunctions(r.api, w, w', calm, o); }
  }

  /** Every step keeps this, so an Apply interrupted at any call can be run again. */
  lemma FitKept(cfg: Cfg, r: Resource, noWait: bool, w: World, w': World, calm: bool, o: Outcome)
    requires Belongs(cfg, r) && EnsureRel(r, noWait, w, w', calm, o) && Fit(cfg, noWait, w)
    ensures Fit(cfg, noWait, w')
  {
    RunnableKept(cfg, r, noWait, w, w', calm, o);
    EnabledKept(r, noWait, w, w', calm, o);
    hide Runnable, Cdn.EnabledOrAbsent, Belongs, Cdn.DistEnsured, Api.ApiEnsured, BucketResource.BucketEnsured;
    hide IamResources.RoleEnsured, Web.SyncEnsured, FunctionResource.FunctionEnsured;
  }

  lemma EnabledKept(r: Resource, noWait: bool, w: World, w': World, calm: bool, o: Outcome)
    requires EnsureRel(r, noWait, w, w', calm, o) && Cdn.EnabledOrAbsent(w.cf)
    ensures Cdn.EnabledOrAbsent(w'.cf)
  {
    hide Cdn.CfInv, Cdn.CfFresh, Api.ApiEnsured, TableEnsured, BucketResource.BucketEnsured, Web.SyncEnsured;
    hide IamResources.RoleEnsured, FunctionResource.FunctionEnsured;
    if r.Distribution? { DistKeepsFit(r.dist, noWait, w, w', calm, o); }
  }

  lemma DistKeepsFit(spec: Cdn.DistSpec, noWait: bool, w: World, w': World, calm: bool, o: Outcome)
    requires Cdn.DistEnsured(spec, noWait, w.gw, w.cf, w'.cf, w.s3, w'.s3, calm, o) && Cdn.EnabledOrAbsent(w.cf)
    ensures Cdn.EnabledOrAbsent(w'.cf)
  {
  }

  lemma DistKeepsSettled(spec: Cdn.DistSpec, noWait: bool, w: World, w': World, calm: bool, o: Outcome)
    requires Cdn.DistEnsured(spec, noWait, w.gw, w.cf, w'.cf, w.s3, w'.s3, calm, o)
    ensures w'.s3.foreign == w.s3.foreign && w'.cf.settle == w.cf.settle
    ensures (exists i :: Cdn.Ours(w.cf, i)) ==> exists i :: Cdn.Ours(w'.cf, i)
  {
  }

  lemma ApiKeepsFunctions(spec: Api.ApiSpec, w: World, w': World, calm: bool, o: Outcome)
    requires Api.ApiEnsured(spec, w.gw, w'.gw, w.lam, w'.lam, calm, o)
    ensures w'.lam.notReady == w.lam.notReady && w'.lam.functions.Keys == w.lam.functions.Keys
  {
  }

  /** The positions of the two resources Apply can complete without converging. */
  const TABLE := 0
  const CDN := 13

  /** The first `k` resources are converged, those at `skip` aside. */
  ghost predicate ConvergedBut(cfg: Cfg, skip: set<nat>, k: nat, w: World)
    requires k <= COUNT
  {
    forall j: nat | j < k && j !in skip :: ConvergedOf(At(cfg, j), w)
  }

  /** A resource is ready once those before it are converged. */
  lemma ReadyInTurn(cfg: Cfg, i: nat, skip: set<nat>, noWait: bool, w: World)
    requires 0 < i < COUNT && i != CDN && Runnable(cfg, noWait, w) && ConvergedBut(cfg, skip, i, w)
             && skip <= {TABLE, CDN}
    ensures ReadyOf(At(cfg, i), noWait, w)
  {
    hide ConvergedBut, Api.GwInv, Api.PermInv, Cdn.CfInv, Web.Readable, Valid, TtlActive;
    hide GatewayRole, WebApiRole, SpawnRole, FnLogs, DistOf;
    if i == 12 {
      FunctionsThere(cfg, i, skip, w);
      hide GatewayFn, WebApiFn;
    } else {
      hide ApiOf;
      if i == 14 { BucketsThere(cfg, i, skip, w); }
    }
  }

  lemma CdnReadyInTurn(cfg: Cfg, skip: set<nat>, noWait: bool, w: World)
    requires Runnable(cfg, noWait, w) && ConvergedBut(cfg, skip, CDN, w) && skip <= {TABLE, CDN}
    ensures At(cfg, CDN) == Distribution(DistOf(cfg))
    ensures Cdn.CfInv(w.cf) && Api.GwInv(DistOf(cfg).apiName, w.gw)
            && Cdn.DistReady(DistOf(cfg), noWait, w.gw, w.cf, w.s3)
  {
    hide At, ConvergedBut, Api.GwInv, Api.PermInv, Cdn.CfInv, Web.Readable, Valid, TtlActive;
    Positions(cfg);
    BucketsThere(cfg, CDN, skip, w);
    ApiThere(cfg, skip, w);
    ApiName(cfg);
    hide ApiOf;
  }

  lemma FunctionsThere(cfg: Cfg, i: nat, skip: set<nat>, w: World)
    requires 10 < i < COUNT && ConvergedBut(cfg, skip, i, w) && skip <= {TABLE, CDN}
    ensures GATEWAY_FN in w.lam.functions && WEBAPI_FN in w.lam.functions
  {
    hide At, GatewayFn, WebApiFn;
    Positions(cfg);
    FnNames(cfg);
    assert ConvergedOf(At(cfg, 9), w) && ConvergedOf(At(cfg, 10), w);
  }

  lemma BucketsThere(cfg: Cfg, i: nat, skip: set<nat>, w: World)
    requires 2 < i < COUNT && ConvergedBut(cfg, skip, i, w) && skip <= {TABLE, CDN}
    ensures cfg.webBucket in w.s3.buckets && cfg.dataBucket in w.s3.buckets
  {
    hide At;
    Positions(cfg);
    assert ConvergedOf(At(cfg, 1), w) && ConvergedOf(At(cfg, 2), w);
  }

  lemma ApiThere(cfg: Cfg, skip: set<nat>, w: World)
    requires ConvergedBut(cfg, skip, CDN, w) && skip <= {TABLE, CDN}
    ensures exists x :: Api.Mine(API_NAME, w.gw, x)
  {
    hide At, Api.ApiConverged;
    Positions(cfg);
    assert ConvergedOf(At(cfg, 12), w);
    ConvergedApiExists(ApiOf(cfg), w);
  }

  lemma KeptUpTo(cfg: Cfg, k: nat, skip: set<nat>, noWait: bool, w: World, w': World, calm: bool, o: Outcome)
    requires Valid(cfg) && k < COUNT && ConvergedBut(cfg, skip, k, w)
    requires EnsureRel(At(cfg, k), noWait, w, w', calm, o)
    ensures ConvergedBut(cfg, skip, k, w')
  {
    AllBelong(cfg);
    hide EnsureRel, ConvergedOf, Resources;
    forall j: nat | j < k && j !in skip ensures ConvergedOf(At(cfg, j), w') {
      assert ConvergedOf(At(cfg, j), w);
      ResourcesApart(cfg, k, j);
      ApiName(cfg);
      EnsureKeepsOthers(At(cfg, k), At(cfg, j), noWait, w, w', calm, o);
    }
  }

  /** What Apply completes without converging: a table on another billing mode, a disabled distribution. */
  ghost function Skipped(cfg: Cfg, w: World): set<nat> {
    (if TableReady(cfg.table, w.ddb) then {} else {TABLE}) + (if Cdn.EnabledOrAbsent(w.cf) then {} else {CDN})
  }

  lemma StepDone(cfg: Cfg, k: nat, skip: set<nat>, noWait: bool, w: World, w': World, o: Outcome)
    requires k < COUNT && Runnable(cfg, noWait, w) && ConvergedBut(cfg, skip, k, w) && skip <= {TABLE, CDN}
    requires EnsureRel(At(cfg, k), noWait, w, w', true, o)
    requires k == TABLE ==> TablePasses(cfg.table, w.ddb) && (k !in skip ==> TableReady(cfg.table, w.ddb))
    requires k == CDN && k !in skip ==> Cdn.EnabledOrAbsent(w.cf)
    ensures o.Done? && Refusals(w') == Refusals(w) && (k !in skip ==> ConvergedOf(At(cfg, k), w'))
  {
    hide ConvergedBut, Runnable, At, TablePasses, TableReady, Cdn.EnabledOrAbsent, Refusals, DistOf;
    hide ReadyOf, ConvergedOf, EnsureRel;
    Positions(cfg);
    if k == TABLE {
      TableStepDone(cfg.table, noWait, w, w', o);
    } else if k == CDN {
      CdnReadyInTurn(cfg, skip, noWait, w);
      CdnStepDone(DistOf(cfg), noWait, w, w', o);
    } else {
      ReadyInTurn(cfg, k, skip, noWait, w);
      GoodEnsure(At(cfg, k), noWait, w, w', true, o);
    }
  }

  lemma TableStepDone(t: string, noWait: bool, w: World, w': World, o: Outcome)
    requires EnsureRel(Table(t), noWait, w, w', true, o) && TablePasses(t, w.ddb)
    ensures o.Done? && Refusals(w') == Refusals(w) && (TableReady(t, w.ddb) ==> ConvergedOf(Table(t), w'))
  {
    hide TablePasses, TableReady, TtlActive, TableConverged;
  }

  lemma CdnStepDone(spec: Cdn.DistSpec, noWait: bool, w: World, w': World, o: Outcome)
    requires EnsureRel(Distribution(spec), noWait, w, w', true, o)
    requires Cdn.CfInv(w.cf) && Api.GwInv(spec.apiName, w.gw) && Cdn.DistReady(spec, noWait, w.gw, w.cf, w.s3)
    ensures o.Done? && Refusals(w') == Refusals(w)
    ensures Cdn.EnabledOrAbsent(w.cf) ==> ConvergedOf(Distribution(spec), w')
  {
    hide Cdn.CfInv, Api.GwInv, Cdn.DistReady, Cdn.EnabledOrAbsent, Cdn.DistConverged, Cdn.CfFresh;
  }

  /** A fault-free Apply that gets past the table completes every step without a refusal, and converges all
      but what it never converges. */
  lemma ApplyCompletes(cfg: Cfg, noWait: bool, ws: seq<World>, os: seq<Outcome>)
    requires Applied(cfg, noWait, ws, os, true)
    requires Runnable(cfg, noWait, ws[0]) && TablePasses(cfg.table, ws[0].ddb)
    ensures |os| == COUNT && AllDone(os) && ConvergedBut(cfg, Skipped(cfg, ws[0]), COUNT, ws[COUNT])
    ensures forall k | 0 <= k < |ws| :: Refusals(ws[k]) == Refusals(ws[0])
  {
    AllBelong(cfg);
    hide EnsureRel, Runnable, ConvergedOf, Resources, Belongs, TablePasses, TableReady, Cdn.EnabledOrAbsent;
    assert Valid(cfg) by { RunnableValid(cfg, noWait, ws[0]); }
    var skip := Skipped(cfg, ws[0]);
    for k := 0 to |os|
      invariant Runnable(cfg, noWait, ws[k]) && ConvergedBut(cfg, skip, k, ws[k])
      invariant Cdn.EnabledOrAbsent(ws[0].cf) ==> Cdn.EnabledOrAbsent(ws[k].cf)
      invariant forall j | 0 <= j <= k :: Refusals(ws[j]) == Refusals(ws[0])
      invariant forall j | 0 <= j < k :: os[j].Done?
    {
      hide Refusals;
      StepDone(cfg, k, skip, noWait, ws[k], ws[k + 1], os[k]);
      RunnableKept(cfg, At(cfg, k), noWait, ws[k], ws[k + 1], true, os[k]);
      KeptUpTo(cfg, k, skip, noWait, ws[k], ws[k + 1], true, os[k]);
      if Cdn.EnabledOrAbsent(ws[k].cf) { EnabledKept(At(cfg, k), noWait, ws[k], ws[k + 1], true, os[k]); }
    }
  }

  lemma RunnableValid(cfg: Cfg, noWait: bool, w: World)
    requires Runnable(cfg, noWait, w)
    ensures Valid(cfg) && Inv(cfg, w) && TtlActive(cfg.table, w.ddb)
  {
  }

  /** Run without faults from any fit account, unless its on-demand table is still being created, Apply
      meets no refusal, completes every step, and leaves everything converged. */
  lemma ApplyConverges(cfg: Cfg, noWait: bool, ws: seq<World>, os: seq<Outcome>)
    requires Applied(cfg, noWait, ws, os, true)
    requires Fit(cfg, noWait, ws[0]) && !TooEarly(cfg.table, ws[0].ddb)
    ensures |os| == COUNT && AllDone(os)
    ensures Converged(cfg, ws[COUNT])
    ensures forall k | 0 <= k < |ws| :: Refusals(ws[k]) == Refusals(ws[0])
  {
    hide EnsureRel, ConvergedOf, At, Runnable, TooEarly, Refusals, Cdn.EnabledOrAbsent;
    RunnableValid(cfg, noWait, ws[0]);
    assert Skipped(cfg, ws[0]) == {};
    ApplyCompletes(cfg, noWait, ws, os);
  }

  /** Exactly when a fault-free Apply completes, from any account the invariant holds of and whatever the
      distribution. The one refusal it can meet is at an on-demand table still being created, where it stops. */
  lemma ApplyCompletesIff(cfg: Cfg, noWait: bool, ws: seq<World>, os: seq<Outcome>)
    requires Applied(cfg, noWait, ws, os, true) && Valid(cfg) && Inv(cfg, ws[0])
    ensures AllDone(os) <==> Passable(cfg, noWait, ws[0]) && TablePasses(cfg.table, ws[0].ddb)
    ensures AllDone(os) ==> |os| == COUNT
    ensures !TablePasses(cfg.table, ws[0].ddb) ==> os == [Failed]
    ensures Refusals(ws[|os|]) == Refusals(ws[0]) +
              (if cfg.table in ws[0].ddb.tables && !TablePasses(cfg.table, ws[0].ddb) then 1 else 0)
  {
    hide Passable, Inv, Valid, TablePasses, At, EnsureRel, StopsAtFailure, Refusals;
    FirstStep(cfg, noWait, ws, os, true);
    Positions(cfg);
    if !TablePasses(cfg.table, ws[0].ddb) {
      TableStepFails(cfg.table, noWait, ws[0], ws[1], os[0]);
    } else {
      ApplyUnrefused(cfg, noWait, ws, os);
      if Passable(cfg, noWait, ws[0]) {
        ApplyCompletes(cfg, noWait, ws, os);
      } else if AllDone(os) {
        CompletesOnlyIf(cfg, noWait, ws, os);
      }
    }
  }

  /** Past the table no fault-free step is refused, whether it completes or not. */
  lemma ApplyUnrefused(cfg: Cfg, noWait: bool, ws: seq<World>, os: seq<Outcome>)
    requires Applied(cfg, noWait, ws, os, true) && Inv(cfg, ws[0]) && TablePasses(cfg.table, ws[0].ddb)
    ensures Refusals(ws[|os|]) == Refusals(ws[0])
  {
    AllBelong(cfg);
    hide EnsureRel, Inv, Belongs, At, Resources, Refusals, TablePasses;
    ApplyKeepsInv(cfg, noWait, ws, os, true);
    Positions(cfg);
    for k := 0 to |os|
      invariant Refusals(ws[k]) == Refusals(ws[0])
    {
      Kinds(cfg, k);
      if k == 0 {
        TableStepDone(cfg.table, noWait, ws[0], ws[1], os[0]);
      } else {
        StepUnrefused(cfg, At(cfg, k), noWait, ws[k], ws[k + 1], os[k]);
      }
    }
  }

  lemma StepUnrefused(cfg: Cfg, r: Resource, noWait: bool, w: World, w': World, o: Outcome)
    requires Belongs(cfg, r) && Inv(cfg, w) && EnsureRel(r, noWait, w, w', true, o) && !r.Table?
    ensures Refusals(w') == Refusals(w)
  {
    hide Api.GwInv, Api.PermInv, Cdn.CfInv, Api.ApiEnsured, Cdn.DistConverged, Cdn.DistReady, Cdn.EnabledOrAbsent;
    hide Web.Mirrors, IamResources.RoleConverged, FunctionResource.FunctionEnsured, DistOf, ApiOf;
  }

  /** What a completed fault-free Apply shows of the account it began with. */
  lemma CompletesOnlyIf(cfg: Cfg, noWait: bool, ws: seq<World>, os: seq<Outcome>)
    requires Applied(cfg, noWait, ws, os, true) && AllDone(os) && Inv(cfg, ws[0])
    ensures Passable(cfg, noWait, ws[0])
  {
    hide EnsureRel, Inv, At, Passable, Web.Readable, GatewayFn, WebApiFn, DistOf, ApiOf;
    assert |os| == COUNT;
    Positions(cfg);
    ApplyKeepsInv(cfg, noWait, ws, os, true);
    ApplyFrame(cfg, noWait, ws, os);
    BucketStepShows(cfg.webBucket, false, noWait, ws[1], ws[2], os[1]);
    BucketStepShows(cfg.dataBucket, true, noWait, ws[2], ws[3], os[2]);
    FunctionStepsShow(cfg, noWait, ws[9], ws[10], ws[11], os[9], os[10]);
    InvMeans(cfg, ws[13]);
    CdnStepShows(cfg, noWait, ws[13], ws[14], os[13]);
    SyncStepShows(cfg.webBucket, cfg.site, noWait, ws[14], ws[15], os[14]);
    Gathered(cfg, noWait, ws[0]);
  }

  lemma Gathered(cfg: Cfg, noWait: bool, w: World)
    requires cfg.gatewayCode.Some? && cfg.webApiCode.Some? && cfg.site.Some? && Web.Readable(cfg.site.value)
    requires cfg.webBucket !in w.s3.foreign && cfg.dataBucket !in w.s3.foreign && FunctionsFit(w)
    requires (exists i :: Cdn.Ours(w.cf, i)) || noWait || w.cf.settle <= Cdn.DEPLOY_LOOKS
    ensures Passable(cfg, noWait, w)
  {
    hide Web.Readable, FunctionsFit;
  }

  /** What later steps find of the account as it was. */
  lemma ApplyFrame(cfg: Cfg, noWait: bool, ws: seq<World>, os: seq<Outcome>)
    requires Applied(cfg, noWait, ws, os, true)
    ensures forall k | 0 <= k < |ws| :: ws[k].s3.foreign == ws[0].s3.foreign
    ensures forall k | 0 <= k < |ws| && k <= 13 :: ws[k].cf == ws[0].cf
    ensures forall k | 0 <= k < |ws| && k <= 9 ::
              ws[k].lam.functions.Keys == ws[0].lam.functions.Keys && ws[k].lam.notReady == ws[0].lam.notReady
  {
    hide EnsureRel, At;
    for k := 0 to |os|
      invariant forall j | 0 <= j <= k :: ws[j].s3.foreign == ws[0].s3.foreign
      invariant forall j | 0 <= j <= k && j <= 13 :: ws[j].cf == ws[0].cf
      invariant forall j | 0 <= j <= k && j <= 9 ::
                  ws[j].lam.functions.Keys == ws[0].lam.functions.Keys && ws[j].lam.notReady == ws[0].lam.notReady
    {
      Kinds(cfg, k);
      EnsureFrame(At(cfg, k), noWait, ws[k], ws[k + 1], true, os[k]);
    }
  }

  lemma BucketStepShows(b: string, l: bool, noWait: bool, w: World, w': World, o: Outcome)
    requires EnsureRel(Bucket(b, l), noWait, w, w', true, o) && o.Done?
    ensures b !in w.s3.foreign
  {
  }

  lemma FunctionStepsShow(cfg: Cfg, noWait: bool, u: World, v: World, w: World, o: Outcome, q: Outcome)
    requires EnsureRel(Function(GatewayFn(cfg)), noWait, u, v, true, o) && o.Done?
    requires EnsureRel(Function(WebApiFn(cfg)), noWait, v, w, true, q) && q.Done?
    ensures cfg.gatewayCode.Some? && cfg.webApiCode.Some? && FunctionsFit(u)
  {
    hide FunctionResource.FunctionConverged, FunctionResource.Perms;
    FnSpecs(cfg);
    NamesApart();
    hide GatewayFn, WebApiFn;
  }

  lemma FnSpecs(cfg: Cfg)
    ensures GatewayFn(cfg).name == GATEWAY_FN && GatewayFn(cfg).code == cfg.gatewayCode
    ensures WebApiFn(cfg).name == WEBAPI_FN && WebApiFn(cfg).code == cfg.webApiCode
  {
  }

  lemma CdnStepShows(cfg: Cfg, noWait: bool, w: World, w': World, o: Outcome)
    requires EnsureRel(Distribution(DistOf(cfg)), noWait, w, w', true, o) && o.Done?
    requires Cdn.CfInv(w.cf) && Api.GwInv(API_NAME, w.gw)
    ensures (exists i :: Cdn.Ours(w.cf, i)) || noWait || w.cf.settle <= Cdn.DEPLOY_LOOKS
  {
    hide Cdn.CfInv, Api.GwInv, Cdn.Grown, Cdn.OnlySettings, Cdn.DistConverged, Cdn.EnabledOrAbsent;
    ApiName(cfg);
    hide DistOf;
  }

  lemma SyncStepShows(b: string, site: Web.Local, noWait: bool, w: World, w': World, o: Outcome)
    requires EnsureRel(WebSync(b, site), noWait, w, w', true, o) && o.Done?
    ensures site.Some? && Web.Readable(site.value)
  {
  }

  lemma FirstStep(cfg: Cfg, noWait: bool, ws: seq<World>, os: seq<Outcome>, calm: bool)
    requires Applied(cfg, noWait, ws, os, calm)
    ensures |os| > 0 && |ws| > 1 && EnsureRel(At(cfg, 0), noWait, ws[0], ws[1], calm, os[0])
    ensures os[0].Failed? ==> os == [Failed]
  {
    hide EnsureRel, At;
  }

  lemma TableStepFails(t: string, noWait: bool, w: World, w': World, o: Outcome)
    requires EnsureRel(Table(t), noWait, w, w', true, o) && !TablePasses(t, w.ddb)
    ensures o.Failed? && Refusals(w') == Refusals(w) + (if t in w.ddb.tables then 1 else 0)
  {
    hide TablePasses, TableReady, TtlActive, TableConverged;
  }

  /** Exactly when a fault-free Apply converges the account, from any account the invariant holds of. */
  lemma ApplyConvergesIff(cfg: Cfg, noWait: bool, ws: seq<World>, os: seq<Outcome>)
    requires Applied(cfg, noWait, ws, os, true) && Valid(cfg) && Inv(cfg, ws[0])
    ensures AllDone(os) && Converged(cfg, ws[|os|]) <==>
            && Passable(cfg, noWait, ws[0])
            && Cdn.EnabledOrAbsent(ws[0].cf)
            && TableFit(cfg.table, ws[0].ddb) && !TooEarly(cfg.table, ws[0].ddb)
  {
    hide Passable, Valid, Inv, At, EnsureRel, Converged, Cdn.EnabledOrAbsent, Refusals, TooEarly;
    ApplyCompletesIff(cfg, noWait, ws, os);
    InvMeans(cfg, ws[0]);
    if AllDone(os) && Converged(cfg, ws[|os|]) {
      ConvergedOnlyIfEnabled(cfg, noWait, ws, os, true);
      ConvergedOnlyIfTableFits(cfg, noWait, ws, os);
    } else if Passable(cfg, noWait, ws[0]) && Cdn.EnabledOrAbsent(ws[0].cf)
              && TableFit(cfg.table, ws[0].ddb) && !TooEarly(cfg.table, ws[0].ddb) {
      ApplyConverges(cfg, noWait, ws, os);
    }
  }

  /** A table on another billing mode is never switched. */
  lemma ConvergedOnlyIfTableFits(cfg: Cfg, noWait: bool, ws: seq<World>, os: seq<Outcome>)
    requires Applied(cfg, noWait, ws, os, true) && AllDone(os) && Converged(cfg, ws[|os|])
    requires TablePasses(cfg.table, ws[0].ddb)
    ensures TableFit(cfg.table, ws[0].ddb) && !TooEarly(cfg.table, ws[0].ddb)
  {
    hide At, EnsureRel, TooEarly, TablePasses, Converged;
    ConvergedHas(cfg, 0, ws[|os|]);
    Positions(cfg);
    hide ConvergedOf;
    assert BillingFits(cfg.table, ws[|os|]) by { TableBilled(cfg.table, ws[|os|]); }
    for k := |os| downto 0
      invariant 0 <= k <= |os| && BillingFits(cfg.table, ws[k])
    {
      BillingBefore(At(cfg, k), cfg.table, noWait, ws[k], ws[k + 1], true, os[k]);
    }
    PassingFits(cfg.table, ws[0]);
  }

  lemma TableBilled(t: string, w: World)
    requires ConvergedOf(Table(t), w)
    ensures BillingFits(t, w)
  {
  }

  predicate BillingFits(t: string, w: World) {
    t in w.ddb.tables ==> w.ddb.tables[t].billing == TableResource.DynamoDb.PayPerRequest
  }

  lemma PassingFits(t: string, w: World)
    requires TablePasses(t, w.ddb) && BillingFits(t, w)
    ensures TableFit(t, w.ddb) && !TooEarly(t, w.ddb)
  {
  }

  lemma BillingBefore(r: Resource, t: string, noWait: bool, w: World, w': World, calm: bool, o: Outcome)
    requires EnsureRel(r, noWait, w, w', calm, o) && BillingFits(t, w')
    ensures BillingFits(t, w)
  {
    hide Api.ApiEnsured, Cdn.DistEnsured, BucketResource.BucketEnsured, Web.SyncEnsured, IamResources.RoleEnsured;
    hide FunctionResource.FunctionEnsured, TableReady, TtlActive, TablePasses;
  }

  /** Interrupted at any call, Apply leaves an account it can be run again on, the table's own
      creation aside. */
  lemma InterruptedApplyStaysFit(cfg: Cfg, noWait: bool, ws: seq<World>, os: seq<Outcome>, calm: bool)
    requires Applied(cfg, noWait, ws, os, calm) && Fit(cfg, noWait, ws[0])
    ensures forall k | 0 <= k < |ws| :: Fit(cfg, noWait, ws[k])
  {
    AllBelong(cfg);
    hide EnsureRel, Fit, Belongs, Resources;
    for k := 0 to |os|
      invariant forall j | 0 <= j <= k :: Fit(cfg, noWait, ws[j])
    {
      FitKept(cfg, At(cfg, k), noWait, ws[k], ws[k + 1], calm, os[k]);
    }
  }

  /** On a converged account every resource is ready, and none of its steps changes anything. */
  lemma ConvergedReady(cfg: Cfg, i: nat, noWait: bool, w: World)
    requires i < COUNT && Inv(cfg, w) && Converged(cfg, w)
    ensures ReadyOf(At(cfg, i), noWait, w)
  {
    hide Api.GwInv, Api.PermInv, Cdn.CfInv, Cdn.EnabledOrAbsent, Cdn.DistConverged, Converged, ConvergedBut;
    hide GatewayRole, WebApiRole, SpawnRole, FnLogs, DistOf;
    ConvergedHas(cfg, i, w);
    if i == 12 {
      ConvergedPrefix(cfg, 12, w);
      FunctionsThere(cfg, 12, {}, w);
      hide GatewayFn, WebApiFn;
    } else {
      hide ApiOf;
      if i == 13 {
        ConvergedDistExists(DistOf(cfg), w);
        ApiName(cfg);
      } else if i == 14 {
        ConvergedPrefix(cfg, 14, w);
        BucketsThere(cfg, 14, {}, w);
      }
    }
  }

  lemma ConvergedHas(cfg: Cfg, i: nat, w: World)
    requires i < COUNT && Converged(cfg, w)
    ensures ConvergedOf(At(cfg, i), w)
  {
    hide ConvergedOf, At;
  }

  lemma ConvergedPrefix(cfg: Cfg, k: nat, w: World)
    requires k <= COUNT && Converged(cfg, w)
    ensures ConvergedBut(cfg, {}, k, w)
  {
    hide ConvergedOf, At;
  }

  /** A second Apply reports `exists` for everything and changes nothing: no ETag, TTL, code or
      object differs. Even one that faults changes nothing up to the fault. */
  lemma ApplyAgainChangesNothing(cfg: Cfg, noWait: bool, ws: seq<World>, os: seq<Outcome>, calm: bool)
    requires Applied(cfg, noWait, ws, os, calm) && Inv(cfg, ws[0]) && Converged(cfg, ws[0])
    ensures forall k | 0 <= k < |os| && os[k].Done? :: ws[k + 1] == ws[0] && os[k].op == Exists
    ensures calm ==> |os| == COUNT && AllDone(os) && ws[COUNT] == ws[0]
  {
    hide EnsureRel, Converged, Inv, At;
    for k := 0 to |os|
      invariant forall j | 0 <= j < k :: os[j].Done? ==> ws[j + 1] == ws[0] && os[j].op == Exists
      invariant calm ==> forall j | 0 <= j < k :: os[j].Done?
    {
      assert k > 0 ==> os[k - 1].Done?;
      assert ws[k] == ws[0];
      AgainStep(cfg, k, noWait, ws[k], ws[k + 1], calm, os[k]);
    }
    if calm {
      assert os[|os| - 1].Done?;
      assert |os| == COUNT && ws[|os|] == ws[0];
    }
  }

  lemma AgainStep(cfg: Cfg, k: nat, noWait: bool, w: World, w': World, calm: bool, o: Outcome)
    requires k < COUNT && Inv(cfg, w) && Converged(cfg, w) && EnsureRel(At(cfg, k), noWait, w, w', calm, o)
    ensures o.Done? ==> w' == w && o.op == Exists
    ensures calm ==> o.Done?
  {
    hide EnsureRel, ConvergedOf, Inv, ReadyOf, At;
    ConvergedReady(cfg, k, noWait, w);
    GoodEnsure(At(cfg, k), noWait, w, w', calm, o);
  }

  // ---------------------------------------------------------------- Teardown cleans

  /** The bucket names are not another account's, and the distribution is disabled everywhere in time. */
  ghost predicate Removable(cfg: Cfg, w: World) {
    cfg.webBucket !in w.s3.foreign && cfg.dataBucket !in w.s3.foreign && Cdn.Settles(w.cf)
  }

  /** Of the last `k` resources, those `v` let go are gone. */
  ghost predicate GoneSince(cfg: Cfg, k: nat, v: World, w: World)
    requires k <= COUNT
  {
    forall j: nat | j < k && RemovableOf(Backward(cfg, j), v) :: GoneOf(Backward(cfg, j), w)
  }

  lemma GoneKept(cfg: Cfg, k: nat, v: World, r: Resource, w: World, w': World, calm: bool, o: Outcome)
    requires k <= COUNT && GoneSince(cfg, k, v, w) && RemoveRel(r, w, w', calm, o)
    ensures GoneSince(cfg, k, v, w')
  {
    hide RemoveRel, GoneOf, Backward, RemovableOf;
    forall j: nat | j < k && RemovableOf(Backward(cfg, j), v) ensures GoneOf(Backward(cfg, j), w') {
      RemoveKeepsGone(r, Backward(cfg, j), w, w', calm, o);
    }
  }

  /** By the time a role's turn comes, the profile is gone, and nothing else held a foray role. */
  lemma RoleFree(cfg: Cfg, k: nat, v: World, w: World)
    requires k < COUNT && Inv(cfg, w) && GoneSince(cfg, k, v, w)
    ensures Backward(cfg, k).Role? ==> !Iam.Held(w.iam, Backward(cfg, k).role.name)
  {
    hide GoneSince, Api.GwInv, Api.PermInv, Cdn.CfInv, ApiOf, DistOf, FnLogs, GatewayFn, WebApiFn;
    hide GatewayRole, WebApiRole, SpawnRole;
    if 9 <= k <= 11 { ProfileGone(cfg, k, v, w); }
    RoleNames(cfg);
  }

  lemma ProfileGone(cfg: Cfg, k: nat, v: World, w: World)
    requires 8 < k < COUNT && GoneSince(cfg, k, v, w)
    ensures SPAWN_ROLE !in w.iam.profiles
  {
    hide At;
    Positions(cfg);
    assert RemovableOf(Backward(cfg, 8), v) && GoneOf(Backward(cfg, 8), w);
  }

  lemma RemoveFrame(r: Resource, w: World, w': World, calm: bool, o: Outcome)
    requires RemoveRel(r, w, w', calm, o)
    ensures w'.s3.foreign == w.s3.foreign && (!r.Distribution? ==> w'.cf == w.cf)
  {
    hide Api.ApiRemoved, Cdn.DistRemoved;
  }

  /** What cannot be removed stays as it was, there or not. */
  lemma LeftStays(cfg: Cfg, r: Resource, q: Resource, w: World, w': World, o: Outcome)
    requires RemoveRel(r, w, w', true, o) && Inv(cfg, w) && (q.Bucket? || q.Distribution?)
    requires q.Bucket? ==> q.bucket in w.s3.foreign
    requires q.Distribution? && r.Distribution? ==> !Cdn.Settles(w.cf)
    ensures GoneOf(q, w') <==> GoneOf(q, w)
  {
    hide Api.ApiRemoved, Api.GwInv, Api.PermInv, IamInv, Cdn.Shrunk;
    if q.Distribution? && r.Distribution? {
      hide Cdn.Settles;
      Cdn.NotSettled(w.cf);
    }
  }

  /** What a fault-free Teardown has come to before its k-th step, from `v`. */
  ghost predicate TornUpTo(cfg: Cfg, k: nat, v: World, w: World, os: seq<Outcome>)
    requires k <= COUNT == |os|
  {
    && Inv(cfg, w) && w.s3.foreign == v.s3.foreign && (k <= 1 ==> w.cf == v.cf)
    && (forall j: nat | j < k :: os[j].Done? <==> RemovableOf(Backward(cfg, j), v))
    && GoneSince(cfg, k, v, w)
    && (forall j: nat | j < COUNT && !RemovableOf(Backward(cfg, j), v) ::
          GoneOf(Backward(cfg, j), w) <==> GoneOf(Backward(cfg, j), v))
    && Refusals(w) == Refusals(v)
  }

  lemma TornStep(cfg: Cfg, k: nat, v: World, w: World, w': World, os: seq<Outcome>)
    requires |os| == COUNT && k < COUNT && TornUpTo(cfg, k, v, w, os)
    requires RemoveRel(Backward(cfg, k), w, w', true, os[k])
    ensures TornUpTo(cfg, k + 1, v, w', os)
  {
    AllBelong(cfg);
    hide RemoveRel, Inv, GoneOf, Belongs, Iam.Held, At, Cdn.Settles, Refusals;
    var r := Backward(cfg, k);
    Kinds(cfg, COUNT - 1 - k);
    RoleFree(cfg, k, v, w);
    RemoveFrame(r, w, w', true, os[k]);
    assert RemovableOf(r, w) <==> RemovableOf(r, v);
    GoodRemove(cfg, r, w, w', true, os[k]);
    RemoveKeepsInv(cfg, r, w, w', true, os[k]);
    GoneKept(cfg, k, v, r, w, w', true, os[k]);
    forall j: nat | j < COUNT && !RemovableOf(Backward(cfg, j), v)
      ensures GoneOf(Backward(cfg, j), w') <==> GoneOf(Backward(cfg, j), v)
    {
      Kinds(cfg, COUNT - 1 - j);
      LeftStays(cfg, r, Backward(cfg, j), w, w', os[k]);
    }
  }

  /** A fault-free Teardown from any account the invariant holds of, resource by resource: which steps complete,
      and what is gone at the end. No refusal is met. */
  lemma TeardownIff(cfg: Cfg, ws: seq<World>, os: seq<Outcome>)
    requires TornDown(cfg, ws, os, true) && Inv(cfg, ws[0])
    ensures forall i | 0 <= i < COUNT :: os[i].Done? <==> RemovableOf(Backward(cfg, i), ws[0])
    ensures forall i | 0 <= i < COUNT ::
              GoneOf(At(cfg, i), ws[COUNT]) <==> RemovableOf(At(cfg, i), ws[0]) || GoneOf(At(cfg, i), ws[0])
    ensures forall k | 0 <= k < |ws| :: Refusals(ws[k]) == Refusals(ws[0])
    ensures Inv(cfg, ws[COUNT]) && ws[COUNT].s3.foreign == ws[0].s3.foreign
  {
    hide RemoveRel, Inv, GoneOf, RemovableOf, At, Refusals;
    for k := 0 to COUNT
      invariant TornUpTo(cfg, k, ws[0], ws[k], os)
      invariant forall j | 0 <= j <= k :: Refusals(ws[j]) == Refusals(ws[0])
    {
      TornStep(cfg, k, ws[0], ws[k], ws[k + 1], os);
    }
    forall i | 0 <= i < COUNT
      ensures GoneOf(At(cfg, i), ws[COUNT]) <==> RemovableOf(At(cfg, i), ws[0]) || GoneOf(At(cfg, i), ws[0])
    {
      assert Backward(cfg, COUNT - 1 - i) == At(cfg, i);
    }
  }

  /** Exactly when a fault-free Teardown fails nothing, and exactly when it leaves nothing of foray's. */
  lemma TeardownCleansIff(cfg: Cfg, ws: seq<World>, os: seq<Outcome>)
    requires TornDown(cfg, ws, os, true) && Inv(cfg, ws[0])
    ensures AllDone(os) <==> Removable(cfg, ws[0])
    ensures Clean(cfg, ws[COUNT]) <==>
              && Cdn.Settles(ws[0].cf)
              && (forall b | b in {cfg.webBucket, cfg.dataBucket} && b in ws[0].s3.foreign :: b !in ws[0].s3.buckets)
    ensures forall k | 0 <= k < |ws| :: Refusals(ws[k]) == Refusals(ws[0])
  {
    hide RemoveRel, Inv, At, Refusals, RemovableOf, GoneOf, Clean, AllDone, Cdn.Settles;
    TeardownIff(cfg, ws, os);
    ThreeMatter(cfg, ws[0]);
    AllThree(cfg, ws[0], os);
    CleanThree(cfg, ws[0], ws[COUNT]);
  }

  lemma ThreeMatter(cfg: Cfg, v: World)
    ensures forall i | 0 <= i < COUNT && i !in {1, 2, 13} :: RemovableOf(At(cfg, i), v)
    ensures RemovableOf(At(cfg, 1), v) <==> cfg.webBucket !in v.s3.foreign
    ensures RemovableOf(At(cfg, 2), v) <==> cfg.dataBucket !in v.s3.foreign
    ensures RemovableOf(At(cfg, 13), v) <==> Cdn.Settles(v.cf)
    ensures GoneOf(At(cfg, 1), v) <==> cfg.webBucket !in v.s3.buckets
    ensures GoneOf(At(cfg, 2), v) <==> cfg.dataBucket !in v.s3.buckets
    ensures GoneOf(At(cfg, 13), v) ==> Cdn.Settles(v.cf)
  {
    hide At, DistOf;
    Positions(cfg);
    forall i | 0 <= i < COUNT && i !in {1, 2, 13} ensures RemovableOf(At(cfg, i), v) { Kinds(cfg, i); }
  }

  lemma AllThree(cfg: Cfg, v: World, os: seq<Outcome>)
    requires |os| == COUNT && forall i | 0 <= i < COUNT :: os[i].Done? <==> RemovableOf(Backward(cfg, i), v)
    requires forall i | 0 <= i < COUNT && i !in {1, 2, 13} :: RemovableOf(At(cfg, i), v)
    ensures AllDone(os) <==> RemovableOf(At(cfg, 1), v) && RemovableOf(At(cfg, 2), v) && RemovableOf(At(cfg, 13), v)
  {
    hide At, RemovableOf;
    assert Backward(cfg, 1) == At(cfg, 13) && Backward(cfg, 12) == At(cfg, 2) && Backward(cfg, 13) == At(cfg, 1);
  }

  lemma CleanThree(cfg: Cfg, v: World, w: World)
    requires forall i | 0 <= i < COUNT ::
               GoneOf(At(cfg, i), w) <==> RemovableOf(At(cfg, i), v) || GoneOf(At(cfg, i), v)
    requires forall i | 0 <= i < COUNT && i !in {1, 2, 13} :: RemovableOf(At(cfg, i), v)
    ensures Clean(cfg, w) <==>
              forall i | i in {1, 2, 13} :: RemovableOf(At(cfg, i), v) || GoneOf(At(cfg, i), v)
  {
    hide At, RemovableOf, GoneOf;
  }

  /** One fault-free Teardown. */
  ghost predicate FaultFree(cfg: Cfg, w: World, w': World, os: seq<Outcome>) {
    exists ws :: TornDown(cfg, ws, os, true) && ws[0] == w && ws[COUNT] == w'
  }

  /** Run again and again, Teardown cleans the account however long a change takes to propagate: a distribution
      already disabled is not updated again, so each run waits for what the ones before have left. The (i + 1)-th
      run is the first to complete exactly when i of them are too few to wait it out and i + 1 are not. */
  lemma RepeatedTeardownsClean(cfg: Cfg, h: seq<World>, oss: seq<seq<Outcome>>)
    requires |h| == |oss| + 1 && Inv(cfg, h[0])
    requires cfg.webBucket !in h[0].s3.foreign && cfg.dataBucket !in h[0].s3.foreign
    requires forall i | 0 <= i < |oss| :: FaultFree(cfg, h[i], h[i + 1], oss[i])
    ensures forall i | 0 <= i < |oss| ::
              && (AllDone(oss[i]) <==> Cdn.Waits(h[0].cf) <= (i + 1) * Cdn.DEPLOY_LOOKS)
              && (Clean(cfg, h[i + 1]) <==> AllDone(oss[i]))
  {
    hide FaultFree, Inv, AllDone, Clean, Cdn.Waits;
    for i := 0 to |oss|
      invariant Inv(cfg, h[i]) && h[i].s3.foreign == h[0].s3.foreign
      invariant Cdn.Waits(h[i].cf) == Minus(Cdn.Waits(h[0].cf), i * Cdn.DEPLOY_LOOKS)
      invariant forall j | 0 <= j < i ::
                  && (AllDone(oss[j]) <==> Cdn.Waits(h[0].cf) <= (j + 1) * Cdn.DEPLOY_LOOKS)
                  && (Clean(cfg, h[j + 1]) <==> AllDone(oss[j]))
    {
      assert FaultFree(cfg, h[i], h[i + 1], oss[i]);
      OneTeardown(cfg, h[i], h[i + 1], oss[i]);
    }
  }

  lemma OneTeardown(cfg: Cfg, w: World, w': World, os: seq<Outcome>)
    requires FaultFree(cfg, w, w', os) && Inv(cfg, w)
    ensures Inv(cfg, w') && w'.s3.foreign == w.s3.foreign
    ensures Cdn.Waits(w'.cf) == Minus(Cdn.Waits(w.cf), Cdn.DEPLOY_LOOKS)
    ensures !Cdn.Settles(w.cf) ==> !Cdn.EnabledOrAbsent(w'.cf)
    ensures cfg.webBucket !in w.s3.foreign && cfg.dataBucket !in w.s3.foreign ==>
              && (AllDone(os) <==> Cdn.Waits(w.cf) <= Cdn.DEPLOY_LOOKS)
              && (Clean(cfg, w') <==> Cdn.Waits(w.cf) <= Cdn.DEPLOY_LOOKS)
  {
    hide RemoveRel, Inv, Clean, Refusals, At, AllDone, Cdn.Settles, Cdn.Waits, Cdn.EnabledOrAbsent;
    var ws :| TornDown(cfg, ws, os, true) && ws[0] == w && ws[COUNT] == w';
    TeardownIff(cfg, ws, os);
    TeardownCleansIff(cfg, ws, os);
    InvMeans(cfg, w);
    Cdn.WaitsMeans(w.cf);
    CdnOnce(cfg, ws, os, true);
    Positions(cfg);
    CdnStep(cfg, ws[1], ws[2], os[1]);
  }

  lemma CdnStep(cfg: Cfg, w: World, w': World, o: Outcome)
    requires RemoveRel(Distribution(DistOf(cfg)), w, w', true, o) && Cdn.CfInv(w.cf)
    ensures Cdn.Waits(w'.cf) == Minus(Cdn.Waits(w.cf), Cdn.DEPLOY_LOOKS)
    ensures !Cdn.Settles(w.cf) ==> !Cdn.EnabledOrAbsent(w'.cf)
  {
    hide Cdn.CfInv, Cdn.Waits, Cdn.EnabledOrAbsent, Cdn.Shrunk, Cdn.Settles, Cdn.WaitedFor, DistOf;
    Cdn.RemoveShortensWait(w.cf, w'.cf, o);
  }

  lemma InvMeans(cfg: Cfg, w: World)
    requires Inv(cfg, w)
    ensures Cdn.CfInv(w.cf) && Api.GwInv(API_NAME, w.gw) && TtlActive(cfg.table, w.ddb)
  {
  }

  /** Only its own step touches the distribution. */
  lemma CdnOnce(cfg: Cfg, ws: seq<World>, os: seq<Outcome>, calm: bool)
    requires TornDown(cfg, ws, os, calm)
    ensures ws[1].cf == ws[0].cf && ws[COUNT].cf == ws[2].cf
  {
    hide RemoveRel, At;
    Kinds(cfg, COUNT - 1);
    RemoveFrame(Backward(cfg, 0), ws[0], ws[1], calm, os[0]);
    for k := 2 to COUNT
      invariant ws[k].cf == ws[2].cf
    {
      Kinds(cfg, COUNT - 1 - k);
      RemoveFrame(Backward(cfg, k), ws[k], ws[k + 1], calm, os[k]);
    }
  }

  /** With faults, what a step did remove stays removed: a resource is left only if its own step
      failed. */
  lemma FaultyTeardownLeavesOnlyFailures(cfg: Cfg, ws: seq<World>, os: seq<Outcome>, calm: bool)
    requires TornDown(cfg, ws, os, calm) && Inv(cfg, ws[0])
    ensures forall i | 0 <= i < COUNT && os[i].Done? :: GoneOf(Backward(cfg, i), ws[COUNT])
  {
    AllBelong(cfg);
    TeardownKeepsInv(cfg, ws, os, calm);
    hide RemoveRel, Inv, GoneOf, Resources, Belongs;
    for k := 0 to COUNT
      invariant forall j | 0 <= j < k && os[j].Done? :: GoneOf(Backward(cfg, j), ws[k])
    {
      var r := Backward(cfg, k);
      GoodRemove(cfg, r, ws[k], ws[k + 1], calm, os[k]);
      forall j | 0 <= j < k && os[j].Done? ensures GoneOf(Backward(cfg, j), ws[k + 1]) {
        RemoveKeepsGone(r, Backward(cfg, j), ws[k], ws[k + 1], calm, os[k]);
      }
    }
  }

  // ---------------------------------------------------------------- any sequence of runs

  /** An Apply, interrupted at any call or not, takes the account from `w` to `w'`. */
  ghost predicate ApplyRun(cfg: Cfg, noWait: bool, w: World, w': World) {
    exists ws, os :: Applied(cfg, noWait, ws, os, false) && ws[0] == w && ws[|os|] == w'
  }

  ghost predicate TeardownRun(cfg: Cfg, w: World, w': World) {
    exists ws, os :: TornDown(cfg, ws, os, false) && ws[0] == w && ws[COUNT] == w'
  }

  /** One run, with any faults. */
  ghost predicate Run(cfg: Cfg, w: World, w': World) {
    ApplyRun(cfg, false, w, w') || ApplyRun(cfg, true, w, w') || TeardownRun(cfg, w, w')
  }

  /** The account before foray has ever touched it: other tenants' things may be there, but no API
      or distribution of foray's name, no statement of foray's, no foray role in a profile, and TTL on at most a
      table that has been active. */
  ghost predicate Untouched(cfg: Cfg, w: World) {
    && Api.Fresh(w.gw) && Cdn.CfFresh(w.cf)
    && (forall i :: !Api.Mine(API_NAME, w.gw, i))
    && (forall i :: !Cdn.Ours(w.cf, i) && !Cdn.OurOac(w.cf, i))
    && GATEWAY_FN !in w.lam.functions && WEBAPI_FN !in w.lam.functions
    && (forall p | p in w.iam.profiles ::
          GATEWAY_ROLE !in w.iam.profiles[p] && WEBAPI_ROLE !in w.iam.profiles[p] && SPAWN_ROLE !in w.iam.profiles[p])
    && SPAWN_ROLE !in w.iam.profiles
    && TtlActive(cfg.table, w.ddb)
  }

  /** However many runs, interrupted wherever, in whatever order: at most one foray API, distribution
      and access control exist, the profile holds at most the spawn role, and no invoke statement
      names an API that is gone. */
  lemma EveryHistoryKeepsInv(cfg: Cfg, h: seq<World>)
    requires |h| > 0 && Untouched(cfg, h[0])
    requires forall i | 0 <= i < |h| - 1 :: Run(cfg, h[i], h[i + 1])
    ensures forall i | 0 <= i < |h| :: Inv(cfg, h[i])
  {
    UntouchedInv(cfg, h[0]);
    hide Untouched, Inv;
    for k := 0 to |h| - 1
      invariant forall i | 0 <= i <= k :: Inv(cfg, h[i])
    {
      assert Run(cfg, h[k], h[k + 1]);
      hide Applied, TornDown;
      RunKeepsInv(cfg, h[k], h[k + 1]);
    }
  }

  lemma UntouchedInv(cfg: Cfg, w: World)
    requires Untouched(cfg, w)
    ensures Inv(cfg, w)
  {
    hide Api.UriUnique;
  }

  lemma RunKeepsInv(cfg: Cfg, w: World, w': World)
    requires Run(cfg, w, w') && Inv(cfg, w)
    ensures Inv(cfg, w')
  {
    hide Inv, EnsureRel, RemoveRel;
    if TeardownRun(cfg, w, w') {
      var ws, os :| TornDown(cfg, ws, os, false) && ws[0] == w && ws[COUNT] == w';
      TeardownKeepsInv(cfg, ws, os, false);
    } else {
      var noWait := ApplyRun(cfg, true, w, w');
      var ws, os :| Applied(cfg, noWait, ws, os, false) && ws[0] == w && ws[|os|] == w';
      ApplyKeepsInv(cfg, noWait, ws, os, false);
    }
  }

  /** After any such history a fault-free Teardown meets no refusal, and completes and leaves nothing of foray's
      behind exactly as it would from any account. */
  lemma TeardownAfterAnyHistory(cfg: Cfg, h: seq<World>, ws: seq<World>, os: seq<Outcome>)
    requires |h| > 0 && Untouched(cfg, h[0])
    requires forall i | 0 <= i < |h| - 1 :: Run(cfg, h[i], h[i + 1])
    requires TornDown(cfg, ws, os, true) && ws[0] == h[|h| - 1]
    ensures AllDone(os) <==> Removable(cfg, ws[0])
    ensures Clean(cfg, ws[COUNT]) <==>
              && Cdn.Settles(ws[0].cf)
              && (forall b | b in {cfg.webBucket, cfg.dataBucket} && b in ws[0].s3.foreign :: b !in ws[0].s3.buckets)
    ensures Refusals(ws[COUNT]) == Refusals(ws[0])
  {
    hide Run, Inv, Untouched, RemoveRel, Clean, Refusals, Removable, AllDone, Cdn.Settles;
    EveryHistoryKeepsInv(cfg, h);
    TeardownCleansIff(cfg, ws, os);
  }

  /** After any number of interrupted Applies a fault-free one converges the account. */
  lemma ApplyAfterInterruptions(cfg: Cfg, noWait: bool, h: seq<World>, ws: seq<World>, os: seq<Outcome>)
    requires |h| > 0 && Fit(cfg, noWait, h[0])
    requires forall i | 0 <= i < |h| - 1 :: ApplyRun(cfg, noWait, h[i], h[i + 1])
    requires Applied(cfg, noWait, ws, os, true) && ws[0] == h[|h| - 1] && !TooEarly(cfg.table, ws[0].ddb)
    ensures |os| == COUNT && AllDone(os) && Converged(cfg, ws[COUNT]) && Refusals(ws[COUNT]) == Refusals(ws[0])
  {
    hide Fit, EnsureRel, TooEarly, Converged, ApplyRun, At;
    for k := 0 to |h| - 1
      invariant Fit(cfg, noWait, h[k])
    {
      ApplyRunStaysFit(cfg, noWait, h[k], h[k + 1]);
    }
    ApplyConverges(cfg, noWait, ws, os);
  }

  lemma ApplyRunStaysFit(cfg: Cfg, noWait: bool, w: World, w': World)
    requires ApplyRun(cfg, noWait, w, w') && Fit(cfg, noWait, w)
    ensures Fit(cfg, noWait, w')
  {
    hide Fit, EnsureRel, At;
    var ws, os :| Applied(cfg, noWait, ws, os, false) && ws[0] == w && ws[|os|] == w';
    InterruptedApplyStaysFit(cfg, noWait, ws, os, false);
  }

  // ---------------------------------------------------------------- where it does not converge

  /** A disabled distribution is never enabled again: an Apply that ends converged began with it
      absent or enabled. */
  lemma ConvergedOnlyIfEnabled(cfg: Cfg, noWait: bool, ws: seq<World>, os: seq<Outcome>, calm: bool)
    requires Applied(cfg, noWait, ws, os, calm) && Inv(cfg, ws[0]) && Converged(cfg, ws[|os|])
    ensures Cdn.EnabledOrAbsent(ws[0].cf)
  {
    hide EnsureRel, Cdn.EnabledOrAbsent, Inv, Converged, At;
    ApplyKeepsInv(cfg, noWait, ws, os, calm);
    ConvergedEnabled(cfg, ws[|os|]);
    for k := |os| downto 0
      invariant Cdn.EnabledOrAbsent(ws[k].cf)
    {
      EnabledBefore(At(cfg, k), noWait, ws[k], ws[k + 1], calm, os[k]);
    }
  }

  lemma ConvergedEnabled(cfg: Cfg, w: World)
    requires Inv(cfg, w) && Converged(cfg, w)
    ensures Cdn.EnabledOrAbsent(w.cf)
  {
    hide Cdn.EnabledOrAbsent, Api.GwInv, Api.PermInv, Cdn.CfInv, IamInv, At, Cdn.DistConverged;
    Positions(cfg);
    assert ConvergedOf(At(cfg, 13), w);
    ConvergedDistExists(DistOf(cfg), w);
  }

  lemma EnabledBefore(r: Resource, noWait: bool, w: World, w': World, calm: bool, o: Outcome)
    requires EnsureRel(r, noWait, w, w', calm, o) && Cdn.EnabledOrAbsent(w'.cf)
    ensures Cdn.EnabledOrAbsent(w.cf)
  {
    hide Cdn.CfInv, Cdn.CfFresh, Api.ApiEnsured;
  }

  lemma InvFresh(cfg: Cfg, w: World)
    requires Inv(cfg, w)
    ensures Api.Fresh(w.gw) && Cdn.CfFresh(w.cf)
  {
  }

  lemma {:induction false} FailedHas(out: seq<Action>, i: nat)
    requires i < |out| && out[i].failed
    ensures out[i].resource in FailedOf(out)
  {
    if i < |out| - 1 { FailedHas(out[..|out| - 1], i); }
  }

  lemma {:induction false} TimesOut(cfg: Cfg, w: World, between: World, ws: seq<World>, os: seq<Outcome>,
                                    out: seq<Action>)
    requires TornDown(cfg, ws, os, true) && ws[0] == w && ws[COUNT] == between
    requires Inv(cfg, w) && !Cdn.Settles(w.cf)
    requires |out| == COUNT && forall i | 0 <= i < COUNT ::
               out[i] == Action(Backward(cfg, i), if os[i].Done? then os[i].op else Delete, os[i].Failed?)
    ensures Inv(cfg, between) && !Cdn.EnabledOrAbsent(between.cf) && Distribution(DistOf(cfg)) in FailedOf(out)
  {
    hide Inv, RemoveRel, Cdn.EnabledOrAbsent, Cdn.Settles, Cdn.Waits, At, AllDone, FailedOf, Clean, GoneOf, Refusals;
    hide DistOf, ApiOf;
    assert FaultFree(cfg, w, between, os);
    OneTeardown(cfg, w, between, os);
    TeardownIff(cfg, ws, os);
    Positions(cfg);
    FailedHas(out, 1);
  }

  lemma NeverConverges(cfg: Cfg, noWait: bool, vs: seq<World>, ps: seq<Outcome>)
    requires Applied(cfg, noWait, vs, ps, true) && Valid(cfg) && Inv(cfg, vs[0]) && !Cdn.EnabledOrAbsent(vs[0].cf)
    ensures AllDone(ps) <==> Passable(cfg, noWait, vs[0]) && TablePasses(cfg.table, vs[0].ddb)
    ensures !Converged(cfg, vs[|ps|])
  {
    hide Applied, Inv, AllDone, Converged, Passable, TablePasses, Valid, Cdn.EnabledOrAbsent, Refusals;
    ApplyCompletesIff(cfg, noWait, vs, ps);
    assert |vs| == |ps| + 1 by { Lengths(cfg, noWait, vs, ps); }
    if Converged(cfg, vs[|ps|]) { ConvergedOnlyIfEnabled(cfg, noWait, vs, ps, true); }
  }

  lemma Lengths(cfg: Cfg, noWait: bool, ws: seq<World>, os: seq<Outcome>)
    requires Applied(cfg, noWait, ws, os, true)
    ensures |ws| == |os| + 1
  {
    hide EnsureRel;
  }

  /** A Teardown that nothing faulted, but that ran out of time waiting for the disabled distribution, and an
      Apply after it, on one account: the Apply never converges it, though it completes whenever any would. */
  method ApplyAfterTimeout(cfg: Cfg, noWait: bool, w: World, pages: nat -> nat)
    returns (a: Account, errs: seq<Resource>, ok: bool, ghost between: World)
    requires Valid(cfg) && Inv(cfg, w) && !Cdn.Settles(w.cf)
    ensures fresh(a)
    ensures Distribution(DistOf(cfg)) in errs && !Cdn.EnabledOrAbsent(between.cf)
    ensures ok <==> Passable(cfg, noWait, between) && TablePasses(cfg.table, between.ddb)
    ensures !Converged(cfg, a.W())
  {
    hide Valid, Inv, TornDown, Applied, Cdn.EnabledOrAbsent, Cdn.Settles, Passable, TablePasses, Converged, At;
    hide FailedOf, Api.Fresh, Cdn.CfFresh;
    a := new Account(n => Fine, pages, w);
    InvFresh(cfg, w);
    var out;
    ghost var ws, os;
    out, errs, ws, os := Teardown(a, cfg, false);
    between := a.W();
    TimesOut(cfg, w, between, ws, os, out);
    var done;
    ghost var vs, ps;
    done, ok, vs, ps := Apply(a, cfg, false, noWait);
    NeverConverges(cfg, noWait, vs, ps);
  }
}
