/** Log groups: internal/deploy/logs.go. */
module LogGroupResource {
  import opened CloudWatch
  import opened Text
  import opened Accounts
  import opened Actions

  const DEFAULT_RETENTION := 14

  function Retention(days: int): nat { if days <= 0 then DEFAULT_RETENTION else days }

  ghost predicate GroupConverged(g: string, days: int, s: State) {
    g in s.groups && s.groups[g] == if days > 0 then days else DEFAULT_RETENTION
  }

  ghost predicate GroupEnsured(g: string, days: int, s: State, s': State, calm: bool, o: Outcome) {
    && SameExcept(s.groups, s'.groups, g)
    && (g in s.groups ==> g in s'.groups)
    && (o.Done? ==>
          && GroupConverged(g, days, s')
          && o.op == (if g in s.groups then Exists else Create)
          && (GroupConverged(g, days, s) ==> s' == s))
    && (calm ==> o.Done?)
  }

  /** By exact name, though the API filters by prefix. */
  method GroupExists(a: Account, g: string) returns (r: Option<bool>)
    modifies a`logs, a`calls
    ensures a.logs == old(a.logs)
    ensures r.Some? ==> r.value == (g in a.logs.groups)
    ensures a.calls == old(a.calls) + 1
    ensures old(a.Calm()) ==> r.Some? && a.Calm()
    ensures a.Faults() <= old(a.Faults()) + (if r.Some? then 0 else 1)
  {
    var x := a.CallLogs(CloudWatch.DescribeGroups(a.logs, g));
    if !x.Groups? { return None; }
    var left := x.groups;
    while left != {}
      invariant a.Faults() <= old(a.Faults())
      invariant a.logs == old(a.logs) && a.calls == old(a.calls) + 1
      invariant old(a.Calm()) ==> a.Calm()
      invariant left <= x.groups && g !in x.groups - left
    {
      var n :| n in left;
      if n == g { return Some(true); }
      left := left - {n};
    }
    return Some(false);
  }

  method EnsureGroup(a: Account, g: string, days: int) returns (o: Outcome)
    modifies a`logs, a`calls
    ensures GroupEnsured(g, days, old(a.logs), a.logs, old(a.Calm()), o)
    // The last of its calls tags the group, best effort: once it is made, nothing fails.
    ensures o.Failed? <==> a.calls < old(a.calls) + (if g in old(a.logs).groups then 3 else 4)
    ensures old(a.Calm()) ==> a.Calm()
    ensures a.Faults() <= old(a.Faults()) + 1
  {
    ghost var s := a.logs;
    var there := GroupExists(a, g);
    if there == None { return Failed; }
    var op := Exists;
    if !there.value {
      var r := a.CallLogs(CloudWatch.CreateGroup(a.logs, g));
      if r != Ok && r != CloudWatch.GroupExists { return Failed; }
      op := if r == Ok then Create else Exists;
    }
    var r := a.CallLogs(CloudWatch.PutRetention(a.logs, g, Retention(days)));
    if r != Ok { return Failed; }
    assert GroupConverged(g, days, s) ==> a.logs.groups == s.groups;
    // Tagging is best effort: a failure is noted in the report and nothing else.
    r := a.CallLogs(CloudWatch.TagGroup(a.logs, g));
    return Done(op);
  }

  ghost predicate GroupRemoved(g: string, s: State, s': State, calm: bool, o: Outcome) {
    && SameExcept(s.groups, s'.groups, g)
    && (g in s'.groups ==> g in s.groups && s'.groups[g] == s.groups[g])
    && (o.Done? ==> g !in s'.groups && o.op == (if g in s.groups then Delete else Absent))
    && (calm ==> o.Done?)
  }

  method RemoveGroup(a: Account, g: string) returns (o: Outcome)
    modifies a`logs, a`calls
    ensures GroupRemoved(g, old(a.logs), a.logs, old(a.Calm()), o)
    ensures old(a.Calm()) ==> a.Calm()
    ensures a.Faults() <= old(a.Faults()) + (if o.Done? then 0 else 1)
  {
    var there := GroupExists(a, g);
    if there == None { return Failed; }
    if !there.value { return Done(Absent); }
    var r := a.CallLogs(CloudWatch.DeleteGroup(a.logs, g));
    return if r == Ok then Done(Delete) else Failed;
  }
}

/** Functions: internal/deploy/lambda.go. */
module FunctionResource {
  import opened Lambda
  import opened Text
  import opened Accounts
  import opened Actions

  /** `code` is the package's digest, None when the package cannot be read. */
  datatype FnSpec = FnSpec(name: string, code: Option<string>, config: Config)

  const CREATE_ATTEMPTS := 6

  ghost predicate FunctionConverged(f: FnSpec, s: State) {
    && f.name in s.functions
    && Some(s.functions[f.name].code) == f.code
    && s.functions[f.name].config == f.config
    && s.functions[f.name].tagged
  }

  function Perms(s: State, f: string): map<string, nat> {
    if f in s.functions then s.functions[f].perms else map[]
  }

  ghost predicate FunctionEnsured(f: FnSpec, s: State, s': State, calm: bool, o: Outcome) {
    && SameExcept(s.functions, s'.functions, f.name)
    && s'.notReady <= s.notReady
    && (f.name in s.functions ==> f.name in s'.functions && s'.notReady == s.notReady)
    && Perms(s', f.name) == Perms(s, f.name)
    && (o.Done? ==>
          && FunctionConverged(f, s')
          && o.op == (if f.name in s.functions then Exists else Create)
          && (FunctionConverged(f, s) ==> s' == s))
    && (f.code == None ==> s' == s && o.Failed?)
    && (calm ==> (o.Done? <==> f.code.Some? && (f.name in s.functions || s.notReady < CREATE_ATTEMPTS)))
  }

  /** Creates the function, trying again while its role is not assumable yet. */
  method CreateWithRetry(a: Account, f: FnSpec, code: string) returns (ok: bool)
    requires f.name !in a.lam.functions
    modifies a`lam, a`calls
    ensures SameExcept(old(a.lam).functions, a.lam.functions, f.name) && a.lam.notReady <= old(a.lam).notReady
    ensures f.name in a.lam.functions ==> a.lam.functions[f.name] == Function(code, f.config, true, map[])
    ensures ok ==> f.name in a.lam.functions
    ensures old(a.Calm()) ==> a.Calm() && (ok <==> old(a.lam).notReady < CREATE_ATTEMPTS)
    ensures a.Faults() <= old(a.Faults()) + (if ok then 0 else 1)
  {
    ghost var s := a.lam;
    for i := 0 to CREATE_ATTEMPTS
      invariant a.Faults() <= old(a.Faults())
      invariant SameExcept(s.functions, a.lam.functions, f.name) && a.lam.notReady <= s.notReady
      invariant f.name !in a.lam.functions
      invariant old(a.Calm()) ==> a.Calm() && a.lam.notReady + i == s.notReady
    {
      var r := a.CallLam(Lambda.CreateFunction(a.lam, f.name, code, f.config));
      if r == Ok || r == Conflict { return true; }
      if r != RoleNotReady { return false; }
    }
    return false;
  }

  method EnsureFunction(a: Account, f: FnSpec) returns (o: Outcome)
    modifies a`lam, a`calls
    ensures FunctionEnsured(f, old(a.lam), a.lam, old(a.Calm()), o)
    ensures old(a.Calm()) ==> a.Calm()
    ensures a.Faults() <= old(a.Faults()) + (if o.Done? then 0 else 1)
  {
    ghost var s := a.lam;
    if f.code == None { return Failed; }
    var r := a.CallLam(Lambda.GetFunction(a.lam, f.name));
    if !r.FunctionIs? && r != Lambda.NotFound { return Failed; }
    if r == Lambda.NotFound {
      var ok := CreateWithRetry(a, f, f.code.value);
      return if ok then Done(Create) else Failed;
    }
    if r.code != f.code.value {
      r := a.CallLam(Lambda.UpdateCode(a.lam, f.name, f.code.value));
      if r != Ok { return Failed; }
    }
    r := a.CallLam(Lambda.UpdateConfig(a.lam, f.name, f.config));
    if r != Ok { return Failed; }
    r := a.CallLam(Lambda.TagFunction(a.lam, f.name));
    if r != Ok { return Failed; }
    assert FunctionConverged(f, s) ==> a.lam.functions == s.functions;
    return Done(Exists);
  }

  ghost predicate FunctionRemoved(f: string, s: State, s': State, calm: bool, o: Outcome) {
    && SameExcept(s.functions, s'.functions, f) && s'.notReady == s.notReady
    && (f in s'.functions ==> f in s.functions && s'.functions[f] == s.functions[f])
    && (o.Done? ==> f !in s'.functions && o.op == (if f in s.functions then Delete else Absent))
    && (calm ==> o.Done?)
  }

  method RemoveFunction(a: Account, f: string) returns (o: Outcome)
    modifies a`lam, a`calls
    ensures FunctionRemoved(f, old(a.lam), a.lam, old(a.Calm()), o)
    ensures old(a.Calm()) ==> a.Calm()
    ensures a.Faults() <= old(a.Faults()) + (if o.Done? then 0 else 1)
  {
    var r := a.CallLam(Lambda.GetFunction(a.lam, f));
    if r == Lambda.NotFound { return Done(Absent); }
    if !r.FunctionIs? { return Failed; }
    r := a.CallLam(Lambda.DeleteFunction(a.lam, f));
    return if r == Ok then Done(Delete) else Failed;
  }
}
