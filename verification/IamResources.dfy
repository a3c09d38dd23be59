/** Roles and the instance profile: internal/deploy/iam.go. */
module IamResources {
  import opened Text
  import opened Iam
  import opened Accounts
  import opened Actions

  datatype Policy = Policy(name: string, doc: string)

  datatype RoleSpec = RoleSpec(name: string, trust: string, managed: seq<string>, inline: seq<Policy>)

  ghost predicate DistinctNames(ps: seq<Policy>) {
    forall i, j | 0 <= i < j < |ps| :: ps[i].name != ps[j].name
  }

  // ---------------------------------------------------------------- roles

  ghost predicate RoleConverged(spec: RoleSpec, s: State) {
    && spec.name in s.roles
    && var r := s.roles[spec.name];
       && r.trust == spec.trust && r.tagged
       && (forall a | a in spec.managed :: a in r.attached)
       && (forall p | p in spec.inline :: p.name in r.inline && r.inline[p.name] == p.doc)
  }

  /** Nothing but the named role may differ. */
  ghost predicate OnlyRole(name: string, s: State, s': State) {
    && s'.profiles == s.profiles
    && SameExcept(s.roles, s'.roles, name)
  }

  /** A converged role that keeps whatever it carried beyond what the spec sets. */
  ghost predicate KeepsExtras(spec: RoleSpec, before: Role, after: Role) {
    && after.attached == before.attached + Elements(spec.managed)
    && (forall k | k in before.inline :: k in after.inline)
    && (forall k | k in after.inline && (forall p | p in spec.inline :: p.name != k) ::
          k in before.inline && after.inline[k] == before.inline[k])
  }

  ghost predicate RoleEnsured(spec: RoleSpec, s: State, s': State, calm: bool, o: Outcome) {
    && OnlyRole(spec.name, s, s')
    && s'.refused == s.refused
    && (spec.name in s.roles ==> spec.name in s'.roles)
    && (o.Done? ==>
          && RoleConverged(spec, s')
          && o.op == (if spec.name in s.roles then Exists else Create)
          && KeepsExtras(spec, RoleOf(s, spec.name), s'.roles[spec.name])
          && (RoleConverged(spec, s) ==> s' == s))
    && (calm ==> o.Done?)
  }

  /** What a run of puts leaves in a role's inline policies. */
  function PutAll(m: map<string, string>, ps: seq<Policy>): map<string, string> {
    if ps == [] then m
    else PutAll(m, ps[..|ps| - 1])[ps[|ps| - 1].name := ps[|ps| - 1].doc]
  }

  lemma {:induction false} PutAllHolds(m: map<string, string>, ps: seq<Policy>)
    requires DistinctNames(ps)
    ensures forall p | p in ps :: p.name in PutAll(m, ps) && PutAll(m, ps)[p.name] == p.doc
    ensures forall k | k in m :: k in PutAll(m, ps)
    ensures forall k | k in PutAll(m, ps) && (forall p | p in ps :: p.name != k) :: k in m && PutAll(m, ps)[k] == m[k]
  {
    if ps != [] {
      PutAllHolds(m, ps[..|ps| - 1]);
      assert ps == ps[..|ps| - 1] + [ps[|ps| - 1]];
    }
  }

  lemma {:induction false} PutAllIdempotent(m: map<string, string>, ps: seq<Policy>)
    requires forall p | p in ps :: p.name in m && m[p.name] == p.doc
    ensures PutAll(m, ps) == m
  {
    if ps != [] {
      PutAllIdempotent(m, ps[..|ps| - 1]);
    }
  }

  /** Finds the role or makes it, with its trust policy and tags as they should be. */
  method EstablishRole(a: Account, spec: RoleSpec) returns (o: Outcome)
    modifies a`iam, a`calls
    ensures OnlyRole(spec.name, old(a.iam), a.iam) && a.iam.refused == old(a.iam).refused
    ensures spec.name in old(a.iam).roles ==> spec.name in a.iam.roles
    ensures o.Done? ==>
              && a.iam == WithRole(old(a.iam), spec.name,
                                   RoleOf(old(a.iam), spec.name).(trust := spec.trust, tagged := true))
              && o.op == (if spec.name in old(a.iam).roles then Exists else Create)
    ensures old(a.Calm()) ==> o.Done? && a.Calm()
    ensures a.Faults() <= old(a.Faults()) + (if o.Done? then 0 else 1)
  {
    var r := a.CallIam(Iam.GetRole(a.iam, spec.name));
    if r != Ok && r != NoSuchEntity { return Failed; }
    if r == Ok {
      r := a.CallIam(Iam.UpdateTrust(a.iam, spec.name, spec.trust));
      if r != Ok { return Failed; }
      r := a.CallIam(Iam.TagRole(a.iam, spec.name));
      if r != Ok { return Failed; }
      return Done(Exists);
    }
    r := a.CallIam(Iam.CreateRole(a.iam, spec.name, spec.trust));
    if r != Ok && r != EntityExists { return Failed; }
    return Done(if r == Ok then Create else Exists);
  }

  method AttachManaged(a: Account, spec: RoleSpec) returns (ok: bool)
    requires spec.name in a.iam.roles
    modifies a`iam, a`calls
    ensures OnlyRoleChanged(spec.name, old(a.iam), a.iam)
    ensures ok ==> a.iam.roles[spec.name] ==
                   RoleOf(old(a.iam), spec.name)
                   .(attached := RoleOf(old(a.iam), spec.name).attached + Elements(spec.managed))
    ensures old(a.Calm()) ==> ok && a.Calm()
    ensures a.Faults() <= old(a.Faults()) + (if ok then 0 else 1)
  {
    ghost var s := a.iam;
    assert WithRole(s, spec.name, s.roles[spec.name]) == s;
    ElementsAll(spec.managed);
    for i := 0 to |spec.managed|
      invariant a.Faults() <= old(a.Faults())
      invariant old(a.Calm()) ==> a.Calm()
      invariant OnlyRoleChanged(spec.name, s, a.iam)
      invariant a.iam.roles[spec.name] ==
                s.roles[spec.name].(attached := s.roles[spec.name].attached + Elements(spec.managed[..i]))
    {
      ElementsSnoc(spec.managed, i);
      var r := a.CallIam(Iam.AttachRolePolicy(a.iam, spec.name, spec.managed[i]));
      if r != Ok { return false; }
    }
    return true;
  }

  method PutInline(a: Account, spec: RoleSpec) returns (ok: bool)
    requires spec.name in a.iam.roles
    modifies a`iam, a`calls
    ensures OnlyRoleChanged(spec.name, old(a.iam), a.iam)
    ensures ok ==> a.iam.roles[spec.name] ==
                   old(a.iam).roles[spec.name].(inline := PutAll(old(a.iam).roles[spec.name].inline, spec.inline))
    ensures old(a.Calm()) ==> ok && a.Calm()
    ensures a.Faults() <= old(a.Faults()) + (if ok then 0 else 1)
  {
    ghost var s := a.iam;
    assert WithRole(s, spec.name, s.roles[spec.name]) == s;
    assert spec.inline[..0] == [] && spec.inline[..|spec.inline|] == spec.inline;
    for i := 0 to |spec.inline|
      invariant a.Faults() <= old(a.Faults())
      invariant old(a.Calm()) ==> a.Calm()
      invariant OnlyRoleChanged(spec.name, s, a.iam)
      invariant a.iam.roles[spec.name] ==
                s.roles[spec.name].(inline := PutAll(s.roles[spec.name].inline, spec.inline[..i]))
    {
      assert spec.inline[..i + 1][..i] == spec.inline[..i];
      var r := a.CallIam(Iam.PutRolePolicy(a.iam, spec.name, spec.inline[i].name, spec.inline[i].doc));
      if r != Ok { return false; }
    }
    return true;
  }

  method EnsureRole(a: Account, spec: RoleSpec) returns (o: Outcome)
    requires DistinctNames(spec.inline)
    modifies a`iam, a`calls
    ensures RoleEnsured(spec, old(a.iam), a.iam, old(a.Calm()), o)
    ensures old(a.Calm()) ==> a.Calm()
    ensures a.Faults() <= old(a.Faults()) + (if o.Done? then 0 else 1)
  {
    ghost var s := a.iam;
    o := EstablishRole(a, spec);
    if o.Failed? { return; }
    var ok := AttachManaged(a, spec);
    if !ok { return Failed; }
    ok := PutInline(a, spec);
    if !ok { return Failed; }
    RolePut(spec, s, a.iam);
  }

  /** Attaching and putting everything the spec lists converges the role, and changes nothing
      on a role that already is. */
  lemma RolePut(spec: RoleSpec, s: State, s': State)
    requires DistinctNames(spec.inline)
    requires var r := RoleOf(s, spec.name);
             s' == WithRole(s, spec.name,
                            Role(spec.trust, PutAll(r.inline, spec.inline), r.attached + Elements(spec.managed), true))
    ensures RoleConverged(spec, s') && KeepsExtras(spec, RoleOf(s, spec.name), s'.roles[spec.name])
    ensures RoleConverged(spec, s) ==> s' == s
  {
    var r := RoleOf(s, spec.name);
    PutAllHolds(r.inline, spec.inline);
    if RoleConverged(spec, s) {
      PutAllIdempotent(r.inline, spec.inline);
      assert s'.roles[spec.name] == r;
      assert WithRole(s, spec.name, r) == s;
    }
  }

  ghost predicate RoleRemoved(name: string, s: State, s': State, calm: bool, o: Outcome) {
    && OnlyRole(name, s, s')
    && (name in s'.roles ==>
          && name in s.roles
          && s'.roles[name].attached <= s.roles[name].attached
          && s'.roles[name].inline.Keys <= s.roles[name].inline.Keys)
    && (o.Done? ==> name !in s'.roles && o.op == (if name in s.roles then Delete else Absent))
    && (!Held(s, name) ==> s'.refused == s.refused)
    && (calm && !Held(s, name) ==> o.Done?)
  }

  /** `s'` is `s` but for the policies of one role, which is still there. */
  ghost predicate OnlyRoleChanged(name: string, s: State, s': State) {
    name in s.roles && name in s'.roles && s' == WithRole(s, name, s'.roles[name])
  }

  method DeleteInlinePolicies(a: Account, name: string) returns (ok: bool)
    requires name in a.iam.roles
    modifies a`iam, a`calls
    ensures OnlyRoleChanged(name, old(a.iam), a.iam)
    ensures a.iam.roles[name].attached == old(a.iam).roles[name].attached
    ensures a.iam.roles[name].inline.Keys <= old(a.iam).roles[name].inline.Keys
    ensures ok ==> a.iam.roles[name].inline == map[]
    ensures old(a.Calm()) ==> ok && a.Calm()
    ensures a.Faults() <= old(a.Faults()) + (if ok then 0 else 1)
  {
    ghost var s := a.iam;
    var r := a.CallIam(Iam.ListRolePolicies(a.iam, name));
    assert WithRole(s, name, s.roles[name]) == s;
    if !r.Names? { return false; }
    var names := r.names;
    while names != {}
      invariant a.Faults() <= old(a.Faults())
      invariant old(a.Calm()) ==> a.Calm()
      invariant OnlyRoleChanged(name, s, a.iam)
      invariant a.iam.roles[name].attached == s.roles[name].attached
      invariant a.iam.roles[name].inline.Keys == names <= s.roles[name].inline.Keys
      decreases |names|
    {
      var n :| n in names;
      r := a.CallIam(Iam.DeleteRolePolicy(a.iam, name, n));
      if r != Ok { return false; }
      names := names - {n};
    }
    return true;
  }

  method DetachPolicies(a: Account, name: string) returns (ok: bool)
    requires name in a.iam.roles
    modifies a`iam, a`calls
    ensures OnlyRoleChanged(name, old(a.iam), a.iam)
    ensures a.iam.roles[name].inline == old(a.iam).roles[name].inline
    ensures a.iam.roles[name].attached <= old(a.iam).roles[name].attached
    ensures ok ==> a.iam.roles[name].attached == {}
    ensures old(a.Calm()) ==> ok && a.Calm()
    ensures a.Faults() <= old(a.Faults()) + (if ok then 0 else 1)
  {
    ghost var s := a.iam;
    var r := a.CallIam(Iam.ListAttached(a.iam, name));
    assert WithRole(s, name, s.roles[name]) == s;
    if !r.Names? { return false; }
    var arns := r.names;
    while arns != {}
      invariant a.Faults() <= old(a.Faults())
      invariant old(a.Calm()) ==> a.Calm()
      invariant OnlyRoleChanged(name, s, a.iam)
      invariant a.iam.roles[name].inline == s.roles[name].inline
      invariant a.iam.roles[name].attached == arns <= s.roles[name].attached
      decreases |arns|
    {
      var n :| n in arns;
      r := a.CallIam(Iam.DetachRolePolicy(a.iam, name, n));
      if r != Ok { return false; }
      arns := arns - {n};
    }
    return true;
  }

  method RemoveRole(a: Account, name: string) returns (o: Outcome)
    modifies a`iam, a`calls
    ensures RoleRemoved(name, old(a.iam), a.iam, old(a.Calm()), o)
    ensures old(a.Calm()) ==> a.Calm()
    ensures a.Faults() <= old(a.Faults()) + (if o.Done? then 0 else 1)
  {
    var r := a.CallIam(Iam.GetRole(a.iam, name));
    if r == NoSuchEntity { return Done(Absent); }
    if r != Ok { return Failed; }
    var ok := DeleteInlinePolicies(a, name);
    if !ok { return Failed; }
    ok := DetachPolicies(a, name);
    if !ok { return Failed; }
    r := a.CallIam(Iam.DeleteRole(a.iam, name));
    if r != Ok { return Failed; }
    return Done(Delete);
  }

  // ---------------------------------------------------------------- instance profile

  ghost predicate ProfileConverged(profile: string, role: string, s: State) {
    profile in s.profiles && role in s.profiles[profile]
  }

  ghost predicate OnlyProfile(profile: string, s: State, s': State) {
    && s'.roles == s.roles
    && SameExcept(s.profiles, s'.profiles, profile)
  }

  ghost predicate ProfileEnsured(profile: string, role: string, s: State, s': State, calm: bool, o: Outcome) {
    && OnlyProfile(profile, s, s')
    && (profile in s.profiles ==> profile in s'.profiles)
    && (profile in s'.profiles ==>
          || s'.profiles[profile] == (if profile in s.profiles then s.profiles[profile] else {})
          || s'.profiles[profile] == {role})
    && (o.Done? ==>
          && ProfileConverged(profile, role, s')
          && o.op == (if profile in s.profiles then Exists else Create)
          && (ProfileConverged(profile, role, s) ==> s' == s))
    // A profile that holds another role refuses the one it should hold.
    && ((profile in s.profiles ==> s.profiles[profile] <= {role}) ==> s'.refused == s.refused && (calm ==> o.Done?))
    && (profile in s.profiles && s.profiles[profile] != {} && role !in s.profiles[profile] ==> o.Failed?)
  }

  method EnsureProfile(a: Account, profile: string, role: string) returns (o: Outcome)
    modifies a`iam, a`calls
    ensures ProfileEnsured(profile, role, old(a.iam), a.iam, old(a.Calm()), o)
    ensures old(a.Calm()) ==> a.Calm()
    ensures a.Faults() <= old(a.Faults()) + (if o.Done? then 0 else 1)
  {
    ghost var s := a.iam;
    var cur := a.CallIam(Iam.GetProfile(a.iam, profile));
    if cur != NoSuchEntity && !cur.Names? { return Failed; }
    var holds := cur.Names? && role in cur.names;
    assert a.iam == s && cur.Names? == (profile in s.profiles);
    assert holds == ProfileConverged(profile, role, s);
    if cur == NoSuchEntity {
      var r := a.CallIam(Iam.CreateProfile(a.iam, profile));
      if r != Ok && r != EntityExists { return Failed; }
      assert a.iam == WithProfile(s, profile, {});
    }
    if !holds {
      var r := a.CallIam(Iam.AddRole(a.iam, profile, role));
      if r != Ok { return Failed; }
    }
    return Done(if cur == NoSuchEntity then Create else Exists);
  }

  ghost predicate ProfileRemoved(profile: string, s: State, s': State, calm: bool, o: Outcome) {
    && OnlyProfile(profile, s, s')
    && (profile in s'.profiles ==> profile in s.profiles && s'.profiles[profile] <= s.profiles[profile])
    && s'.refused == s.refused
    && (o.Done? ==> profile !in s'.profiles && o.op == (if profile in s.profiles then Delete else Absent))
    && (calm ==> o.Done?)
  }

  method RemoveProfile(a: Account, profile: string) returns (o: Outcome)
    modifies a`iam, a`calls
    ensures ProfileRemoved(profile, old(a.iam), a.iam, old(a.Calm()), o)
    ensures old(a.Calm()) ==> a.Calm()
    ensures a.Faults() <= old(a.Faults()) + (if o.Done? then 0 else 1)
  {
    hide FaultCount, Befalls;
    ghost var s := a.iam;
    var r := a.CallIam(Iam.GetProfile(a.iam, profile));
    if r == NoSuchEntity { return Done(Absent); }
    if !r.Names? { return Failed; }
    var roles := r.names;
    assert WithProfile(s, profile, roles) == s;
    while roles != {}
      invariant a.Faults() <= old(a.Faults())
      invariant old(a.Calm()) ==> a.Calm()
      invariant a.iam == WithProfile(s, profile, roles)
      invariant roles <= s.profiles[profile]
      decreases |roles|
    {
      var n :| n in roles;
      r := a.CallIam(Iam.RemoveRole(a.iam, profile, n));
      if r != Ok { return Failed; }
      roles := roles - {n};
    }
    r := a.CallIam(Iam.DeleteProfile(a.iam, profile));
    if r != Ok { return Failed; }
    return Done(Delete);
  }
}
