/** Listings that show generated ids beside a caller-chosen text. */
module Listings {
  datatype Item = Item(id: nat, text: string)

  /** One resource has the text, none has, or the listing failed or showed several. */
  datatype Found = At(id: nat) | Nowhere | Error

  /** The ids with that text among a page's items. */
  function Matching(items: seq<Item>, text: string): (r: seq<nat>)
    ensures forall i :: i in r <==> exists x :: x in items && x.id == i && x.text == text
  {
    if items == [] then []
    else
      assert items == [items[0]] + items[1..];
      (if items[0].text == text then [items[0].id] else []) + Matching(items[1..], text)
  }

  ghost predicate Climbs(ids: seq<nat>) {
    forall i, j | 0 <= i < j < |ids| :: ids[i] < ids[j]
  }

  lemma AppendHits(found: seq<nat>, hits: seq<nat>, from: nat)
    requires Climbs(found) && Climbs(hits)
    requires forall x | x in found :: x < from
    requires forall x | x in hits :: from <= x
    ensures Climbs(found + hits)
  {
    var all := found + hits;
    forall i, j | 0 <= i < j < |all| ensures all[i] < all[j] {
      if i < |found| { assert all[i] in found; }
      if j >= |found| { assert all[j] in hits; }
    }
  }

  lemma {:induction false} MatchingClimbs(items: seq<Item>, text: string)
    requires forall i, j | 0 <= i < j < |items| :: items[i].id < items[j].id
    ensures Climbs(Matching(items, text))
  {
    if items != [] {
      var rest := Matching(items[1..], text);
      MatchingClimbs(items[1..], text);
      forall k | 0 <= k < |rest| ensures items[0].id < rest[k] {
        assert rest[k] in rest;
      }
    }
  }

  /** What a listing shows of the ids from `lo` up to `hi`, in ascending order. */
  function Between(m: map<nat, string>, lo: nat, hi: nat): (r: seq<Item>)
    requires lo <= hi
    ensures forall x | x in r :: lo <= x.id < hi && x.id in m && x.text == m[x.id]
    ensures forall i | i in m && lo <= i < hi :: Item(i, m[i]) in r
    ensures forall i, j | 0 <= i < j < |r| :: r[i].id < r[j].id
    decreases hi - lo
  {
    if lo == hi then []
    else
      var rest := Between(m, lo + 1, hi);
      assert forall i | 0 <= i < |rest| :: rest[i] in rest;
      if lo in m then [Item(lo, m[lo])] + rest else rest
  }
}

/** The AWS services a deploy talks to, as value state machines: one function per API call,
    giving the state it leaves and the answer it gives, refusals included
    (internal/deploy/fake.go). Each service counts in `refused` the refusals a correct deploy
    is promised never to provoke. */
module DynamoDb {
  datatype Billing = PayPerRequest | Provisioned | Unreported

  /** `warm` counts the describes that still answer CREATING. */
  datatype Table = Table(billing: Billing, warm: nat, ttl: bool)

  /** `warmup` is how many describes a new table answers CREATING. */
  datatype State = State(tables: map<string, Table>, warmup: nat, refused: nat)

  datatype Reply = Ok | TableIs(billing: Billing, active: bool) | TtlIs(enabled: bool) | NoTable | Refused | Fault

  function Refuse(s: State): State { s.(refused := s.refused + 1) }

  function DescribeTable(s: State, t: string): (State, Reply) {
    if t !in s.tables then (s, NoTable)
    else
      var d := s.tables[t];
      var later := if d.warm > 0 then d.warm - 1 else 0;
      (s.(tables := s.tables[t := d.(warm := later)]), TableIs(d.billing, later == 0))
  }

  function CreateTable(s: State, t: string): (State, Reply) {
    if t in s.tables then (Refuse(s), Refused)
    else (s.(tables := s.tables[t := Table(PayPerRequest, s.warmup, false)]), Ok)
  }

  function DeleteTable(s: State, t: string): (State, Reply) {
    (s.(tables := s.tables - {t}), Ok)
  }

  function DescribeTtl(s: State, t: string): (State, Reply) {
    (s, TtlIs(t in s.tables && s.tables[t].ttl))
  }

  /** Refused on a table that is not ACTIVE and on one whose TTL is already on. */
  function EnableTtl(s: State, t: string): (State, Reply) {
    if t !in s.tables || s.tables[t].warm > 0 || s.tables[t].ttl then (Refuse(s), Refused)
    else (s.(tables := s.tables[t := s.tables[t].(ttl := true)]), Ok)
  }
}

module S3 {
  import opened Text

  /** `policy` is the distribution the read policy names, `cors` the one allowed origin,
      `objects` maps a key to its content digest. */
  datatype Bucket = Bucket(objects: map<string, string>, blocked: bool, encrypted: bool, tagged: bool,
                           lifecycle: bool, policy: Option<nat>, cors: Option<string>)

  const NEW_BUCKET := Bucket(map[], false, false, false, false, None, None)

  /** `foreign` holds the globally unique names other accounts own. */
  datatype State = State(buckets: map<string, Bucket>, foreign: set<string>, refused: nat)

  datatype Listed = Listed(key: string, digest: string)

  datatype Reply = Ok | NoBucket | Forbidden | OwnedByYou | Taken | NotEmpty
                 | Page(items: seq<Listed>, next: Option<string>) | KeyErrors | Fault

  function BucketOf(s: State, b: string): Bucket {
    if b in s.buckets then s.buckets[b] else NEW_BUCKET
  }

  /** A put on a bucket: the bucket changes if it is there. */
  function Put(s: State, b: string, k: Bucket): (State, Reply) {
    if b in s.buckets then (s.(buckets := s.buckets[b := k]), Ok) else (s, NoBucket)
  }

  function HeadBucket(s: State, b: string): (State, Reply) {
    (s, if b in s.foreign then Forbidden else if b in s.buckets then Ok else NoBucket)
  }

  function CreateBucket(s: State, b: string): (State, Reply) {
    if b in s.foreign then (s, Taken)
    else if b in s.buckets then (s, OwnedByYou)
    else (s.(buckets := s.buckets[b := NEW_BUCKET]), Ok)
  }

  function DeleteBucket(s: State, b: string): (State, Reply) {
    if BucketOf(s, b).objects != map[] then (s.(refused := s.refused + 1), NotEmpty)
    else (s.(buckets := s.buckets - {b}), Ok)
  }

  function BlockPublic(s: State, b: string): (State, Reply) { Put(s, b, BucketOf(s, b).(blocked := true)) }
  function Encrypt(s: State, b: string): (State, Reply) { Put(s, b, BucketOf(s, b).(encrypted := true)) }
  function TagBucket(s: State, b: string): (State, Reply) { Put(s, b, BucketOf(s, b).(tagged := true)) }
  function PutLifecycle(s: State, b: string): (State, Reply) { Put(s, b, BucketOf(s, b).(lifecycle := true)) }

  function PutPolicy(s: State, b: string, reader: nat): (State, Reply) {
    Put(s, b, BucketOf(s, b).(policy := Some(reader)))
  }

  function PutCors(s: State, b: string, origin: string): (State, Reply) {
    Put(s, b, BucketOf(s, b).(cors := Some(origin)))
  }

  function PutObject(s: State, b: string, key: string, digest: string): (State, Reply) {
    Put(s, b, BucketOf(s, b).(objects := BucketOf(s, b).objects[key := digest]))
  }

  function Without(m: map<string, string>, keys: seq<string>): map<string, string> {
    map k | k in m && k !in keys :: m[k]
  }

  function DeleteObjects(s: State, b: string, keys: seq<string>): (State, Reply) {
    Put(s, b, BucketOf(s, b).(objects := Without(BucketOf(s, b).objects, keys)))
  }

  predicate After(key: string, token: Option<string>) {
    token == None || Less(token.value, key)
  }

  /** The keys a listing that resumes after `token` still has to show, in order. */
  function KeysAfter(objects: map<string, string>, token: Option<string>): (r: seq<string>)
    ensures forall k :: k in r <==> k in objects && After(k, token)
    ensures forall i, j | 0 <= i < j < |r| :: Less(r[i], r[j])
  {
    Sorted(set k | k in objects && After(k, token))
  }

  /** One page of at most `limit` keys, resuming after `token`. */
  function ListObjects(s: State, b: string, token: Option<string>, limit: nat): (State, Reply)
    requires limit > 0
  {
    if b !in s.buckets then (s, NoBucket)
    else
      var objects := s.buckets[b].objects;
      var keys := KeysAfter(objects, token);
      var n := if limit < |keys| then limit else |keys|;
      var items := seq(n, i requires 0 <= i < n => assert keys[i] in keys; Listed(keys[i], objects[keys[i]]));
      (s, Page(items, if n < |keys| then Some(keys[n - 1]) else None))
  }
}

module Iam {
  datatype Role = Role(trust: string, inline: map<string, string>, attached: set<string>, tagged: bool)

  const NO_ROLE := Role("", map[], {}, true)

  datatype State = State(roles: map<string, Role>, profiles: map<string, set<string>>, refused: nat)

  datatype Reply = Ok | Names(names: set<string>) | NoSuchEntity | EntityExists | DeleteConflict | LimitExceeded | Fault

  function Refuse(s: State): State { s.(refused := s.refused + 1) }

  function RoleOf(s: State, r: string): Role {
    if r in s.roles then s.roles[r] else NO_ROLE
  }

  function WithRole(s: State, r: string, role: Role): State { s.(roles := s.roles[r := role]) }

  function WithProfile(s: State, p: string, held: set<string>): State { s.(profiles := s.profiles[p := held]) }

  /** Some instance profile holds the role. */
  predicate Held(s: State, r: string) {
    exists p | p in s.profiles :: r in s.profiles[p]
  }

  /** A put on a role: an error when there is no such role. */
  function Put(s: State, r: string, role: Role): (State, Reply) {
    if r in s.roles then (WithRole(s, r, role), Ok) else (s, NoSuchEntity)
  }

  /** An update the service accepts even when there is no such role. */
  function Update(s: State, r: string, role: Role): (State, Reply) {
    (if r in s.roles then WithRole(s, r, role) else s, Ok)
  }

  function GetRole(s: State, r: string): (State, Reply) { (s, if r in s.roles then Ok else NoSuchEntity) }

  function CreateRole(s: State, r: string, doc: string): (State, Reply) {
    if r in s.roles then (s, EntityExists) else (WithRole(s, r, Role(doc, map[], {}, true)), Ok)
  }

  /** Refused while the role carries a policy or an instance profile holds it. */
  function DeleteRole(s: State, r: string): (State, Reply) {
    if r !in s.roles then (s, NoSuchEntity)
    else if s.roles[r].inline != map[] || s.roles[r].attached != {} || Held(s, r) then (Refuse(s), DeleteConflict)
    else (s.(roles := s.roles - {r}), Ok)
  }

  function UpdateTrust(s: State, r: string, doc: string): (State, Reply) { Update(s, r, RoleOf(s, r).(trust := doc)) }
  function TagRole(s: State, r: string): (State, Reply) { Update(s, r, RoleOf(s, r).(tagged := true)) }

  function PutRolePolicy(s: State, r: string, p: string, doc: string): (State, Reply) {
    Put(s, r, RoleOf(s, r).(inline := RoleOf(s, r).inline[p := doc]))
  }

  function DeleteRolePolicy(s: State, r: string, p: string): (State, Reply) {
    Update(s, r, RoleOf(s, r).(inline := RoleOf(s, r).inline - {p}))
  }

  function AttachRolePolicy(s: State, r: string, arn: string): (State, Reply) {
    Put(s, r, RoleOf(s, r).(attached := RoleOf(s, r).attached + {arn}))
  }

  function DetachRolePolicy(s: State, r: string, arn: string): (State, Reply) {
    Update(s, r, RoleOf(s, r).(attached := RoleOf(s, r).attached - {arn}))
  }

  function ListRolePolicies(s: State, r: string): (State, Reply) {
    (s, if r in s.roles then Names(s.roles[r].inline.Keys) else NoSuchEntity)
  }

  function ListAttached(s: State, r: string): (State, Reply) {
    (s, if r in s.roles then Names(s.roles[r].attached) else NoSuchEntity)
  }

  function GetProfile(s: State, p: string): (State, Reply) {
    (s, if p in s.profiles then Names(s.profiles[p]) else NoSuchEntity)
  }

  function CreateProfile(s: State, p: string): (State, Reply) {
    if p in s.profiles then (s, EntityExists) else (WithProfile(s, p, {}), Ok)
  }

  /** Refused while the profile holds a role. */
  function DeleteProfile(s: State, p: string): (State, Reply) {
    if p !in s.profiles then (s, NoSuchEntity)
    else if s.profiles[p] != {} then (Refuse(s), DeleteConflict)
    else (s.(profiles := s.profiles - {p}), Ok)
  }

  /** A profile holds at most one role. */
  function AddRole(s: State, p: string, r: string): (State, Reply) {
    if p !in s.profiles then (s, NoSuchEntity)
    else if s.profiles[p] != {} then (Refuse(s), LimitExceeded)
    else (WithProfile(s, p, {r}), Ok)
  }

  function RemoveRole(s: State, p: string, r: string): (State, Reply) {
    (if p in s.profiles then WithProfile(s, p, s.profiles[p] - {r}) else s, Ok)
  }
}

module CloudWatch {
  /** Retention in days by group, 0 for a group that keeps its logs for ever. */
  datatype State = State(groups: map<string, nat>)

  datatype Reply = Ok | Groups(groups: set<string>) | NoGroup | GroupExists | Fault

  function CreateGroup(s: State, g: string): (State, Reply) {
    if g in s.groups then (s, GroupExists) else (State(s.groups[g := 0]), Ok)
  }

  function DeleteGroup(s: State, g: string): (State, Reply) { (State(s.groups - {g}), Ok) }

  function PutRetention(s: State, g: string, days: nat): (State, Reply) {
    if g in s.groups then (State(s.groups[g := days]), Ok) else (s, NoGroup)
  }

  /** The API filters by prefix, not by name. */
  function DescribeGroups(s: State, prefix: string): (State, Reply) {
    (s, Groups(set g | g in s.groups && prefix <= g))
  }

  function TagGroup(s: State, g: string): (State, Reply) { (s, Ok) }
}

module Lambda {
  datatype Config = Config(role: string, layer: string, timeout: nat, memory: nat, env: map<string, string>)

  /** `perms` is the resource policy: statement id to the id of the API it names. */
  datatype Function = Function(code: string, config: Config, tagged: bool, perms: map<string, nat>)

  /** `notReady` counts the creates IAM propagation still makes Lambda reject. */
  datatype State = State(functions: map<string, Function>, notReady: nat)

  datatype Reply = Ok | FunctionIs(code: string) | NotFound | Conflict | RoleNotReady | Fault

  function WithFunction(s: State, f: string, x: Function): State { s.(functions := s.functions[f := x]) }

  function GetFunction(s: State, f: string): (State, Reply) {
    (s, if f in s.functions then FunctionIs(s.functions[f].code) else NotFound)
  }

  function CreateFunction(s: State, f: string, code: string, config: Config): (State, Reply) {
    if s.notReady > 0 then (s.(notReady := s.notReady - 1), RoleNotReady)
    else if f in s.functions then (s, Conflict)
    else (WithFunction(s, f, Function(code, config, true, map[])), Ok)
  }

  function DeleteFunction(s: State, f: string): (State, Reply) { (s.(functions := s.functions - {f}), Ok) }

  function UpdateCode(s: State, f: string, code: string): (State, Reply) {
    if f in s.functions then (WithFunction(s, f, s.functions[f].(code := code)), Ok) else (s, NotFound)
  }

  function UpdateConfig(s: State, f: string, config: Config): (State, Reply) {
    if f in s.functions then (WithFunction(s, f, s.functions[f].(config := config)), Ok) else (s, NotFound)
  }

  function TagFunction(s: State, f: string): (State, Reply) {
    (if f in s.functions then WithFunction(s, f, s.functions[f].(tagged := true)) else s, Ok)
  }

  /** A statement id that is already there is a conflict, whatever source it names. */
  function AddPermission(s: State, f: string, sid: string, api: nat): (State, Reply) {
    if f !in s.functions then (s, NotFound)
    else if sid in s.functions[f].perms then (s, Conflict)
    else (WithFunction(s, f, s.functions[f].(perms := s.functions[f].perms[sid := api])), Ok)
  }

  function RemovePermission(s: State, f: string, sid: string): (State, Reply) {
    if f !in s.functions || sid !in s.functions[f].perms then (s, NotFound)
    else (WithFunction(s, f, s.functions[f].(perms := s.functions[f].perms - {sid})), Ok)
  }
}

module ApiGateway {
  import opened Text
  import opened Listings

  datatype Stage = Stage(autoDeploy: bool, logArn: string)

  /** Integrations by generated id, routes by key to the integration they target. */
  datatype Api = Api(name: string, integrations: map<nat, string>, routes: map<string, nat>, stages: map<string, Stage>)

  /** Ids are generated by counting: `next` is the first one not given out yet. */
  datatype State = State(apis: map<nat, Api>, next: nat)

  datatype Reply = Ok | Created(id: nat) | Items(items: seq<Item>, more: Option<nat>) | Routes(routes: map<string, nat>)
                 | NotFound | Conflict | Fault

  function Names(m: map<nat, Api>): (r: map<nat, string>)
    ensures r.Keys == m.Keys && forall i | i in m :: i in r && r[i] == m[i].name
  {
    map i | i in m :: m[i].name
  }

  function WithApi(s: State, a: nat, x: Api): State { s.(apis := s.apis[a := x]) }

  /** One page of at most `limit` ids, from `from` on. */
  function GetApis(s: State, from: nat, limit: nat): (State, Reply)
    requires limit > 0
  {
    var stop := if from + limit < s.next then from + limit else s.next;
    (s, if from < stop then Items(Between(Names(s.apis), from, stop), if stop < s.next then Some(stop) else None)
        else Items([], None))
  }

  function CreateApi(s: State, name: string): (State, Reply) {
    (State(s.apis[s.next := Api(name, map[], map[], map[])], s.next + 1), Created(s.next))
  }

  /** Deleting an API takes its integrations, routes and stages with it. */
  function DeleteApi(s: State, a: nat): (State, Reply) { (s.(apis := s.apis - {a}), Ok) }

  function GetIntegrations(s: State, a: nat): (State, Reply) {
    (s, if a in s.apis then Items(Between(s.apis[a].integrations, 0, s.next), None) else NotFound)
  }

  function CreateIntegration(s: State, a: nat, uri: string): (State, Reply) {
    if a !in s.apis then (s, NotFound)
    else (State(s.apis[a := s.apis[a].(integrations := s.apis[a].integrations[s.next := uri])], s.next + 1),
          Created(s.next))
  }

  function GetRoutes(s: State, a: nat): (State, Reply) {
    (s, if a in s.apis then Routes(s.apis[a].routes) else NotFound)
  }

  /** Creates the route, or retargets the one with that key. */
  function PutRoute(s: State, a: nat, key: string, target: nat): (State, Reply) {
    if a in s.apis then (WithApi(s, a, s.apis[a].(routes := s.apis[a].routes[key := target])), Ok) else (s, NotFound)
  }

  function GetStage(s: State, a: nat, stage: string): (State, Reply) {
    (s, if a in s.apis && stage in s.apis[a].stages then Ok else NotFound)
  }

  /** A stage that is already there is a conflict, as the service has it. */
  function CreateStage(s: State, a: nat, stage: string, x: Stage): (State, Reply) {
    if a !in s.apis then (s, NotFound)
    else if stage in s.apis[a].stages then (s, Conflict)
    else (WithStage(s, a, stage, x), Ok)
  }

  function UpdateStage(s: State, a: nat, stage: string, x: Stage): (State, Reply) {
    if a in s.apis && stage in s.apis[a].stages then (WithStage(s, a, stage, x), Ok) else (s, NotFound)
  }

  function WithStage(s: State, a: nat, stage: string, x: Stage): State
    requires a in s.apis
  {
    WithApi(s, a, s.apis[a].(stages := s.apis[a].stages[stage := x]))
  }
}

module CloudFront {
  import opened Text
  import opened CloudFrontConfig
  import opened Listings

  /** `ticks` counts the polls a change still takes to reach every edge; at 0 it is Deployed. */
  datatype Dist = Dist(config: Config, ticks: nat, etag: nat)

  datatype Oac = Oac(name: string, etag: nat)

  /** `settle` is how many polls any change takes to propagate. */
  datatype State = State(dists: map<nat, Dist>, oacs: map<nat, Oac>, next: nat, settle: nat, refused: nat)

  datatype Reply = Ok | Created(id: nat) | Summaries(items: seq<Item>, more: Option<nat>)
                 | StatusIs(inProgress: bool) | ConfigIs(config: Config, etag: nat) | ETagIs(etag: nat)
                 | NoSuch | NotDisabled | PreconditionFailed | IllegalUpdate | Fault

  /** The domain CloudFront derives from a distribution's id. */
  function Domain(id: nat): (d: string)
    ensures d != ""
  {
    "e" + Decimal(id) + ".cloudfront.net"
  }

  function OacText(id: nat): string { "OAC" + Decimal(id) }

  function Refuse(s: State): State { s.(refused := s.refused + 1) }

  function Comments(m: map<nat, Dist>): (r: map<nat, string>)
    ensures r.Keys == m.Keys && forall i | i in m :: i in r && r[i] == m[i].config.comment
  {
    map i | i in m :: m[i].config.comment
  }

  function OacNames(m: map<nat, Oac>): (r: map<nat, string>)
    ensures r.Keys == m.Keys && forall i | i in m :: i in r && r[i] == m[i].name
  {
    map i | i in m :: m[i].name
  }

  function WithDist(s: State, id: nat, d: Dist): State { s.(dists := s.dists[id := d]) }

  /** One page of at most `limit` ids, from `from` on. */
  function ListDistributions(s: State, from: nat, limit: nat): (State, Reply)
    requires limit > 0
  {
    var stop := if from + limit < s.next then from + limit else s.next;
    var more := if stop < s.next then Some(stop) else None;
    (s, if from < stop then Summaries(Between(Comments(s.dists), from, stop), more) else Summaries([], None))
  }

  /** CloudFront fills in the aliases a new configuration leaves out. */
  function CreateDistribution(s: State, c: Config): (State, Reply) {
    var full := if c.aliases == None then c.(aliases := Some([])) else c;
    (WithDist(s, s.next, Dist(full, s.settle, 0)).(next := s.next + 1), Created(s.next))
  }

  function GetDistribution(s: State, id: nat): (State, Reply) {
    if id !in s.dists then (s, NoSuch)
    else
      var t := if s.dists[id].ticks > 0 then s.dists[id].ticks - 1 else 0;
      (WithDist(s, id, s.dists[id].(ticks := t)), StatusIs(t > 0))
  }

  function GetConfig(s: State, id: nat): (State, Reply) {
    (s, if id in s.dists then ConfigIs(s.dists[id].config, s.dists[id].etag) else NoSuch)
  }

  /** Replaces the whole configuration; refused on a stale ETag and on one that drops the aliases. */
  function UpdateDistribution(s: State, id: nat, ifMatch: nat, c: Config): (State, Reply) {
    if id !in s.dists then (s, NoSuch)
    else if ifMatch != s.dists[id].etag then (Refuse(s), PreconditionFailed)
    else if s.dists[id].config.aliases.Some? && c.aliases.None? then (Refuse(s), IllegalUpdate)
    else (WithDist(s, id, Dist(c, s.settle, s.dists[id].etag + 1)), Ok)
  }

  /** Refused on an enabled distribution and on a stale ETag. */
  function DeleteDistribution(s: State, id: nat, ifMatch: nat): (State, Reply) {
    if id !in s.dists then (s, NoSuch)
    else if s.dists[id].config.enabled then (Refuse(s), NotDisabled)
    else if ifMatch != s.dists[id].etag then (Refuse(s), PreconditionFailed)
    else (s.(dists := s.dists - {id}), Ok)
  }

  function ListOacs(s: State): (State, Reply) { (s, Summaries(Between(OacNames(s.oacs), 0, s.next), None)) }

  function CreateOac(s: State, name: string): (State, Reply) {
    (s.(oacs := s.oacs[s.next := Oac(name, 0)], next := s.next + 1), Created(s.next))
  }

  function GetOac(s: State, id: nat): (State, Reply) {
    (s, if id in s.oacs then ETagIs(s.oacs[id].etag) else NoSuch)
  }

  function DeleteOac(s: State, id: nat, ifMatch: nat): (State, Reply) {
    if id !in s.oacs then (s, NoSuch)
    else if ifMatch != s.oacs[id].etag then (Refuse(s), PreconditionFailed)
    else (s.(oacs := s.oacs - {id}), Ok)
  }
}
