/** The sessions table: internal/deploy/dynamodb.go. */
module TableResource {
  import opened Text
  import opened DynamoDb
  import opened Accounts
  import opened Actions

  /** Seconds a new table is waited for, and between two looks. */
  const TABLE_WAIT := 120
  const TABLE_POLL := 2

  /** The describes that fit: one at 0s, then one every poll until the wait is exceeded. */
  const TABLE_DESCRIBES := TABLE_WAIT / TABLE_POLL + 2

  ghost predicate TableConverged(t: string, s: State) {
    t in s.tables && s.tables[t] == Table(PayPerRequest, 0, true)
  }

  /** The table would still be creating when looked at, and has no TTL yet. */
  predicate TooEarly(t: string, s: State) {
    t in s.tables && s.tables[t].warm > 1 && !s.tables[t].ttl
  }

  /** The table is absent and would become active in time, or is on-demand. */
  predicate TableFit(t: string, s: State) {
    if t in s.tables then s.tables[t].billing == PayPerRequest else s.warmup <= TABLE_DESCRIBES
  }

  /** Apply gets past the table, leaving one on another billing mode as it is. */
  predicate TablePasses(t: string, s: State) {
    if t in s.tables then s.tables[t].billing == PayPerRequest ==> !TooEarly(t, s) else s.warmup <= TABLE_DESCRIBES
  }

  /** TTL is on only where the table has been active. */
  predicate TtlActive(t: string, s: State) {
    t in s.tables && s.tables[t].ttl ==> s.tables[t].warm == 0
  }

  /** Apply can complete from here, and converges the table. */
  predicate TableReady(t: string, s: State) { TableFit(t, s) && !TooEarly(t, s) && TtlActive(t, s) }

  ghost predicate TableEnsured(t: string, s: State, s': State, calm: bool, o: Outcome) {
    && SameExcept(s.tables, s'.tables, t) && s'.warmup == s.warmup
    && (t in s.tables ==> t in s'.tables)
    && (t in s'.tables ==>
          && s'.tables[t].billing == (if t in s.tables then s.tables[t].billing else PayPerRequest)
          && (t in s.tables ==> s'.tables[t].warm <= s.tables[t].warm && (s.tables[t].ttl ==> s'.tables[t].ttl)))
    && (o.Done? ==>
          && t in s'.tables
          && o.op == (if t in s.tables then Exists else Create)
          && (if s'.tables[t].billing == PayPerRequest then s'.tables[t].ttl
              // A table on another billing mode is reported and left as it is, TTL included.
              else s'.tables[t].ttl == s.tables[t].ttl)
          && (TableReady(t, s) ==> TableConverged(t, s'))
          && (TableConverged(t, s) ==> s' == s))
    && (TtlActive(t, s) ==> TtlActive(t, s'))
    && (TableReady(t, s) ==> s'.refused == s.refused)
    // Without faults it stops only at a new table that is not active in time and at an on-demand one still
    // being created, where it asks for TTL too early and is refused.
    && (calm ==> (o.Done? <==> TablePasses(t, s)))
    && (calm ==> s'.refused == s.refused + (if t in s.tables && !TablePasses(t, s) then 1 else 0))
  }

  method WaitActive(a: Account, t: string) returns (ok: bool)
    requires t in a.ddb.tables
    modifies a`ddb, a`calls
    ensures t in a.ddb.tables && a.ddb.tables[t].warm <= old(a.ddb).tables[t].warm
    ensures a.ddb == old(a.ddb).(tables := old(a.ddb).tables[t := old(a.ddb).tables[t].(warm := a.ddb.tables[t].warm)])
    ensures ok ==> a.ddb.tables[t].warm == 0
    ensures old(a.Calm()) ==> a.Calm() && (ok <==> old(a.ddb).tables[t].warm <= TABLE_DESCRIBES)
    ensures a.Faults() <= old(a.Faults()) + (if ok then 0 else 1)
  {
    ghost var s := a.ddb;
    var elapsed := 0;
    while true
      invariant a.Faults() <= old(a.Faults())
      invariant elapsed % TABLE_POLL == 0 && 0 <= elapsed <= TABLE_WAIT + TABLE_POLL
      invariant t in a.ddb.tables && a.ddb.tables[t].warm <= s.tables[t].warm
      invariant a.ddb == s.(tables := s.tables[t := s.tables[t].(warm := a.ddb.tables[t].warm)])
      invariant old(a.Calm()) ==>
                  a.Calm() && a.ddb.tables[t].warm == Minus(s.tables[t].warm, elapsed / TABLE_POLL)
      decreases TABLE_WAIT + TABLE_POLL - elapsed
    {
      var r := a.CallDdb(DynamoDb.DescribeTable(a.ddb, t));
      if !r.TableIs? && r != NoTable { return false; }
      if r.TableIs? && r.active { return true; }
      if elapsed > TABLE_WAIT { return false; }
      elapsed := elapsed + TABLE_POLL;
    }
    return false;
  }

  method EnsureTtl(a: Account, t: string) returns (ok: bool)
    requires t in a.ddb.tables
    modifies a`ddb, a`calls
    ensures a.ddb.warmup == old(a.ddb).warmup
    ensures a.ddb.tables == old(a.ddb).tables
            || a.ddb.tables == old(a.ddb).tables[t := old(a.ddb).tables[t].(ttl := true)]
    ensures ok ==> a.ddb.tables[t].ttl
    ensures old(a.ddb).tables[t].warm == 0 ==> a.ddb.refused == old(a.ddb).refused && (old(a.Calm()) ==> ok)
    ensures old(a.Calm()) && old(a.ddb).tables[t].warm > 0 && !old(a.ddb).tables[t].ttl ==>
              !ok && a.ddb.refused == old(a.ddb).refused + 1
    ensures old(a.ddb).tables[t].ttl ==> a.ddb == old(a.ddb) && (old(a.Calm()) ==> ok)
    ensures a.ddb.tables != old(a.ddb).tables ==> old(a.ddb).tables[t].warm == 0
    ensures old(a.Calm()) ==> a.Calm()
    ensures a.Faults() <= old(a.Faults()) + (if ok then 0 else 1)
  {
    var r := a.CallDdb(DynamoDb.DescribeTtl(a.ddb, t));
    if !r.TtlIs? { return false; }
    if r.enabled { return true; }
    r := a.CallDdb(DynamoDb.EnableTtl(a.ddb, t));
    return r == Ok;
  }

  method EnsureTable(a: Account, t: string) returns (o: Outcome)
    modifies a`ddb, a`calls
    ensures TableEnsured(t, old(a.ddb), a.ddb, old(a.Calm()), o)
    ensures old(a.Calm()) ==> a.Calm()
    ensures a.Faults() <= old(a.Faults()) + (if o.Done? then 0 else 1)
  {
    ghost var s := a.ddb;
    var r := a.CallDdb(DynamoDb.DescribeTable(a.ddb, t));
    if !r.TableIs? && r != NoTable { return Failed; }
    if r.TableIs? {
      assert TableConverged(t, s) ==> a.ddb.tables == s.tables;
      if r.billing != PayPerRequest { return Done(Exists); }
      var ok := EnsureTtl(a, t);
      return if ok then Done(Exists) else Failed;
    }
    r := a.CallDdb(DynamoDb.CreateTable(a.ddb, t));
    if r != Ok { return Failed; }
    var ok := WaitActive(a, t);
    if !ok { return Failed; }
    ok := EnsureTtl(a, t);
    return if ok then Done(Create) else Failed;
  }

  ghost predicate TableRemoved(t: string, s: State, s': State, calm: bool, o: Outcome) {
    && SameExcept(s.tables, s'.tables, t) && s'.warmup == s.warmup && s'.refused == s.refused
    && (t in s'.tables ==>
          t in s.tables && s'.tables[t] == s.tables[t].(warm := s'.tables[t].warm)
            && s'.tables[t].warm <= s.tables[t].warm)
    && (o.Done? ==> t !in s'.tables && o.op == (if t in s.tables then Delete else Absent))
    && (calm ==> o.Done?)
  }

  method RemoveTable(a: Account, t: string) returns (o: Outcome)
    modifies a`ddb, a`calls
    ensures TableRemoved(t, old(a.ddb), a.ddb, old(a.Calm()), o)
    ensures old(a.Calm()) ==> a.Calm()
    ensures a.Faults() <= old(a.Faults()) + (if o.Done? then 0 else 1)
  {
    var r := a.CallDdb(DynamoDb.DescribeTable(a.ddb, t));
    if r == NoTable { return Done(Absent); }
    if !r.TableIs? { return Failed; }
    r := a.CallDdb(DynamoDb.DeleteTable(a.ddb, t));
    return if r == Ok then Done(Delete) else Failed;
  }
}

/** The buckets: internal/deploy/s3.go. */
module BucketResource {
  import opened Text
  import opened S3
  import opened Accounts
  import opened Actions

  ghost predicate BucketConverged(b: string, lifecycle: bool, s: State) {
    && b in s.buckets
    && s.buckets[b].blocked && s.buckets[b].encrypted && s.buckets[b].tagged
    && (lifecycle ==> s.buckets[b].lifecycle)
  }

  /** Only one bucket may differ. */
  ghost predicate OnlyBucket(b: string, s: State, s': State) {
    SameExcept(s.buckets, s'.buckets, b) && s'.foreign == s.foreign && s'.refused == s.refused
  }

  /** What a bucket holds for others: its objects and the two settings the CDN writes. */
  ghost predicate SameContents(x: Bucket, y: Bucket) {
    x.objects == y.objects && x.policy == y.policy && x.cors == y.cors
  }

  ghost predicate BucketEnsured(b: string, lifecycle: bool, s: State, s': State, calm: bool, o: Outcome) {
    && OnlyBucket(b, s, s')
    && (b in s.buckets ==> b in s'.buckets)
    && (b in s'.buckets ==> SameContents(s'.buckets[b], BucketOf(s, b)))
    && (o.Done? ==>
          && b !in s.foreign
          && BucketConverged(b, lifecycle, s')
          && o.op == (if b in s.buckets then Exists else Create)
          && (BucketConverged(b, lifecycle, s) ==> s' == s))
    // A name another account owns is an error, and nothing was touched.
    && (b in s.foreign ==> o.Failed? && s' == s)
    && (calm && b !in s.foreign ==> o.Done?)
  }

  method ApplyPosture(a: Account, b: string, lifecycle: bool) returns (ok: bool)
    requires b in a.s3.buckets
    modifies a`s3, a`calls
    ensures OnlyBucket(b, old(a.s3), a.s3) && b in a.s3.buckets && SameContents(a.s3.buckets[b], old(a.s3).buckets[b])
    ensures ok ==> BucketConverged(b, lifecycle, a.s3)
    ensures ok && BucketConverged(b, lifecycle, old(a.s3)) ==> a.s3 == old(a.s3)
    ensures old(a.Calm()) ==> ok && a.Calm()
    ensures a.Faults() <= old(a.Faults()) + (if ok then 0 else 1)
  {
    ghost var s := a.s3;
    var r := a.CallS3(S3.BlockPublic(a.s3, b));
    if r != Ok { return false; }
    r := a.CallS3(S3.Encrypt(a.s3, b));
    if r != Ok { return false; }
    r := a.CallS3(S3.TagBucket(a.s3, b));
    if r != Ok { return false; }
    if lifecycle {
      r := a.CallS3(S3.PutLifecycle(a.s3, b));
      if r != Ok { return false; }
    }
    assert BucketConverged(b, lifecycle, s) ==> a.s3.buckets == s.buckets;
    return true;
  }

  method EnsureBucket(a: Account, b: string, lifecycle: bool) returns (o: Outcome)
    modifies a`s3, a`calls
    ensures BucketEnsured(b, lifecycle, old(a.s3), a.s3, old(a.Calm()), o)
    ensures old(a.Calm()) ==> a.Calm()
    ensures a.Faults() <= old(a.Faults()) + (if o.Done? then 0 else 1)
  {
    var r := a.CallS3(S3.HeadBucket(a.s3, b));
    if r != Ok && r != NoBucket { return Failed; }
    var op := Exists;
    if r == NoBucket {
      r := a.CallS3(S3.CreateBucket(a.s3, b));
      if r != Ok && r != OwnedByYou { return Failed; }
      op := Create;
    }
    var ok := ApplyPosture(a, b, lifecycle);
    return if ok then Done(op) else Failed;
  }

  ghost predicate BucketRemoved(b: string, s: State, s': State, calm: bool, o: Outcome) {
    && OnlyBucket(b, s, s')
    && (b in s'.buckets ==>
          && b in s.buckets
          && s'.buckets[b] == s.buckets[b].(objects := s'.buckets[b].objects)
          && s'.buckets[b].objects.Keys <= s.buckets[b].objects.Keys)
    && (o.Done? ==> b !in s'.buckets && o.op == (if b in s.buckets then Delete else Absent))
    // A name another account owns is an error, and nothing was touched.
    && (b in s.foreign ==> o.Failed? && s' == s)
    && (calm ==> (o.Done? <==> b !in s.foreign))
  }

  // ---- emptying, page by page, while the listing shrinks

  /** What a page promises: it shows objects only, it goes on only past something it shows, and
      the objects after the token that it leaves out all come after where it stops. */
  ghost predicate PageCovers(objects: map<string, string>, token: Option<string>, p: Reply)
    requires p.Page?
  {
    && (forall x | x in p.items :: x.key in objects && objects[x.key] == x.digest)
    && (p.next.Some? ==> p.items != [])
    && (forall k | k in objects && After(k, token) && (forall x | x in p.items :: x.key != k) ::
          p.next.Some? && After(k, p.next))
  }

  /** The objects a listing that resumes after `token` still has to show. */
  ghost function Remaining(objects: map<string, string>, token: Option<string>): set<string> {
    set k | k in objects && After(k, token)
  }

  /** A page that is not the last leaves strictly less to show. */
  ghost predicate PageAdvances(objects: map<string, string>, token: Option<string>, p: Reply)
    requires p.Page?
  {
    p.next.Some? ==> Remaining(objects, p.next) < Remaining(objects, token)
  }

  lemma PageIsHonest(s: State, b: string, token: Option<string>, limit: nat)
    requires limit > 0 && b in s.buckets
    ensures var p := ListObjects(s, b, token, limit).1;
            p.Page? && PageCovers(s.buckets[b].objects, token, p) && PageAdvances(s.buckets[b].objects, token, p)
  {
    hide Less, KeysAfter, PageAdvances;
    var objects := s.buckets[b].objects;
    var p := ListObjects(s, b, token, limit).1;
    var keys := KeysAfter(objects, token);
    PageMovesOn(s, b, token, limit);
    assert forall i | 0 <= i < |p.items| :: p.items[i] in p.items && p.items[i].key == keys[i];
    forall x | x in p.items ensures x.key in keys && x.key in objects && objects[x.key] == x.digest {
      var i :| 0 <= i < |p.items| && p.items[i] == x;
      assert keys[i] in keys;
    }
    forall k | k in objects && After(k, token) && (forall x | x in p.items :: x.key != k)
      ensures p.next.Some? && After(k, p.next)
    {
      assert k in keys;
      var j :| 0 <= j < |keys| && keys[j] == k;
    }
  }

  lemma PageMovesOn(s: State, b: string, token: Option<string>, limit: nat)
    requires limit > 0 && b in s.buckets
    ensures PageAdvances(s.buckets[b].objects, token, ListObjects(s, b, token, limit).1)
  {
    hide Less, KeysAfter;
    var objects := s.buckets[b].objects;
    var p := ListObjects(s, b, token, limit).1;
    var keys := KeysAfter(objects, token);
    if p.next.Some? {
      assert keys[|p.items| - 1] in keys;
      Advance(objects, token, keys[|p.items| - 1]);
    }
  }

  lemma Advance(objects: map<string, string>, token: Option<string>, stop: string)
    requires stop in Remaining(objects, token)
    ensures Remaining(objects, Some(stop)) < Remaining(objects, token)
  {
    assert !After(stop, Some(stop));
    forall k | k in Remaining(objects, Some(stop)) ensures k in Remaining(objects, token) {
      if token.Some? { LessTransitive(token.value, stop, k); }
    }
  }

  method ListPage(a: Account, b: string, token: Option<string>) returns (r: Reply)
    modifies a`s3, a`calls
    ensures a.s3 == old(a.s3)
    ensures r.Page? ==>
              && b in a.s3.buckets
              && PageCovers(a.s3.buckets[b].objects, token, r)
              && PageAdvances(a.s3.buckets[b].objects, token, r)
    ensures old(a.Calm()) ==> a.Calm() && (b in a.s3.buckets ==> r.Page?)
    ensures a.Faults() <= old(a.Faults()) + (if r != Fault then 0 else 1)
  {
    if b in a.s3.buckets { PageIsHonest(a.s3, b, token, a.Limit()); }
    r := a.CallS3(S3.ListObjects(a.s3, b, token, a.Limit()));
  }

  function Keys(items: seq<Listed>): (r: seq<string>)
    ensures forall k :: k in r <==> exists x :: x in items && x.key == k
  {
    if items == [] then [] else
      assert items == [items[0]] + items[1..];
      [items[0].key] + Keys(items[1..])
  }

  /** Deletes what a page shows. */
  method DeletePage(a: Account, b: string, items: seq<Listed>) returns (ok: bool)
    requires b in a.s3.buckets
    modifies a`s3, a`calls
    ensures OnlyBucket(b, old(a.s3), a.s3) && b in a.s3.buckets
    ensures a.s3.buckets[b] == old(a.s3).buckets[b].(objects := a.s3.buckets[b].objects)
    ensures a.s3.buckets[b].objects.Keys <= old(a.s3).buckets[b].objects.Keys
    ensures ok ==> forall x | x in items :: x.key !in a.s3.buckets[b].objects
    ensures a.calls == old(a.calls) + (if items == [] then 0 else 1)
    ensures old(a.Calm()) ==> ok && a.Calm()
    ensures a.Faults() <= old(a.Faults()) + (if ok then 0 else 1)
  {
    if items == [] { return true; }
    var keys := Keys(items);
    var r := a.CallDeleteObjects(b, keys);
    return r == Ok;
  }

  method EmptyBucket(a: Account, b: string) returns (ok: bool)
    requires b in a.s3.buckets
    modifies a`s3, a`calls
    ensures OnlyBucket(b, old(a.s3), a.s3) && b in a.s3.buckets
    ensures a.s3.buckets[b] == old(a.s3).buckets[b].(objects := a.s3.buckets[b].objects)
    ensures a.s3.buckets[b].objects.Keys <= old(a.s3).buckets[b].objects.Keys
    ensures ok ==> a.s3.buckets[b].objects == map[]
    ensures old(a.Calm()) ==> ok && a.Calm()
    ensures a.Faults() <= old(a.Faults()) + (if ok then 0 else 1)
  {
    ghost var s := a.s3;
    var token: Option<string> := None;
    var more := true;
    while more
      invariant a.Faults() <= old(a.Faults())
      invariant old(a.Calm()) ==> a.Calm()
      invariant OnlyBucket(b, s, a.s3) && b in a.s3.buckets
      invariant a.s3.buckets[b] == s.buckets[b].(objects := a.s3.buckets[b].objects)
      invariant a.s3.buckets[b].objects.Keys <= s.buckets[b].objects.Keys
      invariant more ==> forall k | k in a.s3.buckets[b].objects :: After(k, token)
      invariant !more ==> a.s3.buckets[b].objects == map[]
      decreases more, a.s3.buckets[b].objects.Keys
    {
      ghost var before := a.s3.buckets[b].objects;
      var page := ListPage(a, b, token);
      if !page.Page? { return false; }
      var ok := DeletePage(a, b, page.items);
      if !ok { return false; }
      if page.next == None {
        more := false;
      } else {
        assert page.items[0].key in before && page.items[0].key !in a.s3.buckets[b].objects;
        token := page.next;
      }
    }
    return true;
  }

  method RemoveBucket(a: Account, b: string) returns (o: Outcome)
    modifies a`s3, a`calls
    ensures BucketRemoved(b, old(a.s3), a.s3, old(a.Calm()), o)
    ensures old(a.Calm()) ==> a.Calm()
    ensures a.Faults() <= old(a.Faults()) + (if o.Done? then 0 else 1)
  {
    var r := a.CallS3(S3.HeadBucket(a.s3, b));
    if r == NoBucket { return Done(Absent); }
    if r != Ok { return Failed; }
    var ok := EmptyBucket(a, b);
    if !ok { return Failed; }
    r := a.CallS3(S3.DeleteBucket(a.s3, b));
    return if r == Ok then Done(Delete) else Failed;
  }
}
