/** Publishing the page: internal/deploy/websync.go. */
module WebSyncResource {
  import opened Text
  import opened S3
  import opened Accounts
  import opened Actions
  import opened BucketResource

  /** A local file by key, with the digest of its content; None when it cannot be read. */
  datatype File = File(key: string, digest: Option<string>)

  /** The local directory: its files, or None when it cannot be walked. */
  type Local = Option<seq<File>>

  predicate Readable(files: seq<File>) {
    forall f | f in files :: f.digest.Some?
  }

  /** A directory walk lists a path once. */
  predicate DistinctKeys(files: seq<File>) {
    forall i, j | 0 <= i < j < |files| :: files[i].key != files[j].key
  }

  /** The bucket holds exactly the local files, each with the digest of its content. */
  ghost predicate Mirrors(objects: map<string, string>, files: seq<File>) {
    && (forall f | f in files :: f.key in objects && f.digest == Some(objects[f.key]))
    && (forall k | k in objects :: exists f :: f in files && f.key == k)
  }

  /** The upload is needed: the key is absent or its digest differs. */
  predicate Stale(objects: map<string, string>, f: File) {
    f.key !in objects || f.digest != Some(objects[f.key])
  }

  function ToUpload(objects: map<string, string>, files: seq<File>): seq<string> {
    if files == [] then []
    else
      var last := files[|files| - 1];
      ToUpload(objects, files[..|files| - 1]) + (if Stale(objects, last) then [last.key] else [])
  }

  ghost predicate SyncEnsured(b: string, local: Local, s: State, s': State, calm: bool, o: Outcome) {
    && OnlyBucket(b, s, s')
    && (b in s'.buckets <==> b in s.buckets)
    && (b in s.buckets ==> s'.buckets[b] == s.buckets[b].(objects := s'.buckets[b].objects))
    && (o.Done? ==>
          && local.Some?
          && (local.value == [] ==> s' == s && o.op == Exists)
          && (local.value != [] ==>
                && b in s.buckets
                && Mirrors(s'.buckets[b].objects, local.value)
                && o.op == (if Mirrors(s.buckets[b].objects, local.value) then Exists else Create)
                && (Mirrors(s.buckets[b].objects, local.value) ==> s' == s)))
    && (calm && b in s.buckets && local.Some? && Readable(local.value) ==> o.Done?)
  }

  method RemoteDigests(a: Account, b: string) returns (r: Option<map<string, string>>)
    modifies a`s3, a`calls
    ensures a.s3 == old(a.s3)
    ensures r.Some? ==> b in a.s3.buckets && r.value == a.s3.buckets[b].objects
    ensures old(a.Calm()) ==> a.Calm() && (b in a.s3.buckets ==> r.Some?)
    ensures a.Faults() <= old(a.Faults()) + (if r.Some? then 0 else 1)
  {
    hide FaultCount, Less;
    ghost var objects := BucketOf(a.s3, b).objects;
    var out: map<string, string> := map[];
    var token: Option<string> := None;
    var more := true;
    while more
      invariant a.Faults() <= old(a.Faults())
      invariant a.s3 == old(a.s3)
      invariant old(a.Calm()) ==> a.Calm()
      invariant forall k | k in out :: k in objects && out[k] == objects[k]
      invariant forall k | k in objects && k !in out :: more && After(k, token)
      invariant !more ==> b in a.s3.buckets
      decreases more, Remaining(objects, token)
    {
      var page := ListPage(a, b, token);
      if !page.Page? { return None; }
      for i := 0 to |page.items|
        invariant forall k | k in out :: k in objects && out[k] == objects[k]
        invariant forall k | k in objects && k !in out :: After(k, token)
        invariant forall j | 0 <= j < i :: page.items[j].key in out
      {
        assert page.items[i] in page.items;
        out := out[page.items[i].key := page.items[i].digest];
      }
      more, token := page.next.Some?, page.next;
    }
    assert out.Keys == objects.Keys;
    return Some(out);
  }

  /** One file: read it, and put it when the bucket's digest is not its own. */
  method UploadOne(a: Account, b: string, f: File, stale: bool) returns (ok: bool)
    requires b in a.s3.buckets
    modifies a`s3, a`calls
    ensures OnlyBucket(b, old(a.s3), a.s3) && b in a.s3.buckets
    ensures a.s3.buckets[b] == old(a.s3).buckets[b].(objects := a.s3.buckets[b].objects)
    ensures ok ==> f.digest.Some?
    ensures ok ==> a.s3 == if stale then PutObject(old(a.s3), b, f.key, f.digest.value).0 else old(a.s3)
    ensures old(a.Calm()) ==> a.Calm() && (f.digest.Some? ==> ok)
    ensures a.Faults() <= old(a.Faults()) + (if ok then 0 else 1)
  {
    if f.digest == None { return false; }
    if !stale { return true; }
    var r := a.CallS3(S3.PutObject(a.s3, b, f.key, f.digest.value));
    return r == Ok;
  }

  /** The first `i` files have been read and put where they differed; other keys are as they were. */
  ghost predicate UploadedUpTo(b: string, files: seq<File>, i: nat, s: State, s': State, uploaded: seq<string>,
                               kept: set<string>)
    requires i <= |files| && b in s.buckets
  {
    && OnlyBucket(b, s, s') && b in s'.buckets
    && s'.buckets[b] == s.buckets[b].(objects := s'.buckets[b].objects)
    && uploaded == ToUpload(s.buckets[b].objects, files[..i])
    && (forall j | 0 <= j < i :: files[j].digest.Some? && files[j].key in kept)
    && (forall k | k in kept :: exists j :: 0 <= j < i && files[j].key == k)
    && (forall j | 0 <= j < i ::
          files[j].key in s'.buckets[b].objects && files[j].digest == Some(s'.buckets[b].objects[files[j].key]))
    && (forall k | k !in kept :: (k in s'.buckets[b].objects <==> k in s.buckets[b].objects)
                                 && (k in s.buckets[b].objects ==> s'.buckets[b].objects[k] == s.buckets[b].objects[k]))
    && (uploaded == [] ==> s' == s)
  }

  lemma UploadStep(b: string, files: seq<File>, i: nat, s: State, t: State, u: State, uploaded: seq<string>,
                   kept: set<string>)
    requires i < |files| && b in s.buckets && DistinctKeys(files) && UploadedUpTo(b, files, i, s, t, uploaded, kept)
    requires files[i].digest.Some?
    requires var f := files[i];
             u == if Stale(s.buckets[b].objects, f) then PutObject(t, b, f.key, f.digest.value).0 else t
    ensures var more := if Stale(s.buckets[b].objects, files[i]) then [files[i].key] else [];
            UploadedUpTo(b, files, i + 1, s, u, uploaded + more, kept + {files[i].key})
  {
    hide ToUpload;
    var f, remote := files[i], s.buckets[b].objects;
    ToUploadNext(remote, files, i);
    assert f.key !in kept;
    if !Stale(remote, f) {
      assert f.key in t.buckets[b].objects && t.buckets[b].objects[f.key] == remote[f.key];
    }
    var up, keep := uploaded + (if Stale(remote, f) then [f.key] else []), kept + {f.key};
    assert up == ToUpload(remote, files[..i + 1]);
  }

  lemma ToUploadNext(remote: map<string, string>, files: seq<File>, i: nat)
    requires i < |files|
    ensures ToUpload(remote, files[..i + 1])
            == ToUpload(remote, files[..i]) + (if Stale(remote, files[i]) then [files[i].key] else [])
  {
    assert files[..i + 1][..i] == files[..i];
  }

  lemma UploadedAll(b: string, files: seq<File>, s: State, s': State, uploaded: seq<string>, kept: set<string>)
    requires b in s.buckets && UploadedUpTo(b, files, |files|, s, s', uploaded, kept)
    ensures uploaded == ToUpload(s.buckets[b].objects, files) && Readable(files) && (uploaded == [] ==> s' == s)
    ensures b in s'.buckets && OnlyBucket(b, s, s') && s'.buckets[b] == s.buckets[b].(objects := s'.buckets[b].objects)
    ensures forall k :: k in kept <==> exists f :: f in files && f.key == k
    ensures forall f | f in files :: f.key in s'.buckets[b].objects && f.digest == Some(s'.buckets[b].objects[f.key])
    ensures forall k | k !in kept :: k in s'.buckets[b].objects <==> k in s.buckets[b].objects
  {
    assert files[..|files|] == files;
    hide ToUpload;
  }

  lemma NothingUploaded(b: string, files: seq<File>, s: State)
    requires b in s.buckets
    ensures UploadedUpTo(b, files, 0, s, s, [], {})
  {
  }

  /** Uploads what differs; `kept` is what the directory holds. */
  method Upload(a: Account, b: string, files: seq<File>, remote: map<string, string>)
    returns (ok: bool, uploaded: seq<string>, kept: set<string>)
    requires b in a.s3.buckets && remote == a.s3.buckets[b].objects && DistinctKeys(files)
    modifies a`s3, a`calls
    ensures OnlyBucket(b, old(a.s3), a.s3) && b in a.s3.buckets
    ensures a.s3.buckets[b] == old(a.s3).buckets[b].(objects := a.s3.buckets[b].objects)
    ensures ok ==> UploadedUpTo(b, files, |files|, old(a.s3), a.s3, uploaded, kept)
    ensures old(a.Calm()) ==> a.Calm() && (Readable(files) ==> ok)
    ensures a.Faults() <= old(a.Faults()) + (if ok then 0 else 1)
  {
    hide UploadedUpTo, ToUpload, DistinctKeys;
    ghost var s := a.s3;
    uploaded, kept := [], {};
    NothingUploaded(b, files, s);
    for i := 0 to |files|
      invariant a.Faults() <= old(a.Faults())
      invariant OnlyBucket(b, s, a.s3) && b in a.s3.buckets
      invariant a.s3.buckets[b] == s.buckets[b].(objects := a.s3.buckets[b].objects)
      invariant old(a.Calm()) ==> a.Calm()
      invariant UploadedUpTo(b, files, i, s, a.s3, uploaded, kept)
    {
      var f := files[i];
      ghost var t := a.s3;
      assert f in files;
      ghost var before := kept;
      kept := kept + {f.key};
      ok := UploadOne(a, b, f, Stale(remote, f));
      if !ok { return false, uploaded, kept; }
      UploadStep(b, files, i, s, t, a.s3, uploaded, before);
      assert uploaded + [] == uploaded;
      if Stale(remote, f) { uploaded := uploaded + [f.key]; }
    }
    return true, uploaded, kept;
  }

  /** Deletes the objects the directory no longer has. */
  method RemoveStale(a: Account, b: string, remote: map<string, string>, kept: set<string>)
    returns (ok: bool, removed: set<string>)
    requires b in a.s3.buckets
    requires forall k | k !in kept :: k in a.s3.buckets[b].objects <==> k in remote
    modifies a`s3, a`calls
    ensures OnlyBucket(b, old(a.s3), a.s3) && b in a.s3.buckets
    ensures a.s3.buckets[b] == old(a.s3).buckets[b].(objects := a.s3.buckets[b].objects)
    ensures removed == remote.Keys - kept
    ensures ok ==> forall k | k in a.s3.buckets[b].objects :: k in kept && k in old(a.s3).buckets[b].objects
    ensures ok ==> forall k | k in kept && k in old(a.s3).buckets[b].objects ::
                     k in a.s3.buckets[b].objects && a.s3.buckets[b].objects[k] == old(a.s3).buckets[b].objects[k]
    ensures ok && removed == {} ==> a.s3 == old(a.s3)
    ensures old(a.Calm()) ==> ok && a.Calm()
    ensures a.Faults() <= old(a.Faults()) + (if ok then 0 else 1)
  {
    removed := remote.Keys - kept;
    assert forall k | k in a.s3.buckets[b].objects && k !in kept :: k in removed;
    if removed == {} { return true, removed; }
    var stale := Sorted(removed);
    var r := a.CallDeleteObjects(b, stale);
    ok := r == Ok;
  }

  lemma {:induction false} NothingToUpload(objects: map<string, string>, files: seq<File>)
    ensures ToUpload(objects, files) == [] <==> forall f | f in files :: !Stale(objects, f)
  {
    if files != [] {
      NothingToUpload(objects, files[..|files| - 1]);
      assert files == files[..|files| - 1] + [files[|files| - 1]];
    }
  }

  /** A bucket mirrors the directory exactly when there is nothing to upload and nothing to delete. */
  lemma SyncMeaning(objects: map<string, string>, files: seq<File>, kept: set<string>)
    requires Readable(files)
    requires forall k :: k in kept <==> exists f :: f in files && f.key == k
    ensures Mirrors(objects, files) <==> ToUpload(objects, files) == [] && objects.Keys - kept == {}
  {
    NothingToUpload(objects, files);
    if objects.Keys - kept == {} {
      forall k | k in objects ensures exists f :: f in files && f.key == k {
        assert k !in objects.Keys - kept;
      }
    }
  }

  lemma SyncStopped(b: string, local: Local, s: State, s': State, calm: bool)
    requires OnlyBucket(b, s, s') && (b in s'.buckets <==> b in s.buckets)
    requires b in s.buckets ==> s'.buckets[b] == s.buckets[b].(objects := s'.buckets[b].objects)
    requires calm && b in s.buckets && local.Some? ==> !Readable(local.value)
    ensures SyncEnsured(b, local, s, s', calm, Failed)
  {
  }

  /** A run that gets through: `t` has the uploads, `u` no longer has the stale objects. */
  lemma SyncDone(b: string, files: seq<File>, s: State, t: State, u: State, uploaded: seq<string>, kept: set<string>,
                 removed: set<string>, calm: bool)
    requires files != [] && b in s.buckets && b in t.buckets && b in u.buckets
    requires UploadedUpTo(b, files, |files|, s, t, uploaded, kept)
    requires OnlyBucket(b, t, u) && u.buckets[b] == t.buckets[b].(objects := u.buckets[b].objects)
    requires removed == s.buckets[b].objects.Keys - kept && (removed == {} ==> u == t)
    requires forall k | k in u.buckets[b].objects :: k in kept && k in t.buckets[b].objects
    requires forall k | k in kept && k in t.buckets[b].objects ::
               k in u.buckets[b].objects && u.buckets[b].objects[k] == t.buckets[b].objects[k]
    ensures SyncEnsured(b, Some(files), s, u, calm, Done(if uploaded != [] || removed != {} then Create else Exists))
    ensures uploaded == ToUpload(s.buckets[b].objects, files)
    ensures removed == (set k | k in s.buckets[b].objects && forall f | f in files :: f.key != k)
  {
    hide UploadedUpTo, ToUpload, Mirrors, OnlyBucket, Readable;
    UploadedAll(b, files, s, t, uploaded, kept);
    SyncMeaning(s.buckets[b].objects, files, kept);
    KeysNotKept(s.buckets[b].objects, files, kept);
    LeftMirrors(files, t.buckets[b].objects, u.buckets[b].objects, kept);
    OnlyBucketTransitive(b, s, t, u);
  }

  lemma KeysNotKept(objects: map<string, string>, files: seq<File>, kept: set<string>)
    requires forall k :: k in kept <==> exists f :: f in files && f.key == k
    ensures objects.Keys - kept == (set k | k in objects && forall f | f in files :: f.key != k)
  {
  }

  lemma LeftMirrors(files: seq<File>, uploaded: map<string, string>, left: map<string, string>, kept: set<string>)
    requires forall k :: k in kept <==> exists f :: f in files && f.key == k
    requires forall f | f in files :: f.key in uploaded && f.digest == Some(uploaded[f.key])
    requires forall k | k in left :: k in kept && k in uploaded
    requires forall k | k in kept && k in uploaded :: k in left && left[k] == uploaded[k]
    ensures Mirrors(left, files)
  {
  }

  lemma OnlyBucketTransitive(b: string, s: State, t: State, u: State)
    requires OnlyBucket(b, s, t) && OnlyBucket(b, t, u)
    ensures OnlyBucket(b, s, u)
  {
  }

  method EnsureSync(a: Account, b: string, local: Local)
    returns (o: Outcome, uploaded: seq<string>, removed: set<string>)
    requires local.Some? ==> DistinctKeys(local.value)
    modifies a`s3, a`calls
    ensures SyncEnsured(b, local, old(a.s3), a.s3, old(a.Calm()), o)
    // It uploads precisely the keys whose digest differed or was absent, and deletes the rest.
    ensures o.Done? && local.value != [] ==>
              && uploaded == ToUpload(old(a.s3).buckets[b].objects, local.value)
              && removed == (set k | k in old(a.s3).buckets[b].objects && forall f | f in local.value :: f.key != k)
    ensures old(a.Calm()) ==> a.Calm()
    ensures a.Faults() <= old(a.Faults()) + (if o.Done? then 0 else 1)
  {
    uploaded, removed := [], {};
    if local == None { return Failed, [], {}; }
    if local.value == [] { return Done(Exists), [], {}; }
    ghost var s, calm := a.s3, a.Calm();
    hide SyncEnsured, Mirrors, SameExcept, DistinctKeys, Readable, ToUpload;
    var remote := RemoteDigests(a, b);
    if remote == None {
      SyncStopped(b, local, s, a.s3, calm);
      return Failed, [], {};
    }
    var ok, kept: set<string>;
    ok, uploaded, kept := Upload(a, b, local.value, remote.value);
    ghost var t := a.s3;
    if !ok {
      SyncStopped(b, local, s, t, calm);
      return Failed, uploaded, {};
    }
    UploadedAll(b, local.value, s, t, uploaded, kept);
    hide UploadedUpTo;
    ok, removed := RemoveStale(a, b, remote.value, kept);
    if !ok {
      SyncStopped(b, local, s, a.s3, calm);
      return Failed, uploaded, removed;
    }
    SyncDone(b, local.value, s, t, a.s3, uploaded, kept, removed, calm);
    o := Done(if uploaded != [] || removed != {} then Create else Exists);
  }
}
