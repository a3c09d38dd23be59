/** The capped bundle of a session's objects: internal/export/s3.go. */
module Bundles {
  import opened Text

  datatype Object = Object(key: string, size: nat)

  datatype Manifest = Manifest(objects: seq<Object>, dropped: seq<Object>)

  /** What becomes of one listed object. */
  datatype Verdict = Prior | Dropped | Kept

  predicate IsPrior(prefix: string, o: Object) {
    prefix + "exports/" <= o.key
  }

  /** The verdict on an object reached when `total` bytes are already kept. */
  function Judge(prefix: string, cap: int, total: nat, o: Object): Verdict {
    if IsPrior(prefix, o) then Prior else if total + o.size > cap then Dropped else Kept
  }

  /** Each object's verdict, in listing order. */
  function Verdicts(prefix: string, cap: int, listing: seq<Object>): (vs: seq<Verdict>)
    ensures |vs| == |listing|
  {
    if listing == [] then []
    else
      var n := |listing| - 1;
      var vs := Verdicts(prefix, cap, listing[..n]);
      vs + [Judge(prefix, cap, Bytes(Pick(listing[..n], vs, Kept)), listing[n])]
  }

  /** The objects with that verdict, in listing order. */
  function Pick(listing: seq<Object>, vs: seq<Verdict>, v: Verdict): seq<Object>
    requires |listing| == |vs|
  {
    if listing == [] then []
    else
      var n := |listing| - 1;
      Pick(listing[..n], vs[..n], v) + (if vs[n] == v then [listing[n]] else [])
  }

  function Bytes(objects: seq<Object>): nat {
    if objects == [] then 0 else Bytes(objects[..|objects| - 1]) + objects[|objects| - 1].size
  }

  function Packed(prefix: string, cap: int, listing: seq<Object>): Manifest {
    var vs := Verdicts(prefix, cap, listing);
    Manifest(Pick(listing, vs, Kept), Pick(listing, vs, Dropped))
  }

  lemma BytesSnoc(objects: seq<Object>, o: Object)
    ensures Bytes(objects + [o]) == Bytes(objects) + o.size
  {
    assert (objects + [o])[..|objects|] == objects;
  }

  /** Reaching one more object. */
  lemma Reached(prefix: string, cap: int, listing: seq<Object>)
    requires listing != []
    ensures var n := |listing| - 1; var before := Verdicts(prefix, cap, listing[..n]);
            var v := Judge(prefix, cap, Bytes(Packed(prefix, cap, listing[..n]).objects), listing[n]);
            && Verdicts(prefix, cap, listing) == before + [v]
            && forall x ::
                 Pick(listing, before + [v], x) == Pick(listing[..n], before, x) + (if v == x then [listing[n]] else [])
  {
  }

  /** What can go wrong: the listing, objects that cannot be read into the archive, the archive's manifest, the
      upload, and the link. */
  datatype Faults = Faults(listed: bool, unreadable: set<string>, closes: bool, uploads: bool, signs: bool)

  /** Packs what fits, noting what does not, and uploads the archive once it is whole; any failure fails the
      export. */
  method Bundle(prefix: string, cap: int, listing: seq<Object>, f: Faults) returns (r: Option<Manifest>, uploaded: bool)
    ensures r.Some? ==> r.value == Packed(prefix, cap, listing)
    ensures r.Some? <==> uploaded && f.signs
    ensures uploaded <==>
              && f.listed && f.closes && f.uploads
              && forall o | o in Packed(prefix, cap, listing).objects :: o.key !in f.unreadable
  {
    hide Verdicts, Pick, Bytes;
    if !f.listed { return None, false; }
    NothingPacked(prefix, cap);
    var man := Manifest([], []);
    var total := 0;
    for i := 0 to |listing|
      invariant man == Packed(prefix, cap, listing[..i])
      invariant total == Bytes(man.objects)
      invariant forall o | o in man.objects :: o.key !in f.unreadable
    {
      var o := listing[i];
      assert listing[..i + 1][..i] == listing[..i];
      Reached(prefix, cap, listing[..i + 1]);
      if IsPrior(prefix, o) { continue; }
      if total + o.size > cap {
        man := man.(dropped := man.dropped + [o]);
        continue;
      }
      if o.key in f.unreadable {
        KeptStaysKept(prefix, cap, listing, i + 1);
        assert o in Packed(prefix, cap, listing[..i + 1]).objects;
        return None, false;
      }
      BytesSnoc(man.objects, o);
      total := total + o.size;
      man := man.(objects := man.objects + [o]);
    }
    assert listing[..|listing|] == listing;
    if !f.closes { return None, false; }
    if !f.uploads { return None, false; }
    if !f.signs { return None, true; }
    return Some(man), true;
  }

  lemma NothingPacked(prefix: string, cap: int)
    ensures Packed(prefix, cap, []) == Manifest([], []) && Bytes([]) == 0
  {
  }

  lemma {:induction false} KeptStaysKept(prefix: string, cap: int, listing: seq<Object>, i: nat)
    requires i <= |listing|
    ensures Packed(prefix, cap, listing[..i]).objects <= Packed(prefix, cap, listing).objects
  {
    if i == |listing| {
      assert listing[..i] == listing;
    } else {
      var n := |listing| - 1;
      KeptStaysKept(prefix, cap, listing[..n], i);
      assert listing[..n][..i] == listing[..i];
      Reached(prefix, cap, listing);
    }
  }

  // ---------------------------------------------------------------- what is promised

  /** Kept bytes never exceed the cap. */
  lemma {:induction false} NeverOverCap(prefix: string, cap: int, listing: seq<Object>)
    requires cap >= 0
    ensures Bytes(Packed(prefix, cap, listing).objects) <= cap
  {
    if listing != [] {
      var n := |listing| - 1;
      var before := Packed(prefix, cap, listing[..n]).objects;
      NeverOverCap(prefix, cap, listing[..n]);
      Reached(prefix, cap, listing);
      BytesSnoc(before, listing[n]);
      hide Verdicts, Pick, Bytes;
      assert before + [] == before;
    }
  }

  /** `picked` are the listed objects with that verdict, in listing order: `at` is where each one stood. */
  ghost predicate InOrder(listing: seq<Object>, vs: seq<Verdict>, v: Verdict, picked: seq<Object>, at: seq<nat>)
    requires |listing| == |vs|
  {
    Increasing(at) && Places(listing, vs, v, picked, at) && Covers(vs, v, at)
  }

  /** `picked` is what stands at those places, in order. */
  ghost predicate TakenAt(listing: seq<Object>, picked: seq<Object>, at: seq<nat>) {
    Increasing(at) && |at| == |picked| && forall i | 0 <= i < |at| :: at[i] < |listing| && picked[i] == listing[at[i]]
  }

  ghost predicate Increasing(at: seq<nat>) {
    forall i, j | 0 <= i < j < |at| :: at[i] < at[j]
  }

  ghost predicate Places(listing: seq<Object>, vs: seq<Verdict>, v: Verdict, picked: seq<Object>, at: seq<nat>)
    requires |listing| == |vs|
  {
    && |at| == |picked|
    && (forall i | 0 <= i < |at| :: at[i] < |listing| && vs[at[i]] == v && picked[i] == listing[at[i]])
  }

  lemma PlacesSnoc(listing: seq<Object>, vs: seq<Verdict>, v: Verdict, picked: seq<Object>, at: seq<nat>)
    requires |listing| == |vs| > 0
    requires Places(listing[..|listing| - 1], vs[..|listing| - 1], v, picked, at)
    ensures Places(listing, vs, v, picked, at)
    ensures var n := |listing| - 1; vs[n] == v ==> Places(listing, vs, v, picked + [listing[n]], at + [n])
    ensures Increasing(at) ==> Increasing(at + [|listing| - 1])
  {
    var n := |listing| - 1;
    forall i | 0 <= i < |at| ensures at[i] < n && vs[at[i]] == v && picked[i] == listing[at[i]] {
      assert vs[..n][at[i]] == v && picked[i] == listing[..n][at[i]];
    }
  }

  /** No place with that verdict is left out. */
  ghost predicate Covers(vs: seq<Verdict>, v: Verdict, at: seq<nat>) {
    forall k: nat | k < |vs| && vs[k] == v :: k in at
  }

  lemma CoversSnoc(vs: seq<Verdict>, v: Verdict, at: seq<nat>)
    requires vs != [] && Covers(vs[..|vs| - 1], v, at)
    ensures Covers(vs, v, if vs[|vs| - 1] == v then at + [|vs| - 1] else at)
  {
    var n := |vs| - 1;
    var after := if vs[n] == v then at + [n] else at;
    forall k: nat | k < |vs| && vs[k] == v ensures k in after {
      if k < n {
        assert vs[..n][k] == v && k in at;
      } else {
        assert after[|at|] == n;
      }
    }
  }

  lemma {:induction false} PickInOrder(listing: seq<Object>, vs: seq<Verdict>, v: Verdict) returns (at: seq<nat>)
    requires |listing| == |vs|
    ensures InOrder(listing, vs, v, Pick(listing, vs, v), at)
  {
    at := [];
    if listing != [] {
      var n := |listing| - 1;
      var before := PickInOrder(listing[..n], vs[..n], v);
      at := if vs[n] == v then before + [n] else before;
      var picked := Pick(listing[..n], vs[..n], v);
      assert picked + [] == picked;
      hide InOrder;
      InOrderSnoc(listing, vs, v, picked, before);
    }
  }

  lemma InOrderSnoc(listing: seq<Object>, vs: seq<Verdict>, v: Verdict, picked: seq<Object>, at: seq<nat>)
    requires |listing| == |vs| > 0
    requires InOrder(listing[..|listing| - 1], vs[..|listing| - 1], v, picked, at)
    ensures var n := |listing| - 1;
            if vs[n] == v then InOrder(listing, vs, v, picked + [listing[n]], at + [n])
              else InOrder(listing, vs, v, picked, at)
  {
    hide Covers, Places, Increasing;
    CoversSnoc(vs, v, at);
    PlacesSnoc(listing, vs, v, picked, at);
  }

  /** Kept, dropped and prior-bundle objects partition the listing: each is a subsequence of it, and every place
      of the listing is in exactly one of them. */
  lemma PickPartitions(listing: seq<Object>, vs: seq<Verdict>)
    returns (kept: seq<nat>, dropped: seq<nat>, prior: seq<nat>)
    requires |listing| == |vs|
    ensures InOrder(listing, vs, Kept, Pick(listing, vs, Kept), kept)
    ensures InOrder(listing, vs, Dropped, Pick(listing, vs, Dropped), dropped)
    ensures InOrder(listing, vs, Prior, Pick(listing, vs, Prior), prior)
    ensures forall k: nat | k < |listing| :: k in kept || k in dropped || k in prior
    ensures forall k: nat :: !(k in kept && k in dropped) && !(k in kept && k in prior) && !(k in dropped && k in prior)
  {
    kept := PickInOrder(listing, vs, Kept);
    dropped := PickInOrder(listing, vs, Dropped);
    prior := PickInOrder(listing, vs, Prior);
  }

  /** The object lies under the session's exports/: it is a bundle of an earlier export. */
  ghost predicate UnderExports(prefix: string, o: Object) {
    exists rest :: o.key == prefix + "exports/" + rest
  }

  lemma PriorIff(prefix: string, o: Object)
    ensures IsPrior(prefix, o) <==> UnderExports(prefix, o)
  {
    var e := prefix + "exports/";
    if e <= o.key { assert o.key == e + o.key[|e|..]; }
  }

  /** An object of the session is set aside exactly when what follows the session's prefix starts with exports/. */
  lemma UnderExportsIff(prefix: string, rest: string, size: nat)
    ensures UnderExports(prefix, Object(prefix + rest, size)) <==> "exports/" <= rest
  {
    var o := Object(prefix + rest, size);
    if UnderExports(prefix, o) {
      var more :| o.key == prefix + "exports/" + more;
      assert rest == o.key[|prefix|..] == "exports/" + more;
    }
    if "exports/" <= rest {
      assert o.key == prefix + "exports/" + rest[|"exports/"|..];
    }
  }

  /** Each object dropped did not fit when it was reached; each kept one did, and was no prior bundle. */
  lemma {:induction false} VerdictMeans(prefix: string, cap: int, listing: seq<Object>, i: nat)
    requires i < |listing|
    ensures var vs := Verdicts(prefix, cap, listing);
            var before := Bytes(Packed(prefix, cap, listing[..i]).objects);
            && (vs[i] == Prior <==> UnderExports(prefix, listing[i]))
            && (vs[i] == Dropped <==> !UnderExports(prefix, listing[i]) && before + listing[i].size > cap)
            && (vs[i] == Kept <==> !UnderExports(prefix, listing[i]) && before + listing[i].size <= cap)
  {
    hide UnderExports;
    PriorIff(prefix, listing[i]);
    var n := |listing| - 1;
    Reached(prefix, cap, listing);
    if i < n {
      VerdictMeans(prefix, cap, listing[..n], i);
      assert listing[..n][..i] == listing[..i];
    }
  }

  /** Which places of the listing a bundle keeps, drops and sets aside: every object outside exports/ is kept if it
      fits beside those kept before it and noted as dropped if it does not, in the listing's order. */
  lemma PackedIs(prefix: string, cap: int, listing: seq<Object>)
    returns (kept: seq<nat>, dropped: seq<nat>, prior: seq<nat>)
    ensures var p := Packed(prefix, cap, listing);
            && TakenAt(listing, p.objects, kept) && TakenAt(listing, p.dropped, dropped)
            && forall k: nat | k < |listing| ::
                 var fits := Bytes(Packed(prefix, cap, listing[..k]).objects) + listing[k].size <= cap;
                 && (k in prior <==> UnderExports(prefix, listing[k]))
                 && (k in kept <==> !UnderExports(prefix, listing[k]) && fits)
                 && (k in dropped <==> !UnderExports(prefix, listing[k]) && !fits)
  {
    var vs := Verdicts(prefix, cap, listing);
    kept, dropped, prior := PickPartitions(listing, vs);
    hide Verdicts, Bytes, UnderExports, Pick;
    forall k: nat | k < |listing|
      ensures k in prior <==> vs[k] == Prior
      ensures k in kept <==> vs[k] == Kept
      ensures k in dropped <==> vs[k] == Dropped
    {
    }
    hide Packed;
    forall k: nat | k < |listing| { VerdictMeans(prefix, cap, listing, k); }
  }

  /** The listing without its prior bundles. */
  ghost function Others(prefix: string, listing: seq<Object>): seq<Object> {
    if listing == [] then []
    else
      var n := |listing| - 1;
      Others(prefix, listing[..n]) + (if UnderExports(prefix, listing[n]) then [] else [listing[n]])
  }

  /** Nothing is dropped when everything fits. */
  lemma {:induction false} NothingDroppedIfAllFit(prefix: string, cap: int, listing: seq<Object>)
    requires Bytes(Others(prefix, listing)) <= cap
    ensures Packed(prefix, cap, listing) == Manifest(Others(prefix, listing), [])
  {
    if listing != [] {
      var n := |listing| - 1;
      BytesSnoc(Others(prefix, listing[..n]), listing[n]);
      PriorIff(prefix, listing[n]);
      hide UnderExports;
      assert UnderExports(prefix, listing[n]) ==> Others(prefix, listing) == Others(prefix, listing[..n]);
      NothingDroppedIfAllFit(prefix, cap, listing[..n]);
      Reached(prefix, cap, listing);
    }
  }

  lemma {:induction false} PriorsDoNotCount(prefix: string, cap: int, listing: seq<Object>)
    ensures Packed(prefix, cap, listing) == Packed(prefix, cap, Others(prefix, listing))
  {
    if listing != [] {
      var n := |listing| - 1;
      var rest := Others(prefix, listing[..n]);
      PriorsDoNotCount(prefix, cap, listing[..n]);
      Reached(prefix, cap, listing);
      PriorIff(prefix, listing[n]);
      hide UnderExports;
      if IsPrior(prefix, listing[n]) {
        assert Others(prefix, listing) == rest;
      } else {
        assert Others(prefix, listing)[..|rest|] == rest;
        Reached(prefix, cap, Others(prefix, listing));
      }
    }
  }

  /** A later bundle keeps and drops the same objects, although earlier bundles, wherever they sort,
      are now among the listed ones. */
  lemma LaterBundleIsTheSame(prefix: string, cap: int, first: seq<Object>, later: seq<Object>)
    requires Others(prefix, first) == Others(prefix, later)
    ensures Packed(prefix, cap, first) == Packed(prefix, cap, later)
  {
    hide Packed;
    PriorsDoNotCount(prefix, cap, first);
    PriorsDoNotCount(prefix, cap, later);
  }

  /** The bundle uploaded under the session's exports/ is no other object of the session. */
  lemma UploadedBundleIsPrior(prefix: string, stamp: string, size: nat, a: seq<Object>, b: seq<Object>)
    ensures var bundle := Object(prefix + "exports/bundle-" + stamp + ".zip", size);
            Others(prefix, a + [bundle] + b) == Others(prefix, a + b)
  {
    var bundle := Object(prefix + "exports/bundle-" + stamp + ".zip", size);
    assert bundle.key == prefix + "exports/" + ("bundle-" + stamp + ".zip");
    assert UnderExports(prefix, bundle);
    PriorInserted(prefix, bundle, a, b);
  }

  lemma {:induction false} PriorInserted(prefix: string, bundle: Object, a: seq<Object>, b: seq<Object>)
    requires UnderExports(prefix, bundle)
    ensures Others(prefix, a + [bundle] + b) == Others(prefix, a + b)
    decreases |b|
  {
    hide UnderExports;
    if b == [] {
      assert (a + [bundle] + b)[..|a|] == a && a + b == a;
    } else {
      var n := |b| - 1;
      PriorInserted(prefix, bundle, a, b[..n]);
      assert (a + [bundle] + b)[..|a| + 1 + n] == a + [bundle] + b[..n] && (a + b)[..|a| + n] == a + b[..n];
    }
  }
}
