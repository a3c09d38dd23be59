/** One AWS account: the services' state, and the gate every API call goes through, where the
    call may fault instead of being answered. */
module Accounts {
  import opened Text
  import DynamoDb
  import S3
  import Iam
  import CloudWatch
  import Lambda
  import ApiGateway
  import CloudFront

  /** What befalls one call: it is answered; it fails before having any effect; it takes effect
      but its answer is lost; or (a batch delete) it answers 200 with errors for the keys after
      the first `done`. */
  datatype Fate = Fine | Drop | Lose | Partial(done: nat)

  datatype World = World(ddb: DynamoDb.State, s3: S3.State, iam: Iam.State, logs: CloudWatch.State,
                         lam: Lambda.State, gw: ApiGateway.State, cf: CloudFront.State)

  /** A call seen from outside: it is answered as the service specifies or, unless the account
      is calm, it errs with or without its effect. */
  ghost predicate Answered<S, R>(s: S, x: (S, R), r: R, s': S, fault: R, calm: bool) {
    (s' == x.0 && r == x.1) || (!calm && r == fault && (s' == s || s' == x.0))
  }

  /** Exactly what that fate does to a call: only a lost answer has an effect unseen, and only a fine one answers. */
  ghost predicate Befalls<S, R>(f: Fate, s: S, x: (S, R), r: R, s': S, fault: R) {
    && s' == (if f == Fine || f == Lose then x.0 else s)
    && r == (if f == Fine then x.1 else fault)
  }

  /** How many of the first `n` calls were not answered. */
  ghost function FaultCount(fate: nat -> Fate, n: nat): nat {
    if n == 0 then 0 else FaultCount(fate, n - 1) + (if fate(n - 1) == Fine then 0 else 1)
  }

  class Account {
    /** The fate of the n-th call, and one less than the page size the service uses for it. */
    const fate: nat -> Fate
    const pages: nat -> nat

    var calls: nat
    var ddb: DynamoDb.State
    var s3: S3.State
    var iam: Iam.State
    var logs: CloudWatch.State
    var lam: Lambda.State
    var gw: ApiGateway.State
    var cf: CloudFront.State

    constructor (fate: nat -> Fate, pages: nat -> nat, w: World)
      ensures this.fate == fate && this.pages == pages && W() == w && calls == 0
    {
      this.fate, this.pages, calls := fate, pages, 0;
      ddb, s3, iam, logs, lam, gw, cf := w.ddb, w.s3, w.iam, w.logs, w.lam, w.gw, w.cf;
    }

    ghost function W(): World
      reads this
    {
      World(ddb, s3, iam, logs, lam, gw, cf)
    }

    /** No call from here on faults. */
    ghost predicate Calm()
      reads this`calls
    {
      forall k: nat | calls <= k :: fate(k) == Fine
    }

    /** How many calls so far were not answered. A step that promises at most one, and none where it is done, passes
        over no error: it makes no call after one that was not answered. */
    ghost function Faults(): nat
      reads this`calls
    {
      FaultCount(fate, calls)
    }

    /** The page size of the next listing. */
    function Limit(): (n: nat)
      reads this`calls
      ensures n > 0
    {
      pages(calls) + 1
    }

    method CallDdb(x: (DynamoDb.State, DynamoDb.Reply)) returns (r: DynamoDb.Reply)
      modifies this`ddb, this`calls
      ensures Answered(old(ddb), x, r, ddb, DynamoDb.Fault, old(Calm()))
      ensures Befalls(fate(old(calls)), old(ddb), x, r, ddb, DynamoDb.Fault) && calls == old(calls) + 1
      ensures Faults() == old(Faults()) + (if fate(old(calls)) == Fine then 0 else 1)
      ensures Faults() <= old(Faults()) + (if r != DynamoDb.Fault then 0 else 1)
      ensures old(Calm()) ==> Calm()
    {
      var f := fate(calls);
      calls := calls + 1;
      if f == Fine || f == Lose { ddb := x.0; }
      r := if f == Fine then x.1 else DynamoDb.Fault;
    }

    method CallS3(x: (S3.State, S3.Reply)) returns (r: S3.Reply)
      modifies this`s3, this`calls
      ensures Answered(old(s3), x, r, s3, S3.Fault, old(Calm()))
      ensures Befalls(fate(old(calls)), old(s3), x, r, s3, S3.Fault) && calls == old(calls) + 1
      ensures Faults() == old(Faults()) + (if fate(old(calls)) == Fine then 0 else 1)
      ensures Faults() <= old(Faults()) + (if r != S3.Fault then 0 else 1)
      ensures old(Calm()) ==> Calm()
    {
      var f := fate(calls);
      calls := calls + 1;
      if f == Fine || f == Lose { s3 := x.0; }
      r := if f == Fine then x.1 else S3.Fault;
    }

    /** A batch delete can succeed as a call and still fail for some keys. */
    method CallDeleteObjects(b: string, keys: seq<string>) returns (r: S3.Reply)
      modifies this`s3, this`calls
      ensures || Answered(old(s3), S3.DeleteObjects(old(s3), b, keys), r, s3, S3.Fault, old(Calm()))
              || (!old(Calm()) && r == S3.KeyErrors &&
                  exists n: nat | n <= |keys| :: s3 == S3.DeleteObjects(old(s3), b, keys[..n]).0)
      ensures calls == old(calls) + 1
      ensures Faults() == old(Faults()) + (if fate(old(calls)) == Fine then 0 else 1)
      ensures Faults() <= old(Faults()) + (if r != S3.Fault && r != S3.KeyErrors then 0 else 1)
      ensures match fate(old(calls))
              case Partial(n) =>
                r == S3.KeyErrors
                  && s3 == S3.DeleteObjects(old(s3), b, keys[..if n < |keys| then n else |keys|]).0
              case f => Befalls(f, old(s3), S3.DeleteObjects(old(s3), b, keys), r, s3, S3.Fault)
      ensures old(Calm()) ==> Calm()
    {
      var f := fate(calls);
      if f.Partial? {
        calls := calls + 1;
        var n := if f.done < |keys| then f.done else |keys|;
        s3 := S3.DeleteObjects(s3, b, keys[..n]).0;
        r := S3.KeyErrors;
      } else {
        r := CallS3(S3.DeleteObjects(s3, b, keys));
      }
    }

    method CallIam(x: (Iam.State, Iam.Reply)) returns (r: Iam.Reply)
      modifies this`iam, this`calls
      ensures Answered(old(iam), x, r, iam, Iam.Fault, old(Calm()))
      ensures Befalls(fate(old(calls)), old(iam), x, r, iam, Iam.Fault) && calls == old(calls) + 1
      ensures Faults() == old(Faults()) + (if fate(old(calls)) == Fine then 0 else 1)
      ensures Faults() <= old(Faults()) + (if r != Iam.Fault then 0 else 1)
      ensures old(Calm()) ==> Calm()
    {
      var f := fate(calls);
      calls := calls + 1;
      if f == Fine || f == Lose { iam := x.0; }
      r := if f == Fine then x.1 else Iam.Fault;
    }

    method CallLogs(x: (CloudWatch.State, CloudWatch.Reply)) returns (r: CloudWatch.Reply)
      modifies this`logs, this`calls
      ensures Answered(old(logs), x, r, logs, CloudWatch.Fault, old(Calm()))
      ensures Befalls(fate(old(calls)), old(logs), x, r, logs, CloudWatch.Fault) && calls == old(calls) + 1
      ensures Faults() == old(Faults()) + (if fate(old(calls)) == Fine then 0 else 1)
      ensures Faults() <= old(Faults()) + (if r != CloudWatch.Fault then 0 else 1)
      ensures old(Calm()) ==> Calm()
    {
      var f := fate(calls);
      calls := calls + 1;
      if f == Fine || f == Lose { logs := x.0; }
      r := if f == Fine then x.1 else CloudWatch.Fault;
    }

    method CallLam(x: (Lambda.State, Lambda.Reply)) returns (r: Lambda.Reply)
      modifies this`lam, this`calls
      ensures Answered(old(lam), x, r, lam, Lambda.Fault, old(Calm()))
      ensures Befalls(fate(old(calls)), old(lam), x, r, lam, Lambda.Fault) && calls == old(calls) + 1
      ensures Faults() == old(Faults()) + (if fate(old(calls)) == Fine then 0 else 1)
      ensures Faults() <= old(Faults()) + (if r != Lambda.Fault then 0 else 1)
      ensures old(Calm()) ==> Calm()
    {
      var f := fate(calls);
      calls := calls + 1;
      if f == Fine || f == Lose { lam := x.0; }
      r := if f == Fine then x.1 else Lambda.Fault;
    }

    method CallGw(x: (ApiGateway.State, ApiGateway.Reply)) returns (r: ApiGateway.Reply)
      modifies this`gw, this`calls
      ensures Answered(old(gw), x, r, gw, ApiGateway.Fault, old(Calm()))
      ensures Befalls(fate(old(calls)), old(gw), x, r, gw, ApiGateway.Fault) && calls == old(calls) + 1
      ensures Faults() == old(Faults()) + (if fate(old(calls)) == Fine then 0 else 1)
      ensures Faults() <= old(Faults()) + (if r != ApiGateway.Fault then 0 else 1)
      ensures old(Calm()) ==> Calm()
    {
      var f := fate(calls);
      calls := calls + 1;
      if f == Fine || f == Lose { gw := x.0; }
      r := if f == Fine then x.1 else ApiGateway.Fault;
    }

    method CallCf(x: (CloudFront.State, CloudFront.Reply)) returns (r: CloudFront.Reply)
      modifies this`cf, this`calls
      ensures Answered(old(cf), x, r, cf, CloudFront.Fault, old(Calm()))
      ensures Befalls(fate(old(calls)), old(cf), x, r, cf, CloudFront.Fault) && calls == old(calls) + 1
      ensures Faults() == old(Faults()) + (if fate(old(calls)) == Fine then 0 else 1)
      ensures Faults() <= old(Faults()) + (if r != CloudFront.Fault then 0 else 1)
      ensures old(Calm()) ==> Calm()
    {
      var f := fate(calls);
      calls := calls + 1;
      if f == Fine || f == Lose { cf := x.0; }
      r := if f == Fine then x.1 else CloudFront.Fault;
    }
  }
}
