/**
 * The two deletions used as compensations, `delete_bucket` and
 * `delete_namespace`, each under `@retry(stop_max_attempt_number=5,
 * wait_fixed=2000)`: a call that raises is tried again, at most five times in
 * all, and the exception of the last attempt is the one that escapes.
 */
module Cleanup {
  import opened Wrappers
  import opened Cluster

  /** `stop_max_attempt_number` of both decorators. */
  const MaxAttempts: nat := 5

  /** The two decorated functions. */
  datatype Job = BucketDeletion | NamespaceDeletion

  /**
   * How an attempt of `delete_bucket` ends, as written, once a client call
   * has raised f. A ClientError with a code other than 404 is re-raised (as
   * HTTPBadRequest); with 404 the handler falls through to `return response`,
   * but `response` was never assigned, so the attempt raises UnboundLocalError.
   */
  function BucketVerdictAsWritten(f: Fault): (r: Fault)
    ensures f.ClientError? && f.code == 404 ==> r == UnboundResponse
    ensures !(f.ClientError? && f.code == 404) ==> r == f
  {
    if f.ClientError? && f.code == 404 then UnboundResponse else f
  }

  /**
   * The evidently intended verdict: the handler's `if error_code != 404`
   * means "a bucket that is not there counts as deleted", so a 404 ends the
   * attempt successfully and every other exception fails it.
   */
  function BucketVerdict(f: Fault): (r: Option<Fault>)
    ensures r.None? <==> f == ClientError(404)
    ensures r.Some? ==> r.value == f
  {
    if f.ClientError? && f.code == 404 then None else Some(f)
  }

  /** As written, the not-found path ends in UnboundLocalError, which the decorator retries; the intended verdict is success. */
  lemma NotFoundVerdicts()
    ensures BucketVerdictAsWritten(ClientError(404)) == UnboundResponse
    ensures BucketVerdict(ClientError(404)) == None
  {
  }

  /** One attempt of `delete_bucket`: empty the bucket, then remove it. */
  function BucketAttempt(e: Env, inject: nat -> Option<Fault>, name: string): (Env, Option<Fault>) {
    var a := Perform(e, inject, EmptyBucket(name));
    if a.fault.Some? then (a.env, BucketVerdict(a.fault.value))
    else
      var b := Perform(a.env, inject, RemoveBucket(name));
      (b.env, if b.fault.Some? then BucketVerdict(b.fault.value) else None)
  }

  /** One attempt of `delete_bucket` as written: a client exception always fails the attempt. */
  function BucketAttemptAsWritten(e: Env, inject: nat -> Option<Fault>, name: string): (Env, Option<Fault>) {
    var a := Perform(e, inject, EmptyBucket(name));
    if a.fault.Some? then (a.env, Some(BucketVerdictAsWritten(a.fault.value)))
    else
      var b := Perform(a.env, inject, RemoveBucket(name));
      (b.env, if b.fault.Some? then Some(BucketVerdictAsWritten(b.fault.value)) else None)
  }

  /**
   * Deleting a bucket that is not there: as written the attempt raises
   * UnboundLocalError, so the decorator retries it and finally raises; with
   * the intended verdict the attempt succeeds at once.
   */
  lemma MissingBucketVerdicts(e: Env, inject: nat -> Option<Fault>, name: string)
    requires name !in e.world.buckets && inject(|e.trace|).None?
    ensures BucketAttemptAsWritten(e, inject, name).1 == Some(UnboundResponse)
    ensures BucketAttempt(e, inject, name).1.None?
    ensures BucketAttempt(e, inject, name).0.world == e.world
  {
  }

  /** One attempt of `delete_namespace`: every exception fails it. */
  function NamespaceAttempt(e: Env, inject: nat -> Option<Fault>, name: string): (Env, Option<Fault>) {
    var a := Perform(e, inject, Call.DeleteNamespace(name));
    (a.env, a.fault)
  }

  function Attempt(e: Env, inject: nat -> Option<Fault>, job: Job, name: string): (Env, Option<Fault>) {
    match job
    case BucketDeletion => BucketAttempt(e, inject, name)
    case NamespaceDeletion => NamespaceAttempt(e, inject, name)
  }

  /** The decorator with `left` attempts still allowed: stop at the first success or after the last attempt. */
  function Retry(e: Env, inject: nat -> Option<Fault>, job: Job, name: string, left: nat): (r: (Env, Option<Fault>))
    requires left >= 1
    ensures e.trace < r.0.trace
    decreases left
  {
    var (e1, f) := Attempt(e, inject, job, name);
    if f.None? || left == 1 then (e1, f) else Retry(e1, inject, job, name, left - 1)
  }

  /** The first call of an attempt. */
  function FirstCall(job: Job, name: string): Call {
    match job
    case BucketDeletion => EmptyBucket(name)
    case NamespaceDeletion => Call.DeleteNamespace(name)
  }

  /**
   * seg is the calls of exactly n attempts of job on name: each attempt
   * starts with its first call and, for a bucket, may go on to remove it.
   */
  predicate AttemptCalls(seg: seq<Call>, job: Job, name: string, n: nat)
    decreases n
  {
    if n == 0 then seg == []
    else
      |seg| >= 1 && seg[0] == FirstCall(job, name) &&
      (AttemptCalls(seg[1..], job, name, n - 1) ||
       (job == BucketDeletion && |seg| >= 2 && seg[1] == RemoveBucket(name) && AttemptCalls(seg[2..], job, name, n - 1)))
  }

  /** seg is the calls of one to MaxAttempts attempts of job on name. */
  ghost predicate Retried(seg: seq<Call>, job: Job, name: string) {
    exists n :: 1 <= n <= MaxAttempts && AttemptCalls(seg, job, name, n)
  }

  /** The object store answers 404 only for a bucket that is really missing: no injected fault is a 404. */
  ghost predicate NotFoundIsGenuine(inject: nat -> Option<Fault>) {
    forall k :: inject(k) != Some(ClientError(404))
  }

  /** The calls of n attempts are calls of this job on this name only. */
  lemma {:induction false} AttemptCallsOnly(seg: seq<Call>, job: Job, name: string, n: nat, i: nat)
    requires AttemptCalls(seg, job, name, n) && i < |seg|
    ensures seg[i] == FirstCall(job, name) || (job == BucketDeletion && seg[i] == RemoveBucket(name))
    decreases n
  {
    if i > 0 {
      if AttemptCalls(seg[1..], job, name, n - 1) {
        AttemptCallsOnly(seg[1..], job, name, n - 1, i - 1);
      } else if i > 1 {
        AttemptCallsOnly(seg[2..], job, name, n - 1, i - 2);
      }
    }
  }

  /** One attempt makes the calls of one attempt. */
  lemma AttemptSegment(e: Env, inject: nat -> Option<Fault>, job: Job, name: string)
    ensures var e1 := Attempt(e, inject, job, name).0;
      e.trace <= e1.trace && AttemptCalls(e1.trace[|e.trace|..], job, name, 1)
  {
    var e1 := Attempt(e, inject, job, name).0;
    var a := Perform(e, inject, FirstCall(job, name));
    if job == BucketDeletion && a.fault.None? {
      var b := Perform(a.env, inject, RemoveBucket(name));
      assert e1 == b.env;
      var s1 := e1.trace[|e.trace|..];
      assert s1 == [EmptyBucket(name), RemoveBucket(name)];
      assert s1[2..] == [];
    } else {
      assert e1 == a.env;
      var s1 := e1.trace[|e.trace|..];
      assert s1 == [FirstCall(job, name)];
      assert s1[1..] == [];
    }
  }

  /**
   * The decorator makes between one and `left` attempts, and stops early only
   * on success: the trace grows by the calls of n attempts, and n < left
   * implies the result is a success.
   */
  lemma {:induction false} RetryAttempts(e: Env, inject: nat -> Option<Fault>, job: Job, name: string, left: nat) returns (n: nat)
    requires left >= 1
    ensures var r := Retry(e, inject, job, name, left);
      1 <= n <= left && AttemptCalls(r.0.trace[|e.trace|..], job, name, n) && (n < left ==> r.1.None?)
    decreases left
  {
    var r1 := Attempt(e, inject, job, name);
    AttemptSegment(e, inject, job, name);
    if r1.1.None? || left == 1 {
      assert Retry(e, inject, job, name, left) == r1;
      n := 1;
    } else {
      var m := RetryAttempts(r1.0, inject, job, name, left - 1);
      var r := Retry(r1.0, inject, job, name, left - 1);
      assert Retry(e, inject, job, name, left) == r;
      var s1 := r1.0.trace[|e.trace|..];
      TraceSplits(e.trace, r1.0.trace, r.0.trace);
      AttemptCallsAppend(s1, r.0.trace[|r1.0.trace|..], job, name, m);
      n := m + 1;
    }
  }

  /** One more attempt in front of n attempts makes n + 1. */
  lemma AttemptCallsAppend(first: seq<Call>, rest: seq<Call>, job: Job, name: string, n: nat)
    requires AttemptCalls(first, job, name, 1) && AttemptCalls(rest, job, name, n)
    ensures AttemptCalls(first + rest, job, name, n + 1)
  {
    var s := first + rest;
    if AttemptCalls(first[1..], job, name, 0) {
      assert first == [FirstCall(job, name)];
      assert s[1..] == rest;
    } else {
      assert first == [FirstCall(job, name), RemoveBucket(name)];
      assert s[2..] == rest;
    }
  }

  /**
   * A successful `delete_bucket` leaves no bucket of that name, provided the
   * object store reports 404 only for a bucket that is really missing (an
   * injected 404 would be taken for success while the bucket still exists).
   */
  lemma {:induction false} BucketGoneOnSuccess(e: Env, inject: nat -> Option<Fault>, name: string, left: nat)
    requires left >= 1
    requires NotFoundIsGenuine(inject)
    requires Retry(e, inject, BucketDeletion, name, left).1.None?
    ensures name !in Retry(e, inject, BucketDeletion, name, left).0.world.buckets
    decreases left
  {
    var (e1, f1) := Attempt(e, inject, BucketDeletion, name);
    if f1.None? || left == 1 {
      var a := Perform(e, inject, EmptyBucket(name));
      if a.fault.None? {
        var b := Perform(a.env, inject, RemoveBucket(name));
        if b.fault.None? {
          PerformSucceeds(a.env, inject, RemoveBucket(name));
        }
      }
    } else {
      BucketGoneOnSuccess(e1, inject, name, left - 1);
    }
  }

  /** A successful `delete_namespace` leaves no namespace of that name, and no secret or quota in it. */
  lemma {:induction false} NamespaceGoneOnSuccess(e: Env, inject: nat -> Option<Fault>, name: string, left: nat)
    requires left >= 1
    requires Retry(e, inject, NamespaceDeletion, name, left).1.None?
    ensures var w := Retry(e, inject, NamespaceDeletion, name, left).0.world;
      name !in w.namespaces && name !in w.quotas && forall k | k in w.secrets :: k.0 != name
    decreases left
  {
    var (e1, f1) := Attempt(e, inject, NamespaceDeletion, name);
    if f1.None? || left == 1 {
      PerformSucceeds(e, inject, Call.DeleteNamespace(name));
    } else {
      NamespaceGoneOnSuccess(e1, inject, name, left - 1);
    }
  }

  /**
   * Deleting a bucket touches only the buckets; deleting a namespace touches
   * everything but the buckets. Either way nothing of another namespace or
   * bucket is touched, and nothing is created.
   */
  lemma {:induction false} RetryFrame(e: Env, inject: nat -> Option<Fault>, job: Job, name: string, left: nat)
    requires left >= 1
    ensures var w := Retry(e, inject, job, name, left).0.world;
      match job
      case BucketDeletion =>
        w.namespaces == e.world.namespaces && w.secrets == e.world.secrets && w.quotas == e.world.quotas
      case NamespaceDeletion => w.buckets == e.world.buckets
    ensures var w := Retry(e, inject, job, name, left).0.world;
      SameOutside(e.world, w, name) &&
      w.namespaces.Keys <= e.world.namespaces.Keys && w.buckets.Keys <= e.world.buckets.Keys &&
      w.secrets.Keys <= e.world.secrets.Keys && w.quotas.Keys <= e.world.quotas.Keys
    decreases left
  {
    var (e1, f1) := Attempt(e, inject, job, name);
    match job {
      case BucketDeletion =>
        var a := Perform(e, inject, EmptyBucket(name));
        PerformStaysInside(e, inject, EmptyBucket(name));
        if a.fault.None? {
          PerformStaysInside(a.env, inject, RemoveBucket(name));
          SameOutsideTrans(e.world, a.env.world, e1.world, name);
        }
      case NamespaceDeletion =>
        PerformStaysInside(e, inject, Call.DeleteNamespace(name));
    }
    if f1.Some? && left > 1 {
      RetryFrame(e1, inject, job, name, left - 1);
      SameOutsideTrans(e.world, e1.world, Retry(e, inject, job, name, left).0.world, name);
    }
  }

  /** One attempt of `delete_bucket` (the undecorated body). */
  method DeleteBucketOnce(gw: Gateway, name: string) returns (fault: Option<Fault>)
    modifies gw
    ensures (gw.State(), fault) == BucketAttempt(old(gw.State()), gw.inject, name)
  {
    fault := gw.DeleteObjects(name);
    if fault.Some? {
      fault := BucketVerdict(fault.value);
    } else {
      fault := gw.DeleteBucket(name);
      if fault.Some? {
        fault := BucketVerdict(fault.value);
      }
    }
  }

  /** One attempt of `delete_namespace` (the undecorated body). */
  method DeleteNamespaceOnce(gw: Gateway, name: string) returns (fault: Option<Fault>)
    modifies gw
    ensures (gw.State(), fault) == NamespaceAttempt(old(gw.State()), gw.inject, name)
  {
    fault := gw.DeleteNamespace(name);
  }

  /** The `@retry` decorator around either deletion. */
  method Retrying(gw: Gateway, job: Job, name: string) returns (fault: Option<Fault>)
    modifies gw
    ensures (gw.State(), fault) == Retry(old(gw.State()), gw.inject, job, name, MaxAttempts)
  {
    var left := MaxAttempts;
    fault := AttemptOnce(gw, job, name);
    while fault.Some? && left > 1
      invariant 1 <= left <= MaxAttempts
      invariant Retry(old(gw.State()), gw.inject, job, name, MaxAttempts) ==
        if fault.None? || left == 1 then (gw.State(), fault) else Retry(gw.State(), gw.inject, job, name, left - 1)
      decreases left
    {
      fault := AttemptOnce(gw, job, name);
      left := left - 1;
    }
  }

  method AttemptOnce(gw: Gateway, job: Job, name: string) returns (fault: Option<Fault>)
    modifies gw
    ensures (gw.State(), fault) == Attempt(old(gw.State()), gw.inject, job, name)
  {
    match job
    case BucketDeletion => fault := DeleteBucketOnce(gw, name);
    case NamespaceDeletion => fault := DeleteNamespaceOnce(gw, name);
  }

  /** `delete_bucket(name)`. */
  method DeleteBucket(gw: Gateway, name: string) returns (fault: Option<Fault>)
    modifies gw
    ensures (gw.State(), fault) == Retry(old(gw.State()), gw.inject, BucketDeletion, name, MaxAttempts)
  {
    fault := Retrying(gw, BucketDeletion, name);
  }

  /** `delete_namespace(name)`. */
  method DeleteNamespace(gw: Gateway, name: string) returns (fault: Option<Fault>)
    modifies gw
    ensures (gw.State(), fault) == Retry(old(gw.State()), gw.inject, NamespaceDeletion, name, MaxAttempts)
  {
    fault := Retrying(gw, NamespaceDeletion, name);
  }
}
