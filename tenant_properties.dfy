/**
 * What a `create_tenant` run does to the external systems: validation comes
 * before every call, the steps run in a fixed order and a failing step
 * stops the run, each failure is compensated exactly as its handler says,
 * and a run that returns has created all four resources.
 */
module TenantProperties {
  import opened Wrappers
  import opened Cluster
  import opened TenantName
  import Cleanup
  import opened Propagation
  import opened Tenants

  /**
   * Validation runs before any external call: a validation error leaves the
   * world, the trace and the quota untouched; otherwise the first call of the
   * run is the namespace creation, and no validation error is reported.
   */
  lemma ValidationBeforeAnyCall(e: Env, inject: nat -> Option<Fault>, cfg: Config, v: Validators, req: Request)
    ensures var run := Provisioning(e, inject, cfg, v, req);
      ValidationError(v, req).Some? ==> run.env == e && run.quota == req.quota && run.error == ValidationError(v, req)
    ensures var run := Provisioning(e, inject, cfg, v, req);
      ValidationError(v, req).None? ==>
        e.trace + [Call.CreateNamespace(req.name, ExtractMaxEndpoints(req.quota).0)] <= run.env.trace &&
        (run.error.Some? ==> run.error.value.Failed?)
  {
    if ValidationError(v, req).None? {
      var (e1, hard, r1) := NamespaceCreation(e, inject, req.name, req.quota);
      assert e1.trace == e.trace + [Call.CreateNamespace(req.name, ExtractMaxEndpoints(req.quota).0)];
      if r1.None? {
        var (e2, f2) := Propagate(e1, inject, cfg.portableSecretsPaths, req.name);
        if f2.None? {
          var (e3, r3) := BucketCreation(e2, inject, req.name);
          if r3.None? {
            var (e4, r4) := SecretCreation(e3, inject, cfg, req.name, req.cert);
          }
        }
      }
    }
  }

  /** The decorator's calls, as a segment to be named. */
  lemma RetrySegment(e: Env, inject: nat -> Option<Fault>, job: Cleanup.Job, name: string) returns (calls: seq<Call>)
    ensures var (e', f) := Cleanup.Retry(e, inject, job, name, Cleanup.MaxAttempts);
      e'.trace == e.trace + calls && Cleanup.Retried(calls, job, name)
  {
    var n := Cleanup.RetryAttempts(e, inject, job, name, Cleanup.MaxAttempts);
    var e' := Cleanup.Retry(e, inject, job, name, Cleanup.MaxAttempts).0;
    calls := e'.trace[|e.trace|..];
  }

  /**
   * `create_bucket`: on success the bucket is new and empty and nothing else
   * changed; on failure the namespace is deleted (with retries), no bucket
   * is created, and the error is the bucket's own unless the deletion raised.
   */
  lemma BucketCreationEffect(e: Env, inject: nat -> Option<Fault>, name: string) returns (cleanup: seq<Call>)
    ensures var (e', r) := BucketCreation(e, inject, name);
      e'.trace == e.trace + [Call.CreateBucket(name)] + cleanup
    ensures var (e', r) := BucketCreation(e, inject, name);
      r.None? ==> cleanup == [] && name !in e.world.buckets && e'.world == e.world.(buckets := e.world.buckets[name := {}])
    ensures var (e', r) := BucketCreation(e, inject, name);
      r.Some? ==>
        Cleanup.Retried(cleanup, Cleanup.NamespaceDeletion, name) && e'.world.buckets == e.world.buckets &&
        r.value.Failed? && (r.value.step == BucketStep || r.value.step == NamespaceCleanup) &&
        (r.value.step == BucketStep ==>
          name !in e'.world.namespaces && name !in e'.world.quotas && forall k | k in e'.world.secrets :: k.0 != name)
  {
    var a := Perform(e, inject, Call.CreateBucket(name));
    if a.fault.None? {
      PerformSucceeds(e, inject, Call.CreateBucket(name));
      cleanup := [];
    } else {
      cleanup := RetrySegment(a.env, inject, Cleanup.NamespaceDeletion, name);
      Cleanup.RetryFrame(a.env, inject, Cleanup.NamespaceDeletion, name, Cleanup.MaxAttempts);
      var (e2, f2) := Cleanup.Retry(a.env, inject, Cleanup.NamespaceDeletion, name, Cleanup.MaxAttempts);
      if f2.None? {
        Cleanup.NamespaceGoneOnSuccess(a.env, inject, name, Cleanup.MaxAttempts);
      }
    }
  }

  /**
   * A compensation runs `delete_bucket` and then, only if that did not
   * raise, `delete_namespace`. When neither raises, the original error is
   * reported and the bucket, the namespace, its secrets and its quota are gone.
   */
  lemma CompensationEffect(e: Env, inject: nat -> Option<Fault>, name: string, err: TenantError)
    returns (bucketCalls: seq<Call>, namespaceCalls: seq<Call>)
    requires err.Failed? && (err.step == TenantSecretStep || err.step == QuotaStep)
    ensures var (e', r) := Compensation(e, inject, name, err);
      e'.trace == e.trace + bucketCalls + namespaceCalls &&
      Cleanup.Retried(bucketCalls, Cleanup.BucketDeletion, name) &&
      r.Some? && r.value.Failed? && (r.value == err || r.value.step == BucketCleanup || r.value.step == NamespaceCleanup) &&
      (namespaceCalls == [] <==> r.value.step == BucketCleanup) &&
      (namespaceCalls != [] ==> Cleanup.Retried(namespaceCalls, Cleanup.NamespaceDeletion, name))
    ensures var (e', r) := Compensation(e, inject, name, err);
      r == Some(err) ==>
        name !in e'.world.namespaces && name !in e'.world.quotas &&
        (forall k | k in e'.world.secrets :: k.0 != name) &&
        (Cleanup.NotFoundIsGenuine(inject) ==> name !in e'.world.buckets)
  {
    bucketCalls := RetrySegment(e, inject, Cleanup.BucketDeletion, name);
    var (e1, f1) := Cleanup.Retry(e, inject, Cleanup.BucketDeletion, name, Cleanup.MaxAttempts);
    if f1.Some? {
      namespaceCalls := [];
    } else {
      namespaceCalls := RetrySegment(e1, inject, Cleanup.NamespaceDeletion, name);
      var (e2, f2) := Cleanup.Retry(e1, inject, Cleanup.NamespaceDeletion, name, Cleanup.MaxAttempts);
      if f2.None? {
        Cleanup.NamespaceGoneOnSuccess(e1, inject, name, Cleanup.MaxAttempts);
        Cleanup.RetryFrame(e1, inject, Cleanup.NamespaceDeletion, name, Cleanup.MaxAttempts);
        if Cleanup.NotFoundIsGenuine(inject) {
          Cleanup.BucketGoneOnSuccess(e, inject, name, Cleanup.MaxAttempts);
        }
      }
    }
  }

  /**
   * `create_secret`: on success the certificate secret is stored in the
   * tenant namespace and nothing else changed; an ApiException is
   * compensated; any other exception is raised with nothing deleted.
   */
  lemma SecretCreationEffect(e: Env, inject: nat -> Option<Fault>, cfg: Config, name: string, cert: string)
    returns (cleanup: seq<Call>)
    ensures var r := SecretCreation(e, inject, cfg, name, cert);
      r.0.trace == e.trace + [Call.CreateSecret(name, TenantSecret(cfg, cert))] + cleanup
    ensures var r := SecretCreation(e, inject, cfg, name, cert);
      var a := Perform(e, inject, Call.CreateSecret(name, TenantSecret(cfg, cert)));
      (r.1.None? <==> a.fault.None?) &&
      (r.1.Some? && !a.fault.value.ApiException? ==> cleanup == [] && r.0.world == e.world && r.1 == Some(Failed(TenantSecretStep, a.fault.value))) &&
      (r.1.Some? && a.fault.value.ApiException? ==> Compensation(a.env, inject, name, Failed(TenantSecretStep, a.fault.value)) == r)
    ensures var r := SecretCreation(e, inject, cfg, name, cert);
      r.1.None? ==>
        cleanup == [] &&
        r.0.world == e.world.(secrets := e.world.secrets[(name, cfg.certSecretName) := StoredTenantSecret(cfg, name, cert, |e.trace|)])
  {
    var a := Perform(e, inject, Call.CreateSecret(name, TenantSecret(cfg, cert)));
    var r := SecretCreation(e, inject, cfg, name, cert);
    if a.fault.None? {
      PerformSucceeds(e, inject, Call.CreateSecret(name, TenantSecret(cfg, cert)));
      assert r == (a.env, None);
      cleanup := [];
    } else if a.fault.value.ApiException? {
      assert r == Compensation(a.env, inject, name, Failed(TenantSecretStep, a.fault.value));
      cleanup := r.0.trace[|a.env.trace|..];
    } else {
      assert r == (a.env, Some(Failed(TenantSecretStep, a.fault.value)));
      cleanup := [];
    }
  }

  /** The certificate secret as the API server stores it: in the tenant namespace, stamped with a resourceVersion. */
  function StoredTenantSecret(cfg: Config, name: string, cert: string, stamp: nat): (s: Secret)
    ensures s.meta.name == cfg.certSecretName && s.meta.namespace == Some(name) && s.data == map[CertKey := cert]
  {
    Secret(Meta(cfg.certSecretName, Some(name), Some(stamp)), map[CertKey := cert])
  }

  /** `create_resource_quota`, in the same terms as `create_secret`. */
  lemma QuotaCreationEffect(e: Env, inject: nat -> Option<Fault>, name: string, hard: Dict)
    returns (cleanup: seq<Call>)
    ensures var r := QuotaCreation(e, inject, name, hard);
      r.0.trace == e.trace + [CreateQuota(name, hard)] + cleanup
    ensures var r := QuotaCreation(e, inject, name, hard);
      var a := Perform(e, inject, CreateQuota(name, hard));
      (r.1.None? <==> a.fault.None?) &&
      (r.1.Some? && !a.fault.value.ApiException? ==> cleanup == [] && r.0.world == e.world && r.1 == Some(Failed(QuotaStep, a.fault.value))) &&
      (r.1.Some? && a.fault.value.ApiException? ==> Compensation(a.env, inject, name, Failed(QuotaStep, a.fault.value)) == r)
    ensures var r := QuotaCreation(e, inject, name, hard);
      r.1.None? ==> cleanup == [] && r.0.world == e.world.(quotas := e.world.quotas[name := hard])
  {
    var a := Perform(e, inject, CreateQuota(name, hard));
    var r := QuotaCreation(e, inject, name, hard);
    if a.fault.None? {
      PerformSucceeds(e, inject, CreateQuota(name, hard));
      assert r == (a.env, None);
      cleanup := [];
    } else if a.fault.value.ApiException? {
      assert r == Compensation(a.env, inject, name, Failed(QuotaStep, a.fault.value));
      cleanup := r.0.trace[|a.env.trace|..];
    } else {
      assert r == (a.env, Some(Failed(QuotaStep, a.fault.value)));
      cleanup := [];
    }
  }

  /** The annotations and the remaining quota of a request. */
  function Annotations(req: Request): Dict { ExtractMaxEndpoints(req.quota).0 }
  function Hard(req: Request): Dict { ExtractMaxEndpoints(req.quota).1 }

  /** A namespace creation that raises ends the run: one call made and nothing changed. */
  lemma NamespaceFailure(e: Env, inject: nat -> Option<Fault>, cfg: Config, v: Validators, req: Request)
    requires var run := Provisioning(e, inject, cfg, v, req);
      run.error.Some? && run.error.value.Failed? && run.error.value.step == NamespaceStep
    ensures var run := Provisioning(e, inject, cfg, v, req);
      ValidationError(v, req).None? && run.quota == Hard(req) && run.env.world == e.world &&
      run.env.trace == e.trace + [Call.CreateNamespace(req.name, Annotations(req))]
  {
    var r1 := NamespaceCreation(e, inject, req.name, req.quota);
    if r1.2.None? {
      var r2 := Propagate(r1.0, inject, cfg.portableSecretsPaths, req.name);
      var r3 := BucketCreation(r2.0, inject, req.name);
      var r4 := SecretCreation(r3.0, inject, cfg, req.name, req.cert);
      var r5 := QuotaCreation(r4.0, inject, req.name, r1.1);
      assert false;
    }
  }

  /** A run that fails at the propagation got through the namespace creation and ends there. */
  lemma EndsAtPropagation(e: Env, inject: nat -> Option<Fault>, cfg: Config, v: Validators, req: Request)
    requires var run := Provisioning(e, inject, cfg, v, req);
      run.error.Some? && run.error.value.Failed? && run.error.value.step == PropagationStep
    ensures ValidationError(v, req).None? && NamespaceCreation(e, inject, req.name, req.quota).2.None?
    ensures var r2 := Propagate(NamespaceCreation(e, inject, req.name, req.quota).0, inject, cfg.portableSecretsPaths, req.name);
      r2.1.Some? && Provisioning(e, inject, cfg, v, req) == Run(r2.0, Hard(req), Some(Failed(PropagationStep, r2.1.value)))
  {
    var (e1, hard, r1) := NamespaceCreation(e, inject, req.name, req.quota);
    var (e2, f2) := Propagate(e1, inject, cfg.portableSecretsPaths, req.name);
    assert Provisioning(e, inject, cfg, v, req) == Steps(e, inject, cfg, req) == Run(e2, hard, Some(Failed(PropagationStep, f2.value)));
  }

  /**
   * A propagation that raises ends the run with the namespace left in place:
   * the copies made so far stay, no bucket or quota is touched, and the
   * calls follow the portable paths in order up to the failing one.
   */
  lemma PropagationFailure(e: Env, inject: nat -> Option<Fault>, cfg: Config, v: Validators, req: Request)
    returns (portable: seq<Call>, k: nat)
    requires WellFormed(e.world)
    requires var run := Provisioning(e, inject, cfg, v, req);
      run.error.Some? && run.error.value.Failed? && run.error.value.step == PropagationStep
    ensures var run := Provisioning(e, inject, cfg, v, req);
      ValidationError(v, req).None? && run.quota == Hard(req) &&
      run.env.trace == e.trace + [Call.CreateNamespace(req.name, Annotations(req))] + portable &&
      CallsFollowPaths(portable, cfg.portableSecretsPaths, req.name)
    ensures var w := Provisioning(e, inject, cfg, v, req).env.world;
      req.name !in e.world.namespaces &&
      OnlyAddsSecretsIn(e.world.(namespaces := e.world.namespaces[req.name := Annotations(req)]), w, req.name, CopyNames(cfg.portableSecretsPaths))
    ensures k < |cfg.portableSecretsPaths|
    ensures var run := Provisioning(e, inject, cfg, v, req);
      var p := Propagate(NamespaceCreation(e, inject, req.name, req.quota).0, inject, cfg.portableSecretsPaths[..k], req.name);
      p.1.None? && PropagateOne(p.0, inject, cfg.portableSecretsPaths[k], req.name) == (run.env, Some(run.error.value.fault))
  {
    EndsAtPropagation(e, inject, cfg, v, req);
    var r1 := NamespaceCreation(e, inject, req.name, req.quota);
    var r2 := Propagate(r1.0, inject, cfg.portableSecretsPaths, req.name);
    PerformSucceeds(e, inject, Call.CreateNamespace(req.name, Annotations(req)));
    PerformKeepsWellFormed(e, inject, Call.CreateNamespace(req.name, Annotations(req)));
    PropagateCalls(r1.0, inject, cfg.portableSecretsPaths, req.name);
    PropagateOnlyAdds(r1.0, inject, cfg.portableSecretsPaths, req.name);
    portable := r2.0.trace[|r1.0.trace|..];
    k := PropagateStopsAt(r1.0, inject, cfg.portableSecretsPaths, req.name);
  }

  /**
   * The calls and the world up to the end of a successful propagation, which
   * every later step starts from.
   */
  lemma ThroughPropagation(e: Env, inject: nat -> Option<Fault>, cfg: Config, req: Request) returns (portable: seq<Call>)
    requires WellFormed(e.world)
    requires NamespaceCreation(e, inject, req.name, req.quota).2.None?
    requires Propagate(NamespaceCreation(e, inject, req.name, req.quota).0, inject, cfg.portableSecretsPaths, req.name).1.None?
    ensures var e2 := Propagate(NamespaceCreation(e, inject, req.name, req.quota).0, inject, cfg.portableSecretsPaths, req.name).0;
      e2.trace == e.trace + [Call.CreateNamespace(req.name, Annotations(req))] + portable &&
      |portable| == 2 * |cfg.portableSecretsPaths| && CallsFollowPaths(portable, cfg.portableSecretsPaths, req.name) &&
      req.name !in e.world.namespaces && WellFormed(e2.world) && HoldsCopies(e.world.secrets, e2.world.secrets, cfg.portableSecretsPaths, req.name) &&
      OnlyAddsSecretsIn(e.world.(namespaces := e.world.namespaces[req.name := Annotations(req)]), e2.world, req.name, CopyNames(cfg.portableSecretsPaths))
  {
    var (e1, hard, r1) := NamespaceCreation(e, inject, req.name, req.quota);
    PerformSucceeds(e, inject, Call.CreateNamespace(req.name, Annotations(req)));
    PerformKeepsWellFormed(e, inject, Call.CreateNamespace(req.name, Annotations(req)));
    var (e2, f2) := Propagate(e1, inject, cfg.portableSecretsPaths, req.name);
    PropagateCalls(e1, inject, cfg.portableSecretsPaths, req.name);
    PropagateOnlyAdds(e1, inject, cfg.portableSecretsPaths, req.name);
    forall i | 0 <= i < |cfg.portableSecretsPaths|
      ensures CopyHeld(e.world.secrets, e2.world.secrets, cfg.portableSecretsPaths[i], req.name)
    {
      PropagateCopiesAll(e1, inject, cfg.portableSecretsPaths, req.name, i);
    }
    portable := e2.trace[|e1.trace|..];
  }

  /**
   * A bucket creation that raises deletes the namespace again (retried), so
   * the namespace, its quota and its secrets are gone and no bucket exists
   * that did not exist before.
   */
  lemma BucketFailure(e: Env, inject: nat -> Option<Fault>, cfg: Config, v: Validators, req: Request)
    returns (portable: seq<Call>, cleanup: seq<Call>)
    requires WellFormed(e.world)
    requires var run := Provisioning(e, inject, cfg, v, req);
      run.error.Some? && run.error.value.Failed? && run.error.value.step == BucketStep
    ensures var run := Provisioning(e, inject, cfg, v, req);
      ValidationError(v, req).None? && run.quota == Hard(req) &&
      run.env.trace == e.trace + [Call.CreateNamespace(req.name, Annotations(req))] + portable + [Call.CreateBucket(req.name)] + cleanup &&
      |portable| == 2 * |cfg.portableSecretsPaths| && CallsFollowPaths(portable, cfg.portableSecretsPaths, req.name) &&
      Cleanup.Retried(cleanup, Cleanup.NamespaceDeletion, req.name)
    ensures var w := Provisioning(e, inject, cfg, v, req).env.world;
      w.buckets == e.world.buckets && req.name !in w.namespaces && req.name !in w.quotas &&
      forall k | k in w.secrets :: k.0 != req.name
  {
    EndsAtBucket(e, inject, cfg, v, req);
    var e2 := Propagate(NamespaceCreation(e, inject, req.name, req.quota).0, inject, cfg.portableSecretsPaths, req.name).0;
    portable := ThroughPropagation(e, inject, cfg, req);
    cleanup := BucketCreationEffect(e2, inject, req.name);
  }

  /** A run that fails at the bucket got through the first two steps and ends there. */
  lemma EndsAtBucket(e: Env, inject: nat -> Option<Fault>, cfg: Config, v: Validators, req: Request)
    requires var run := Provisioning(e, inject, cfg, v, req);
      run.error.Some? && run.error.value.Failed? && run.error.value.step == BucketStep
    ensures ValidationError(v, req).None? && NamespaceCreation(e, inject, req.name, req.quota).2.None?
    ensures Propagate(NamespaceCreation(e, inject, req.name, req.quota).0, inject, cfg.portableSecretsPaths, req.name).1.None?
    ensures var r3 := BucketCreation(Propagate(NamespaceCreation(e, inject, req.name, req.quota).0, inject, cfg.portableSecretsPaths, req.name).0, inject, req.name);
      Provisioning(e, inject, cfg, v, req) == Run(r3.0, Hard(req), r3.1)
  {
    var (e1, hard, r1) := NamespaceCreation(e, inject, req.name, req.quota);
    var (e2, f2) := Propagate(e1, inject, cfg.portableSecretsPaths, req.name);
    var (e3, r3) := BucketCreation(e2, inject, req.name);
    assert Provisioning(e, inject, cfg, v, req) == Steps(e, inject, cfg, req) == Run(e3, hard, r3);
  }

  /**
   * The calls and the world once the bucket exists: the namespace, the
   * portable copies and the bucket are new, nothing else has changed.
   */
  ghost predicate BucketStage(e: Env, cfg: Config, req: Request, portable: seq<Call>, e3: Env) {
    e3.trace == e.trace + [Call.CreateNamespace(req.name, Annotations(req))] + portable + [Call.CreateBucket(req.name)] &&
    |portable| == 2 * |cfg.portableSecretsPaths| && CallsFollowPaths(portable, cfg.portableSecretsPaths, req.name) &&
    req.name !in e.world.namespaces && req.name !in e.world.buckets && WellFormed(e3.world) &&
    HoldsCopies(e.world.secrets, e3.world.secrets, cfg.portableSecretsPaths, req.name) &&
    e3.world.namespaces == e.world.namespaces[req.name := Annotations(req)] &&
    e3.world.buckets == e.world.buckets[req.name := {}] && e3.world.quotas == e.world.quotas &&
    AddsSecretsOnlyIn(e.world.secrets, e3.world.secrets, req.name, CopyNames(cfg.portableSecretsPaths))
  }

  /** After the certificate secret: as after the bucket, with the secret stored in the tenant namespace. */
  ghost predicate SecretStage(e: Env, cfg: Config, req: Request, portable: seq<Call>, e4: Env) {
    e4.trace == e.trace + [Call.CreateNamespace(req.name, Annotations(req))] + portable +
      [Call.CreateBucket(req.name)] + [Call.CreateSecret(req.name, TenantSecret(cfg, req.cert))] &&
    |portable| == 2 * |cfg.portableSecretsPaths| && CallsFollowPaths(portable, cfg.portableSecretsPaths, req.name) &&
    req.name !in e.world.namespaces && req.name !in e.world.buckets && WellFormed(e4.world) &&
    HoldsCopies(e.world.secrets, e4.world.secrets, cfg.portableSecretsPaths, req.name) &&
    e4.world.namespaces == e.world.namespaces[req.name := Annotations(req)] &&
    e4.world.buckets == e.world.buckets[req.name := {}] && e4.world.quotas == e.world.quotas &&
    AddsSecretsOnlyIn(e.world.secrets, e4.world.secrets, req.name, CopyNames(cfg.portableSecretsPaths) + {cfg.certSecretName}) &&
    (req.name, cfg.certSecretName) in e4.world.secrets &&
    e4.world.secrets[(req.name, cfg.certSecretName)] == StoredTenantSecret(cfg, req.name, req.cert, |e.trace| + |portable| + 2)
  }

  /** The first three steps, when they go through, end in the bucket stage. */
  lemma ThroughBucket(e: Env, inject: nat -> Option<Fault>, cfg: Config, req: Request) returns (portable: seq<Call>)
    requires WellFormed(e.world)
    requires NamespaceCreation(e, inject, req.name, req.quota).2.None?
    requires Propagate(NamespaceCreation(e, inject, req.name, req.quota).0, inject, cfg.portableSecretsPaths, req.name).1.None?
    requires BucketCreation(Propagate(NamespaceCreation(e, inject, req.name, req.quota).0, inject, cfg.portableSecretsPaths, req.name).0, inject, req.name).1.None?
    ensures BucketStage(e, cfg, req, portable,
      BucketCreation(Propagate(NamespaceCreation(e, inject, req.name, req.quota).0, inject, cfg.portableSecretsPaths, req.name).0, inject, req.name).0)
  {
    var e2 := Propagate(NamespaceCreation(e, inject, req.name, req.quota).0, inject, cfg.portableSecretsPaths, req.name).0;
    portable := ThroughPropagation(e, inject, cfg, req);
    var cleanup := BucketCreationEffect(e2, inject, req.name);
    PerformKeepsWellFormed(e2, inject, Call.CreateBucket(req.name));
  }

  /** A certificate secret that is created moves the run from the bucket stage to the secret stage. */
  lemma ThroughSecret(e: Env, inject: nat -> Option<Fault>, cfg: Config, req: Request, portable: seq<Call>, e3: Env)
    requires BucketStage(e, cfg, req, portable, e3)
    requires SecretCreation(e3, inject, cfg, req.name, req.cert).1.None?
    ensures SecretStage(e, cfg, req, portable, SecretCreation(e3, inject, cfg, req.name, req.cert).0)
  {
    var cleanup := SecretCreationEffect(e3, inject, cfg, req.name, req.cert);
    var e4 := SecretCreation(e3, inject, cfg, req.name, req.cert).0;
    PerformKeepsWellFormed(e3, inject, Call.CreateSecret(req.name, TenantSecret(cfg, req.cert)));
    PerformSucceeds(e3, inject, Call.CreateSecret(req.name, TenantSecret(cfg, req.cert)));
    assert AddsSecretsOnlyIn(e3.world.secrets, e4.world.secrets, req.name, {cfg.certSecretName});
    HoldsCopiesKept(e.world.secrets, e3.world.secrets, e4.world.secrets, cfg.portableSecretsPaths, req.name, {cfg.certSecretName});
    AddsSecretsTrans(e.world.secrets, e3.world.secrets, e4.world.secrets, req.name, CopyNames(cfg.portableSecretsPaths), {cfg.certSecretName});
  }

  /** A run that fails at the certificate secret got through the first three steps. */
  lemma ReachesSecretStep(e: Env, inject: nat -> Option<Fault>, cfg: Config, v: Validators, req: Request) returns (e3: Env)
    requires var run := Provisioning(e, inject, cfg, v, req);
      run.error.Some? && run.error.value.Failed? && run.error.value.step == TenantSecretStep
    ensures ValidationError(v, req).None? && NamespaceCreation(e, inject, req.name, req.quota).2.None?
    ensures Propagate(NamespaceCreation(e, inject, req.name, req.quota).0, inject, cfg.portableSecretsPaths, req.name).1.None?
    ensures var r3 := BucketCreation(Propagate(NamespaceCreation(e, inject, req.name, req.quota).0, inject, cfg.portableSecretsPaths, req.name).0, inject, req.name);
      r3.1.None? && e3 == r3.0
    ensures var r4 := SecretCreation(e3, inject, cfg, req.name, req.cert);
      Provisioning(e, inject, cfg, v, req) == Run(r4.0, Hard(req), r4.1)
  {
    var (e1, hard, r1) := NamespaceCreation(e, inject, req.name, req.quota);
    var (e2, f2) := Propagate(e1, inject, cfg.portableSecretsPaths, req.name);
    var (e3', r3) := BucketCreation(e2, inject, req.name);
    e3 := e3';
    var (e4, r4) := SecretCreation(e3, inject, cfg, req.name, req.cert);
    assert Provisioning(e, inject, cfg, v, req) == Steps(e, inject, cfg, req) == Run(e4, hard, r4);
  }

  /**
   * `create_secret` raising: an ApiException deletes the bucket and then the
   * namespace (each retried), after which the tenant's namespace, quota,
   * secrets and (when no 404 is injected) bucket are gone; any other
   * exception is raised with nothing deleted.
   */
  lemma TenantSecretFailure(e: Env, inject: nat -> Option<Fault>, cfg: Config, v: Validators, req: Request)
    returns (portable: seq<Call>, bucketCalls: seq<Call>, namespaceCalls: seq<Call>)
    requires WellFormed(e.world)
    requires var run := Provisioning(e, inject, cfg, v, req);
      run.error.Some? && run.error.value.Failed? && run.error.value.step == TenantSecretStep
    ensures var run := Provisioning(e, inject, cfg, v, req);
      ValidationError(v, req).None? && run.quota == Hard(req) &&
      run.env.trace == e.trace + [Call.CreateNamespace(req.name, Annotations(req))] + portable +
        [Call.CreateBucket(req.name)] + [Call.CreateSecret(req.name, TenantSecret(cfg, req.cert))] + bucketCalls + namespaceCalls &&
      |portable| == 2 * |cfg.portableSecretsPaths| && CallsFollowPaths(portable, cfg.portableSecretsPaths, req.name)
    ensures var run := Provisioning(e, inject, cfg, v, req); var w := run.env.world;
      run.error.value.fault.ApiException? ==>
        Cleanup.Retried(bucketCalls, Cleanup.BucketDeletion, req.name) &&
        Cleanup.Retried(namespaceCalls, Cleanup.NamespaceDeletion, req.name) &&
        req.name !in w.namespaces && req.name !in w.quotas && (forall k | k in w.secrets :: k.0 != req.name) &&
        (Cleanup.NotFoundIsGenuine(inject) ==> req.name !in w.buckets)
    ensures var run := Provisioning(e, inject, cfg, v, req); var w := run.env.world;
      !run.error.value.fault.ApiException? ==>
        bucketCalls == [] && namespaceCalls == [] &&
        w.namespaces == e.world.namespaces[req.name := Annotations(req)] && w.buckets == e.world.buckets[req.name := {}]
  {
    var e3 := ReachesSecretStep(e, inject, cfg, v, req);
    portable := ThroughBucket(e, inject, cfg, req);
    assert BucketStage(e, cfg, req, portable, e3);
    var a := Perform(e3, inject, Call.CreateSecret(req.name, TenantSecret(cfg, req.cert)));
    var cleanup := SecretCreationEffect(e3, inject, cfg, req.name, req.cert);
    if a.fault.value.ApiException? {
      bucketCalls, namespaceCalls := CompensationEffect(a.env, inject, req.name, Failed(TenantSecretStep, a.fault.value));
    } else {
      bucketCalls, namespaceCalls := [], [];
    }
  }

  /** A run that returns, or fails at the resource quota, got through the first four steps. */
  lemma ReachesQuotaStep(e: Env, inject: nat -> Option<Fault>, cfg: Config, v: Validators, req: Request) returns (e3: Env, e4: Env)
    requires var run := Provisioning(e, inject, cfg, v, req);
      run.error.None? || (run.error.value.Failed? && run.error.value.step == QuotaStep)
    ensures ValidationError(v, req).None? && NamespaceCreation(e, inject, req.name, req.quota).2.None?
    ensures Propagate(NamespaceCreation(e, inject, req.name, req.quota).0, inject, cfg.portableSecretsPaths, req.name).1.None?
    ensures var r3 := BucketCreation(Propagate(NamespaceCreation(e, inject, req.name, req.quota).0, inject, cfg.portableSecretsPaths, req.name).0, inject, req.name);
      r3.1.None? && e3 == r3.0
    ensures var r4 := SecretCreation(e3, inject, cfg, req.name, req.cert);
      r4.1.None? && e4 == r4.0
    ensures var r5 := QuotaCreation(e4, inject, req.name, Hard(req));
      Provisioning(e, inject, cfg, v, req) == Run(r5.0, Hard(req), r5.1)
  {
    var (e1, hard, r1) := NamespaceCreation(e, inject, req.name, req.quota);
    var (e2, f2) := Propagate(e1, inject, cfg.portableSecretsPaths, req.name);
    var (e3', r3) := BucketCreation(e2, inject, req.name);
    var (e4', r4) := SecretCreation(e3', inject, cfg, req.name, req.cert);
    e3, e4 := e3', e4';
    var (e5, r5) := QuotaCreation(e4, inject, req.name, hard);
    assert Provisioning(e, inject, cfg, v, req) == Steps(e, inject, cfg, req) == Run(e5, hard, r5);
  }
  /**
   * `create_resource_quota` raising: an ApiException deletes the bucket and
   * then the namespace, as for the certificate secret; any other exception is
   * raised with the namespace, the bucket and the secrets left in place.
   */
  lemma QuotaFailure(e: Env, inject: nat -> Option<Fault>, cfg: Config, v: Validators, req: Request)
    returns (portable: seq<Call>, bucketCalls: seq<Call>, namespaceCalls: seq<Call>)
    requires WellFormed(e.world)
    requires var run := Provisioning(e, inject, cfg, v, req);
      run.error.Some? && run.error.value.Failed? && run.error.value.step == QuotaStep
    ensures var run := Provisioning(e, inject, cfg, v, req);
      ValidationError(v, req).None? && run.quota == Hard(req) &&
      run.env.trace == e.trace + [Call.CreateNamespace(req.name, Annotations(req))] + portable +
        [Call.CreateBucket(req.name)] + [Call.CreateSecret(req.name, TenantSecret(cfg, req.cert))] + [CreateQuota(req.name, Hard(req))] +
        bucketCalls + namespaceCalls &&
      |portable| == 2 * |cfg.portableSecretsPaths| && CallsFollowPaths(portable, cfg.portableSecretsPaths, req.name)
    ensures var run := Provisioning(e, inject, cfg, v, req); var w := run.env.world;
      run.error.value.fault.ApiException? ==>
        Cleanup.Retried(bucketCalls, Cleanup.BucketDeletion, req.name) &&
        Cleanup.Retried(namespaceCalls, Cleanup.NamespaceDeletion, req.name) &&
        req.name !in w.namespaces && req.name !in w.quotas && (forall k | k in w.secrets :: k.0 != req.name) &&
        (Cleanup.NotFoundIsGenuine(inject) ==> req.name !in w.buckets)
    ensures var run := Provisioning(e, inject, cfg, v, req); var w := run.env.world;
      !run.error.value.fault.ApiException? ==>
        bucketCalls == [] && namespaceCalls == [] &&
        w.namespaces == e.world.namespaces[req.name := Annotations(req)] && w.buckets == e.world.buckets[req.name := {}] &&
        w.quotas == e.world.quotas && (req.name, cfg.certSecretName) in w.secrets &&
        HoldsCopies(e.world.secrets, w.secrets, cfg.portableSecretsPaths, req.name)
  {
    var e3, e4 := ReachesQuotaStep(e, inject, cfg, v, req);
    portable := ThroughBucket(e, inject, cfg, req);
    ThroughSecret(e, inject, cfg, req, portable, e3);
    bucketCalls, namespaceCalls := QuotaFault(e, inject, cfg, req, portable, e4);
  }

  /** The quota step raising, from the secret stage. */
  lemma QuotaFault(e: Env, inject: nat -> Option<Fault>, cfg: Config, req: Request, portable: seq<Call>, e4: Env)
    returns (bucketCalls: seq<Call>, namespaceCalls: seq<Call>)
    requires SecretStage(e, cfg, req, portable, e4)
    requires var r := QuotaCreation(e4, inject, req.name, Hard(req));
      r.1.Some? && r.1.value.Failed? && r.1.value.step == QuotaStep
    ensures var r := QuotaCreation(e4, inject, req.name, Hard(req));
      r.0.trace == e4.trace + [CreateQuota(req.name, Hard(req))] + bucketCalls + namespaceCalls
    ensures var r := QuotaCreation(e4, inject, req.name, Hard(req)); var w := r.0.world;
      r.1.value.fault.ApiException? ==>
        Cleanup.Retried(bucketCalls, Cleanup.BucketDeletion, req.name) &&
        Cleanup.Retried(namespaceCalls, Cleanup.NamespaceDeletion, req.name) &&
        req.name !in w.namespaces && req.name !in w.quotas && (forall k | k in w.secrets :: k.0 != req.name) &&
        (Cleanup.NotFoundIsGenuine(inject) ==> req.name !in w.buckets)
    ensures var r := QuotaCreation(e4, inject, req.name, Hard(req)); var w := r.0.world;
      !r.1.value.fault.ApiException? ==>
        bucketCalls == [] && namespaceCalls == [] && w == e4.world
  {
    var a := Perform(e4, inject, CreateQuota(req.name, Hard(req)));
    var cleanup := QuotaCreationEffect(e4, inject, req.name, Hard(req));
    if a.fault.value.ApiException? {
      bucketCalls, namespaceCalls := CompensationEffect(a.env, inject, req.name, Failed(QuotaStep, a.fault.value));
    } else {
      bucketCalls, namespaceCalls := [], [];
    }
  }

  /**
   * A run that returns has made exactly these calls: the namespace, one read
   * and one create per portable path, the bucket, the certificate secret and
   * the quota. The caller's quota has lost `maxEndpoints`, which annotates the
   * new namespace; the new bucket is empty, the quota holds the rest; every
   * portable secret has its copy; and nothing that existed before was changed.
   */
  lemma ProvisioningSucceeds(e: Env, inject: nat -> Option<Fault>, cfg: Config, v: Validators, req: Request)
    returns (portable: seq<Call>)
    requires WellFormed(e.world)
    requires Provisioning(e, inject, cfg, v, req).error.None?
    ensures var run := Provisioning(e, inject, cfg, v, req);
      ValidationError(v, req).None? && run.quota == Hard(req) && MaxEndpoints !in run.quota &&
      run.env.trace == e.trace + [Call.CreateNamespace(req.name, Annotations(req))] + portable +
        [Call.CreateBucket(req.name)] + [Call.CreateSecret(req.name, TenantSecret(cfg, req.cert))] + [CreateQuota(req.name, Hard(req))] &&
      |portable| == 2 * |cfg.portableSecretsPaths| && CallsFollowPaths(portable, cfg.portableSecretsPaths, req.name)
    ensures var w := Provisioning(e, inject, cfg, v, req).env.world;
      req.name !in e.world.namespaces && req.name !in e.world.buckets && req.name !in e.world.quotas &&
      w.namespaces == e.world.namespaces[req.name := Annotations(req)] &&
      w.buckets == e.world.buckets[req.name := {}] &&
      w.quotas == e.world.quotas[req.name := Hard(req)]
    ensures var w := Provisioning(e, inject, cfg, v, req).env.world;
      AddsSecretsOnlyIn(e.world.secrets, w.secrets, req.name, CopyNames(cfg.portableSecretsPaths) + {cfg.certSecretName}) &&
      (req.name, cfg.certSecretName) in w.secrets &&
      w.secrets[(req.name, cfg.certSecretName)] == StoredTenantSecret(cfg, req.name, req.cert, |e.trace| + |portable| + 2) &&
      HoldsCopies(e.world.secrets, w.secrets, cfg.portableSecretsPaths, req.name)
  {
    var e3, e4 := ReachesQuotaStep(e, inject, cfg, v, req);
    portable := ThroughBucket(e, inject, cfg, req);
    ThroughSecret(e, inject, cfg, req, portable, e3);
    QuotaDone(e, inject, cfg, req, portable, e4);
  }

  /** The quota step going through, from the secret stage. */
  lemma QuotaDone(e: Env, inject: nat -> Option<Fault>, cfg: Config, req: Request, portable: seq<Call>, e4: Env)
    requires SecretStage(e, cfg, req, portable, e4)
    requires QuotaCreation(e4, inject, req.name, Hard(req)).1.None?
    ensures var e5 := QuotaCreation(e4, inject, req.name, Hard(req)).0;
      e5.trace == e4.trace + [CreateQuota(req.name, Hard(req))] && req.name !in e4.world.quotas &&
      e5.world == e4.world.(quotas := e4.world.quotas[req.name := Hard(req)])
  {
    var cleanup := QuotaCreationEffect(e4, inject, req.name, Hard(req));
    PerformSucceeds(e4, inject, CreateQuota(req.name, Hard(req)));
  }

  /**
   * The deletions of a compensation that raised: `delete_bucket` (retried),
   * then `delete_namespace` (retried) only when the bucket's deletion returned,
   * and the error names the deletion that raised.
   */
  ghost predicate CleanupRaised(bucketCalls: seq<Call>, namespaceCalls: seq<Call>, err: TenantError, name: string) {
    err.Failed? && (err.step == BucketCleanup || err.step == NamespaceCleanup) &&
    Cleanup.Retried(bucketCalls, Cleanup.BucketDeletion, name) &&
    (namespaceCalls == [] <==> err.step == BucketCleanup) &&
    (namespaceCalls != [] ==> Cleanup.Retried(namespaceCalls, Cleanup.NamespaceDeletion, name))
  }

  /** A `create_secret` that ends in a deletion's exception was refused with an ApiException and then compensated. */
  lemma SecretCleanupRaised(e: Env, inject: nat -> Option<Fault>, cfg: Config, name: string, cert: string)
    returns (bucketCalls: seq<Call>, namespaceCalls: seq<Call>)
    requires var r := SecretCreation(e, inject, cfg, name, cert);
      r.1.Some? && (r.1.value.step == BucketCleanup || r.1.value.step == NamespaceCleanup)
    ensures var a := Perform(e, inject, Call.CreateSecret(name, TenantSecret(cfg, cert)));
      a.fault.Some? && a.fault.value.ApiException?
    ensures var r := SecretCreation(e, inject, cfg, name, cert);
      r.0.trace == e.trace + [Call.CreateSecret(name, TenantSecret(cfg, cert))] + bucketCalls + namespaceCalls &&
      CleanupRaised(bucketCalls, namespaceCalls, r.1.value, name)
  {
    var a := Perform(e, inject, Call.CreateSecret(name, TenantSecret(cfg, cert)));
    var cleanup := SecretCreationEffect(e, inject, cfg, name, cert);
    bucketCalls, namespaceCalls := CompensationEffect(a.env, inject, name, Failed(TenantSecretStep, a.fault.value));
  }

  /** A `create_resource_quota` that ends in a deletion's exception was refused with an ApiException and then compensated. */
  lemma QuotaCleanupRaised(e: Env, inject: nat -> Option<Fault>, name: string, hard: Dict)
    returns (bucketCalls: seq<Call>, namespaceCalls: seq<Call>)
    requires var r := QuotaCreation(e, inject, name, hard);
      r.1.Some? && (r.1.value.step == BucketCleanup || r.1.value.step == NamespaceCleanup)
    ensures var a := Perform(e, inject, CreateQuota(name, hard));
      a.fault.Some? && a.fault.value.ApiException?
    ensures var r := QuotaCreation(e, inject, name, hard);
      r.0.trace == e.trace + [CreateQuota(name, hard)] + bucketCalls + namespaceCalls &&
      CleanupRaised(bucketCalls, namespaceCalls, r.1.value, name)
  {
    var a := Perform(e, inject, CreateQuota(name, hard));
    var cleanup := QuotaCreationEffect(e, inject, name, hard);
    bucketCalls, namespaceCalls := CompensationEffect(a.env, inject, name, Failed(QuotaStep, a.fault.value));
  }

  /** A run that ends in a deletion's exception got through the namespace creation and the propagation. */
  lemma ReachesCleanup(e: Env, inject: nat -> Option<Fault>, cfg: Config, v: Validators, req: Request)
    requires var run := Provisioning(e, inject, cfg, v, req);
      run.error.Some? && run.error.value.Failed? && (run.error.value.step == BucketCleanup || run.error.value.step == NamespaceCleanup)
    ensures ValidationError(v, req).None? && NamespaceCreation(e, inject, req.name, req.quota).2.None?
    ensures Propagate(NamespaceCreation(e, inject, req.name, req.quota).0, inject, cfg.portableSecretsPaths, req.name).1.None?
  {
    var (e1, hard, r1) := NamespaceCreation(e, inject, req.name, req.quota);
    var (e2, f2) := Propagate(e1, inject, cfg.portableSecretsPaths, req.name);
    assert Provisioning(e, inject, cfg, v, req) == Steps(e, inject, cfg, req);
  }

  /** Calls appended one by one, regrouped. */
  lemma Regroup2(t: seq<Call>, a: Call, b: Call, r1: seq<Call>, r2: seq<Call>)
    ensures t + [a] + [b] + r1 + r2 == t + [a, b] + r1 + r2
  {
    assert t + [a] + [b] == t + [a, b];
  }

  lemma Regroup3(t: seq<Call>, a: Call, b: Call, c: Call, r1: seq<Call>, r2: seq<Call>)
    ensures t + [a] + [b] + [c] + r1 + r2 == t + [a, b, c] + r1 + r2
  {
    assert t + [a] + [b] + [c] == t + [a, b, c];
  }

  /** `create_bucket` raising and its `finally` deletion raising too, from the end of a successful propagation. */
  lemma BucketCleanupFrom(e: Env, inject: nat -> Option<Fault>, cfg: Config, req: Request) returns (portable: seq<Call>, namespaceCalls: seq<Call>)
    requires WellFormed(e.world)
    requires NamespaceCreation(e, inject, req.name, req.quota).2.None?
    requires Propagate(NamespaceCreation(e, inject, req.name, req.quota).0, inject, cfg.portableSecretsPaths, req.name).1.None?
    requires BucketCreation(Propagate(NamespaceCreation(e, inject, req.name, req.quota).0, inject, cfg.portableSecretsPaths, req.name).0, inject, req.name).1.Some?
    ensures var r := BucketCreation(Propagate(NamespaceCreation(e, inject, req.name, req.quota).0, inject, cfg.portableSecretsPaths, req.name).0, inject, req.name);
      r.0.trace == e.trace + [Call.CreateNamespace(req.name, Annotations(req))] + portable + [Call.CreateBucket(req.name)] + namespaceCalls &&
      |portable| == 2 * |cfg.portableSecretsPaths| && CallsFollowPaths(portable, cfg.portableSecretsPaths, req.name) &&
      Cleanup.Retried(namespaceCalls, Cleanup.NamespaceDeletion, req.name)
  {
    var e2 := Propagate(NamespaceCreation(e, inject, req.name, req.quota).0, inject, cfg.portableSecretsPaths, req.name).0;
    portable := ThroughPropagation(e, inject, cfg, req);
    namespaceCalls := BucketCreationEffect(e2, inject, req.name);
  }

  /** The certificate secret's compensation raising, from the bucket stage. */
  lemma SecretCleanupFrom(e: Env, inject: nat -> Option<Fault>, cfg: Config, req: Request, portable: seq<Call>, e3: Env)
    returns (bucketCalls: seq<Call>, namespaceCalls: seq<Call>)
    requires BucketStage(e, cfg, req, portable, e3)
    requires var r := SecretCreation(e3, inject, cfg, req.name, req.cert);
      r.1.Some? && (r.1.value.step == BucketCleanup || r.1.value.step == NamespaceCleanup)
    ensures var r := SecretCreation(e3, inject, cfg, req.name, req.cert);
      r.0.trace == e.trace + [Call.CreateNamespace(req.name, Annotations(req))] + portable +
        [Call.CreateBucket(req.name), Call.CreateSecret(req.name, TenantSecret(cfg, req.cert))] + bucketCalls + namespaceCalls &&
      CleanupRaised(bucketCalls, namespaceCalls, r.1.value, req.name)
  {
    bucketCalls, namespaceCalls := SecretCleanupRaised(e3, inject, cfg, req.name, req.cert);
    Regroup2(e.trace + [Call.CreateNamespace(req.name, Annotations(req))] + portable,
      Call.CreateBucket(req.name), Call.CreateSecret(req.name, TenantSecret(cfg, req.cert)), bucketCalls, namespaceCalls);
  }

  /** The quota's compensation raising, from the secret stage. */
  lemma QuotaCleanupFrom(e: Env, inject: nat -> Option<Fault>, cfg: Config, req: Request, portable: seq<Call>, e4: Env)
    returns (bucketCalls: seq<Call>, namespaceCalls: seq<Call>)
    requires SecretStage(e, cfg, req, portable, e4)
    requires var r := QuotaCreation(e4, inject, req.name, Hard(req));
      r.1.Some? && (r.1.value.step == BucketCleanup || r.1.value.step == NamespaceCleanup)
    ensures var r := QuotaCreation(e4, inject, req.name, Hard(req));
      r.0.trace == e.trace + [Call.CreateNamespace(req.name, Annotations(req))] + portable +
        [Call.CreateBucket(req.name), Call.CreateSecret(req.name, TenantSecret(cfg, req.cert)), CreateQuota(req.name, Hard(req))] +
        bucketCalls + namespaceCalls &&
      CleanupRaised(bucketCalls, namespaceCalls, r.1.value, req.name)
  {
    bucketCalls, namespaceCalls := QuotaCleanupRaised(e4, inject, req.name, Hard(req));
    Regroup3(e.trace + [Call.CreateNamespace(req.name, Annotations(req))] + portable,
      Call.CreateBucket(req.name), Call.CreateSecret(req.name, TenantSecret(cfg, req.cert)), CreateQuota(req.name, Hard(req)),
      bucketCalls, namespaceCalls);
  }

  /**
   * A run that ends because a deletion raised: the steps up to the one that
   * raised ran in order, the deletions that step's handler or `finally` runs
   * come last, and no call follows them. Only `create_bucket`'s `finally`
   * deletes the namespace without the bucket; `create_secret` and
   * `create_resource_quota` get there only through an ApiException.
   */
  lemma CleanupFailure(e: Env, inject: nat -> Option<Fault>, cfg: Config, v: Validators, req: Request)
    returns (portable: seq<Call>, steps: seq<Call>, bucketCalls: seq<Call>, namespaceCalls: seq<Call>)
    requires WellFormed(e.world)
    requires var run := Provisioning(e, inject, cfg, v, req);
      run.error.Some? && run.error.value.Failed? && (run.error.value.step == BucketCleanup || run.error.value.step == NamespaceCleanup)
    ensures var run := Provisioning(e, inject, cfg, v, req);
      ValidationError(v, req).None? && run.quota == Hard(req) &&
      run.env.trace == e.trace + [Call.CreateNamespace(req.name, Annotations(req))] + portable + steps + bucketCalls + namespaceCalls &&
      |portable| == 2 * |cfg.portableSecretsPaths| && CallsFollowPaths(portable, cfg.portableSecretsPaths, req.name)
    ensures steps == [Call.CreateBucket(req.name)] ||
      steps == [Call.CreateBucket(req.name), Call.CreateSecret(req.name, TenantSecret(cfg, req.cert))] ||
      steps == [Call.CreateBucket(req.name), Call.CreateSecret(req.name, TenantSecret(cfg, req.cert)), CreateQuota(req.name, Hard(req))]
    ensures var err := Provisioning(e, inject, cfg, v, req).error.value;
      steps == [Call.CreateBucket(req.name)] ==>
        err.step == NamespaceCleanup && bucketCalls == [] && Cleanup.Retried(namespaceCalls, Cleanup.NamespaceDeletion, req.name)
    ensures var err := Provisioning(e, inject, cfg, v, req).error.value;
      |steps| > 1 ==> CleanupRaised(bucketCalls, namespaceCalls, err, req.name)
  {
    ReachesCleanup(e, inject, cfg, v, req);
    var (e1, hard, r1) := NamespaceCreation(e, inject, req.name, req.quota);
    var (e2, f2) := Propagate(e1, inject, cfg.portableSecretsPaths, req.name);
    var (e3, r3) := BucketCreation(e2, inject, req.name);
    if r3.Some? {
      assert Provisioning(e, inject, cfg, v, req) == Run(e3, hard, r3);
      portable, namespaceCalls := BucketCleanupFrom(e, inject, cfg, req);
      steps, bucketCalls := [Call.CreateBucket(req.name)], [];
    } else {
      portable := ThroughBucket(e, inject, cfg, req);
      var (e4, r4) := SecretCreation(e3, inject, cfg, req.name, req.cert);
      if r4.Some? {
        assert Provisioning(e, inject, cfg, v, req) == Run(e4, hard, r4);
        bucketCalls, namespaceCalls := SecretCleanupFrom(e, inject, cfg, req, portable, e3);
        steps := [Call.CreateBucket(req.name), Call.CreateSecret(req.name, TenantSecret(cfg, req.cert))];
      } else {
        ThroughSecret(e, inject, cfg, req, portable, e3);
        var (e5, r5) := QuotaCreation(e4, inject, req.name, hard);
        assert Provisioning(e, inject, cfg, v, req) == Run(e5, hard, r5);
        bucketCalls, namespaceCalls := QuotaCleanupFrom(e, inject, cfg, req, portable, e4);
        steps := [Call.CreateBucket(req.name), Call.CreateSecret(req.name, TenantSecret(cfg, req.cert)), CreateQuota(req.name, Hard(req))];
      }
    }
  }

  /** `create_bucket` touches nothing of another tenant. */
  lemma BucketCreationStaysInside(e: Env, inject: nat -> Option<Fault>, name: string)
    ensures SameOutside(e.world, BucketCreation(e, inject, name).0.world, name)
  {
    var a := Perform(e, inject, Call.CreateBucket(name));
    PerformStaysInside(e, inject, Call.CreateBucket(name));
    if a.fault.Some? {
      Cleanup.RetryFrame(a.env, inject, Cleanup.NamespaceDeletion, name, Cleanup.MaxAttempts);
      SameOutsideTrans(e.world, a.env.world, BucketCreation(e, inject, name).0.world, name);
    }
  }

  /** A compensation deletes only the tenant's own bucket and namespace. */
  lemma CompensationStaysInside(e: Env, inject: nat -> Option<Fault>, name: string, err: TenantError)
    ensures SameOutside(e.world, Compensation(e, inject, name, err).0.world, name)
  {
    var (e1, f1) := Cleanup.Retry(e, inject, Cleanup.BucketDeletion, name, Cleanup.MaxAttempts);
    Cleanup.RetryFrame(e, inject, Cleanup.BucketDeletion, name, Cleanup.MaxAttempts);
    if f1.None? {
      Cleanup.RetryFrame(e1, inject, Cleanup.NamespaceDeletion, name, Cleanup.MaxAttempts);
      SameOutsideTrans(e.world, e1.world, Compensation(e, inject, name, err).0.world, name);
    }
  }

  /** `create_secret`, compensated or not, touches nothing of another tenant. */
  lemma SecretCreationStaysInside(e: Env, inject: nat -> Option<Fault>, cfg: Config, name: string, cert: string)
    ensures SameOutside(e.world, SecretCreation(e, inject, cfg, name, cert).0.world, name)
  {
    var a := Perform(e, inject, Call.CreateSecret(name, TenantSecret(cfg, cert)));
    PerformStaysInside(e, inject, Call.CreateSecret(name, TenantSecret(cfg, cert)));
    if a.fault.Some? && a.fault.value.ApiException? {
      CompensationStaysInside(a.env, inject, name, Failed(TenantSecretStep, a.fault.value));
      SameOutsideTrans(e.world, a.env.world, SecretCreation(e, inject, cfg, name, cert).0.world, name);
    }
  }

  /** `create_resource_quota`, compensated or not, touches nothing of another tenant. */
  lemma QuotaCreationStaysInside(e: Env, inject: nat -> Option<Fault>, name: string, hard: Dict)
    ensures SameOutside(e.world, QuotaCreation(e, inject, name, hard).0.world, name)
  {
    var a := Perform(e, inject, CreateQuota(name, hard));
    PerformStaysInside(e, inject, CreateQuota(name, hard));
    if a.fault.Some? && a.fault.value.ApiException? {
      CompensationStaysInside(a.env, inject, name, Failed(QuotaStep, a.fault.value));
      SameOutsideTrans(e.world, a.env.world, QuotaCreation(e, inject, name, hard).0.world, name);
    }
  }

  /**
   * Whatever happens, a run touches only what carries the tenant's name: every
   * other namespace, bucket and quota, and every secret outside the tenant
   * namespace, is as it was, and none appears or disappears.
   */
  lemma RunStaysInside(e: Env, inject: nat -> Option<Fault>, cfg: Config, v: Validators, req: Request)
    requires WellFormed(e.world)
    ensures SameOutside(e.world, Provisioning(e, inject, cfg, v, req).env.world, req.name)
  {
    if ValidationError(v, req).None? {
      var (e1, hard, r1) := NamespaceCreation(e, inject, req.name, req.quota);
      PerformStaysInside(e, inject, Call.CreateNamespace(req.name, Annotations(req)));
      if r1.None? {
        PerformKeepsWellFormed(e, inject, Call.CreateNamespace(req.name, Annotations(req)));
        var (e2, f2) := Propagate(e1, inject, cfg.portableSecretsPaths, req.name);
        PropagateOnlyAdds(e1, inject, cfg.portableSecretsPaths, req.name);
        OnlyAddsStaysInside(e1.world, e2.world, req.name, CopyNames(cfg.portableSecretsPaths));
        SameOutsideTrans(e.world, e1.world, e2.world, req.name);
        if f2.None? {
          var (e3, r3) := BucketCreation(e2, inject, req.name);
          BucketCreationStaysInside(e2, inject, req.name);
          SameOutsideTrans(e.world, e2.world, e3.world, req.name);
          if r3.None? {
            var (e4, r4) := SecretCreation(e3, inject, cfg, req.name, req.cert);
            SecretCreationStaysInside(e3, inject, cfg, req.name, req.cert);
            SameOutsideTrans(e.world, e3.world, e4.world, req.name);
            if r4.None? {
              var (e5, r5) := QuotaCreation(e4, inject, req.name, hard);
              QuotaCreationStaysInside(e4, inject, req.name, hard);
              SameOutsideTrans(e.world, e4.world, e5.world, req.name);
            }
          }
        }
      }
    }
  }
}
