/**
 * `create_tenant` and the steps it runs: check the certificate, the name and
 * the quota, then create a namespace, copy the portable secrets into it,
 * create a bucket, the certificate secret and the resource quota. Some steps
 * delete what earlier steps created when they fail.
 */
module Tenants {
  import opened Wrappers
  import opened Cluster
  import opened TenantName
  import Cleanup
  import opened Propagation

  /** `CERT_SECRET_NAME` and `PORTABLE_SECRETS_PATHS`. */
  datatype Config = Config(certSecretName: string, portableSecretsPaths: seq<string>)

  /** `validate_cert` and `validate_quota`, whose code is not part of this model: true when they do not raise. */
  datatype Validators = Validators(certOk: string -> bool, quotaOk: Dict -> bool)

  /** The `parameters` of `create_tenant`. */
  datatype Request = Request(name: string, cert: string, scope: string, quota: Dict)

  /** The step whose exception reaches the caller. */
  datatype Step =
    | NamespaceStep | PropagationStep | BucketStep | TenantSecretStep | QuotaStep
    | BucketCleanup      // `delete_bucket` raised in an `except ApiException` handler
    | NamespaceCleanup   // `delete_namespace` raised in such a handler or in `create_bucket`'s `finally`

  /** What `create_tenant` raises. */
  datatype TenantError =
    | InvalidCert
    | InvalidName(reason: NameError)
    | InvalidQuota
    | Failed(step: Step, fault: Fault)

  const MaxEndpoints := "maxEndpoints"
  const CertKey := "ca.crt"

  /**
   * The quota key `maxEndpoints` becomes the namespace's annotation and
   * leaves the quota: returns (annotations, remaining quota).
   */
  function ExtractMaxEndpoints(quota: Dict): (r: (Dict, Dict))
    ensures MaxEndpoints !in r.1
    ensures r.1.Keys == quota.Keys - {MaxEndpoints} && forall k | k in r.1 :: r.1[k] == quota[k]
    ensures r.0.Keys == quota.Keys * {MaxEndpoints} && forall k | k in r.0 :: r.0[k] == quota[k]
    ensures r.1 + r.0 == quota
  {
    if MaxEndpoints in quota then (map[MaxEndpoints := quota[MaxEndpoints]], quota - {MaxEndpoints})
    else (map[], quota)
  }

  /** The body of the certificate secret: `CERT_SECRET_NAME`, no namespace, the cert under "ca.crt". */
  function TenantSecret(cfg: Config, cert: string): Secret {
    Secret(Meta(cfg.certSecretName, None, None), map[CertKey := cert])
  }

  /** `create_namespace(name, quota)`: returns the new environment, the quota after the pop, and the error. */
  function NamespaceCreation(e: Env, inject: nat -> Option<Fault>, name: string, quota: Dict): (Env, Dict, Option<TenantError>) {
    var (annotations, rest) := ExtractMaxEndpoints(quota);
    var a := Perform(e, inject, Call.CreateNamespace(name, annotations));
    (a.env, rest, if a.fault.Some? then Some(Failed(NamespaceStep, a.fault.value)) else None)
  }

  /** `create_bucket(minio_client, name)`: any exception deletes the namespace in `finally`; an exception there replaces the first. */
  function BucketCreation(e: Env, inject: nat -> Option<Fault>, name: string): (r: (Env, Option<TenantError>))
    ensures e.trace < r.0.trace
    ensures r.1.Some? ==> r.1.value.Failed? && (r.1.value.step == BucketStep || r.1.value.step == NamespaceCleanup)
  {
    var a := Perform(e, inject, Call.CreateBucket(name));
    if a.fault.None? then (a.env, None)
    else
      var (e2, f2) := Cleanup.Retry(a.env, inject, Cleanup.NamespaceDeletion, name, Cleanup.MaxAttempts);
      (e2, Some(if f2.Some? then Failed(NamespaceCleanup, f2.value) else Failed(BucketStep, a.fault.value)))
  }

  /** `delete_bucket(name)` then `delete_namespace(name)`, then raise err; an exception from either deletion escapes instead. */
  function Compensation(e: Env, inject: nat -> Option<Fault>, name: string, err: TenantError): (r: (Env, Option<TenantError>))
    ensures e.trace < r.0.trace && r.1.Some?
  {
    var (e1, f1) := Cleanup.Retry(e, inject, Cleanup.BucketDeletion, name, Cleanup.MaxAttempts);
    if f1.Some? then (e1, Some(Failed(BucketCleanup, f1.value)))
    else
      var (e2, f2) := Cleanup.Retry(e1, inject, Cleanup.NamespaceDeletion, name, Cleanup.MaxAttempts);
      (e2, Some(if f2.Some? then Failed(NamespaceCleanup, f2.value) else err))
  }

  /** `create_secret(name, cert)`: an ApiException is compensated, any other exception is not. */
  function SecretCreation(e: Env, inject: nat -> Option<Fault>, cfg: Config, name: string, cert: string): (r: (Env, Option<TenantError>))
    ensures e.trace < r.0.trace
    ensures r.1.Some? ==> r.1.value.Failed? && (r.1.value.step in {TenantSecretStep, BucketCleanup, NamespaceCleanup})
  {
    var a := Perform(e, inject, Call.CreateSecret(name, TenantSecret(cfg, cert)));
    if a.fault.None? then (a.env, None)
    else if a.fault.value.ApiException? then Compensation(a.env, inject, name, Failed(TenantSecretStep, a.fault.value))
    else (a.env, Some(Failed(TenantSecretStep, a.fault.value)))
  }

  /** `create_resource_quota(name, quota)`: an ApiException is compensated, any other exception escapes as it is. */
  function QuotaCreation(e: Env, inject: nat -> Option<Fault>, name: string, hard: Dict): (r: (Env, Option<TenantError>))
    ensures e.trace < r.0.trace
    ensures r.1.Some? ==> r.1.value.Failed? && (r.1.value.step in {QuotaStep, BucketCleanup, NamespaceCleanup})
  {
    var a := Perform(e, inject, CreateQuota(name, hard));
    if a.fault.None? then (a.env, None)
    else if a.fault.value.ApiException? then Compensation(a.env, inject, name, Failed(QuotaStep, a.fault.value))
    else (a.env, Some(Failed(QuotaStep, a.fault.value)))
  }

  /** The end of a `create_tenant` run: the external state, the caller's quota dict, and the exception raised, if any. */
  datatype Run = Run(env: Env, quota: Dict, error: Option<TenantError>)

  /** The error raised by the three validators, or None when all three pass. */
  function ValidationError(v: Validators, req: Request): (r: Option<TenantError>)
    ensures r.Some? <==> !v.certOk(req.cert) || !NamePattern(req.name) || !(MinLength <= |req.name| <= MaxLength) || !v.quotaOk(req.quota)
    ensures r.Some? ==> r.value.InvalidCert? || r.value.InvalidName? || r.value.InvalidQuota?
    ensures r == Some(InvalidCert) <==> !v.certOk(req.cert)
    ensures v.certOk(req.cert) && ValidateTenantName(req.name).Some? ==> r == Some(InvalidName(ValidateTenantName(req.name).value))
    ensures r == Some(InvalidQuota) <==> v.certOk(req.cert) && ValidateTenantName(req.name).None? && !v.quotaOk(req.quota)
  {
    if !v.certOk(req.cert) then Some(InvalidCert)
    else if ValidateTenantName(req.name).Some? then Some(InvalidName(ValidateTenantName(req.name).value))
    else if !v.quotaOk(req.quota) then Some(InvalidQuota)
    else None
  }


  /** `create_tenant(parameters)`: the three validators, then the five steps. */
  function Provisioning(e: Env, inject: nat -> Option<Fault>, cfg: Config, v: Validators, req: Request): Run {
    var invalid := ValidationError(v, req);
    if invalid.Some? then Run(e, req.quota, invalid) else Steps(e, inject, cfg, req)
  }

  /** The five steps of `create_tenant`, in order; the first that raises ends the run. */
  function Steps(e: Env, inject: nat -> Option<Fault>, cfg: Config, req: Request): Run {
    var (e1, hard, r1) := NamespaceCreation(e, inject, req.name, req.quota);
    if r1.Some? then Run(e1, hard, r1)
    else
      var (e2, f2) := Propagate(e1, inject, cfg.portableSecretsPaths, req.name);
      if f2.Some? then Run(e2, hard, Some(Failed(PropagationStep, f2.value)))
      else
        var (e3, r3) := BucketCreation(e2, inject, req.name);
        if r3.Some? then Run(e3, hard, r3)
        else
          var (e4, r4) := SecretCreation(e3, inject, cfg, req.name, req.cert);
          if r4.Some? then Run(e4, hard, r4)
          else
            var (e5, r5) := QuotaCreation(e4, inject, req.name, hard);
            Run(e5, hard, r5)
  }

  /** A Python dict of strings, mutated in place by `pop`. */
  class StringDict {
    var entries: Dict

    constructor (entries: Dict)
      ensures this.entries == entries
    {
      this.entries := entries;
    }

    /** `d.pop(key)` for a key the caller has checked is present. */
    method Pop(key: string) returns (value: string)
      requires key in entries
      modifies this
      ensures value == old(entries)[key] && entries == old(entries) - {key}
    {
      value := entries[key];
      entries := entries - {key};
    }
  }

  /** `create_namespace(name, quota)`: pops `maxEndpoints` out of the caller's dict before the call. */
  method CreateNamespace(gw: Gateway, name: string, quota: StringDict) returns (error: Option<TenantError>)
    modifies gw, quota
    ensures (gw.State(), quota.entries, error) == NamespaceCreation(old(gw.State()), gw.inject, name, old(quota.entries))
  {
    var annotations: Dict := map[];
    if MaxEndpoints in quota.entries {
      var endpoints := quota.Pop(MaxEndpoints);
      annotations := map[MaxEndpoints := endpoints];
    }
    var fault := gw.CreateNamespace(name, annotations);
    error := if fault.Some? then Some(Failed(NamespaceStep, fault.value)) else None;
  }

  /** `create_bucket(minio_client, name)` */
  method CreateBucket(gw: Gateway, name: string) returns (error: Option<TenantError>)
    modifies gw
    ensures (gw.State(), error) == BucketCreation(old(gw.State()), gw.inject, name)
  {
    var fault := gw.CreateBucket(name);
    error := None;
    if fault.Some? {
      var cleanup := Cleanup.DeleteNamespace(gw, name);
      error := Some(if cleanup.Some? then Failed(NamespaceCleanup, cleanup.value) else Failed(BucketStep, fault.value));
    }
  }

  /** The `except ApiException` blocks of `create_secret` and `create_resource_quota`. */
  method Compensate(gw: Gateway, name: string, err: TenantError) returns (error: Option<TenantError>)
    modifies gw
    ensures (gw.State(), error) == Compensation(old(gw.State()), gw.inject, name, err)
  {
    var fault := Cleanup.DeleteBucket(gw, name);
    if fault.Some? {
      return Some(Failed(BucketCleanup, fault.value));
    }
    fault := Cleanup.DeleteNamespace(gw, name);
    error := Some(if fault.Some? then Failed(NamespaceCleanup, fault.value) else err);
  }

  /** `create_secret(name, cert)` */
  method CreateSecret(gw: Gateway, cfg: Config, name: string, cert: string) returns (error: Option<TenantError>)
    modifies gw
    ensures (gw.State(), error) == SecretCreation(old(gw.State()), gw.inject, cfg, name, cert)
  {
    var fault := gw.CreateNamespacedSecret(name, TenantSecret(cfg, cert));
    error := None;
    if fault.Some? {
      if fault.value.ApiException? {
        error := Compensate(gw, name, Failed(TenantSecretStep, fault.value));
      } else {
        error := Some(Failed(TenantSecretStep, fault.value));
      }
    }
  }

  /** `create_resource_quota(name, quota)`: the quota's current entries are the `hard` limits. */
  method CreateResourceQuota(gw: Gateway, name: string, quota: StringDict) returns (error: Option<TenantError>)
    modifies gw
    ensures (gw.State(), error) == QuotaCreation(old(gw.State()), gw.inject, name, quota.entries)
  {
    var fault := gw.CreateNamespacedResourceQuota(name, quota.entries);
    error := None;
    if fault.Some? {
      if fault.value.ApiException? {
        error := Compensate(gw, name, Failed(QuotaStep, fault.value));
      } else {
        error := Some(Failed(QuotaStep, fault.value));
      }
    }
  }

  /**
   * `create_tenant(parameters)`. The same dict object is handed to
   * `create_namespace`, which pops `maxEndpoints` out of it, and then to
   * `create_resource_quota`.
   */
  method CreateTenant(gw: Gateway, cfg: Config, v: Validators, name: string, cert: string, scope: string, quota: StringDict)
    returns (error: Option<TenantError>)
    modifies gw, quota
    ensures Run(gw.State(), quota.entries, error) ==
      Provisioning(old(gw.State()), gw.inject, cfg, v, Request(name, cert, scope, old(quota.entries)))
  {
    if !v.certOk(cert) {
      return Some(InvalidCert);
    }
    var nameError := ValidateTenantName(name);
    if nameError.Some? {
      return Some(InvalidName(nameError.value));
    }
    if !v.quotaOk(quota.entries) {
      return Some(InvalidQuota);
    }
    error := CreateNamespace(gw, name, quota);
    if error.Some? {
      return;
    }
    var fault := PortableSecretsPropagation(gw, cfg.portableSecretsPaths, name);
    if fault.Some? {
      return Some(Failed(PropagationStep, fault.value));
    }
    error := CreateBucket(gw, name);
    if error.Some? {
      return;
    }
    error := CreateSecret(gw, cfg, name, cert);
    if error.Some? {
      return;
    }
    error := CreateResourceQuota(gw, name, quota);
  }
}
