/**
 * The two external systems the provisioning code talks to: the Kubernetes
 * control plane (`api_instance`) and the object store (`minio_client`,
 * `minio_resource`). Only the state the provisioning code touches is kept,
 * together with the list of calls made so far. Whether a call fails is
 * decided by the gateway's own rules (a name already taken, an object that
 * does not exist, a malformed body) or by an injected fault that stands for
 * every failure the model does not explain (network errors, server errors).
 */
module Cluster {
  import opened Wrappers

  type Dict = map<string, string>

  /** The exceptions a step can raise. */
  datatype Fault =
    | ApiException(status: int)   // kubernetes.client.rest.ApiException
    | ClientError(code: int)      // botocore ClientError, with its error code as an integer
    | OtherException              // any other exception raised by a client
    | MalformedPath               // ValueError from unpacking `path.split('/')`
    | UnboundResponse             // UnboundLocalError from `return response`

  /** The metadata fields the code reads or writes. */
  datatype Meta = Meta(name: string, namespace: Option<string>, resourceVersion: Option<nat>)

  datatype Secret = Secret(meta: Meta, data: Dict)

  datatype World = World(
    namespaces: map<string, Dict>,           // namespace name -> annotations
    buckets: map<string, set<string>>,       // bucket name -> object keys
    secrets: map<(string, string), Secret>,  // (namespace, secret name) -> secret
    quotas: map<string, Dict>)               // namespace -> resource quota `hard` limits

  /** One call into an external system, as it appears in the trace. */
  datatype Call =
    | CreateNamespace(name: string, annotations: Dict)      // api_instance.create_namespace
    | DeleteNamespace(name: string)                         // api_instance.delete_namespace, propagation 'Background'
    | ReadSecret(namespace: string, name: string)           // api_instance.read_namespaced_secret
    | CreateSecret(namespace: string, body: Secret)         // api_instance.create_namespaced_secret
    | CreateQuota(namespace: string, hard: Dict)            // api_instance.create_namespaced_resource_quota
    | CreateBucket(bucket: string)                          // minio_client.create_bucket
    | EmptyBucket(bucket: string)                           // bucket.objects.all().delete()
    | RemoveBucket(bucket: string)                          // bucket.delete()

  /** The external state and the calls made so far. */
  datatype Env = Env(world: World, trace: seq<Call>)

  /** What a call does when nothing is injected: its new world and what it returns, or the error it raises. */
  datatype Effect = Done(world: World, got: Option<Secret>) | Refused(fault: Fault)

  /** The result of one call: the new environment, the exception raised if any, and the secret read if any. */
  datatype Answer = Answer(env: Env, fault: Option<Fault>, got: Option<Secret>)

  /** The secrets that do not live in namespace ns. */
  function SecretsOutside(secrets: map<(string, string), Secret>, ns: string): (r: map<(string, string), Secret>)
    ensures forall k :: k in r <==> k in secrets && k.0 != ns
    ensures forall k | k in r :: r[k] == secrets[k]
  {
    map k | k in secrets && k.0 != ns :: secrets[k]
  }

  /**
   * The gateway's own rules. Names are unique (409), missing objects give 404,
   * a secret body may not carry a resourceVersion nor name another namespace
   * (400), a bucket must be empty to be removed. Deleting a namespace removes
   * the secrets and the quota that live in it (the cascade of the
   * 'Background' propagation policy, taken as immediate). A created secret is
   * stored in its namespace and stamped with a fresh resourceVersion.
   */
  function Apply(w: World, stamp: nat, call: Call): Effect {
    match call
    case CreateNamespace(n, ann) =>
      if n in w.namespaces then Refused(ApiException(409))
      else Done(w.(namespaces := w.namespaces[n := ann]), None)
    case DeleteNamespace(n) =>
      if n !in w.namespaces then Refused(ApiException(404))
      else Done(World(w.namespaces - {n}, w.buckets, SecretsOutside(w.secrets, n), w.quotas - {n}), None)
    case ReadSecret(ns, n) =>
      if (ns, n) in w.secrets then Done(w, Some(w.secrets[(ns, n)]))
      else Refused(ApiException(404))
    case CreateSecret(ns, body) =>
      if body.meta.resourceVersion.Some? || (body.meta.namespace.Some? && body.meta.namespace.value != ns) then
        Refused(ApiException(400))
      else if ns !in w.namespaces then Refused(ApiException(404))
      else if (ns, body.meta.name) in w.secrets then Refused(ApiException(409))
      else
        var stored := body.(meta := body.meta.(namespace := Some(ns), resourceVersion := Some(stamp)));
        Done(w.(secrets := w.secrets[(ns, body.meta.name) := stored]), None)
    case CreateQuota(ns, hard) =>
      if ns !in w.namespaces then Refused(ApiException(404))
      else if ns in w.quotas then Refused(ApiException(409))
      else Done(w.(quotas := w.quotas[ns := hard]), None)
    case CreateBucket(b) =>
      if b in w.buckets then Refused(ClientError(409))
      else Done(w.(buckets := w.buckets[b := {}]), None)
    case EmptyBucket(b) =>
      if b !in w.buckets then Refused(ClientError(404))
      else Done(w.(buckets := w.buckets[b := {}]), None)
    case RemoveBucket(b) =>
      if b !in w.buckets then Refused(ClientError(404))
      else if w.buckets[b] != {} then Refused(ClientError(409))
      else Done(w.(buckets := w.buckets - {b}), None)
  }

  /**
   * One call made from environment e. The call is appended to the trace; the
   * k-th call of the run (k = the trace's length before it) raises inject(k)
   * when that is set, and otherwise follows Apply.
   */
  function Perform(e: Env, inject: nat -> Option<Fault>, call: Call): (a: Answer)
    ensures a.env.trace == e.trace + [call]
    ensures a.fault.Some? ==> a.env.world == e.world
    ensures a.got.Some? ==> call.ReadSecret? && a.fault.None? && a.env.world == e.world
    ensures call.ReadSecret? && a.fault.None? ==>
      a.got.Some? && (call.namespace, call.name) in e.world.secrets && a.got.value == e.world.secrets[(call.namespace, call.name)]
  {
    var t := e.trace + [call];
    if inject(|e.trace|).Some? then Answer(Env(e.world, t), inject(|e.trace|), None)
    else match Apply(e.world, |e.trace|, call)
      case Done(w, got) => Answer(Env(w, t), None, got)
      case Refused(f) => Answer(Env(e.world, t), Some(f), None)
  }

  /** Every stored secret carries the name and the namespace it is stored under, as the API server keeps them. */
  predicate WellFormed(w: World) {
    forall k | k in w.secrets :: w.secrets[k].meta.name == k.1 && w.secrets[k].meta.namespace == Some(k.0)
  }

  /** Outside the key name, m' is m: no other key appears, disappears or changes its value. */
  ghost predicate KeptOutside<V>(m: map<string, V>, m': map<string, V>, name: string) {
    forall n | n != name :: (n in m <==> n in m') && (n in m ==> m'[n] == m[n])
  }

  /** Outside namespace ns, the secrets of s' are those of s. */
  ghost predicate SecretsKeptOutside(s: map<(string, string), Secret>, s': map<(string, string), Secret>, ns: string) {
    forall k: (string, string) | k.0 != ns :: (k in s <==> k in s') && (k in s ==> s'[k] == s[k])
  }

  /** Going from w to w' touched nothing that belongs to another namespace or bucket than name. */
  ghost predicate SameOutside(w: World, w': World, name: string) {
    KeptOutside(w.namespaces, w'.namespaces, name) && KeptOutside(w.buckets, w'.buckets, name) &&
    SecretsKeptOutside(w.secrets, w'.secrets, name) && KeptOutside(w.quotas, w'.quotas, name)
  }

  /** The namespace or the bucket a call is about. */
  function Subject(call: Call): string {
    match call
    case CreateNamespace(n, _) => n
    case DeleteNamespace(n) => n
    case ReadSecret(ns, _) => ns
    case CreateSecret(ns, _) => ns
    case CreateQuota(ns, _) => ns
    case CreateBucket(b) => b
    case EmptyBucket(b) => b
    case RemoveBucket(b) => b
  }

  /** A call changes only what belongs to its subject, and a read changes nothing. */
  lemma PerformStaysInside(e: Env, inject: nat -> Option<Fault>, call: Call)
    ensures SameOutside(e.world, Perform(e, inject, call).env.world, Subject(call))
    ensures call.ReadSecret? ==> Perform(e, inject, call).env.world == e.world
  {
  }

  /** Staying inside name composes. */
  lemma SameOutsideTrans(w1: World, w2: World, w3: World, name: string)
    requires SameOutside(w1, w2, name) && SameOutside(w2, w3, name)
    ensures SameOutside(w1, w3, name)
  {
  }

  /** The calls made after a, up to c, are those up to b followed by those after b. */
  lemma TraceSplits(a: seq<Call>, b: seq<Call>, c: seq<Call>)
    requires a <= b <= c
    ensures c[|a|..] == b[|a|..] + c[|b|..]
  {
  }

  /** Every call keeps the stored secrets well formed. */
  lemma PerformKeepsWellFormed(e: Env, inject: nat -> Option<Fault>, call: Call)
    requires WellFormed(e.world)
    ensures WellFormed(Perform(e, inject, call).env.world)
  {
  }

  /** A call that succeeds makes the change Apply describes, and only that. */
  lemma PerformSucceeds(e: Env, inject: nat -> Option<Fault>, call: Call)
    requires Perform(e, inject, call).fault.None?
    ensures inject(|e.trace|).None? && Apply(e.world, |e.trace|, call).Done?
    ensures Perform(e, inject, call).env.world == Apply(e.world, |e.trace|, call).world
  {
  }

  /** The two object-storage clients and the Kubernetes client, seen as one stateful gateway. */
  class Gateway {
    var world: World
    var trace: seq<Call>
    const inject: nat -> Option<Fault>

    function State(): Env
      reads this
    {
      Env(world, trace)
    }

    constructor (w: World, inject: nat -> Option<Fault>)
      ensures world == w && trace == [] && this.inject == inject
    {
      world := w;
      trace := [];
      this.inject := inject;
    }

    /** `api_instance.create_namespace` */
    method CreateNamespace(name: string, annotations: Dict) returns (fault: Option<Fault>)
      modifies this
      ensures var a := Perform(old(State()), inject, Call.CreateNamespace(name, annotations));
        State() == a.env && fault == a.fault
    {
      var a := Perform(State(), inject, Call.CreateNamespace(name, annotations));
      world, trace := a.env.world, a.env.trace;
      fault := a.fault;
    }

    /** `api_instance.delete_namespace(name, body, propagation_policy='Background')` */
    method DeleteNamespace(name: string) returns (fault: Option<Fault>)
      modifies this
      ensures var a := Perform(old(State()), inject, Call.DeleteNamespace(name));
        State() == a.env && fault == a.fault
    {
      var a := Perform(State(), inject, Call.DeleteNamespace(name));
      world, trace := a.env.world, a.env.trace;
      fault := a.fault;
    }

    /** `api_instance.read_namespaced_secret(name, namespace)` */
    method ReadNamespacedSecret(namespace: string, name: string) returns (fault: Option<Fault>, got: Option<Secret>)
      modifies this
      ensures var a := Perform(old(State()), inject, ReadSecret(namespace, name));
        State() == a.env && fault == a.fault && got == a.got
    {
      var a := Perform(State(), inject, ReadSecret(namespace, name));
      world, trace := a.env.world, a.env.trace;
      fault, got := a.fault, a.got;
    }

    /** `api_instance.create_namespaced_secret(namespace=namespace, body=body)` */
    method CreateNamespacedSecret(namespace: string, body: Secret) returns (fault: Option<Fault>)
      modifies this
      ensures var a := Perform(old(State()), inject, CreateSecret(namespace, body));
        State() == a.env && fault == a.fault
    {
      var a := Perform(State(), inject, CreateSecret(namespace, body));
      world, trace := a.env.world, a.env.trace;
      fault := a.fault;
    }

    /** `api_instance.create_namespaced_resource_quota`, with a body whose `spec.hard` is hard */
    method CreateNamespacedResourceQuota(namespace: string, hard: Dict) returns (fault: Option<Fault>)
      modifies this
      ensures var a := Perform(old(State()), inject, CreateQuota(namespace, hard));
        State() == a.env && fault == a.fault
    {
      var a := Perform(State(), inject, CreateQuota(namespace, hard));
      world, trace := a.env.world, a.env.trace;
      fault := a.fault;
    }

    /** `minio_client.create_bucket(Bucket=bucket)` */
    method CreateBucket(bucket: string) returns (fault: Option<Fault>)
      modifies this
      ensures var a := Perform(old(State()), inject, Call.CreateBucket(bucket));
        State() == a.env && fault == a.fault
    {
      var a := Perform(State(), inject, Call.CreateBucket(bucket));
      world, trace := a.env.world, a.env.trace;
      fault := a.fault;
    }

    /** `minio_resource.Bucket(bucket).objects.all().delete()` */
    method DeleteObjects(bucket: string) returns (fault: Option<Fault>)
      modifies this
      ensures var a := Perform(old(State()), inject, EmptyBucket(bucket));
        State() == a.env && fault == a.fault
    {
      var a := Perform(State(), inject, EmptyBucket(bucket));
      world, trace := a.env.world, a.env.trace;
      fault := a.fault;
    }

    /** `minio_resource.Bucket(bucket).delete()` */
    method DeleteBucket(bucket: string) returns (fault: Option<Fault>)
      modifies this
      ensures var a := Perform(old(State()), inject, RemoveBucket(bucket));
        State() == a.env && fault == a.fault
    {
      var a := Perform(State(), inject, RemoveBucket(bucket));
      world, trace := a.env.world, a.env.trace;
      fault := a.fault;
    }
  }
}
