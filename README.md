# Tenant provisioning, modelled in Dafny

This project models the tenant provisioning core of the management API,
`management/management_api/tenants/tenants_utils.py`. `create_tenant` first
checks the certificate, the tenant name and the quota. It then runs five
steps against two external systems, the Kubernetes API server and the S3
object store:

1. create the tenant namespace, with the quota's `maxEndpoints` entry moved
   into an annotation;
2. copy the portable secrets into the namespace;
3. create the tenant bucket;
4. create the certificate secret;
5. create the resource quota.

A failing step deletes what earlier steps made, as its exception handler
says. The two deletions, `delete_bucket` and `delete_namespace`, are retried
up to five times.

How the model is built:

- The external systems are one `World`. It holds the namespaces with their
  annotations, the buckets with their object keys, the secrets keyed by
  (namespace, name), and the quotas keyed by namespace.
- `Cluster.Gateway` is a class holding that world, a `trace` of every client
  call attempted so far, and a fault oracle `inject`. The oracle decides, by
  call number, whether a call raises a given exception (network errors,
  server errors and so on).
- Without an injected fault, a call follows the API's own rules:
  - creating something that already exists is refused with 409;
  - deleting or reading something that is missing is refused with 404;
  - a secret body carrying a `resourceVersion`, or a namespace other than
    the target, is refused with 400;
  - S3 refuses to remove a bucket that still holds objects;
  - deleting a namespace removes its secrets and its quota with it.
- Each operation of the source is an imperative method on the gateway (or on
  the caller's quota dict, `Tenants.StringDict`). Each is proved equal to a
  pure function over `Env(world, trace)`. The lemmas about those functions
  state what a run does:
  - validation comes before any call;
  - the calls happen in a fixed order;
  - each kind of failure leaves a described world and trace;
  - a successful run has created exactly the namespace, the copies, the
    bucket, the certificate secret and the quota, and nothing else;
  - no run, successful or not, touches a namespace, bucket, quota or secret
    of another tenant.

Modules: `Wrappers` (Option), `Cluster` (the world and the gateway),
`TenantName` (`validate_tenant_name`), `Cleanup` (the two retried
deletions), `Propagation` (the secret copies), `Tenants` (the steps and
`create_tenant`) and `TenantProperties` (the lemmas about a whole run).

The handlers behave in ways a reader might not expect of a rollback, and
the model follows what they do:

- A failed propagation deletes nothing: the namespace stays, with the copies
  made so far.
- An exception raised by a compensation, or by `delete_namespace` in
  `create_bucket`'s `finally`, replaces the original error.
- `delete_namespace` of a missing namespace raises (after five attempts); it
  is not treated as success.

Two more details follow the code:

- An exception other than `ApiException` in `create_secret` or
  `create_resource_quota` is raised with nothing deleted.
- The name pattern is checked with Python's `re.match` and `$`, so a name
  with one trailing newline passes (`TenantName.TrailingNewlineAccepted`).

One place departs from the code on purpose: `delete_bucket` on a 404 is
modelled with its evidently intended verdict (success), not with the
UnboundLocalError the code raises there (see "## Findings").

## Model

| member | source | states |
|---|---|---|
| Cluster.Perform | management/management_api/tenants/tenants_utils.py:73 | every client call is appended to the trace; a call that raises changes nothing in the world (an assumption, see "Left out"); a successful read returns the stored secret |
| Cluster.PerformStaysInside | management/management_api/tenants/tenants_utils.py:73 | a call changes only what belongs to the namespace or bucket it names, and a read changes nothing |
| Cluster.Gateway.CreateNamespace | management/management_api/tenants/tenants_utils.py:73 | `api_instance.create_namespace` moves the gateway to the state and exception given by `Perform` |
| Cluster.Gateway.DeleteNamespace | management/management_api/tenants/tenants_utils.py:171-172 | `delete_namespace` with background propagation, the same way; the namespace's secrets and quota go with it |
| Cluster.Gateway.ReadNamespacedSecret | management/management_api/tenants/tenants_utils.py:185-186 | `read_namespaced_secret` returns the stored secret or the exception |
| Cluster.Gateway.CreateNamespacedSecret | management/management_api/tenants/tenants_utils.py:115-116 | `create_namespaced_secret` as given by `Perform` |
| Cluster.Gateway.CreateNamespacedResourceQuota | management/management_api/tenants/tenants_utils.py:138 | `create_namespaced_resource_quota` as given by `Perform` |
| Cluster.Gateway.CreateBucket | management/management_api/tenants/tenants_utils.py:90 | `minio_client.create_bucket` as given by `Perform` |
| Cluster.Gateway.DeleteObjects | management/management_api/tenants/tenants_utils.py:154 | `bucket.objects.all().delete()` empties the bucket, or raises a 404 ClientError for a missing bucket |
| Cluster.Gateway.DeleteBucket | management/management_api/tenants/tenants_utils.py:155 | `bucket.delete()` removes an empty bucket; a non-empty or missing bucket is refused |
| TenantName.GroupMatchesFromIff | management/management_api/tenants/tenants_utils.py:43 | the optional group `([-a-z0-9]*[a-z0-9])?` followed by `$` matches from position i exactly when the rest is label characters ending in an alphanumeric, optionally followed by one newline |
| TenantName.RegexMatchesIff | management/management_api/tenants/tenants_utils.py:43-44 | `re.match` of the pattern succeeds exactly when the name is a DNS label (starts and ends alphanumeric, only `a-z0-9-`), optionally followed by one final newline |
| TenantName.ValidateTenantName | management/management_api/tenants/tenants_utils.py:42-62 | accepted iff the pattern matches and the length is 3..63; otherwise it reports the first violated rule: pattern, then too short, then too long (each one an iff) |
| TenantName.TrailingNewlineAccepted | management/management_api/tenants/tenants_utils.py:43-44 | "ab\n" is not a DNS label, yet it is accepted |
| TenantName.PatternCheckedFirst | management/management_api/tenants/tenants_utils.py:44-57 | "A_" fails with the pattern error, not the length error; "ab" fails as too short |
| Tenants.ExtractMaxEndpoints | management/management_api/tenants/tenants_utils.py:66-70 | the annotations hold exactly the `maxEndpoints` entry, if present; the remaining quota holds every other entry unchanged; together they are the original quota |
| Tenants.StringDict.constructor | management/management_api/tenants/tenants_utils.py:26 | the dict holds the given entries |
| Tenants.StringDict.Pop | management/management_api/tenants/tenants_utils.py:68 | returns the key's value and removes exactly that key from the caller's dict |
| Tenants.CreateNamespace | management/management_api/tenants/tenants_utils.py:65-84 | pops `maxEndpoints` into the annotations, creates the namespace, and reports its exception; new state, dict and error equal `NamespaceCreation` |
| Tenants.BucketCreation | management/management_api/tenants/tenants_utils.py:87-105 | the trace only grows; an error is always the bucket step's own or the namespace deletion's from the `finally` |
| Tenants.CreateBucket | management/management_api/tenants/tenants_utils.py:87-105 | new state and error equal `BucketCreation` |
| Tenants.Compensation | management/management_api/tenants/tenants_utils.py:117-122 | the handler always raises, and its calls come after the failed call |
| Tenants.Compensate | management/management_api/tenants/tenants_utils.py:118-119 | `delete_bucket` then `delete_namespace`; new state and error equal `Compensation` |
| Tenants.SecretCreation | management/management_api/tenants/tenants_utils.py:108-129 | an error is always the secret step's own or a deletion's from its compensation |
| Tenants.CreateSecret | management/management_api/tenants/tenants_utils.py:108-129 | new state and error equal `SecretCreation` |
| Tenants.QuotaCreation | management/management_api/tenants/tenants_utils.py:132-147 | an error is always the quota step's own or a deletion's from its compensation |
| Tenants.CreateResourceQuota | management/management_api/tenants/tenants_utils.py:132-147 | the dict left after the pop is the `hard` limits; new state and error equal `QuotaCreation` |
| Tenants.CreateTenant | management/management_api/tenants/tenants_utils.py:22-39 | final gateway state, the caller's quota dict and the error equal `Provisioning` of the initial state, whose properties are the `TenantProperties` lemmas |
| Cleanup.BucketVerdictAsWritten | management/management_api/tenants/tenants_utils.py:156-164 | as written, a 404 ClientError ends the attempt with UnboundLocalError; every other exception is raised unchanged |
| Cleanup.BucketVerdict | management/management_api/tenants/tenants_utils.py:156-162 | intended verdict: the attempt succeeds exactly on a 404 ClientError; otherwise it fails with that exception |
| Cleanup.NotFoundVerdicts | management/management_api/tenants/tenants_utils.py:160-164 | on 404 the as-written verdict is UnboundLocalError while the intended verdict is success |
| Cleanup.MissingBucketVerdicts | management/management_api/tenants/tenants_utils.py:151-164 | deleting a missing bucket: as written the attempt raises UnboundLocalError; with the intended verdict it succeeds and changes nothing |
| Cleanup.Retry | management/management_api/tenants/tenants_utils.py:150 | each retried run makes at least one call |
| Cleanup.AttemptCallsOnly | management/management_api/tenants/tenants_utils.py:153-155 | the calls of attempts are only empty-then-remove of this bucket, or delete of this namespace |
| Cleanup.AttemptSegment | management/management_api/tenants/tenants_utils.py:151-155 | one attempt adds exactly the calls of one attempt to the trace |
| Cleanup.RetryAttempts | management/management_api/tenants/tenants_utils.py:150 | `stop_max_attempt_number=5`: between one and five attempts are made, and fewer than all only when an attempt succeeded |
| Cleanup.BucketGoneOnSuccess | management/management_api/tenants/tenants_utils.py:150-164 | when `delete_bucket` returns and no 404 is spurious, the bucket no longer exists |
| Cleanup.NamespaceGoneOnSuccess | management/management_api/tenants/tenants_utils.py:167-179 | when `delete_namespace` returns, the namespace, its quota and all its secrets are gone |
| Cleanup.RetryFrame | management/management_api/tenants/tenants_utils.py:150-179 | `delete_bucket` changes only the buckets; `delete_namespace` changes everything except the buckets; either keeps every other namespace, bucket and quota, and every secret outside that namespace; neither creates anything |
| Cleanup.DeleteBucketOnce | management/management_api/tenants/tenants_utils.py:151-164 | the undecorated body with the corrected 404 verdict: new state and exception equal one `BucketAttempt` |
| Cleanup.DeleteNamespaceOnce | management/management_api/tenants/tenants_utils.py:168-179 | the undecorated body: new state and exception equal one `NamespaceAttempt` |
| Cleanup.Retrying | management/management_api/tenants/tenants_utils.py:150 | the decorator's loop: new state and exception equal `Retry` with five attempts |
| Cleanup.DeleteBucket | management/management_api/tenants/tenants_utils.py:150-164 | decorated `delete_bucket` with the corrected 404 verdict: new state and exception equal `Retry` of the bucket job |
| Cleanup.DeleteNamespace | management/management_api/tenants/tenants_utils.py:167-179 | decorated `delete_namespace`: new state and exception equal `Retry` of the namespace job |
| Propagation.Split | management/management_api/tenants/tenants_utils.py:183 | `str.split` never returns an empty list |
| Propagation.SplitJoin | management/management_api/tenants/tenants_utils.py:183 | joining the pieces gives the path back; no piece holds `/`; there is one more piece than separators |
| Propagation.SplitPath | management/management_api/tenants/tenants_utils.py:183 | the unpacking succeeds iff the path holds exactly one `/`, and then path == namespace + "/" + name |
| Propagation.CopyFor | management/management_api/tenants/tenants_utils.py:193-194 | the copy keeps the name and data; its namespace is the target and its resourceVersion is cleared |
| Propagation.CopyIsAcceptable | management/management_api/tenants/tenants_utils.py:193-198 | the create of the copy is refused exactly when the target is missing or the name is taken there; otherwise the stored secret carries the source's name and data |
| Propagation.Propagate | management/management_api/tenants/tenants_utils.py:206-208 | the trace only grows; an empty path list does nothing |
| Propagation.OneCalls | management/management_api/tenants/tenants_utils.py:182-203 | one path makes a read of its source and, only after a successful read, a create of that secret's copy in the target; a read that raises ends the path with that exception, the read as the only call and the world unchanged; a path without exactly one '/' raises ValueError with no call |
| Propagation.OneOnlyAdds | management/management_api/tenants/tenants_utils.py:182-203 | one path at most adds a secret in the target namespace, under the name the path gives; everything else is unchanged |
| Propagation.PropagateOnlyAdds | management/management_api/tenants/tenants_utils.py:206-208 | whatever fails, the whole loop keeps every existing secret and adds secrets only in the target, only under the names of the portable paths |
| Propagation.OnlyAddsStaysInside | management/management_api/tenants/tenants_utils.py:206-208 | adding secrets in the target namespace touches nothing outside it |
| Propagation.PropagateCalls | management/management_api/tenants/tenants_utils.py:206-208 | the calls are one read and one create per path, in path order; on success exactly two calls per path |
| Propagation.PropagateStopsAt | management/management_api/tenants/tenants_utils.py:206-208 | a failed loop stopped at the first path that failed: the paths before it all went through, and the result is that path's failing `propagate_secret`, with nothing after it |
| Propagation.OneCopyHeld | management/management_api/tenants/tenants_utils.py:182-203 | a path that goes through names a secret outside the target, and the target then holds a secret of that name with the same data |
| Propagation.PropagateCopiesAll | management/management_api/tenants/tenants_utils.py:206-208 | on success every path names a secret outside the target that existed before, and the target holds a secret of that name with the same data |
| Propagation.FollowsPathsCons | management/management_api/tenants/tenants_utils.py:207-208 | the calls of one copied path, followed by the calls for the remaining paths, follow all the paths |
| Propagation.PropagateSecret | management/management_api/tenants/tenants_utils.py:182-203 | new state and exception equal `PropagateOne`; a path without exactly one `/` raises before any call |
| Propagation.PortableSecretsPropagation | management/management_api/tenants/tenants_utils.py:206-211 | the loop's new state and exception equal `Propagate` over the configured paths |
| Tenants.ValidationError | management/management_api/tenants/tenants_utils.py:31-33 | fails iff the cert, the name or the quota is rejected; the cert error wins, then the name's, then the quota's; a name error carries the first rule `validate_tenant_name` finds broken |
| TenantProperties.ValidationBeforeAnyCall | management/management_api/tenants/tenants_utils.py:31-34 | a validation error leaves world, trace and quota untouched; otherwise the first call is the namespace creation, and every error is a step failure |
| TenantProperties.BucketCreationEffect | management/management_api/tenants/tenants_utils.py:87-105 | on success exactly one new empty bucket and nothing else; on a bucket failure the namespace, its quota and its secrets are gone |
| TenantProperties.CompensationEffect | management/management_api/tenants/tenants_utils.py:117-122 | `delete_namespace` runs only if `delete_bucket` did not raise; when neither raised, the original error is raised and the namespace, quota, secrets and (with genuine 404s) the bucket are gone |
| TenantProperties.StoredTenantSecret | management/management_api/tenants/tenants_utils.py:109-110 | the stored certificate secret is named `CERT_SECRET_NAME`, lives in the tenant namespace and holds the cert under "ca.crt" |
| TenantProperties.SecretCreationEffect | management/management_api/tenants/tenants_utils.py:108-129 | on success only the certificate secret is added; an ApiException is compensated; any other exception changes nothing |
| TenantProperties.QuotaCreationEffect | management/management_api/tenants/tenants_utils.py:132-147 | on success only the quota is added; an ApiException is compensated; any other exception changes nothing |
| TenantProperties.NamespaceFailure | management/management_api/tenants/tenants_utils.py:34 | a failed namespace creation (a 409 conflict included) makes one call, changes nothing and deletes nothing |
| TenantProperties.PropagationFailure | management/management_api/tenants/tenants_utils.py:35 | a failed propagation leaves the namespace in place, with only copies of portable secrets added, and makes no further call; the run ended at the first path that failed, after the earlier paths went through |
| TenantProperties.ThroughPropagation | management/management_api/tenants/tenants_utils.py:34-35 | after successful propagation: two calls per path, the namespace is new, and every portable secret has a copy in it with the source's data |
| TenantProperties.BucketFailure | management/management_api/tenants/tenants_utils.py:36 | a failed bucket creation is followed only by the retried namespace deletion; buckets are unchanged and the namespace is gone |
| TenantProperties.TenantSecretFailure | management/management_api/tenants/tenants_utils.py:37 | on ApiException the bucket and namespace deletions follow, with the namespace gone; on any other exception no call follows and namespace and bucket stay |
| TenantProperties.QuotaFailure | management/management_api/tenants/tenants_utils.py:38 | the same for the quota step; on a non-ApiException the namespace, bucket and certificate secret stay |
| TenantProperties.ProvisioningSucceeds | management/management_api/tenants/tenants_utils.py:22-39 | a run without error makes exactly the calls of the five steps in order; it adds exactly the new namespace (with the `maxEndpoints` annotation), an empty bucket and the quota without `maxEndpoints`; the only secrets added are in the tenant namespace, named as the certificate secret or a portable secret; the certificate secret is stored and every portable secret has a copy with the source's data |
| TenantProperties.SecretCleanupRaised | management/management_api/tenants/tenants_utils.py:114-119 | a `create_secret` that ends in a deletion's exception was refused with an ApiException; the bucket deletion, then (only if it returned) the namespace deletion, are its last calls |
| TenantProperties.QuotaCleanupRaised | management/management_api/tenants/tenants_utils.py:137-142 | the same for `create_resource_quota` |
| TenantProperties.CleanupFailure | management/management_api/tenants/tenants_utils.py:22-39 | a run that ends because a deletion raised made the namespace creation, the propagation calls and the steps up to the bucket, the certificate secret or the quota, then only that step's retried deletions; from the bucket step only the namespace deletion, from the later steps the bucket deletion and, unless it raised, the namespace deletion |
| TenantProperties.BucketCreationStaysInside | management/management_api/tenants/tenants_utils.py:87-105 | `create_bucket`, with its `finally` deletion, touches nothing of another tenant |
| TenantProperties.CompensationStaysInside | management/management_api/tenants/tenants_utils.py:117-122 | a compensation deletes only the tenant's own bucket and namespace, keeping everything else |
| TenantProperties.SecretCreationStaysInside | management/management_api/tenants/tenants_utils.py:108-129 | `create_secret`, compensated or not, touches nothing of another tenant |
| TenantProperties.QuotaCreationStaysInside | management/management_api/tenants/tenants_utils.py:132-147 | `create_resource_quota`, compensated or not, touches nothing of another tenant |
| TenantProperties.RunStaysInside | management/management_api/tenants/tenants_utils.py:22-39 | every run, successful or failed: every namespace, bucket and quota of another name, and every secret outside the tenant namespace, is kept as it was; none appears or disappears |
| TenantProperties.QuotaDone | management/management_api/tenants/tenants_utils.py:38 | a successful quota step adds exactly the tenant's quota |

## Left out

- Logging (`logger.*`) and the text of the exception messages are not
  modelled. `falcon.HTTPBadRequest` wrapping is not distinguished from the
  exception it wraps: an error records the step and the underlying fault.
- The 2000 ms `wait_fixed` between retries is not modelled: time is not part
  of the model.
- `validate_cert` and `validate_quota` are not part of this model. They are
  parameters (`Validators`), true when the check does not raise.
- The `V1Secret` fields `api_version`, `kind` and `type`, and other Kubernetes
  object fields, are not modelled. Secrets keep their name, namespace,
  resourceVersion and data.
- `int()` of a non-numeric S3 error code (a ValueError) is not modelled: S3
  codes are numbers here.
- Namespace deletion is taken to remove the namespace and its children at
  once; the Terminating phase of a background delete is not modelled.
- `scope` is read from the parameters and never used, as in the source: the
  log template has one placeholder, so only the name is logged.
- Concurrent `create_tenant` runs are not modelled; each run is sequential.
- The return values of the client calls (`response`) are not modelled,
  except for the secret read.
- Cleanup.DeleteBucketOnce, Cleanup.DeleteBucket: model the corrected 404
  verdict, not the code as written (see "## Findings"). So every `delete_bucket`
  of the saga (`Tenants.Compensation` and the lemmas about it, among them
  `TenantProperties.TenantSecretFailure` and `TenantProperties.QuotaFailure`)
  ends an attempt successfully on a 404, where the code raises
  UnboundLocalError and tries again. With an injected 404 on the first call,
  the code's second attempt would delete the bucket; the model stops with
  the bucket in place. The as-written verdict is `Cleanup.BucketVerdictAsWritten`.
- Cleanup.BucketGoneOnSuccess: needs `NotFoundIsGenuine`, i.e. no injected
  404 for a bucket that still exists. With such a fault the intended verdict
  reports success while the bucket stays.
- A client call that raises is taken to have had no effect on the cluster or
  the object store (`Cluster.Perform`). The source does not promise this: a
  call that times out after the server acted (a namespace created, say)
  would leave that resource behind, which the model does not capture.
- Tenants.BucketCreation, Tenants.SecretCreation, Tenants.QuotaCreation: their
  own contracts only name the possible error tags. What each step does is
  stated by the `TenantProperties` effect lemmas.

## Findings

| source | as written | input that shows it | evidently intended | confidence | as-written member | corrected member |
|---|---|---|---|---|---|---|
| management/management_api/tenants/tenants_utils.py:156-164 | a ClientError with code 404 is caught and not re-raised; control reaches `return response`, but `response` was never bound, so UnboundLocalError is raised and the decorator tries it five times in all | `delete_bucket(name)` for a bucket that does not exist (for example, when `create_bucket` never ran) | a missing bucket counts as deleted: the 404 case returns normally | not executed | Cleanup.BucketVerdictAsWritten (shown by Cleanup.MissingBucketVerdicts) | Cleanup.BucketVerdict |
