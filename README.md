# A verified model of the TTL resource cache and the cache-aside pod listing of k8s-enterprise-client

This project models the two stateful pieces of the Kubernetes client library.

1. **The TTL resource cache** (`internal/cache/cache.go`). This is a map from string
   key to an entry holding a value and an absolute expiration time. It is modelled by
   the class `Cache.ResourceCache`.
   - `Set` uses the caller's TTL when it is positive and the cache's default TTL otherwise.
     It overwrites the entry at its key.
   - `Get` hides an entry that is absent or strictly past its expiration. An entry is
     still visible at the instant it expires.
   - `CleanupExpired` deletes those same expired entries from the map in place.

   The pure functions `Lookup` (what `Get` observes) and `Sweep` (the map the cleanup
   leaves) specify the methods. The lemmas beside them prove these properties:
   - a `Set` followed by a `Get` sees the stored value when the effective TTL is not negative;
   - each entry stays visible until its expiration and is hidden after it;
   - a sweep never changes what `Get` returns at the same instant;
   - a sweep is idempotent.

2. **The client facade** (`pkg/k8sclient/client.go`). Three parts are modelled:
   - `ListPodsEnhanced`, the cache-aside read path. It builds the key
     `pods-<namespace>-<selector>`. A live cache entry returns at once. On a miss it lists
     pods and returns any listing error without caching. When asked, it enriches the pods
     with metrics; a metrics error is ignored. It then caches the list with the default TTL.
   - The enrichment loop (module `Enrichment`). It writes `metrics/cpu` and
     `metrics/memory` annotations into every pod whose name and namespace match a metrics
     record. The last matching record wins. Lemmas prove this against an independent
     definition, `LastMatch`.
   - The leadership flag. The elector's `OnStartedLeading` and `OnStoppedLeading`
     callbacks set it and `IsLeader` reads it. The setup guard rejects an empty lock name.

Time is an integer number of nanoseconds, the unit of Go's `time.Duration`. The clock
`time.Now()` becomes a parameter `now`. The cluster API is a `K8sClient.Backend` object.
Its pod-list and pod-metrics answers are fixed when it is created. It records every call
made to it, so the model can state which backend calls a listing makes. The external
elector constructor's possible error is a parameter of `SetupLeaderElection`.

Three boundary behaviours of the source are kept as written:
- `Get` hides an entry only when `now > expiration` (Go's `now.After`), so an entry is
  still returned at the instant it expires.
- The sweep deletes an entry under the same test, so it never removes an entry `Get`
  would still return.
- `Stop` is a bare channel close, so a second call panics. The model gives `Stop` the
  precondition `!stopped`.

The cache key `pods-<namespace>-<selector>` is ambiguous. `CacheKeyAmbiguous` shows that
the namespace `a-b` with selector `c` and the namespace `a` with selector `b-c` map to the
same key. `AmbiguousKeyServesWrongNamespace` shows the consequence: the second listing is
served the first namespace's pods without a backend call. `CacheKeyInjective` shows the
key is unambiguous when namespaces contain no dash. The corrected key
`UnambiguousCacheKey` prefixes the namespace with its decimal length and a colon. It is
proved injective for all strings, and `ListPodsEnhancedUnambiguous` is the listing that
uses it (see "## Findings").

## Model

| member | source | states |
|---|---|---|
| `Cache.ResourceCache.constructor` | internal/cache/cache.go:21-30 | given a positive cleanup interval (the ticker panics on any other), a new cache has an empty map, the given default TTL and cleanup interval, and is not stopped |
| `Cache.ResourceCache.Set` | internal/cache/cache.go:33-44 | the map afterwards is the old map with `key` overwritten by the value and `now + effective TTL`; every other key keeps its entry |
| `Cache.SetExpiration` | internal/cache/cache.go:34-43 | a TTL `<= 0` stores expiration `now + defaultTTL`; a positive TTL stores `now + ttl` |
| `Cache.Lookup` | internal/cache/cache.go:51-55 | the specification of `Get`: the value under `key` when present and `now <= expiration`, otherwise `None` |
| `Cache.ResourceCache.Get` | internal/cache/cache.go:47-56 | returns the value exactly when the key is present and `now <= expiration`, otherwise `None`; the map is not modified |
| `Cache.SetThenGet` | internal/cache/cache.go:33-56 | `Set` then `Get` at the same instant returns the stored value when the effective TTL is `>= 0`, and nothing when it is negative |
| `Cache.VisibleUntilExpiration` | internal/cache/cache.go:42-55 | after a `Set` at `t0` the key is visible at every `now` up to `t0` plus the effective TTL and hidden at every later `now`, without any sweep |
| `Cache.SetLeavesOtherKeys` | internal/cache/cache.go:40-43 | a `Set` does not change what `Get` returns for any other key |
| `Cache.Sweep` | internal/cache/cache.go:79-83 | the specification of the sweep: every entry with `now <= expiration`, unchanged, and no other |
| `Cache.ResourceCache.CleanupExpired` | internal/cache/cache.go:74-84 | deleting expired keys one at a time, in any order, leaves exactly `Sweep(old map, now)` |
| `Cache.SweepKeepsLive` | internal/cache/cache.go:79-83 | after a sweep a key is stored iff it was stored with `expiration >= now`; its entry is unchanged; the map does not grow |
| `Cache.SweepIdempotent` | internal/cache/cache.go:74-84 | a second sweep at the same instant changes nothing |
| `Cache.SweepLater` | internal/cache/cache.go:79-83 | a sweep at `t1` followed by one at a later `t2` equals the sweep at `t2` alone |
| `Cache.SweepPreservesLookup` | internal/cache/cache.go:51-84 | for every key, `Get` at `now` returns the same result before and after a sweep at `now` |
| `Cache.SweepTwoEntries` | internal/cache/cache.go:79-83 | of entries expiring 1 s and 10 s after `t0`, a sweep at `t0 + 2 s` physically keeps only the second, still retrievable |
| `Cache.ResourceCache.Stop` | internal/cache/cache.go:87-89 | may be called once (a second close panics) and marks the cache stopped |
| `Enrichment.EnrichPod` | pkg/k8sclient/client.go:170-175 | running the metrics loop over one pod keeps its name, namespace and labels, and keeps its annotation map present |
| `Enrichment.Enrich` | pkg/k8sclient/client.go:169-176 | enrichment keeps the pod count and each position's name and namespace |
| `Enrichment.LastMatch` | pkg/k8sclient/client.go:170-175 | the reference definition: the index of a matching metric with no matching metric after it, or `None` when no metric matches |
| `Enrichment.AnnotateTwice` | pkg/k8sclient/client.go:172-173 | a later match overwrites both annotations an earlier match wrote |
| `Enrichment.EnrichPodLastMatch` | pkg/k8sclient/client.go:169-176 | an unmatched pod is unchanged; a matched pod differs only in `metrics/cpu` and `metrics/memory`, set from the first container of the last matching metric |
| `Enrichment.EnrichLastMatch` | pkg/k8sclient/client.go:169-176 | the same for every pod of the list: count and order kept, unmatched pods untouched, matched pods carry the last match's usage |
| `Enrichment.EnrichNoMatch` | pkg/k8sclient/client.go:169-176 | when no metric matches any pod, enrichment returns the list unchanged |
| `Enrichment.EnrichInPlace` | pkg/k8sclient/client.go:169-176 | the nested loop writing annotations into the array leaves exactly `Enrich(old array, metrics)` |
| `K8sClient.CacheKey` | pkg/k8sclient/client.go:148 | the key `"pods-" + namespace + "-" + selector`: it starts with `pods-` and is one dash longer than its two parts together (its full layout is `CacheKeyShape`) |
| `K8sClient.CacheKeyShape` | pkg/k8sclient/client.go:148 | the key is `pods-`, then the namespace, then a dash, then the selector string |
| `K8sClient.CacheKeyInjective` | pkg/k8sclient/client.go:148 | when namespaces contain no dash, equal keys mean equal namespace and selector |
| `K8sClient.CacheKeyAmbiguous` | pkg/k8sclient/client.go:148 | namespace `a-b` with selector `c` and namespace `a` with selector `b-c` share a key |
| `K8sClient.CheckLockName` | pkg/k8sclient/client.go:94-96 | the guard reports an error iff the lock name is empty |
| `K8sClient.LeaderElectionConfig` | pkg/k8sclient/client.go:98-113 | the lease lock is named after the lock name in namespace `default`, and `0 < retry period < renew deadline < lease duration` |
| `K8sClient.ReplayAppend` | pkg/k8sclient/client.go:115-126 | whatever the flag was, after a callback it is true iff that callback was `OnStartedLeading` |
| `K8sClient.ReplayFromFalse` | pkg/k8sclient/client.go:115-126 | from the zero value, the flag is true iff some callback ran and the latest was `OnStartedLeading` |
| `K8sClient.Client.constructor` | pkg/k8sclient/client.go:73-80 | a new client owns a fresh empty cache with a 5-minute TTL and a 10-minute interval, has no elector and is not leader |
| `K8sClient.Client.SetupLeaderElection` | pkg/k8sclient/client.go:93-136 | an empty lock name returns the error and installs no elector; an elector-constructor error is returned wrapped and installs none; otherwise the elector is installed with the lease configuration |
| `K8sClient.Client.OnStartedLeading` | pkg/k8sclient/client.go:115-120 | sets the flag to true and records the callback, keeping the flag equal to the replay of all callbacks |
| `K8sClient.Client.OnStoppedLeading` | pkg/k8sclient/client.go:121-126 | sets the flag to false and records the callback, keeping the same invariant |
| `K8sClient.Client.IsLeader` | pkg/k8sclient/client.go:139-143 | returns the flag, which is true iff the latest callback run was `OnStartedLeading` |
| `K8sClient.Backend.ListPods` | pkg/k8sclient/client.go:153-158 | returns the backend's fixed pod-list answer and appends one `ListPodsCall` to its call log |
| `K8sClient.Backend.ListPodMetrics` | pkg/k8sclient/client.go:162-164 | returns the backend's fixed metrics answer and appends one `ListPodMetricsCall` to its call log |
| `K8sClient.Client.ListPodsUnder` | pkg/k8sclient/client.go:149-183 | for the key it is given: a live entry is returned with no backend call and no cache write; a listing error is returned wrapped, after one `List` call, with the cache unchanged; otherwise the (enriched when metrics are asked for and obtained, else plain) list is returned and stored under the key with expiration `now + defaultTTL`, after one `List` call and, when asked, one metrics call; only the cache's map and the backend's call log change, and the enrichment precondition is needed only on a miss |
| `K8sClient.Client.ListPodsEnhanced` | pkg/k8sclient/client.go:146-184 | the cache-aside listing above under the source's key `pods-<namespace>-<selector>` |
| `K8sClient.Decimal` | pkg/k8sclient/client.go:148 | the numeral used by the corrected key is a non-empty string of decimal digits, of two digits or more from 10 up |
| `K8sClient.DecimalInjective` | pkg/k8sclient/client.go:148 | distinct lengths have distinct numerals |
| `K8sClient.UnambiguousCacheKeyShape` | pkg/k8sclient/client.go:148 | the corrected key holds the namespace length, a colon, the namespace and the selector at positions the length fixes |
| `K8sClient.UnambiguousCacheKeyInjective` | pkg/k8sclient/client.go:148 | equal corrected keys mean equal namespace and equal selector, with no restriction on either string |
| `K8sClient.Client.ListPodsEnhancedUnambiguous` | pkg/k8sclient/client.go:146-184 | the same cache-aside listing under the corrected key |
| `K8sClient.AmbiguousKeyServesWrongNamespace` | pkg/k8sclient/client.go:148-151 | after listing namespace `a-b` with selector `c`, listing namespace `a` with selector `b-c` returns the `a-b` pod and makes no backend call |
| `K8sClient.UnambiguousKeyServesRightNamespace` | pkg/k8sclient/client.go:148-151 | under the corrected key the same second listing misses, lists the backend once and returns the `a` pod |
| `K8sClient.ListTwice` | pkg/k8sclient/client.go:146-184 | on a fresh client, two listings within the default TTL return the same list and list the backend once; a failing listing is listed twice and returns the error both times |

## Findings

| source | as written | input that shows it | evidently intended | confidence | as-written member | corrected member |
|---|---|---|---|---|---|---|
| pkg/k8sclient/client.go:148 | the cache key joins namespace and selector with a dash, and namespaces may contain dashes | namespace `a-b` with selector `c`, then namespace `a` with selector `b-c`: both use key `pods-a-b-c`, so the second listing returns the first namespace's pods | one cache entry per (namespace, selector) pair | not executed | `K8sClient.AmbiguousKeyServesWrongNamespace` | `K8sClient.UnambiguousKeyServesRightNamespace` |

## Left out

- The read/write mutex, the ticker goroutine `startCleanup` and the stop channel are not modelled: they exist only for concurrency. The model is sequential. `Stop` only records that the channel is closed.
- Wall-clock time is not modelled. `time.Now()` becomes the parameter `now`, and durations are integers.
- `K8sClient.Client.ListPodsUnder` uses one `now` for the cache lookup and for the store. The model treats the call as instantaneous. In the source the store happens after the backend calls return.
- `K8sClient.Client.ListPodsUnder` returns a list that is a copy. In the source the caller and the cache share the pods slice, so a caller's later writes to it would show in the cache. That aliasing is not modelled.
- The backend's answers do not depend on the namespace or selector, and do not change between calls. Each `Backend` object gives one fixed pod-list answer and one fixed metrics answer. Request cancellation through the context is not modelled.
- `Enrichment.EnrichInPlace` requires `CanEnrich`: every matched pod has an annotation map and every matching metric has a container. In the source, writing into a nil map or indexing an empty container list panics. The model excludes those inputs instead of modelling the panic.
- Pods and metrics keep only the fields the enrichment touches: name, namespace, labels and annotations; a container's CPU and memory usage, already rendered as strings. Quantity formatting is not modelled.
- The cache value type is the generic `V`. The type assertion `cached.([]corev1.Pod)` becomes the type `seq<Pod>`.
- `NewClient` configuration is not modelled: in-cluster config, kubeconfig lookup, `homeDir`, and the QPS, Burst, Timeout and UserAgent overrides. These are client-go wrappers. The constructor of `K8sClient.Client` keeps only the cache it creates, with its hard-coded 5-minute TTL and 10-minute interval. The source ignores both `CacheTTL` and `CacheCleanupInterval` from the options here.
- The lease protocol is not modelled: acquisition, renewal, retry and the `Run` goroutine. It lives in the external leader-election library. The model keeps the lease configuration it is given and the two callbacks it invokes. The identity from `POD_NAME` becomes a parameter. `internal/leader/election.go` is a stub and is not modelled.
- `WatchNamespaces` is not modelled: it is a goroutine that dispatches from a foreign watch channel.
- `GetResourceUsage` is not modelled: it is an empty stub returning nothing.
- Logging calls are not modelled.
- `cmd/client-cli/main.go`, `pkg/k8sclient/options.go`, `pkg/k8sclient/error.go` and `pkg/k8sclient/interfaces.go` are not modelled: they hold wiring, constants, sentinel errors and declarations only.
