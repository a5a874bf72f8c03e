/** The client facade: the cache-aside pod listing with optional metrics
    enrichment, the leader-election setup guard, and the leadership flag the
    elector's callbacks maintain. The cluster API is an abstract backend whose
    answers are fixed when it is created and which records every call made. */
module K8sClient {
  import opened Wrappers
  import opened Cache
  import opened Enrichment

  /** Go's `time.Second` and `time.Minute`, in nanoseconds. */
  const Second := 1_000_000_000
  const Minute := 60 * Second

  /** The key a pod listing is cached under. */
  function CacheKey(namespace: string, selector: string): (k: string)
    ensures |k| == 6 + |namespace| + |selector| && k[..5] == "pods-"
  {
    "pods-" + namespace + "-" + selector
  }

  /** The key always starts with `pods-`, followed by the namespace and a dash. */
  lemma CacheKeyShape(namespace: string, selector: string)
    ensures var k := CacheKey(namespace, selector);
      |k| == 6 + |namespace| + |selector| &&
      k[..5] == "pods-" && k[5..5 + |namespace|] == namespace &&
      k[5 + |namespace|] == '-' && k[6 + |namespace|..] == selector
  {
  }

  /** The key determines the namespace and selector when namespaces contain no dash. */
  lemma CacheKeyInjective(ns1: string, sel1: string, ns2: string, sel2: string)
    requires '-' !in ns1 && '-' !in ns2
    requires CacheKey(ns1, sel1) == CacheKey(ns2, sel2)
    ensures ns1 == ns2 && sel1 == sel2
  {
    CacheKeyShape(ns1, sel1);
    CacheKeyShape(ns2, sel2);
  }

  /** Without that restriction the key is ambiguous: namespace `a-b` with selector
      `c` and namespace `a` with selector `b-c` share one cache entry. */
  lemma CacheKeyAmbiguous()
    ensures CacheKey("a-b", "c") == CacheKey("a", "b-c")
  {
  }

  /** The decimal digit for `d`. */
  function DecimalDigit(d: nat): (c: char)
    requires d < 10
    ensures '0' <= c <= '9'
  {
    (('0' as int) + d) as char
  }

  /** The decimal numeral of `n`, most significant digit first. */
  function Decimal(n: nat): (s: string)
    ensures |s| > 0 && forall i :: 0 <= i < |s| ==> '0' <= s[i] <= '9'
    ensures n >= 10 ==> |s| >= 2
    decreases n
  {
    if n < 10 then [DecimalDigit(n)] else Decimal(n / 10) + [DecimalDigit(n % 10)]
  }

  /** Distinct numbers have distinct numerals. */
  lemma {:induction false} DecimalInjective(a: nat, b: nat)
    requires Decimal(a) == Decimal(b)
    ensures a == b
    decreases a
  {
    if a >= 10 && b >= 10 {
      var s := Decimal(a);
      assert s[..|s| - 1] == Decimal(a / 10);
      assert Decimal(b)[..|s| - 1] == Decimal(b / 10);
      assert DecimalDigit(a % 10) == DecimalDigit(b % 10);
      DecimalInjective(a / 10, b / 10);
    }
  }

  /** A cache key that cannot collide: the namespace is preceded by its length
      in decimal and a colon, so the key says where the namespace ends. */
  function UnambiguousCacheKey(namespace: string, selector: string): string
  {
    "pods-" + Decimal(|namespace|) + ":" + namespace + "-" + selector
  }

  /** The corrected key's layout: `pods-`, the namespace length, a colon, the
      namespace, a dash and the selector, each at a position the key itself fixes. */
  lemma UnambiguousCacheKeyShape(namespace: string, selector: string)
    ensures var k := UnambiguousCacheKey(namespace, selector); var d := Decimal(|namespace|);
      |k| == 7 + |d| + |namespace| + |selector| &&
      k[5..5 + |d|] == d && k[5 + |d|] == ':' &&
      k[6 + |d|..6 + |d| + |namespace|] == namespace && k[7 + |d| + |namespace|..] == selector
  {
  }

  /** Equal corrected keys mean equal namespace and equal selector, for all strings. */
  lemma UnambiguousCacheKeyInjective(ns1: string, sel1: string, ns2: string, sel2: string)
    requires UnambiguousCacheKey(ns1, sel1) == UnambiguousCacheKey(ns2, sel2)
    ensures ns1 == ns2 && sel1 == sel2
  {
    var k := UnambiguousCacheKey(ns1, sel1);
    var d1, d2 := Decimal(|ns1|), Decimal(|ns2|);
    UnambiguousCacheKeyShape(ns1, sel1);
    UnambiguousCacheKeyShape(ns2, sel2);
    if |d1| == |d2| {
      assert d1 == d2;
      DecimalInjective(|ns1|, |ns2|);
    }
  }

  /** The setup guard: an empty lock name is a configuration error. */
  function CheckLockName(lockName: string): (err: Option<string>)
    ensures err.Some? <==> lockName == ""
  {
    if lockName == "" then Some("leader election ID cannot be empty") else None
  }

  /** The lease lock and timings handed to the external elector. */
  datatype ElectionConfig = ElectionConfig(
    lockName: string,
    lockNamespace: string,
    identity: string,
    leaseDuration: int,
    renewDeadline: int,
    retryPeriod: int)

  /** The configuration built for a lock name; the renewal deadline falls
      inside the lease and at least one retry fits inside the deadline. */
  function LeaderElectionConfig(lockName: string, identity: string): (c: ElectionConfig)
    ensures c.lockName == lockName && c.lockNamespace == "default" && c.identity == identity
    ensures 0 < c.retryPeriod < c.renewDeadline < c.leaseDuration
  {
    ElectionConfig(lockName, "default", identity, 15 * Second, 10 * Second, 2 * Second)
  }

  datatype LeaderEvent = StartedLeading | StoppedLeading

  /** The flag after the callbacks in `events` have run, in order, from `flag`. */
  function Replay(flag: bool, events: seq<LeaderEvent>): bool
    decreases |events|
  {
    if events == [] then flag else Replay(events[0] == StartedLeading, events[1..])
  }

  lemma {:induction false} ReplayAppend(flag: bool, events: seq<LeaderEvent>, e: LeaderEvent)
    ensures Replay(flag, events + [e]) == (e == StartedLeading)
    decreases |events|
  {
    if events == [] {
      assert [e][1..] == [];
    } else {
      assert (events + [e])[1..] == events[1..] + [e];
      ReplayAppend(events[0] == StartedLeading, events[1..], e);
    }
  }

  /** Leadership from the zero value: false before any callback, and afterwards
      true exactly when the most recent callback was `OnStartedLeading`. */
  lemma {:induction false} ReplayFromFalse(events: seq<LeaderEvent>)
    ensures Replay(false, events) <==> events != [] && events[|events| - 1] == StartedLeading
  {
    if events != [] {
      var init := events[..|events| - 1];
      assert events == init + [events[|events| - 1]];
      ReplayAppend(false, init, events[|events| - 1]);
    }
  }

  datatype Call = ListPodsCall(namespace: string, selector: string) | ListPodMetricsCall(namespace: string, selector: string)

  /** The cluster API: the pod list and the pod metrics it answers with, and the calls made so far. */
  class Backend {
    const pods: Result<seq<Pod>>
    const metrics: Result<seq<PodMetrics>>
    var calls: seq<Call>

    constructor (pods: Result<seq<Pod>>, metrics: Result<seq<PodMetrics>>)
      ensures this.pods == pods && this.metrics == metrics && calls == []
    {
      this.pods := pods;
      this.metrics := metrics;
      calls := [];
    }

    method ListPods(namespace: string, selector: string) returns (r: Result<seq<Pod>>)
      modifies this`calls
      ensures r == pods && calls == old(calls) + [ListPodsCall(namespace, selector)]
    {
      r := pods;
      calls := calls + [ListPodsCall(namespace, selector)];
    }

    method ListPodMetrics(namespace: string, selector: string) returns (r: Result<seq<PodMetrics>>)
      modifies this`calls
      ensures r == metrics && calls == old(calls) + [ListPodMetricsCall(namespace, selector)]
    {
      r := metrics;
      calls := calls + [ListPodMetricsCall(namespace, selector)];
    }
  }

  /** What a successful miss returns and caches: the listed pods, enriched when
      metrics were asked for and obtained. */
  function Listed(pods: seq<Pod>, metrics: Result<seq<PodMetrics>>, includeMetrics: bool): seq<Pod>
    requires includeMetrics && metrics.Ok? ==> CanEnrich(pods, metrics.value)
  {
    if includeMetrics && metrics.Ok? then Enrich(pods, metrics.value) else pods
  }

  class Client {
    const cache: ResourceCache<seq<Pod>>
    var isLeader: bool
    /** The installed elector's configuration; `None` while no elector is set up. */
    var elector: Option<ElectionConfig>
    /** The leadership callbacks run so far, oldest first. */
    ghost var callbacks: seq<LeaderEvent>

    ghost predicate Valid()
      reads this
    {
      isLeader == Replay(false, callbacks)
    }

    /** The client as construction leaves it: a cache with a 5-minute TTL and a
        10-minute sweep interval, no elector, not leader. */
    constructor ()
      ensures Valid() && fresh(cache)
      ensures cache.items == map[] && cache.defaultTTL == 5 * Minute && cache.cleanupInterval == 10 * Minute
      ensures !cache.stopped
      ensures !isLeader && elector == None && callbacks == []
    {
      cache := new ResourceCache(5 * Minute, 10 * Minute);
      isLeader := false;
      elector := None;
      callbacks := [];
    }

    /** Installs an elector for `lockName`; `electorError` is the error the
        external elector constructor reports, if any. */
    method SetupLeaderElection(lockName: string, identity: string, electorError: Option<string>) returns (err: Option<string>)
      modifies this`elector
      ensures lockName == "" ==> err == Some("leader election ID cannot be empty") && elector == old(elector)
      ensures lockName != "" && electorError.Some? ==>
        err == Some("failed to create leader elector: " + electorError.value) && elector == old(elector)
      ensures lockName != "" && electorError.None? ==>
        err == None && elector == Some(LeaderElectionConfig(lockName, identity))
    {
      err := CheckLockName(lockName);
      if err.Some? {
        return;
      }
      var config := LeaderElectionConfig(lockName, identity);
      if electorError.Some? {
        return Some("failed to create leader elector: " + electorError.value);
      }
      elector := Some(config);
    }

    method OnStartedLeading()
      requires Valid()
      modifies this`isLeader, this`callbacks
      ensures Valid() && isLeader
      ensures callbacks == old(callbacks) + [StartedLeading]
    {
      ReplayAppend(false, callbacks, StartedLeading);
      isLeader := true;
      callbacks := callbacks + [StartedLeading];
    }

    method OnStoppedLeading()
      requires Valid()
      modifies this`isLeader, this`callbacks
      ensures Valid() && !isLeader
      ensures callbacks == old(callbacks) + [StoppedLeading]
    {
      ReplayAppend(false, callbacks, StoppedLeading);
      isLeader := false;
      callbacks := callbacks + [StoppedLeading];
    }

    /** True exactly when some callback has run and the latest one was `OnStartedLeading`. */
    method IsLeader() returns (b: bool)
      requires Valid()
      ensures b == isLeader
      ensures b <==> callbacks != [] && callbacks[|callbacks| - 1] == StartedLeading
    {
      ReplayFromFalse(callbacks);
      b := isLeader;
    }

    /** The outcome of a cache-aside listing under `key`: a live entry is
        returned with no backend call and no cache write; a listing error is
        returned wrapped, after one `List` call, with nothing cached; otherwise
        the listed pods, enriched when metrics were asked for and obtained,
        are returned and stored under `key` with the default TTL, after one
        `List` call and, when asked, one metrics call. */
    twostate predicate ServedUnder(key: string, backend: Backend, namespace: string, selector: string,
                                   includeMetrics: bool, now: int, new r: Result<seq<Pod>>)
      reads this, cache, backend
    {
      var hit := Lookup(old(cache.items), key, now);
      if hit.Some? then
        r == Ok(hit.value) && cache.items == old(cache.items) && backend.calls == old(backend.calls)
      else if backend.pods.Err? then
        r == Err("failed to list pods: " + backend.pods.error) &&
        cache.items == old(cache.items) &&
        backend.calls == old(backend.calls) + [ListPodsCall(namespace, selector)]
      else
        (includeMetrics && backend.metrics.Ok? ==> CanEnrich(backend.pods.value, backend.metrics.value)) &&
        r == Ok(Listed(backend.pods.value, backend.metrics, includeMetrics)) &&
        cache.items == old(cache.items)[key := Entry(r.value, now + cache.defaultTTL)] &&
        backend.calls == old(backend.calls) + [ListPodsCall(namespace, selector)] +
          (if includeMetrics then [ListPodMetricsCall(namespace, selector)] else [])
    }

    /** The body of the cache-aside listing, for the cache key it is given. The
        backend's answers need to be free of panicking inputs only when they are
        fetched, so only on a miss. */
    method ListPodsUnder(key: string, backend: Backend, namespace: string, selector: string, includeMetrics: bool, now: int)
      returns (r: Result<seq<Pod>>)
      requires (Lookup(cache.items, key, now).None? && includeMetrics && backend.pods.Ok? && backend.metrics.Ok?) ==>
        CanEnrich(backend.pods.value, backend.metrics.value)
      modifies cache`items, backend`calls
      ensures ServedUnder(key, backend, namespace, selector, includeMetrics, now, r)
    {
      var cached := cache.Get(key, now);
      if cached.Some? {
        return Ok(cached.value);
      }
      var listed := backend.ListPods(namespace, selector);
      if listed.Err? {
        return Err("failed to list pods: " + listed.error);
      }
      var items := listed.value;
      if includeMetrics {
        var podMetrics := backend.ListPodMetrics(namespace, selector);
        if podMetrics.Ok? {
          var slots := new Pod[|items|](i requires 0 <= i < |items| => items[i]);
          assert slots[..] == items;
          EnrichInPlace(slots, podMetrics.value);
          items := slots[..];
        }
      }
      cache.Set(key, items, 0, now);
      return Ok(items);
    }

    /** Cache-aside listing under the key `pods-<namespace>-<selector>`. */
    method ListPodsEnhanced(backend: Backend, namespace: string, selector: string, includeMetrics: bool, now: int)
      returns (r: Result<seq<Pod>>)
      requires (Lookup(cache.items, CacheKey(namespace, selector), now).None? &&
                includeMetrics && backend.pods.Ok? && backend.metrics.Ok?) ==>
        CanEnrich(backend.pods.value, backend.metrics.value)
      modifies cache`items, backend`calls
      ensures ServedUnder(CacheKey(namespace, selector), backend, namespace, selector, includeMetrics, now, r)
    {
      r := ListPodsUnder(CacheKey(namespace, selector), backend, namespace, selector, includeMetrics, now);
    }

    /** The same listing under the collision-free key. */
    method ListPodsEnhancedUnambiguous(backend: Backend, namespace: string, selector: string, includeMetrics: bool, now: int)
      returns (r: Result<seq<Pod>>)
      requires (Lookup(cache.items, UnambiguousCacheKey(namespace, selector), now).None? &&
                includeMetrics && backend.pods.Ok? && backend.metrics.Ok?) ==>
        CanEnrich(backend.pods.value, backend.metrics.value)
      modifies cache`items, backend`calls
      ensures ServedUnder(UnambiguousCacheKey(namespace, selector), backend, namespace, selector, includeMetrics, now, r)
    {
      r := ListPodsUnder(UnambiguousCacheKey(namespace, selector), backend, namespace, selector, includeMetrics, now);
    }
  }

  /** Two listings of the same pods, `dt` apart within the default TTL, on a
      fresh client: the second is served from the cache, so the backend is
      listed once; a failed listing is not cached, so it is listed twice. */
  method ListTwice(pods: Result<seq<Pod>>, metrics: Result<seq<PodMetrics>>, namespace: string, selector: string,
                   includeMetrics: bool, t0: int, dt: int)
    returns (first: Result<seq<Pod>>, second: Result<seq<Pod>>, calls: seq<Call>)
    requires 0 <= dt <= 5 * Minute
    requires includeMetrics && pods.Ok? && metrics.Ok? ==> CanEnrich(pods.value, metrics.value)
    ensures pods.Ok? ==> first == second == Ok(Listed(pods.value, metrics, includeMetrics))
    ensures pods.Ok? ==>
      calls == [ListPodsCall(namespace, selector)] + (if includeMetrics then [ListPodMetricsCall(namespace, selector)] else [])
    ensures pods.Err? ==> first == second == Err("failed to list pods: " + pods.error)
    ensures pods.Err? ==> calls == [ListPodsCall(namespace, selector), ListPodsCall(namespace, selector)]
  {
    var backend := new Backend(pods, metrics);
    var client := new Client();
    first := client.ListPodsEnhanced(backend, namespace, selector, includeMetrics, t0);
    second := client.ListPodsEnhanced(backend, namespace, selector, includeMetrics, t0 + dt);
    calls := backend.calls;
  }

  /** The collision as written: after namespace `a-b` is listed with selector
      `c`, a listing of namespace `a` with selector `b-c` is a cache hit and
      returns the pod of namespace `a-b`, without asking the backend. */
  method AmbiguousKeyServesWrongNamespace() returns (first: Result<seq<Pod>>, second: Result<seq<Pod>>, secondCalls: seq<Call>)
    ensures first == second == Ok([Pod("web", "a-b", map[], None)])
    ensures secondCalls == []
  {
    var client := new Client();
    var backendA := new Backend(Ok([Pod("web", "a-b", map[], None)]), Err("unused"));
    var backendB := new Backend(Ok([Pod("web", "a", map[], None)]), Err("unused"));
    first := client.ListPodsEnhanced(backendA, "a-b", "c", false, 0);
    CacheKeyAmbiguous();
    second := client.ListPodsEnhanced(backendB, "a", "b-c", false, 0);
    secondCalls := backendB.calls;
  }

  /** The same two listings under the corrected key: the second misses the
      cache, lists the backend and returns the pod of namespace `a`. */
  method UnambiguousKeyServesRightNamespace() returns (first: Result<seq<Pod>>, second: Result<seq<Pod>>, secondCalls: seq<Call>)
    ensures first == Ok([Pod("web", "a-b", map[], None)])
    ensures second == Ok([Pod("web", "a", map[], None)])
    ensures secondCalls == [ListPodsCall("a", "b-c")]
  {
    var client := new Client();
    var backendA := new Backend(Ok([Pod("web", "a-b", map[], None)]), Err("unused"));
    var backendB := new Backend(Ok([Pod("web", "a", map[], None)]), Err("unused"));
    first := client.ListPodsEnhancedUnambiguous(backendA, "a-b", "c", false, 0);
    assert UnambiguousCacheKey("a-b", "c") != UnambiguousCacheKey("a", "b-c") by {
      if UnambiguousCacheKey("a-b", "c") == UnambiguousCacheKey("a", "b-c") {
        UnambiguousCacheKeyInjective("a-b", "c", "a", "b-c");
      }
    }
    second := client.ListPodsEnhancedUnambiguous(backendB, "a", "b-c", false, 0);
    secondCalls := backendB.calls;
  }
}
