/** The TTL resource cache: a map from string key to a value and an absolute
    expiration time. Times and durations are integers in nanoseconds (the unit
    of Go's `time.Duration`); the clock is the explicit parameter `now`. */
module Cache {
  import opened Wrappers

  datatype Entry<V> = Entry(value: V, expiration: int)

  /** The TTL `Set` actually uses: the caller's when positive, else the default. */
  function EffectiveTTL(ttl: int, defaultTTL: int): int
  {
    if ttl > 0 then ttl else defaultTTL
  }

  /** Go's `now.After(expiration)`: strictly past, so an entry is still live at
      `now == expiration`. */
  predicate Expired<V>(e: Entry<V>, now: int)
  {
    now > e.expiration
  }

  /** What `Get` observes at time `now`. */
  function Lookup<V>(items: map<string, Entry<V>>, key: string, now: int): (r: Option<V>)
    ensures r.Some? <==> key in items && now <= items[key].expiration
    ensures r.Some? ==> r.value == items[key].value
  {
    if key in items && !Expired(items[key], now) then Some(items[key].value) else None
  }

  /** The entry `Set` writes. */
  function Stored<V>(value: V, ttl: int, defaultTTL: int, now: int): Entry<V>
  {
    Entry(value, now + EffectiveTTL(ttl, defaultTTL))
  }

  /** The map `cleanupExpired` leaves: every entry not yet expired, unchanged. */
  function Sweep<V>(items: map<string, Entry<V>>, now: int): (r: map<string, Entry<V>>)
    ensures r.Keys <= items.Keys
    ensures forall k :: k in r ==> r[k] == items[k] && now <= r[k].expiration
  {
    map k | k in items && !Expired(items[k], now) :: items[k]
  }

  /** `Set` with a non-positive TTL falls back to the default; a positive TTL is used as is. */
  lemma SetExpiration<V>(value: V, ttl: int, defaultTTL: int, now: int)
    ensures ttl <= 0 ==> Stored(value, ttl, defaultTTL, now).expiration == now + defaultTTL
    ensures ttl > 0 ==> Stored(value, ttl, defaultTTL, now).expiration == now + ttl
    ensures Stored(value, ttl, defaultTTL, now).value == value
  {
  }

  /** `Set` followed by `Get` of the same key at the same instant sees the value
      exactly when the effective TTL is not negative (a negative default TTL
      stores an entry that is already invisible). */
  lemma SetThenGet<V>(items: map<string, Entry<V>>, key: string, value: V, ttl: int, defaultTTL: int, now: int)
    ensures EffectiveTTL(ttl, defaultTTL) >= 0 ==>
      Lookup(items[key := Stored(value, ttl, defaultTTL, now)], key, now) == Some(value)
    ensures EffectiveTTL(ttl, defaultTTL) < 0 ==>
      Lookup(items[key := Stored(value, ttl, defaultTTL, now)], key, now) == None
  {
  }

  /** After a `Set` at time `t0`, the key stays visible up to and including
      `t0` plus the effective TTL and is hidden at every later instant, with no
      sweep needed. */
  lemma VisibleUntilExpiration<V>(items: map<string, Entry<V>>, key: string, value: V, ttl: int, defaultTTL: int, t0: int, now: int)
    ensures var m := items[key := Stored(value, ttl, defaultTTL, t0)];
      Lookup(m, key, now) == if now <= t0 + EffectiveTTL(ttl, defaultTTL) then Some(value) else None
  {
  }

  /** `Set` of one key changes what `Get` observes for no other key. */
  lemma SetLeavesOtherKeys<V>(items: map<string, Entry<V>>, key: string, other: string, e: Entry<V>, now: int)
    requires other != key
    ensures Lookup(items[key := e], other, now) == Lookup(items, other, now)
  {
  }

  /** The sweep keeps exactly the entries whose expiration is at or after `now`,
      with their values, and removes the others physically. */
  lemma SweepKeepsLive<V>(items: map<string, Entry<V>>, now: int)
    ensures forall k :: k in Sweep(items, now) <==> k in items && items[k].expiration >= now
    ensures forall k :: k in Sweep(items, now) ==> Sweep(items, now)[k] == items[k]
    ensures |Sweep(items, now)| <= |items|
  {
    var kept := Sweep(items, now).Keys;
    assert items.Keys == kept + (items.Keys - kept);
    assert |items.Keys| == |kept| + |items.Keys - kept|;
  }

  /** A second sweep at the same instant changes nothing. */
  lemma SweepIdempotent<V>(items: map<string, Entry<V>>, now: int)
    ensures Sweep(Sweep(items, now), now) == Sweep(items, now)
  {
  }

  /** A sweep at `t1` followed by one at a later `t2` is the same as the sweep at `t2`
      alone: sweeping only ever removes entries that later sweeps would remove. */
  lemma SweepLater<V>(items: map<string, Entry<V>>, t1: int, t2: int)
    requires t1 <= t2
    ensures Sweep(Sweep(items, t1), t2) == Sweep(items, t2)
  {
  }

  /** Logical expiry precedes physical eviction: sweeping at `now` never changes
      what `Get` returns at `now`, for any key. */
  lemma SweepPreservesLookup<V>(items: map<string, Entry<V>>, now: int)
    ensures forall k :: Lookup(Sweep(items, now), k, now) == Lookup(items, k, now)
  {
  }

  /** Two entries set at `t0`, one expiring after 1 s and one after 10 s: a sweep
      at `t0 + 2 s` leaves only the second in storage, still retrievable. */
  lemma SweepTwoEntries<V>(a: V, b: V, t0: int)
    ensures var m := map["a" := Entry(a, t0 + 1_000_000_000), "b" := Entry(b, t0 + 10_000_000_000)];
      var s := Sweep(m, t0 + 2_000_000_000);
      s.Keys == {"b"} && |s| == 1 && Lookup(s, "b", t0 + 2_000_000_000) == Some(b)
  {
    var m := map["a" := Entry(a, t0 + 1_000_000_000), "b" := Entry(b, t0 + 10_000_000_000)];
    var s := Sweep(m, t0 + 2_000_000_000);
    assert "a" != "b";
    assert "a" !in s;
    assert s.Keys == {"b"};
  }

  class ResourceCache<V> {
    var items: map<string, Entry<V>>
    var defaultTTL: int
    var cleanupInterval: int
    /** Whether `Stop` has closed the stop channel. */
    var stopped: bool

    /** The sweep's ticker panics on a non-positive interval, hence the precondition. */
    constructor (defaultTTL: int, cleanupInterval: int)
      requires cleanupInterval > 0
      ensures items == map[]
      ensures this.defaultTTL == defaultTTL && this.cleanupInterval == cleanupInterval
      ensures !stopped
    {
      items := map[];
      this.defaultTTL := defaultTTL;
      this.cleanupInterval := cleanupInterval;
      stopped := false;
    }

    /** Stores `value` under `key`, overwriting any entry there; every other key is untouched. */
    method Set(key: string, value: V, ttl: int, now: int)
      modifies this`items
      ensures items == old(items)[key := Stored(value, ttl, defaultTTL, now)]
      ensures forall k :: k != key && k in old(items) ==> k in items && items[k] == old(items)[k]
    {
      var effective := ttl;
      if effective <= 0 {
        effective := defaultTTL;
      }
      items := items[key := Entry(value, now + effective)];
    }

    /** Returns the value under `key` unless it is absent or strictly past its
        expiration; changes nothing. */
    method Get(key: string, now: int) returns (r: Option<V>)
      ensures r.Some? <==> key in items && now <= items[key].expiration
      ensures r.Some? ==> r.value == items[key].value
      ensures r == Lookup(items, key, now)
    {
      if key !in items || now > items[key].expiration {
        return None;
      }
      return Some(items[key].value);
    }

    /** Deletes, one key at a time in an arbitrary order, every entry strictly past its expiration. */
    method CleanupExpired(now: int)
      modifies this`items
      ensures items == Sweep(old(items), now)
    {
      var pending := items.Keys;
      while pending != {}
        invariant pending <= old(items).Keys
        invariant forall k :: k in items <==> k in old(items) && (k in pending || !Expired(old(items)[k], now))
        invariant forall k :: k in items ==> items[k] == old(items)[k]
        decreases pending
      {
        var k :| k in pending;
        if Expired(items[k], now) {
          items := items - {k};
        }
        pending := pending - {k};
      }
      assert items.Keys == Sweep(old(items), now).Keys;
    }

    /** Closes the stop channel. A second close panics in Go, hence the precondition. */
    method Stop()
      requires !stopped
      modifies this`stopped
      ensures stopped
    {
      stopped := true;
    }
  }
}
