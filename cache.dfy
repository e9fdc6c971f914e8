/** The in-memory result cache (`src/utils/Cache.ts`): a JavaScript `Map`
    from string keys to entries with an expiry instant, a size cap enforced
    by deleting the oldest-inserted key, hit/miss counters, an enable switch
    and a default time-to-live. The clock (`Date.now()`) is the parameter
    `now`.

    The step functions below give the effect of each operation on the
    cache's observable state; the class `Cache` performs the same updates in
    place and is proved to agree with them, and the lemmas state what the
    operations promise. */
module Caching {
  import opened Wrappers
  import opened Seqs
  import opened OrderedMaps
  import opened Types

  /** Five minutes, in milliseconds. */
  const DefaultTtl: int := 5 * 60 * 1000
  const DefaultMaxSize: int := 100

  /** `Partial<CacheOptions>`: every field may be left out. */
  datatype CacheOptionsInput = CacheOptionsInput(enabled: Option<bool>, ttl: Option<int>, maxSize: Option<int>)

  /** What `getStats` reports; `hitRate` is a percentage. */
  datatype CacheStats = CacheStats(size: nat, maxSize: int, hits: nat, misses: nat, hitRate: real, enabled: bool, ttl: int)

  /** The constructor's `??` defaults: a field left out takes its default;
      a given value, even `false` or `0`, is kept. */
  function ResolveOptions(o: CacheOptionsInput): CacheOptions {
    CacheOptions(o.enabled.GetOr(true), o.ttl.GetOr(DefaultTtl), o.maxSize.GetOr(DefaultMaxSize))
  }

  /** The observable state of a `Cache`. */
  datatype CacheState<V> = CacheState(cache: OrderedMap<CacheEntry<V>>, options: CacheOptions, hits: nat, misses: nat)

  function Initial<V>(o: CacheOptionsInput): (s: CacheState<V>)
    ensures s.cache.Valid() && s.cache.Size() == 0 && s.hits == 0 && s.misses == 0
    ensures o.ttl.Some? ==> s.options.ttl == o.ttl.value
    ensures o.ttl.None? ==> s.options.ttl == 300000
    ensures s.options.maxSize == if o.maxSize.Some? then o.maxSize.value else 100
    ensures s.options.enabled <==> o.enabled != Some(false)
  {
    CacheState(Empty(), ResolveOptions(o), 0, 0)
  }

  /** An entry is stale strictly after its expiry instant. */
  predicate Expired<V>(e: CacheEntry<V>, now: int) {
    now > e.expiresAt
  }

  /** `key` holds an entry that is not stale at `now`. */
  predicate Live<V>(c: OrderedMap<CacheEntry<V>>, key: string, now: int) {
    key in c.entries && !Expired(c.entries[key], now)
  }

  /** `get(key)`: a miss when disabled, absent or stale (a stale entry is
      deleted); otherwise a hit returning the stored data. */
  function GetStep<V>(s: CacheState<V>, key: string, now: int): (r: (CacheState<V>, Option<V>))
    ensures r.0.options == s.options
    ensures r.1.Some? ==> r.0.hits == s.hits + 1 && r.0.misses == s.misses
    ensures r.1.None? ==> r.0.hits == s.hits && r.0.misses == s.misses + 1
    ensures s.cache.Valid() ==> r.0.cache.Valid()
  {
    if !s.options.enabled then (s.(misses := s.misses + 1), None)
    else match s.cache.Get(key)
      case None => (s.(misses := s.misses + 1), None)
      case Some(entry) =>
        if now > entry.expiresAt then (s.(cache := s.cache.Remove(key), misses := s.misses + 1), None)
        else (s.(hits := s.hits + 1), Some(entry.data))
  }

  /** The size check of `set`: when the map is at or above `maxSize`, the
      oldest key is deleted, unless it is the empty string, which the guard
      `if (firstKey)` treats like "no key". */
  function EvictOldest<V>(c: OrderedMap<CacheEntry<V>>, maxSize: int): (r: OrderedMap<CacheEntry<V>>)
    ensures c.Valid() ==> r.Valid()
    ensures forall k :: k in r.entries ==> k in c.entries && r.entries[k] == c.entries[k]
  {
    if c.Size() >= maxSize then
      match c.First()
      case Some(firstKey) => if firstKey != "" then c.Remove(firstKey) else c
      case None => c
    else c
  }

  /** `set(key, data, ttl)`: nothing when disabled; otherwise the size check,
      then the entry `{data, timestamp: now, expiresAt: now + (ttl ?? options.ttl)}`
      is stored under `key`. */
  function SetStep<V>(s: CacheState<V>, key: string, data: V, ttl: Option<int>, now: int): (r: CacheState<V>)
    ensures r.options == s.options && r.hits == s.hits && r.misses == s.misses
    ensures s.cache.Valid() ==> r.cache.Valid()
  {
    if !s.options.enabled then s
    else
      var evicted := EvictOldest(s.cache, s.options.maxSize);
      var cacheTtl := ttl.GetOr(s.options.ttl);
      s.(cache := evicted.Put(key, CacheEntry(data, now, now + cacheTtl)))
  }

  /** `has(key)`: the liveness test of `get`, deleting a stale entry, without counting. */
  function HasStep<V>(s: CacheState<V>, key: string, now: int): (r: (CacheState<V>, bool))
    ensures r.0.options == s.options && r.0.hits == s.hits && r.0.misses == s.misses
    ensures s.cache.Valid() ==> r.0.cache.Valid()
  {
    if !s.options.enabled then (s, false)
    else match s.cache.Get(key)
      case None => (s, false)
      case Some(entry) =>
        if now > entry.expiresAt then (s.(cache := s.cache.Remove(key)), false)
        else (s, true)
  }

  /** `clear()` */
  function ClearStep<V>(s: CacheState<V>): (r: CacheState<V>)
    ensures r.cache.Valid() && r.cache.Size() == 0 && r.hits == 0 && r.misses == 0
    ensures r.options == s.options
  {
    s.(cache := Empty(), hits := 0, misses := 0)
  }

  function IsLive<V>(entries: map<string, CacheEntry<V>>, now: int): string -> bool {
    k => !(k in entries && Expired(entries[k], now))
  }

  /** The map `clearExpired()` leaves: exactly the entries with `now > expiresAt`
      are gone; the others keep their data and their order. */
  function Sweep<V>(c: OrderedMap<CacheEntry<V>>, now: int): (r: OrderedMap<CacheEntry<V>>)
    ensures c.Valid() ==> r.Valid()
    ensures forall k :: r.Get(k) == if Live(c, k, now) then c.Get(k) else None
    ensures IsSubsequence(r.order, c.order)
  {
    var r := OrderedMap(Filter(c.order, IsLive(c.entries, now)),
                        map k | k in c.entries && !Expired(c.entries[k], now) :: c.entries[k]);
    FilterIsSubsequence(c.order, IsLive(c.entries, now));
    assert c.Valid() ==> r.Valid() by {
      if c.Valid() {
        FilterNoDuplicates(c.order, IsLive(c.entries, now));
        forall k | k in r.entries ensures k in r.order {
          FilterComplete(c.order, IsLive(c.entries, now), k);
        }
      }
    }
    r
  }

  /** `clearExpired()`: the counters and options are untouched. */
  function ClearExpiredStep<V>(s: CacheState<V>, now: int): (r: CacheState<V>)
    ensures r.options == s.options && r.hits == s.hits && r.misses == s.misses
  {
    s.(cache := Sweep(s.cache, now))
  }

  /** `setEnabled(enabled)`: disabling also clears. */
  function SetEnabledStep<V>(s: CacheState<V>, enabled: bool): (r: CacheState<V>)
    ensures r.options == s.options.(enabled := enabled)
    ensures s.cache.Valid() ==> r.cache.Valid()
    ensures enabled ==> r.cache == s.cache && r.hits == s.hits && r.misses == s.misses
    ensures !enabled ==> r.cache.Size() == 0 && r.hits == 0 && r.misses == 0
  {
    var s' := s.(options := s.options.(enabled := enabled));
    if !enabled then ClearStep(s') else s'
  }

  /** `setTTL(ttl)` */
  function SetTtlStep<V>(s: CacheState<V>, ttl: int): (r: CacheState<V>)
    ensures r.options.ttl == ttl
    ensures r.options.enabled == s.options.enabled && r.options.maxSize == s.options.maxSize
    ensures r.cache == s.cache && r.hits == s.hits && r.misses == s.misses
  {
    s.(options := s.options.(ttl := ttl))
  }

  // ---------------------------------------------------------------------------
  // Properties of the operations

  /** A disabled cache counts a miss and does not look at its storage. */
  lemma GetWhenDisabled<V>(s: CacheState<V>, key: string, now: int)
    requires !s.options.enabled
    ensures GetStep(s, key, now) == (s.(misses := s.misses + 1), None)
  {
  }

  /** An enabled `get` of a key that is not stored is a miss and changes nothing else. */
  lemma GetAbsent<V>(s: CacheState<V>, key: string, now: int)
    requires s.options.enabled && key !in s.cache.entries
    ensures GetStep(s, key, now) == (s.(misses := s.misses + 1), None)
  {
  }

  /** A stale entry (`now > expiresAt`, strictly) is deleted and counted as a miss. */
  lemma GetExpired<V>(s: CacheState<V>, key: string, now: int)
    requires s.cache.Valid() && s.options.enabled
    requires key in s.cache.entries && now > s.cache.entries[key].expiresAt
    ensures var (s', r) := GetStep(s, key, now);
      && r == None
      && s'.hits == s.hits && s'.misses == s.misses + 1
      && s'.cache.Get(key) == None
      && s'.cache.Size() == s.cache.Size() - 1
      && (forall k :: k != key ==> s'.cache.Get(k) == s.cache.Get(k))
  {
  }

  /** An entry that is not stale (including at `now == expiresAt`) is a hit and changes nothing but `hits`. */
  lemma GetLive<V>(s: CacheState<V>, key: string, now: int)
    requires s.options.enabled && key in s.cache.entries && now <= s.cache.entries[key].expiresAt
    ensures GetStep(s, key, now) == (s.(hits := s.hits + 1), Some(s.cache.entries[key].data))
  {
  }

  /** `get` hits exactly when the cache is enabled and the key is live. */
  lemma GetHitIff<V>(s: CacheState<V>, key: string, now: int)
    ensures GetStep(s, key, now).1.Some? <==> s.options.enabled && Live(s.cache, key, now)
    ensures GetStep(s, key, now).1.Some? <==> GetStep(s, key, now).0.hits == s.hits + 1
  {
  }

  /** `set` stores the entry with `timestamp = now` and `expiresAt = now + (ttl ?? options.ttl)`;
      an explicit `0` is honoured. */
  lemma SetStoresEntry<V>(s: CacheState<V>, key: string, data: V, ttl: Option<int>, now: int)
    requires s.options.enabled
    ensures SetStep(s, key, data, ttl, now).cache.Get(key)
         == Some(CacheEntry(data, now, now + (if ttl.Some? then ttl.value else s.options.ttl)))
  {
  }

  lemma SetWhenDisabled<V>(s: CacheState<V>, key: string, data: V, ttl: Option<int>, now: int)
    requires !s.options.enabled
    ensures SetStep(s, key, data, ttl, now) == s
  {
  }

  /** Right after `set` with a non-negative time-to-live, `get` at the same instant returns the data and counts a hit. */
  lemma SetThenGet<V>(s: CacheState<V>, key: string, data: V, ttl: Option<int>, now: int)
    requires s.options.enabled && ttl.GetOr(s.options.ttl) >= 0
    ensures var s' := SetStep(s, key, data, ttl, now);
      GetStep(s', key, now) == (s'.(hits := s.hits + 1), Some(data))
  {
    var s' := SetStep(s, key, data, ttl, now);
    assert s'.cache.Get(key) == Some(CacheEntry(data, now, now + ttl.GetOr(s.options.ttl)));
  }

  /** The eviction check runs before the overwrite: at capacity, overwriting a
      present key still deletes the oldest other key, so the map shrinks. */
  lemma SetEvictsBeforeOverwrite<V>(s: CacheState<V>, key: string, data: V, ttl: Option<int>, now: int)
    requires s.cache.Valid() && s.options.enabled
    requires s.cache.Size() >= s.options.maxSize
    requires s.cache.First().Some? && s.cache.First().value != "" && s.cache.First().value != key
    requires key in s.cache.entries
    ensures var c := SetStep(s, key, data, ttl, now).cache;
      c.Size() == s.cache.Size() - 1 && s.cache.First().value !in c.entries
  {
    var f := s.cache.First().value;
    var e := EvictOldest(s.cache, s.options.maxSize);
    assert e == s.cache.Remove(f);
    assert key in e.entries by { assert e.Get(key) == s.cache.Get(key); }
  }

  /** The guard `if (firstKey)` skips eviction when the oldest key is `""`:
      inserting a new key then takes the map past `maxSize`. */
  lemma EmptyOldestKeySkipsEviction<V>(s: CacheState<V>, key: string, data: V, ttl: Option<int>, now: int)
    requires s.cache.Valid() && s.options.enabled
    requires s.cache.Size() >= s.options.maxSize
    requires s.cache.First() == Some("") && key !in s.cache.entries
    ensures SetStep(s, key, data, ttl, now).cache.Size() == s.cache.Size() + 1 > s.options.maxSize
  {
  }

  /** With `maxSize >= 1` and no empty-string key, `set` keeps the map within `maxSize`. */
  lemma SetKeepsSizeBound<V>(s: CacheState<V>, key: string, data: V, ttl: Option<int>, now: int)
    requires s.cache.Valid() && s.options.maxSize >= 1 && s.cache.Size() <= s.options.maxSize
    requires "" !in s.cache.entries && key != ""
    ensures var c := SetStep(s, key, data, ttl, now).cache;
      c.Size() <= s.options.maxSize && "" !in c.entries
  {
    if s.options.enabled && s.cache.Size() >= s.options.maxSize {
      assert s.cache.First().Some?;
      assert s.cache.First().value in s.cache.entries;
    }
  }

  /** Overwriting a present key below capacity keeps the key order (JavaScript `Map.set`)
      and leaves every other entry alone. */
  lemma OverwriteKeepsPosition<V>(s: CacheState<V>, key: string, data: V, ttl: Option<int>, now: int)
    requires s.options.enabled && key in s.cache.entries && s.cache.Size() < s.options.maxSize
    ensures var c := SetStep(s, key, data, ttl, now).cache;
      c.order == s.cache.order && forall k :: k != key ==> c.Get(k) == s.cache.Get(k)
  {
  }

  /** `has` answers what `get` would, deletes what `get` would, and never counts. */
  lemma HasAgreesWithGet<V>(s: CacheState<V>, key: string, now: int)
    ensures HasStep(s, key, now).1 == GetStep(s, key, now).1.Some?
    ensures HasStep(s, key, now).0 == GetStep(s, key, now).0.(hits := s.hits, misses := s.misses)
  {
  }

  /** After the time-to-live has passed, `get` misses and the entry is gone from storage. */
  lemma GetAfterTtl<V>(s: CacheState<V>, key: string, data: V, ttl: Option<int>, t0: int, t1: int)
    requires s.cache.Valid() && s.options.enabled && t1 > t0 + ttl.GetOr(s.options.ttl)
    ensures var s' := SetStep(s, key, data, ttl, t0);
      var (s'', r) := GetStep(s', key, t1);
      r == None && s''.misses == s'.misses + 1 && key !in s''.cache.entries && s''.cache.Size() == s'.cache.Size() - 1
  {
    var s' := SetStep(s, key, data, ttl, t0);
    assert s'.cache.Get(key) == Some(CacheEntry(data, t0, t0 + ttl.GetOr(s.options.ttl)));
    GetExpired(s', key, t1);
  }

  /** Disabling empties the cache and zeroes the counters; re-enabling brings nothing back. */
  lemma DisableThenEnable<V>(s: CacheState<V>, key: string, now: int)
    ensures var off := SetEnabledStep(s, false);
      && off.cache.Size() == 0 && off.hits == 0 && off.misses == 0
      && GetStep(off, key, now).1 == None
      && SetEnabledStep(off, true).cache.Size() == 0
      && SetEnabledStep(off, true).options.enabled
  {
  }

  /** `setTTL` changes no stored entry; only a later `set` without its own ttl uses the new value. */
  lemma SetTtlAffectsOnlyLaterSets<V>(s: CacheState<V>, ttl: int, key: string, data: V, now: int)
    requires s.options.enabled
    ensures SetTtlStep(s, ttl).cache == s.cache
    ensures SetStep(SetTtlStep(s, ttl), key, data, None, now).cache.Get(key) == Some(CacheEntry(data, now, now + ttl))
  {
    SetStoresEntry(SetTtlStep(s, ttl), key, data, None, now);
  }

  /** `set` applied to each key in turn. */
  function SetEach<V>(s: CacheState<V>, keys: seq<string>, data: V, now: int): (r: CacheState<V>)
    ensures r.options == s.options
    ensures s.cache.Valid() ==> r.cache.Valid()
  {
    if keys == [] then s
    else SetStep(SetEach(s, keys[..|keys| - 1], data, now), keys[|keys| - 1], data, None, now)
  }

  /** Below capacity, a new key is appended to the order and nothing is evicted. */
  lemma SetNewKeyAppends<V>(s: CacheState<V>, key: string, data: V, ttl: Option<int>, now: int)
    requires s.options.enabled && s.cache.Size() < s.options.maxSize && key !in s.cache.entries
    ensures SetStep(s, key, data, ttl, now).cache.order == s.cache.order + [key]
  {
  }

  /** Up to `maxSize` distinct keys set into an empty cache are kept in insertion order. */
  lemma {:induction false} FillInOrder<V>(s: CacheState<V>, keys: seq<string>, data: V, now: int)
    requires s.options.enabled && s.cache == Empty()
    requires NoDuplicates(keys) && |keys| <= s.options.maxSize
    ensures SetEach(s, keys, data, now).cache.order == keys
    ensures SetEach(s, keys, data, now).cache.Valid()
  {
    if keys != [] {
      var n := |keys| - 1;
      NoDuplicatesSlice(keys, 0, n);
      NoDuplicatesElsewhere(keys, n);
      FillInOrder(s, keys[..n], data, now);
      var before := SetEach(s, keys[..n], data, now);
      SetNewKeyAppends(before, keys[n], data, None, now);
      assert keys[..n] + [keys[n]] == keys;
    }
  }

  /** At capacity, a new key is appended after the oldest key has been deleted. */
  lemma SetAtCapacityEvictsFirst<V>(s: CacheState<V>, key: string, data: V, ttl: Option<int>, now: int)
    requires s.options.enabled && s.cache.Size() >= s.options.maxSize
    requires s.cache.First().Some? && s.cache.First().value != ""
    requires key !in s.cache.entries
    ensures SetStep(s, key, data, ttl, now).cache.order == RemoveKey(s.cache.order, s.cache.order[0]) + [key]
  {
  }

  lemma RemoveFirstThenAppend(keys: seq<string>, m: int)
    requires NoDuplicates(keys) && 1 <= m && |keys| == m + 1
    ensures RemoveKey(keys[..m], keys[0]) + [keys[m]] == keys[1..]
    ensures keys[0] !in keys[1..]
  {
    SliceCons(keys, 0, m);
    assert keys[0..m] == keys[..m];
    NoDuplicatesSlice(keys, 0, m);
    NoDuplicatesElsewhere(keys[..m], 0);
    FilterAppend([keys[0]], keys[1..m], NotKey(keys[0]));
    FilterKeepsAll(keys[1..m], NotKey(keys[0]));
    SliceSnoc(keys, 1, m + 1);
    assert keys[1..m + 1] == keys[1..];
    NoDuplicatesElsewhere(keys, 0);
  }

  /** Setting `maxSize + 1` distinct keys into an empty cache leaves exactly
      `maxSize` entries and the first key gone. */
  lemma FillThenOverflow<V>(s: CacheState<V>, keys: seq<string>, data: V, now: int)
    requires s.options.enabled && s.cache == Empty() && s.options.maxSize >= 1
    requires NoDuplicates(keys) && |keys| == s.options.maxSize + 1 && keys[0] != ""
    ensures var c := SetEach(s, keys, data, now).cache;
      c.Size() == s.options.maxSize && keys[0] !in c.entries && c.order == keys[1..]
  {
    var m := s.options.maxSize;
    var before := SetEach(s, keys[..m], data, now);
    assert before.cache.order == keys[..m] && before.cache.Valid() by {
      NoDuplicatesSlice(keys, 0, m);
      FillInOrder(s, keys[..m], data, now);
    }
    assert keys[m] !in before.cache.entries by {
      NoDuplicatesElsewhere(keys, m);
    }
    assert before.cache.First() == Some(keys[0]);
    var after := SetStep(before, keys[m], data, None, now);
    assert after == SetEach(s, keys, data, now) by {
      assert keys[..|keys| - 1] == keys[..m];
    }
    SetAtCapacityEvictsFirst(before, keys[m], data, None, now);
    RemoveFirstThenAppend(keys, m);
    assert after.cache.order == keys[1..];
    assert after.cache.Valid();
  }

  /** What `clearExpired` has made of `c0` after visiting its first `i` keys:
      the stale ones among them are gone, the rest of `c0` is still there. */
  ghost function SweptPrefix<V>(c0: OrderedMap<CacheEntry<V>>, i: int, now: int): OrderedMap<CacheEntry<V>>
    requires 0 <= i <= |c0.order|
  {
    OrderedMap(Filter(c0.order[..i], IsLive(c0.entries, now)) + c0.order[i..],
               map k | k in c0.entries && (k in c0.order[..i] ==> !Expired(c0.entries[k], now)) :: c0.entries[k])
  }

  /** Visiting the next key moves from one prefix to the next. */
  lemma SweepOne<V>(c0: OrderedMap<CacheEntry<V>>, i: int, now: int)
    requires c0.Valid() && 0 <= i < |c0.order|
    ensures c0.order[i] in SweptPrefix(c0, i, now).entries
    ensures var c, key := SweptPrefix(c0, i, now), c0.order[i];
      SweptPrefix(c0, i + 1, now) == if now > c.entries[key].expiresAt then c.Remove(key) else c
  {
    var keys, key, live := c0.order, c0.order[i], IsLive(c0.entries, now);
    var c, next := SweptPrefix(c0, i, now), SweptPrefix(c0, i + 1, now);
    NoDuplicatesElsewhere(keys, i);
    assert key in c0.entries;
    assert keys[..i + 1] == keys[..i] + [key];
    if now > c.entries[key].expiresAt {
      assert next.order == c.Remove(key).order by {
        DropOrder(keys, i, live, c.order);
      }
      assert next.entries == c.entries - {key};
    } else {
      assert next.order == c.order by {
        KeepOrder(keys, i, live);
      }
      assert next.entries == c.entries;
    }
  }

  /** The order after dropping the stale key visited next. */
  lemma DropOrder(keys: seq<string>, i: int, live: string -> bool, order: seq<string>)
    requires NoDuplicates(keys) && 0 <= i < |keys| && !live(keys[i])
    requires order == Filter(keys[..i], live) + keys[i..]
    ensures RemoveKey(order, keys[i]) == Filter(keys[..i + 1], live) + keys[i + 1..]
  {
    var key, front := keys[i], Filter(keys[..i], live);
    NoDuplicatesElsewhere(keys, i);
    assert key !in front;
    assert keys[i..] == [key] + keys[i + 1..];
    assert order == front + [key] + keys[i + 1..];
    RemoveKeyBetween(front, key, keys[i + 1..]);
    FilterStep(keys, i, live);
  }

  /** The order after keeping the live key visited next. */
  lemma KeepOrder(keys: seq<string>, i: int, live: string -> bool)
    requires 0 <= i < |keys| && live(keys[i])
    ensures Filter(keys[..i], live) + keys[i..] == Filter(keys[..i + 1], live) + keys[i + 1..]
  {
    FilterStep(keys, i, live);
    assert keys[i..] == [keys[i]] + keys[i + 1..];
  }

  /** Before any key is visited nothing has changed; after the last, the map is `Sweep(c0, now)`. */
  lemma SweepEnds<V>(c0: OrderedMap<CacheEntry<V>>, now: int)
    requires c0.Valid()
    ensures SweptPrefix(c0, 0, now) == c0
    ensures SweptPrefix(c0, |c0.order|, now) == Sweep(c0, now)
  {
    var n := |c0.order|;
    assert c0.order[..0] == [] && c0.order[0..] == c0.order;
    assert SweptPrefix(c0, 0, now).entries == c0.entries;
    assert c0.order[..n] == c0.order && c0.order[n..] == [];
    assert SweptPrefix(c0, n, now).entries == Sweep(c0, now).entries;
  }

  /** Filtering one more element of a prefix. */
  lemma FilterStep(keys: seq<string>, i: int, p: string -> bool)
    requires 0 <= i < |keys|
    ensures Filter(keys[..i + 1], p) == Filter(keys[..i], p) + (if p(keys[i]) then [keys[i]] else [])
  {
    assert keys[..i + 1] == keys[..i] + [keys[i]];
    FilterAppend(keys[..i], [keys[i]], p);
  }

  // ---------------------------------------------------------------------------
  // The cache object

  class Cache<V> {
    var cache: OrderedMap<CacheEntry<V>>
    var options: CacheOptions
    var hits: nat
    var misses: nat

    ghost predicate Valid()
      reads this
    {
      cache.Valid()
    }

    function State(): CacheState<V>
      reads this
    {
      CacheState(cache, options, hits, misses)
    }

    constructor (opts: CacheOptionsInput)
      ensures Valid() && State() == Initial(opts)
    {
      cache := Empty();
      options := ResolveOptions(opts);
      hits := 0;
      misses := 0;
    }

    method Get(key: string, now: int) returns (r: Option<V>)
      requires Valid()
      modifies this
      ensures Valid()
      ensures (State(), r) == GetStep(old(State()), key, now)
    {
      if !options.enabled {
        misses := misses + 1;
        return None;
      }
      var entry := cache.Get(key);
      if entry.None? {
        misses := misses + 1;
        return None;
      }
      if now > entry.value.expiresAt {
        cache := cache.Remove(key);
        misses := misses + 1;
        return None;
      }
      hits := hits + 1;
      return Some(entry.value.data);
    }

    method Set(key: string, data: V, ttl: Option<int>, now: int)
      requires Valid()
      modifies this
      ensures Valid()
      ensures State() == SetStep(old(State()), key, data, ttl, now)
    {
      if !options.enabled {
        return;
      }
      ghost var expected := SetStep(State(), key, data, ttl, now);
      var c := cache;
      if c.Size() >= options.maxSize {
        var firstKey := c.First();
        if firstKey.Some? && firstKey.value != "" {
          c := c.Remove(firstKey.value);
        }
      }
      assert c == EvictOldest(cache, options.maxSize);
      var cacheTtl := ttl.GetOr(options.ttl);
      var entry := CacheEntry(data, now, now + cacheTtl);
      cache := c.Put(key, entry);
      assert cache == expected.cache;
    }

    method Has(key: string, now: int) returns (b: bool)
      requires Valid()
      modifies this
      ensures Valid()
      ensures (State(), b) == HasStep(old(State()), key, now)
    {
      if !options.enabled {
        return false;
      }
      var entry := cache.Get(key);
      if entry.None? {
        return false;
      }
      if now > entry.value.expiresAt {
        cache := cache.Remove(key);
        return false;
      }
      return true;
    }

    method Clear()
      modifies this
      ensures Valid()
      ensures State() == ClearStep(old(State()))
    {
      cache := Empty();
      hits := 0;
      misses := 0;
    }

    /** Walks the entries in map order and deletes each stale one as it goes. */
    method ClearExpired(now: int)
      requires Valid()
      modifies this
      ensures Valid()
      ensures State() == ClearExpiredStep(old(State()), now)
    {
      var keys := cache.order;
      ghost var c0 := cache;
      var c := cache;
      var i := 0;
      SweepEnds(c0, now);
      while i < |keys|
        invariant 0 <= i <= |keys| && keys == c0.order
        invariant c == SweptPrefix(c0, i, now)
        invariant unchanged(this)
      {
        var key := keys[i];
        SweepOne(c0, i, now);
        var entry := c.entries[key];
        if now > entry.expiresAt {
          c := c.Remove(key);
        }
        i := i + 1;
      }
      cache := c;
      assert State() == old(State()).(cache := Sweep(c0, now));
    }

    function GetStats(): (r: CacheStats)
      reads this
      ensures r.size == cache.Size() && r.maxSize == options.maxSize
      ensures r.hits == hits && r.misses == misses && r.enabled == options.enabled && r.ttl == options.ttl
      ensures hits + misses == 0 ==> r.hitRate == 0.0
      ensures hits + misses > 0 ==> r.hitRate * (hits + misses) as real == hits as real * 100.0
      ensures 0.0 <= r.hitRate <= 100.0
    {
      var total := hits + misses;
      var rate := if total > 0 then hits as real / total as real * 100.0 else 0.0;
      assert total > 0 ==> hits as real / total as real <= 1.0;
      CacheStats(cache.Size(), options.maxSize, hits, misses, rate, options.enabled, options.ttl)
    }

    method SetEnabled(enabled: bool)
      requires Valid()
      modifies this
      ensures Valid()
      ensures State() == SetEnabledStep(old(State()), enabled)
    {
      options := options.(enabled := enabled);
      if !enabled {
        Clear();
      }
    }

    method SetTTL(ttl: int)
      requires Valid()
      modifies this
      ensures Valid()
      ensures State() == SetTtlStep(old(State()), ttl)
    {
      options := options.(ttl := ttl);
    }
  }
}
