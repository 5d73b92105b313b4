/**
 * The single shared response cache: keys namespaced as "prefix:key", values kept
 * for a fixed time-to-live, at most a fixed number of entries. The store is a map
 * from key to the value and the time it was written; the clock is the `now`
 * argument of every operation.
 */
module Cache {
  import opened Wrappers

  /** The namespaced key "prefix:key". */
  function MakeKey(prefix: string, key: string): (k: string)
    ensures |k| == |prefix| + 1 + |key|
    ensures k[..|prefix|] == prefix && k[|prefix|] == ':' && k[|prefix| + 1..] == key
  {
    prefix + ":" + key
  }

  /** Under one prefix, distinct keys give distinct namespaced keys. */
  lemma MakeKeyInjective(prefix: string, key1: string, key2: string)
    requires MakeKey(prefix, key1) == MakeKey(prefix, key2)
    ensures key1 == key2
  {
    assert key1 == MakeKey(prefix, key1)[|prefix| + 1..];
  }

  /** Across prefixes that contain ':' the namespacing is ambiguous. */
  lemma MakeKeyCollidesAcrossPrefixes()
    ensures MakeKey("a:b", "c") == MakeKey("a", "b:c")
  {
  }

  /** A stored value and the time it was written. */
  datatype Entry<V> = Entry(value: V, inserted: int)

  type Store<V> = map<string, Entry<V>>

  /** An entry is live until `ttl` has elapsed since it was written. */
  predicate Live<V>(e: Entry<V>, now: int, ttl: int) {
    now < e.inserted + ttl
  }

  /** What a read at time `now` sees: the value of a live entry, None for a missing or expired one. */
  function Lookup<V>(s: Store<V>, k: string, now: int, ttl: int): (r: Option<V>)
    ensures r.Some? <==> k in s && Live(s[k], now, ttl)
    ensures r.Some? ==> r.value == s[k].value
  {
    if k in s && Live(s[k], now, ttl) then Some(s[k].value) else None
  }

  /** The store with its expired entries dropped, which changes no read at `now` or later. */
  function Purge<V>(s: Store<V>, now: int, ttl: int): (p: Store<V>)
    ensures p.Keys <= s.Keys && |p| <= |s|
    ensures forall k :: k in p ==> p[k] == s[k] && Live(s[k], now, ttl)
    ensures forall k :: k in s && Live(s[k], now, ttl) ==> k in p
  {
    var p := map k | k in s && Live(s[k], now, ttl) :: s[k];
    assert |p.Keys| <= |s.Keys| by {
      SubsetCardinality(p.Keys, s.Keys);
    }
    p
  }

  lemma {:induction false} SubsetCardinality<T>(a: set<T>, b: set<T>)
    requires a <= b
    ensures |a| <= |b|
  {
    if a != {} {
      var x :| x in a;
      SubsetCardinality(a - {x}, b - {x});
    }
  }

  /**
   * `_cache[k] = value` at time `now` on a store of capacity `cap`: expired
   * entries are dropped; when `k` is new and the store is full, one live entry
   * (which one is not modelled) is evicted; then `k` holds `value` written at
   * `now`.
   */
  ghost predicate IsInsert<V>(s: Store<V>, s': Store<V>, k: string, value: V, now: int, ttl: int, cap: nat) {
    var p := Purge(s, now, ttl);
    if k in p || |p| < cap then s' == p[k := Entry(value, now)]
    else exists victim :: victim in p && s' == (p - {victim})[k := Entry(value, now)]
  }

  /** After a write, the key reads as the written value until the TTL elapses, and as absent after. */
  lemma LookupAfterInsert<V>(s: Store<V>, s': Store<V>, k: string, value: V, now: int, ttl: int, cap: nat, t: int)
    requires IsInsert(s, s', k, value, now, ttl, cap)
    ensures k in s' && s'[k] == Entry(value, now)
    ensures Lookup(s', k, t, ttl) == if t < now + ttl then Some(value) else None
  {
    var p := Purge(s, now, ttl);
    if !(k in p || |p| < cap) {
      var victim :| victim in p && s' == (p - {victim})[k := Entry(value, now)];
    }
    assert k in s' && s'[k] == Entry(value, now);
  }

  /**
   * A write to one key never changes what another key reads: an other key either
   * reads as before or (expired, or evicted for capacity) as absent.
   */
  lemma InsertKeepsOthers<V>(s: Store<V>, s': Store<V>, k: string, value: V, now: int, ttl: int, cap: nat, k': string)
    requires IsInsert(s, s', k, value, now, ttl, cap) && k' != k
    ensures k' in s' ==> k' in s && s'[k'] == s[k'] && Live(s[k'], now, ttl)
  {
    var p := Purge(s, now, ttl);
    if !(k in p || |p| < cap) {
      var victim :| victim in p && s' == (p - {victim})[k := Entry(value, now)];
    }
  }

  /** The read of any other key at `t` is either unchanged or absent. */
  lemma InsertOtherReads<V>(s: Store<V>, s': Store<V>, k: string, value: V, now: int, ttl: int, cap: nat, k': string, t: int)
    requires IsInsert(s, s', k, value, now, ttl, cap) && k' != k
    ensures Lookup(s', k', t, ttl) == Lookup(s, k', t, ttl) || Lookup(s', k', t, ttl) == None
  {
    InsertKeepsOthers(s, s', k, value, now, ttl, cap, k');
  }

  /** While there is room (or `k` is overwritten), nothing is evicted: every other read from `now` on is unchanged. */
  lemma InsertWithRoomKeepsReads<V>(s: Store<V>, s': Store<V>, k: string, value: V, now: int, ttl: int, cap: nat, k': string, t: int)
    requires IsInsert(s, s', k, value, now, ttl, cap) && k' != k && t >= now
    requires k in Purge(s, now, ttl) || |Purge(s, now, ttl)| < cap
    ensures Lookup(s', k', t, ttl) == Lookup(s, k', t, ttl)
  {
  }

  /** A write makes at most one key newly live at `now`: the key written. */
  lemma InsertLiveKeys<V>(s: Store<V>, s': Store<V>, k: string, value: V, now: int, ttl: int, cap: nat)
    requires IsInsert(s, s', k, value, now, ttl, cap)
    ensures Purge(s', now, ttl).Keys <= Purge(s, now, ttl).Keys + {k}
    ensures |Purge(s', now, ttl)| <= |Purge(s, now, ttl)| + 1
  {
    var p, q := Purge(s, now, ttl), Purge(s', now, ttl);
    forall k' | k' in q && k' != k
      ensures k' in p
    {
      InsertKeepsOthers(s, s', k, value, now, ttl, cap, k');
    }
    SubsetCardinality(q.Keys, p.Keys + {k});
  }

  /**
   * With room for the write and a positive TTL nothing is evicted: the keys live
   * at `now` afterwards are those live before, and the key written.
   */
  lemma InsertWithRoomKeepsLive<V>(s: Store<V>, s': Store<V>, k: string, value: V, now: int, ttl: int, cap: nat)
    requires IsInsert(s, s', k, value, now, ttl, cap) && ttl > 0
    requires k in Purge(s, now, ttl) || |Purge(s, now, ttl)| < cap
    ensures Purge(s', now, ttl).Keys == Purge(s, now, ttl).Keys + {k}
  {
    InsertLiveKeys(s, s', k, value, now, ttl, cap);
    var p := Purge(s, now, ttl);
    assert s' == p[k := Entry(value, now)];
  }

  /** A write keeps the number of stored entries, and so of live ones, within the capacity. */
  lemma InsertWithinCapacity<V>(s: Store<V>, s': Store<V>, k: string, value: V, now: int, ttl: int, cap: nat, t: int)
    requires IsInsert(s, s', k, value, now, ttl, cap) && |s| <= cap && cap >= 1
    ensures |s'| <= cap
    ensures |Purge(s', t, ttl)| <= cap
  {
    var p := Purge(s, now, ttl);
    var e := Entry(value, now);
    if k in p || |p| < cap {
      UpdateCardinality(p, k, e);
    } else {
      var victim :| victim in p && s' == (p - {victim})[k := e];
      RemoveCardinality(p, victim);
      UpdateCardinality(p - {victim}, k, e);
    }
  }

  lemma UpdateCardinality<V>(m: Store<V>, k: string, e: Entry<V>)
    ensures |m[k := e]| == if k in m then |m| else |m| + 1
  {
    if k in m {
      assert m[k := e].Keys == m.Keys;
    } else {
      assert m[k := e].Keys == m.Keys + {k};
    }
  }

  lemma RemoveCardinality<V>(m: Store<V>, x: string)
    requires x in m
    ensures |m - {x}| == |m| - 1
  {
    assert (m - {x}).Keys == m.Keys - {x};
  }

  /**
   * The shared store `_cache`: a TTLCache whose time-to-live and maximum size are
   * fixed when it is built. `get`, `set` and `clear` are methods on it, each
   * taking the namespace prefix and the key separately as the source does.
   */
  class ExpiringCache<V> {
    const ttl: int
    const capacity: nat
    var entries: Store<V>

    /** The store never holds more entries than its capacity. */
    ghost predicate Valid()
      reads this
    {
      capacity >= 1 && |entries| <= capacity
    }

    constructor (maxEntries: nat, ttlSeconds: int)
      requires maxEntries >= 1
      ensures Valid()
      ensures capacity == maxEntries && ttl == ttlSeconds && entries == map[]
    {
      ttl := ttlSeconds;
      capacity := maxEntries;
      entries := map[];
    }

    /** `get_cache(prefix, key)`: the live value under "prefix:key", or None. */
    function Get(prefix: string, key: string, now: int): (r: Option<V>)
      reads this
      ensures r.Some? <==> MakeKey(prefix, key) in entries && now < entries[MakeKey(prefix, key)].inserted + ttl
      ensures r.Some? ==> r.value == entries[MakeKey(prefix, key)].value
    {
      Lookup(entries, MakeKey(prefix, key), now, ttl)
    }

    /** `set_cache(prefix, key, value)`: write `value` under "prefix:key" at time `now`. */
    method Set(prefix: string, key: string, value: V, now: int)
      requires Valid()
      modifies this
      ensures Valid()
      ensures IsInsert(old(entries), entries, MakeKey(prefix, key), value, now, ttl, capacity)
    {
      var k := MakeKey(prefix, key);
      var live := Purge(entries, now, ttl);
      if k in live || |live| < capacity {
        entries := live[k := Entry(value, now)];
      } else {
        assert live.Keys != {} by {
          assert |live.Keys| >= 1;
        }
        var victim :| victim in live;
        entries := (live - {victim})[k := Entry(value, now)];
      }
      InsertWithinCapacity(old(entries), entries, k, value, now, ttl, capacity, now);
    }

    /** `clear_cache()`: every key reads as absent afterwards. */
    method Clear()
      requires Valid()
      modifies this
      ensures Valid()
      ensures entries == map[]
      ensures forall k, t :: Lookup(entries, k, t, ttl) == None
    {
      entries := map[];
    }
  }
}
