/**
 * The market-data cache: one map per data type ("quote", "historical", "options",
 * "overview", and any other type on first use), keyed by "type:key", with hit, miss and
 * error counters. Expiry and size eviction are not modelled: entries stay until removed.
 */
module Cache {
  import opened Wrappers
  import opened Text
  import opened PyData

  /** The cache's whole state as a value: what the specification functions below work on. */
  datatype CacheState = CacheState(
    enabled: bool,
    caches: map<string, map<string, Value>>,
    hits: nat,
    misses: nat,
    errors: nat)

  const InitialTypes: set<string> := {"quote", "historical", "options", "overview"}

  function InitialState(enabled: bool): (s: CacheState)
    ensures s.caches.Keys == InitialTypes
    ensures forall t :: t in s.caches ==> s.caches[t] == map[]
    ensures s.hits == 0 && s.misses == 0 && s.errors == 0 && s.enabled == enabled
  {
    CacheState(enabled, map["quote" := map[], "historical" := map[], "options" := map[], "overview" := map[]], 0, 0, 0)
  }

  /** `_make_key`: the type, a colon, and the parts joined by colons. */
  function MakeKey(cacheType: string, parts: seq<string>): string {
    cacheType + ":" + Join(parts, ":")
  }

  /** With one part the key is "type:key", and different keys of one type never collide. */
  lemma {:induction false} MakeKeySingle(cacheType: string, key1: string, key2: string)
    ensures MakeKey(cacheType, [key1]) == cacheType + ":" + key1
    ensures MakeKey(cacheType, [key1]) == MakeKey(cacheType, [key2]) <==> key1 == key2
  {
    var p := cacheType + ":";
    if MakeKey(cacheType, [key1]) == MakeKey(cacheType, [key2]) {
      assert key1 == (p + key1)[|p|..];
      assert key2 == (p + key2)[|p|..];
    }
  }

  /** `_get_cache`: an unknown type gets a fresh, empty cache. */
  function WithCache(caches: map<string, map<string, Value>>, cacheType: string): (r: map<string, map<string, Value>>)
    ensures cacheType in r && r.Keys == caches.Keys + {cacheType}
    ensures cacheType !in caches ==> r[cacheType] == map[]
    ensures forall t :: t in caches ==> r[t] == caches[t]
  {
    if cacheType in caches then caches else caches[cacheType := map[]]
  }

  /** `cache.get(full_key)`: the stored value, or `None` when absent. */
  function Stored(caches: map<string, map<string, Value>>, cacheType: string, key: string): Value {
    var full := MakeKey(cacheType, [key]);
    if cacheType in caches && full in caches[cacheType] then caches[cacheType][full] else VNone
  }

  /** `get`: nothing when disabled; otherwise the stored value, counted as a hit unless it is `None`. */
  function GetStep(s: CacheState, cacheType: string, key: string): (CacheState, Value) {
    if !s.enabled then (s, VNone)
    else
      var caches := WithCache(s.caches, cacheType);
      var v := Stored(caches, cacheType, key);
      if v != VNone then (s.(caches := caches, hits := s.hits + 1), v)
      else (s.(caches := caches, misses := s.misses + 1), VNone)
  }

  /** `set`: nothing when disabled; otherwise the value is stored under its full key. */
  function SetStep(s: CacheState, cacheType: string, key: string, value: Value): CacheState {
    if !s.enabled then s
    else
      var caches := WithCache(s.caches, cacheType);
      s.(caches := caches[cacheType := caches[cacheType][MakeKey(cacheType, [key]) := value]])
  }

  /** `invalidate`: nothing when disabled; one key removed, or with no key the whole type emptied. */
  function InvalidateStep(s: CacheState, cacheType: string, key: Option<string>): CacheState {
    if !s.enabled then s
    else
      var caches := WithCache(s.caches, cacheType);
      match key
      case None => s.(caches := caches[cacheType := map[]])
      case Some(k) => s.(caches := caches[cacheType := caches[cacheType] - {MakeKey(cacheType, [k])}])
  }

  /** `clear_all`: every cache emptied and every counter reset, whether or not the cache is enabled. */
  function ClearAllStep(s: CacheState): CacheState {
    s.(caches := map t | t in s.caches :: map[], hits := 0, misses := 0, errors := 0)
  }

  /** `get_or_fetch`: the new state, the value (or the fetch's exception) and whether fetch was called. */
  function GetOrFetchStep(s: CacheState, cacheType: string, key: string, fetched: Result<Value, string>)
    : (CacheState, Result<Value, string>, bool)
  {
    var (s1, cached) := GetStep(s, cacheType, key);
    if cached != VNone then (s1, Ok(cached), false)
    else
      match fetched
      case Err(e) => (s1, Err(e), true)
      case Ok(v) => (SetStep(s1, cacheType, key, v), Ok(v), true)
  }

  datatype CacheStats = CacheStats(
    hits: nat,
    misses: nat,
    errors: nat,
    totalRequests: nat,
    hitRate: real,
    cacheSizes: map<string, nat>)

  // ---------------------------------------------------------------- Properties

  /** A disabled cache answers `None` and `set`, `get` and `invalidate` change nothing. */
  lemma {:induction false} DisabledIsInert(s: CacheState, cacheType: string, key: string, value: Value, k: Option<string>)
    requires !s.enabled
    ensures GetStep(s, cacheType, key) == (s, VNone)
    ensures SetStep(s, cacheType, key, value) == s
    ensures InvalidateStep(s, cacheType, k) == s
  {
  }

  /** A `set` followed by a `get` of the same type and key returns the value and counts one hit. */
  lemma {:induction false} SetThenGet(s: CacheState, cacheType: string, key: string, value: Value)
    requires s.enabled && value != VNone
    ensures var s1 := SetStep(s, cacheType, key, value);
      GetStep(s1, cacheType, key) == (s1.(hits := s.hits + 1), value)
    ensures var s1 := SetStep(s, cacheType, key, value);
      s1.hits == s.hits && s1.misses == s.misses && s1.errors == s.errors
  {
  }

  /** A `get` of an absent key, or of a stored `None`, returns `None` and counts one miss. */
  lemma {:induction false} GetMiss(s: CacheState, cacheType: string, key: string)
    requires s.enabled && Stored(s.caches, cacheType, key) == VNone
    ensures GetStep(s, cacheType, key).1 == VNone
    ensures GetStep(s, cacheType, key).0.misses == s.misses + 1
    ensures GetStep(s, cacheType, key).0.hits == s.hits
  {
    if cacheType !in s.caches {
      assert Stored(WithCache(s.caches, cacheType), cacheType, key) == VNone;
    }
  }

  /** Storing under one type and key leaves every other type, and every other key of that type, as it was. */
  lemma {:induction false} SetIsolated(s: CacheState, cacheType: string, key: string, value: Value, otherType: string, otherKey: string)
    requires otherType != cacheType || otherKey != key
    ensures Stored(SetStep(s, cacheType, key, value).caches, otherType, otherKey) == Stored(s.caches, otherType, otherKey)
  {
    MakeKeySingle(cacheType, key, otherKey);
  }

  /** An unknown type is created empty on first use, and the lookup misses. */
  lemma {:induction false} UnknownTypeFresh(s: CacheState, cacheType: string, key: string)
    requires s.enabled && cacheType !in s.caches
    ensures var (s1, v) := GetStep(s, cacheType, key);
      v == VNone && cacheType in s1.caches && s1.caches[cacheType] == map[] && s1.misses == s.misses + 1
  {
  }

  /**
   * Invalidating one key removes exactly that key; invalidating a type empties that type
   * only. Every other type is left alone either way.
   */
  lemma {:induction false} InvalidateSpec(s: CacheState, cacheType: string, key: string, otherType: string, otherKey: string)
    requires s.enabled
    ensures Stored(InvalidateStep(s, cacheType, Some(key)).caches, cacheType, key) == VNone
    ensures otherType != cacheType || otherKey != key ==>
      Stored(InvalidateStep(s, cacheType, Some(key)).caches, otherType, otherKey) == Stored(s.caches, otherType, otherKey)
    ensures InvalidateStep(s, cacheType, None).caches[cacheType] == map[]
    ensures otherType != cacheType ==>
      Stored(InvalidateStep(s, cacheType, None).caches, otherType, otherKey) == Stored(s.caches, otherType, otherKey)
    ensures InvalidateStep(s, cacheType, Some(key)).hits == s.hits && InvalidateStep(s, cacheType, None).misses == s.misses
  {
    MakeKeySingle(cacheType, key, otherKey);
  }

  /** After `clear_all` every known type is empty, no type is added or lost, and the counters are zero. */
  lemma {:induction false} ClearAllSpec(s: CacheState, cacheType: string, key: string)
    ensures var c := ClearAllStep(s);
      && c.caches.Keys == s.caches.Keys
      && (forall t :: t in c.caches ==> c.caches[t] == map[])
      && c.hits == 0 && c.misses == 0 && c.errors == 0
      && Stored(c.caches, cacheType, key) == VNone
  {
  }

  /**
   * `get_or_fetch`: a cached non-`None` value is returned without calling fetch; otherwise
   * fetch is called, and its value stored and returned. When fetch raises, nothing is
   * stored and the exception propagates.
   */
  lemma {:induction false} GetOrFetchSpec(s: CacheState, cacheType: string, key: string, fetched: Result<Value, string>)
    ensures var (s1, r, called) := GetOrFetchStep(s, cacheType, key, fetched);
      s.enabled && Stored(s.caches, cacheType, key) != VNone ==>
        !called && r == Ok(Stored(s.caches, cacheType, key)) && s1.hits == s.hits + 1
    ensures var (s1, r, called) := GetOrFetchStep(s, cacheType, key, fetched);
      s.enabled && Stored(s.caches, cacheType, key) == VNone && fetched.Ok? ==>
        called && r == fetched && Stored(s1.caches, cacheType, key) == fetched.value && s1.misses == s.misses + 1
    ensures var (s1, r, called) := GetOrFetchStep(s, cacheType, key, fetched);
      !s.enabled ==> called && r == fetched && s1 == s
    ensures var (s1, r, called) := GetOrFetchStep(s, cacheType, key, fetched);
      fetched.Err? && called ==> r == fetched && s1.caches == GetStep(s, cacheType, key).0.caches
  {
    if s.enabled && Stored(s.caches, cacheType, key) != VNone {
      assert Stored(WithCache(s.caches, cacheType), cacheType, key) == Stored(s.caches, cacheType, key);
    }
    if s.enabled && Stored(s.caches, cacheType, key) == VNone {
      GetMiss(s, cacheType, key);
    }
  }

  // ---------------------------------------------------------------- The object

  class CacheManager {
    var enabled: bool
    var caches: map<string, map<string, Value>>
    var hits: nat
    var misses: nat
    var errors: nat

    function State(): CacheState
      reads this
    {
      CacheState(enabled, caches, hits, misses, errors)
    }

    /** A new manager: the four standard caches, empty, and zero counters. */
    constructor(enabled: bool)
      ensures State() == InitialState(enabled)
    {
      this.enabled := enabled;
      caches := map["quote" := map[], "historical" := map[], "options" := map[], "overview" := map[]];
      hits := 0;
      misses := 0;
      errors := 0;
    }

    /** `_get_cache`: the type's cache, created empty when the type is new. */
    method GetCache(cacheType: string) returns (cache: map<string, Value>)
      modifies this
      ensures State() == old(State()).(caches := WithCache(old(caches), cacheType))
      ensures cache == caches[cacheType]
    {
      if cacheType !in caches {
        caches := caches[cacheType := map[]];
      }
      cache := caches[cacheType];
    }

    method Get(cacheType: string, key: string) returns (value: Value)
      modifies this
      ensures (State(), value) == GetStep(old(State()), cacheType, key)
    {
      if !enabled {
        return VNone;
      }
      var cache := GetCache(cacheType);
      var fullKey := MakeKey(cacheType, [key]);
      value := if fullKey in cache then cache[fullKey] else VNone;
      if value != VNone {
        hits := hits + 1;
      } else {
        misses := misses + 1;
      }
    }

    method Set(cacheType: string, key: string, value: Value)
      modifies this
      ensures State() == SetStep(old(State()), cacheType, key, value)
    {
      if !enabled {
        return;
      }
      var cache := GetCache(cacheType);
      var fullKey := MakeKey(cacheType, [key]);
      caches := caches[cacheType := cache[fullKey := value]];
    }

    /** `get_or_fetch`, with `fetch` standing for the awaited fetch function; `called` says whether it ran. */
    method GetOrFetch(cacheType: string, key: string, fetch: () -> Result<Value, string>)
      returns (r: Result<Value, string>, called: bool)
      modifies this
      ensures (State(), r, called) == GetOrFetchStep(old(State()), cacheType, key, fetch())
    {
      var cached := Get(cacheType, key);
      if cached != VNone {
        return Ok(cached), false;
      }
      var fetched := fetch();
      if fetched.Err? {
        return Err(fetched.error), true;
      }
      Set(cacheType, key, fetched.value);
      return Ok(fetched.value), true;
    }

    method Invalidate(cacheType: string, key: Option<string>)
      modifies this
      ensures State() == InvalidateStep(old(State()), cacheType, key)
    {
      if !enabled {
        return;
      }
      var cache := GetCache(cacheType);
      if key.None? {
        caches := caches[cacheType := map[]];
      } else {
        caches := caches[cacheType := cache - {MakeKey(cacheType, [key.value])}];
      }
    }

    method ClearAll()
      modifies this
      ensures State() == ClearAllStep(old(State()))
    {
      caches := map t | t in caches :: map[];
      hits := 0;
      misses := 0;
      errors := 0;
    }

    /**
     * `get_stats`: the counters, total requests as hits plus misses, the hit rate (0 with
     * no requests), and the number of entries of each cache type.
     */
    function GetStats(): (st: CacheStats)
      reads this
      ensures st.hits == hits && st.misses == misses && st.errors == errors
      ensures st.totalRequests == hits + misses
      ensures st.totalRequests == 0 ==> st.hitRate == 0.0
      ensures st.totalRequests > 0 ==> st.hitRate * (st.totalRequests as real) == hits as real
      ensures 0.0 <= st.hitRate <= 1.0
      ensures st.cacheSizes.Keys == caches.Keys
      ensures forall t :: t in caches ==> st.cacheSizes[t] == |caches[t]|
    {
      var total := hits + misses;
      var rate := if total > 0 then hits as real / total as real else 0.0;
      assert total > 0 ==> rate * (total as real) == hits as real;
      CacheStats(hits, misses, errors, total, rate, map t | t in caches :: |caches[t]|)
    }
  }
}
