/** The unified cache of server/controller/SummaryGenerate.js: the module flags
    `isRedisConnected` and `useInMemoryCache`, the Redis client (present or `null`), the
    Redis keyspace and the in-process `Map`. Redis itself is not modelled; its keyspace is a
    map, and whether its next command succeeds is the environment flag `remoteHealthy`. */
module CacheBackend {
  import opened Wrappers
  import opened Text
  import opened MemoryCache

  datatype Backend<V> = Backend(
    redisPresent: bool,
    redisConnected: bool,
    useInMemoryCache: bool,
    remote: map<string, V>,
    remoteHealthy: bool,
    mem: Mem<V>)

  /** A Redis command that `safeRedisOperation` may run. */
  datatype RedisOp<V> = RedisGet(key: string) | RedisSetex(key: string, ttl: int, value: V)

  /** A Redis reply as `safeRedisOperation` hands it back: `null`, a stored value, or the
      `"OK"` of a write. */
  datatype Reply<V> = Nil | Stored(value: V) | Ok

  /** `isRedisConnected && redis`. */
  predicate RedisActive<V>(b: Backend<V>) {
    b.redisConnected && b.redisPresent
  }

  /** The `catch` of `safeRedisOperation`: switch to the in-memory cache. */
  function RedisFailed<V>(b: Backend<V>): Backend<V> {
    b.(redisConnected := false, useInMemoryCache := true)
  }

  /** What a Redis command does to the keyspace and what it answers. */
  function RunRedis<V>(b: Backend<V>, op: RedisOp<V>): (Backend<V>, Reply<V>) {
    match op
    case RedisGet(key) => (b, if key in b.remote then Stored(b.remote[key]) else Nil)
    case RedisSetex(key, _, value) => (b.(remote := b.remote[key := value]), Ok)
  }

  /** `safeRedisOperation(operation)`. */
  function SafeRedis<V>(b: Backend<V>, op: RedisOp<V>): (Backend<V>, Reply<V>) {
    if RedisActive(b) then
      if b.remoteHealthy then RunRedis(b, op) else (RedisFailed(b), Nil)
    else (b, Nil)
  }

  /** A reply read as a cache hit. */
  function AsHit<V>(r: Reply<V>): Option<V> {
    if r.Stored? then Some(r.value) else None
  }

  /** `getFromCache(key)` at time `now`. */
  function CacheGet<V>(b: Backend<V>, key: string, now: int): (Backend<V>, Option<V>) {
    if RedisActive(b) then
      var (b', r) := SafeRedis(b, RedisGet(key));
      (b', AsHit(r))
    else if b.useInMemoryCache then
      var (m, r) := GetEntry(b.mem, key, now);
      (b.(mem := m), r)
    else (b, None)
  }

  /** `setCache(key, value, ttl)` at time `now`. */
  function CacheSet<V>(b: Backend<V>, key: string, value: V, ttl: int, now: int): Backend<V>
    requires Wf(b.mem)
  {
    if RedisActive(b) then SafeRedis(b, RedisSetex(key, ttl, value)).0
    else if b.useInMemoryCache then b.(mem := SetEntry(b.mem, key, value, ttl, now))
    else b
  }

  /** The Redis keyspace after deleting the keys of `summaries:*` and of `summary:*`. */
  function WithoutSummaryKeys<V>(remote: map<string, V>): map<string, V> {
    map k | k in remote && !StartsWith(k, "summaries:") && !StartsWith(k, "summary:") :: remote[k]
  }

  /** `invalidateAllCache(summaryId)`. The Redis branch is not wrapped in
      `safeRedisOperation`: a failing command is caught and logged, and the flags stay. */
  function CacheInvalidate<V>(b: Backend<V>, summaryId: Option<string>): Backend<V> {
    if RedisActive(b) then
      if b.remoteHealthy then b.(remote := WithoutSummaryKeys(b.remote)) else b
    else if b.useInMemoryCache then b.(mem := Invalidate(b.mem, summaryId))
    else b
  }

  /** The client's `connect` event. */
  function Connected<V>(b: Backend<V>): Backend<V> {
    b.(redisConnected := true, useInMemoryCache := false)
  }

  /** The client's `error` event, which also drops the client. */
  function Errored<V>(b: Backend<V>): Backend<V> {
    b.(redisConnected := false, useInMemoryCache := true, redisPresent := false)
  }

  /** The client's `close` event. */
  function Closed<V>(b: Backend<V>): Backend<V> {
    b.(redisConnected := false, useInMemoryCache := true)
  }

  /** `initializeRedis()`: a new client answers `ping` when Redis is healthy. */
  function Initialized<V>(b: Backend<V>): Backend<V> {
    if b.remoteHealthy then b.(redisPresent := true, redisConnected := true)
    else b.(redisPresent := false, redisConnected := false, useInMemoryCache := true)
  }

  ghost predicate Good<V>(b: Backend<V>) {
    Wf(b.mem) && Size(b.mem) <= MaxSize
  }

  /** With neither flag set, nothing is read, written or invalidated. */
  lemma NoModeNoCaching<V>(b: Backend<V>, key: string, value: V, ttl: int, now: int, summaryId: Option<string>)
    requires Good(b) && !b.redisConnected && !b.useInMemoryCache
    ensures CacheGet(b, key, now) == (b, None)
    ensures CacheSet(b, key, value, ttl, now) == b
    ensures CacheInvalidate(b, summaryId) == b
  {
  }

  /** A Redis command that throws never surfaces as an error: it answers nothing and
      switches the cache to memory mode, where the next read and write go. */
  lemma FailureSwitchesToMemory<V>(b: Backend<V>, op: RedisOp<V>, key: string, value: V, ttl: int, now: int)
    requires Good(b) && RedisActive(b) && !b.remoteHealthy
    ensures SafeRedis(b, op) == (RedisFailed(b), Nil)
    ensures CacheGet(b, key, now).1 == None
    ensures !RedisActive(CacheGet(b, key, now).0) && CacheGet(b, key, now).0.useInMemoryCache
    ensures CacheSet(b, key, value, ttl, now) == RedisFailed(b)
    ensures CacheSet(RedisFailed(b), key, value, ttl, now).mem == SetEntry(b.mem, key, value, ttl, now)
    ensures CacheGet(RedisFailed(b), key, now).1 == GetEntry(b.mem, key, now).1
  {
  }

  /** A write followed by a read of the same key, while the TTL has not run out and the
      backend in use works, returns the value written. */
  lemma {:induction false} SetThenGet<V>(b: Backend<V>, key: string, value: V, ttl: int, now: int, later: int)
    requires Good(b)
    requires RedisActive(b) || b.useInMemoryCache
    requires RedisActive(b) ==> b.remoteHealthy
    requires now <= later <= now + ttl * 1000
    ensures CacheGet(CacheSet(b, key, value, ttl, now), key, later).1 == Some(value)
  {
    if !RedisActive(b) {
      SetEntryEffect(b.mem, key, value, ttl, now);
    }
  }

  /** In memory mode a read after the TTL has run out returns nothing. */
  lemma {:induction false} ExpiredReadMisses<V>(b: Backend<V>, key: string, value: V, ttl: int, now: int, later: int)
    requires Good(b) && !RedisActive(b) && b.useInMemoryCache
    requires later > now + ttl * 1000
    ensures CacheGet(CacheSet(b, key, value, ttl, now), key, later).1 == None
    ensures key !in CacheGet(CacheSet(b, key, value, ttl, now), key, later).0.mem.entries
  {
    SetEntryEffect(b.mem, key, value, ttl, now);
  }

  /** The Redis branch deletes every `summary:` key, whichever id was given, with every
      `summaries:` key, and keeps every other key. */
  lemma RedisInvalidateEffect<V>(b: Backend<V>, summaryId: Option<string>, k: string)
    requires RedisActive(b) && b.remoteHealthy
    ensures (StartsWith(k, "summary:") || StartsWith(k, "summaries:")) ==> k !in CacheInvalidate(b, summaryId).remote
    ensures !StartsWith(k, "summary:") && !StartsWith(k, "summaries:") && k in b.remote ==>
      k in CacheInvalidate(b, summaryId).remote && CacheInvalidate(b, summaryId).remote[k] == b.remote[k]
  {
  }

  /** Every operation keeps the in-memory map well formed and within its bound. */
  lemma GetKeepsGood<V>(b: Backend<V>, key: string, now: int)
    requires Good(b)
    ensures Good(CacheGet(b, key, now).0)
  {
    if !RedisActive(b) && b.useInMemoryCache {
      GetEntryEffect(b.mem, key, now);
      DeleteEffect(b.mem, key);
    }
  }

  lemma SetKeepsGood<V>(b: Backend<V>, key: string, value: V, ttl: int, now: int)
    requires Good(b)
    ensures Good(CacheSet(b, key, value, ttl, now))
  {
    if !RedisActive(b) && b.useInMemoryCache {
      SetEntryEffect(b.mem, key, value, ttl, now);
    }
  }

  lemma InvalidateKeepsGood<V>(b: Backend<V>, summaryId: Option<string>)
    requires Good(b)
    ensures Good(CacheInvalidate(b, summaryId))
  {
    if !RedisActive(b) && b.useInMemoryCache {
      InvalidateEffect(b.mem, summaryId);
      assert |Kept(b.mem.order, summaryId)| <= |b.mem.order| by {
        KeptShrinks(b.mem.order, summaryId);
      }
    }
  }

  class Cache<V> {
    var redisPresent: bool
    var redisConnected: bool
    var useInMemoryCache: bool
    var remote: map<string, V>
    var remoteHealthy: bool
    var memOrder: seq<string>
    var memEntries: map<string, Entry<V>>

    ghost predicate Valid()
      reads this
    {
      Good(State())
    }

    function State(): Backend<V>
      reads this
    {
      Backend(redisPresent, redisConnected, useInMemoryCache, remote, remoteHealthy, Mem(memOrder, memEntries))
    }

    /** Module load: no client yet, neither flag set, an empty `Map`; Redis may already
        hold keys. */
    constructor (keyspace: map<string, V>, healthy: bool)
      ensures Valid()
      ensures State() == Backend(false, false, false, keyspace, healthy, Mem([], map[]))
    {
      redisPresent, redisConnected, useInMemoryCache := false, false, false;
      remote, remoteHealthy := keyspace, healthy;
      memOrder, memEntries := [], map[];
    }

    /** Redis starts or stops answering; the code does not notice until its next command. */
    method SetRedisHealth(healthy: bool)
      modifies this
      requires Valid()
      ensures Valid() && State() == old(State()).(remoteHealthy := healthy)
    {
      remoteHealthy := healthy;
    }

    method InitializeRedis()
      modifies this
      requires Valid()
      ensures Valid() && State() == Initialized(old(State()))
    {
      redisPresent := true;
      if remoteHealthy {
        redisConnected := true;
      } else {
        redisPresent := false;
        redisConnected := false;
        useInMemoryCache := true;
      }
    }

    method OnConnect()
      modifies this
      requires Valid()
      ensures Valid() && State() == Connected(old(State()))
    {
      redisConnected := true;
      useInMemoryCache := false;
    }

    method OnError()
      modifies this
      requires Valid()
      ensures Valid() && State() == Errored(old(State()))
    {
      redisConnected := false;
      useInMemoryCache := true;
      if redisPresent {
        redisPresent := false;
      }
    }

    method OnClose()
      modifies this
      requires Valid()
      ensures Valid() && State() == Closed(old(State()))
    {
      redisConnected := false;
      useInMemoryCache := true;
    }

    method SafeRedisOperation(op: RedisOp<V>) returns (r: Reply<V>)
      modifies this
      requires Valid()
      ensures Valid() && (State(), r) == SafeRedis(old(State()), op)
    {
      if redisPresent && redisConnected {
        if remoteHealthy {
          match op
          case RedisGet(key) =>
            r := if key in remote then Stored(remote[key]) else Nil;
          case RedisSetex(key, _, value) =>
            remote := remote[key := value];
            r := Ok;
        } else {
          redisConnected := false;
          useInMemoryCache := true;
          r := Nil;
        }
      } else {
        r := Nil;
      }
    }

    /** `inMemoryCache.delete(key)`. */
    method MemoryDelete(key: string)
      modifies this
      requires Valid()
      ensures Valid() && State() == old(State()).(mem := Delete(old(State()).mem, key))
    {
      DeleteEffect(State().mem, key);
      memOrder := Without(memOrder, {key});
      memEntries := memEntries - {key};
    }

    method SetInMemoryCache(key: string, value: V, ttl: int, now: int)
      modifies this
      requires Valid()
      ensures Valid() && State() == old(State()).(mem := SetEntry(old(State()).mem, key, value, ttl, now))
    {
      SetEntryEffect(State().mem, key, value, ttl, now);
      if |memOrder| >= MaxSize {
        var firstKey := memOrder[0];
        MemoryDelete(firstKey);
      }
      var expiresAt := now + ttl * 1000;
      if key !in memEntries {
        memOrder := memOrder + [key];
      }
      memEntries := memEntries[key := Entry(value, expiresAt)];
    }

    method GetInMemoryCache(key: string, now: int) returns (r: Option<V>)
      modifies this
      requires Valid()
      ensures Valid()
      ensures (State().mem, r) == GetEntry(old(State()).mem, key, now)
      ensures State() == old(State()).(mem := State().mem)
    {
      if key !in memEntries {
        return None;
      }
      var cached := memEntries[key];
      if now > cached.expiresAt {
        MemoryDelete(key);
        return None;
      }
      return Some(cached.value);
    }

    method GetFromCache(key: string, now: int) returns (r: Option<V>)
      modifies this
      requires Valid()
      ensures Valid() && (State(), r) == CacheGet(old(State()), key, now)
    {
      if redisConnected && redisPresent {
        var reply := SafeRedisOperation(RedisGet(key));
        r := AsHit(reply);
      } else if useInMemoryCache {
        r := GetInMemoryCache(key, now);
      } else {
        r := None;
      }
    }

    method SetCache(key: string, value: V, ttl: int, now: int)
      modifies this
      requires Valid()
      ensures Valid() && State() == CacheSet(old(State()), key, value, ttl, now)
    {
      if redisConnected && redisPresent {
        var _ := SafeRedisOperation(RedisSetex(key, ttl, value));
      } else if useInMemoryCache {
        SetInMemoryCache(key, value, ttl, now);
      }
    }

    /** The loop over `inMemoryCache.keys()` that fills `keysToDelete`. */
    method CollectKeysToDelete(summaryId: Option<string>) returns (keysToDelete: seq<string>)
      ensures keysToDelete == KeysToDelete(memOrder, summaryId)
    {
      keysToDelete := [];
      var i := 0;
      assert memOrder[i..] == memOrder;
      while i < |memOrder|
        invariant 0 <= i <= |memOrder|
        invariant keysToDelete + KeysToDelete(memOrder[i..], summaryId) == KeysToDelete(memOrder, summaryId)
      {
        var key := memOrder[i];
        ghost var before := keysToDelete;
        if StartsWith(key, "summaries:") {
          keysToDelete := keysToDelete + [key];
        }
        if IdGiven(summaryId) && key == "summary:" + summaryId.value {
          keysToDelete := keysToDelete + [key];
        }
        if !IdGiven(summaryId) && StartsWith(key, "summary:") {
          keysToDelete := keysToDelete + [key];
        }
        assert keysToDelete == before + Pushes(key, summaryId);
        KeysToDeleteStep(memOrder, i, summaryId);
        AppendAssociative(before, Pushes(key, summaryId), KeysToDelete(memOrder[i + 1..], summaryId));
        i := i + 1;
      }
    }

    /** The in-memory branch of `invalidateAllCache(summaryId)`. */
    method InvalidateInMemory(summaryId: Option<string>)
      modifies this
      requires Valid()
      ensures Valid() && State() == old(State()).(mem := Invalidate(old(State()).mem, summaryId))
    {
      var keysToDelete := CollectKeysToDelete(summaryId);
      ghost var target := Invalidate(State().mem, summaryId);
      var j := 0;
      while j < |keysToDelete|
        invariant 0 <= j <= |keysToDelete|
        invariant Valid()
        invariant DeleteAll(State().mem, keysToDelete[j..]) == target
        invariant State() == old(State()).(mem := State().mem)
      {
        assert keysToDelete[j..][1..] == keysToDelete[j + 1..];
        MemoryDelete(keysToDelete[j]);
        j := j + 1;
      }
    }

    method InvalidateAllCache(summaryId: Option<string>)
      modifies this
      requires Valid()
      ensures Valid() && State() == CacheInvalidate(old(State()), summaryId)
    {
      if redisConnected && redisPresent {
        if remoteHealthy {
          remote := WithoutSummaryKeys(remote);
        }
      } else if useInMemoryCache {
        InvalidateInMemory(summaryId);
      }
    }
  }
}
