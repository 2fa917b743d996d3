/** The in-process cache of server/controller/SummaryGenerate.js (`inMemoryCache`, a `Map`),
    as values: the keys in insertion order plus the entries they name. A `Map` iterates its
    keys in insertion order, re-setting an existing key keeps its place, and deleting a key
    removes it from the order. */
module MemoryCache {
  import opened Wrappers
  import opened Text

  /** `MEMORY_CACHE_MAX_SIZE`. */
  const MaxSize: nat := 1000
  /** `CACHE_TTL`, in seconds. */
  const CacheTtl: int := 3600

  datatype Entry<V> = Entry(value: V, expiresAt: int)

  datatype Mem<V> = Mem(order: seq<string>, entries: map<string, Entry<V>>)

  predicate NoDuplicates(s: seq<string>) {
    forall i, j :: 0 <= i < j < |s| ==> s[i] != s[j]
  }

  /** The order lists every key of the map exactly once. */
  ghost predicate Wf<V>(m: Mem<V>) {
    NoDuplicates(m.order) && forall k :: k in m.entries <==> k in m.order
  }

  /** `inMemoryCache.size`. */
  function Size<V>(m: Mem<V>): nat {
    |m.order|
  }

  /** `s` without the keys in `del`, in the same order. */
  function Without(s: seq<string>, del: set<string>): (r: seq<string>)
    ensures forall x :: x in r <==> x in s && x !in del
    ensures |r| <= |s|
  {
    if s == [] then []
    else if s[0] in del then Without(s[1..], del)
    else [s[0]] + Without(s[1..], del)
  }

  lemma WithoutKeepsDistinct(s: seq<string>, del: set<string>)
    requires NoDuplicates(s)
    ensures NoDuplicates(Without(s, del))
  {
    if s != [] {
      assert NoDuplicates(s[1..]);
      WithoutKeepsDistinct(s[1..], del);
      assert s[0] !in s[1..];
    }
  }

  lemma WithoutPresentKey(s: seq<string>, k: string)
    requires NoDuplicates(s) && k in s
    ensures |Without(s, {k})| == |s| - 1
  {
    if s[0] == k {
      assert s[0] !in s[1..];
      WithoutAbsent(s[1..], {k});
    } else {
      assert NoDuplicates(s[1..]);
      WithoutPresentKey(s[1..], k);
    }
  }

  lemma WithoutAbsent(s: seq<string>, del: set<string>)
    requires forall x :: x in s ==> x !in del
    ensures Without(s, del) == s
  {
    if s != [] {
      WithoutAbsent(s[1..], del);
      assert s == [s[0]] + s[1..];
    }
  }

  lemma WithoutTwice(s: seq<string>, a: set<string>, b: set<string>)
    ensures Without(Without(s, a), b) == Without(s, a + b)
  {
    if s != [] {
      WithoutTwice(s[1..], a, b);
    }
  }

  /** `inMemoryCache.delete(key)`. */
  function Delete<V>(m: Mem<V>, key: string): Mem<V> {
    Mem(Without(m.order, {key}), m.entries - {key})
  }

  /** `inMemoryCache.set(key, entry)`: a new key goes last, an existing one keeps its place. */
  function Put<V>(m: Mem<V>, key: string, e: Entry<V>): Mem<V> {
    if key in m.entries then Mem(m.order, m.entries[key := e])
    else Mem(m.order + [key], m.entries[key := e])
  }

  /** `setInMemoryCache(key, value, ttl)` at time `now` (milliseconds): when the map is full
      the earliest-inserted key is evicted first, even when `key` itself is already stored. */
  function SetEntry<V>(m: Mem<V>, key: string, value: V, ttl: int, now: int): Mem<V>
    requires Wf(m)
  {
    var room := if Size(m) >= MaxSize then Delete(m, m.order[0]) else m;
    Put(room, key, Entry(value, now + ttl * 1000))
  }

  /** `getInMemoryCache(key)` at time `now`: the new map and the value read. */
  function GetEntry<V>(m: Mem<V>, key: string, now: int): (Mem<V>, Option<V>) {
    if key !in m.entries then (m, None)
    else if now > m.entries[key].expiresAt then (Delete(m, key), None)
    else (m, Some(m.entries[key].value))
  }

  lemma DeleteEffect<V>(m: Mem<V>, key: string)
    requires Wf(m)
    ensures Wf(Delete(m, key))
    ensures key in m.entries ==> Size(Delete(m, key)) == Size(m) - 1
    ensures key !in m.entries ==> Delete(m, key) == m
  {
    WithoutKeepsDistinct(m.order, {key});
    if key in m.entries {
      WithoutPresentKey(m.order, key);
    } else {
      WithoutAbsent(m.order, {key});
    }
  }

  /** A set never takes the cache above `MaxSize` entries. When the cache is full, the
      earliest-inserted key is gone afterwards unless it is the key being set. The key
      being set holds the value, with `expiresAt = now + ttl * 1000`. Every other key that
      was not evicted keeps its entry, and no key appears from nowhere. */
  lemma {:induction false} SetEntryEffect<V>(m: Mem<V>, key: string, value: V, ttl: int, now: int)
    requires Wf(m) && Size(m) <= MaxSize
    ensures Wf(SetEntry(m, key, value, ttl, now))
    ensures Size(SetEntry(m, key, value, ttl, now)) <= MaxSize
    ensures SetEntry(m, key, value, ttl, now).entries[key] == Entry(value, now + ttl * 1000)
    ensures Size(m) >= MaxSize && m.order[0] != key ==> m.order[0] !in SetEntry(m, key, value, ttl, now).entries
    ensures forall k :: k in SetEntry(m, key, value, ttl, now).entries <==>
      k == key || (k in m.entries && !(Size(m) >= MaxSize && k == m.order[0]))
    ensures forall k :: k in SetEntry(m, key, value, ttl, now).entries && k != key ==>
      SetEntry(m, key, value, ttl, now).entries[k] == m.entries[k]
  {
    var room := if Size(m) >= MaxSize then Delete(m, m.order[0]) else m;
    if Size(m) >= MaxSize {
      DeleteEffect(m, m.order[0]);
    }
    assert Wf(room) && Size(room) < MaxSize;
    var r := Put(room, key, Entry(value, now + ttl * 1000));
    if key !in room.entries {
      assert NoDuplicates(r.order) by {
        assert key !in room.order;
      }
    }
  }

  /** A read of an absent key returns nothing and changes nothing; a read after the expiry
      time deletes that entry and returns nothing; a read at or before it returns the stored
      value and changes nothing. No other key is affected. */
  lemma GetEntryEffect<V>(m: Mem<V>, key: string, now: int)
    requires Wf(m)
    ensures Wf(GetEntry(m, key, now).0)
    ensures key !in m.entries ==> GetEntry(m, key, now) == (m, None)
    ensures key in m.entries && now > m.entries[key].expiresAt ==>
      GetEntry(m, key, now).1 == None && key !in GetEntry(m, key, now).0.entries
    ensures key in m.entries && now <= m.entries[key].expiresAt ==>
      GetEntry(m, key, now) == (m, Some(m.entries[key].value))
    ensures forall k :: k != key ==>
      (k in GetEntry(m, key, now).0.entries <==> k in m.entries)
    ensures forall k :: k != key && k in m.entries ==> GetEntry(m, key, now).0.entries[k] == m.entries[k]
  {
    DeleteEffect(m, key);
  }

  // Invalidation

  /** A summary id that is given, that is, truthy. */
  predicate IdGiven(summaryId: Option<string>) {
    summaryId.Some? && summaryId.value != ""
  }

  /** The keys one key contributes to `keysToDelete`: one push per matching `if`. */
  function Pushes(key: string, summaryId: Option<string>): seq<string> {
    (if StartsWith(key, "summaries:") then [key] else [])
    + (if IdGiven(summaryId) && key == "summary:" + summaryId.value then [key] else [])
    + (if !IdGiven(summaryId) && StartsWith(key, "summary:") then [key] else [])
  }

  /** Whether invalidation removes `key`. */
  predicate ShouldDelete(key: string, summaryId: Option<string>) {
    StartsWith(key, "summaries:")
    || (IdGiven(summaryId) && key == "summary:" + summaryId.value)
    || (!IdGiven(summaryId) && StartsWith(key, "summary:"))
  }

  /** `keysToDelete` after the loop over `inMemoryCache.keys()`. */
  function KeysToDelete(order: seq<string>, summaryId: Option<string>): seq<string> {
    if order == [] then []
    else Pushes(order[0], summaryId) + KeysToDelete(order[1..], summaryId)
  }

  /** `keysToDelete` holds exactly the keys of the map that invalidation must remove. */
  lemma {:induction false} KeysToDeleteMembers(order: seq<string>, summaryId: Option<string>)
    ensures forall x :: x in KeysToDelete(order, summaryId) <==> x in order && ShouldDelete(x, summaryId)
  {
    if order != [] {
      KeysToDeleteMembers(order[1..], summaryId);
      assert order == [order[0]] + order[1..];
    }
  }

  lemma KeysToDeleteStep(order: seq<string>, i: nat, summaryId: Option<string>)
    requires i < |order|
    ensures KeysToDelete(order[i..], summaryId) == Pushes(order[i], summaryId) + KeysToDelete(order[i + 1..], summaryId)
  {
    assert order[i..][1..] == order[i + 1..];
  }

  lemma AppendAssociative(a: seq<string>, b: seq<string>, c: seq<string>)
    ensures a + b + c == a + (b + c)
  {
  }

  /** `keysToDelete.forEach((key) => inMemoryCache.delete(key))`. */
  function DeleteAll<V>(m: Mem<V>, keys: seq<string>): Mem<V>
    decreases |keys|
  {
    if keys == [] then m else DeleteAll(Delete(m, keys[0]), keys[1..])
  }

  /** The in-memory branch of `invalidateAllCache(summaryId)`. */
  function Invalidate<V>(m: Mem<V>, summaryId: Option<string>): Mem<V> {
    DeleteAll(m, KeysToDelete(m.order, summaryId))
  }

  /** The keys that survive invalidation, in their order. */
  function Kept(order: seq<string>, summaryId: Option<string>): (r: seq<string>)
    ensures forall x :: x in r <==> x in order && !ShouldDelete(x, summaryId)
  {
    if order == [] then []
    else if ShouldDelete(order[0], summaryId) then Kept(order[1..], summaryId)
    else [order[0]] + Kept(order[1..], summaryId)
  }

  lemma KeptShrinks(order: seq<string>, summaryId: Option<string>)
    ensures |Kept(order, summaryId)| <= |order|
  {
  }

  lemma {:induction false} DeleteAllEffect<V>(m: Mem<V>, keys: seq<string>)
    ensures DeleteAll(m, keys) == Mem(Without(m.order, set x | x in keys), m.entries - set x | x in keys)
    decreases |keys|
  {
    if keys == [] {
      WithoutAbsent(m.order, {});
      assert (set x | x in keys) == {};
      assert m.entries - {} == m.entries;
    } else {
      var rest := set x | x in keys[1..];
      DeleteAllEffect(Delete(m, keys[0]), keys[1..]);
      WithoutTwice(m.order, {keys[0]}, rest);
      assert keys == [keys[0]] + keys[1..];
      assert (set x | x in keys) == {keys[0]} + rest;
      assert (m.entries - {keys[0]}) - rest == m.entries - ({keys[0]} + rest);
    }
  }

  lemma {:induction false} WithoutIsKept(s: seq<string>, del: set<string>, summaryId: Option<string>)
    requires forall x :: x in s ==> (x in del <==> ShouldDelete(x, summaryId))
    ensures Without(s, del) == Kept(s, summaryId)
  {
    if s != [] {
      WithoutIsKept(s[1..], del, summaryId);
    }
  }

  /** Invalidation removes exactly the keys `ShouldDelete` names: every key starting with
      `summaries:`, then `summary:<id>` alone when an id is given, or every key starting
      with `summary:` when none is. Every other key keeps its entry and its place. */
  lemma {:induction false} InvalidateEffect<V>(m: Mem<V>, summaryId: Option<string>)
    requires Wf(m)
    ensures Wf(Invalidate(m, summaryId))
    ensures Invalidate(m, summaryId).order == Kept(m.order, summaryId)
    ensures forall k :: k in Invalidate(m, summaryId).entries <==> k in m.entries && !ShouldDelete(k, summaryId)
    ensures forall k :: k in Invalidate(m, summaryId).entries ==> Invalidate(m, summaryId).entries[k] == m.entries[k]
  {
    var keys := KeysToDelete(m.order, summaryId);
    KeysToDeleteMembers(m.order, summaryId);
    var del := set x | x in keys;
    DeleteAllEffect(m, keys);
    WithoutIsKept(m.order, del, summaryId);
    WithoutKeepsDistinct(m.order, del);
  }

  /** Invalidating one summary keeps the cached copy of any other summary, and every
      listing key is gone afterwards. */
  lemma InvalidateOneKeepsOthers<V>(m: Mem<V>, id: string, other: string)
    requires Wf(m) && id != "" && other != id
    requires "summary:" + other in m.entries
    ensures "summary:" + other in Invalidate(m, Some(id)).entries
    ensures "summary:" + id !in Invalidate(m, Some(id)).entries
    ensures forall k :: StartsWith(k, "summaries:") ==> k !in Invalidate(m, Some(id)).entries
  {
    InvalidateEffect(m, Some(id));
    var k := "summary:" + other;
    assert !StartsWith(k, "summaries:") by {
      assert k[6] == 'y';
    }
    assert k != "summary:" + id by {
      assert k[8..] == other && ("summary:" + id)[8..] == id;
    }
  }

  /** Invalidating without an id empties the cache of every `summary:` and `summaries:` key. */
  lemma InvalidateAllSummaryKeys<V>(m: Mem<V>, k: string)
    requires Wf(m)
    requires StartsWith(k, "summary:") || StartsWith(k, "summaries:")
    ensures k !in Invalidate(m, None).entries
  {
    InvalidateEffect(m, None);
  }
}
