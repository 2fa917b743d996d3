/** What the rebuild sweep `updateCacheWithFreshData` of server/controller/SummaryGenerate.js
    buys its readers: after a save, an update or a delete, a listing read of a common query
    within the TTL is a cache hit carrying the listing computed from the new store. This
    holds on a working Redis and in memory mode while the sweep fits in the map; listings
    left in the map from before Redis connected are the exception. */
module SweepFreshness {
  import opened Wrappers
  import opened Text
  import opened CacheKey
  import opened MemoryCache
  import opened CacheBackend
  import opened SummaryStore
  import opened SummaryController

  // ----- the keys and bodies of the sweep -----

  /** The keys the writes go to, in order. */
  function Keys(ws: seq<Write>): (r: seq<string>)
    ensures |r| == |ws|
  {
    if ws == [] then [] else [WriteKey(ws[0])] + Keys(ws[1..])
  }

  lemma {:induction false} KeyAt(ws: seq<Write>, n: nat)
    requires n < |ws|
    ensures Keys(ws)[n] == WriteKey(ws[n])
    decreases n
  {
    if n > 0 {
      KeyAt(ws[1..], n - 1);
    }
  }

  lemma {:induction false} KeysAppend(a: seq<Write>, c: seq<Write>)
    ensures Keys(a + c) == Keys(a) + Keys(c)
    decreases |a|
  {
    if a == [] {
      assert a + c == c;
    } else {
      assert (a + c)[1..] == a[1..] + c;
      KeysAppend(a[1..], c);
    }
  }

  /** The bodies the writes store, in order. */
  function Bodies(ws: seq<Write>, ss: seq<Summary>, now: int): (r: seq<CachedBody>)
    requires AllRunnable(ws)
    ensures |r| == |ws|
  {
    if ws == [] then [] else [WriteBody(ws[0], ss, now)] + Bodies(ws[1..], ss, now)
  }

  lemma {:induction false} BodyAt(ws: seq<Write>, ss: seq<Summary>, now: int, n: nat)
    requires AllRunnable(ws) && n < |ws|
    ensures Bodies(ws, ss, now)[n] == WriteBody(ws[n], ss, now)
    decreases n
  {
    if n > 0 {
      assert AllRunnable(ws[1..]) by {
        forall k | 0 <= k < |ws| - 1 ensures WriteRunnable(ws[1..][k]) {
          assert ws[1..][k] == ws[k + 1];
        }
      }
      BodyAt(ws[1..], ss, now, n - 1);
    }
  }

  /** A user id as MongoDB hands it out: non-empty, free of `:`, and different for every
      stored account. */
  predicate IdsSweepable(users: seq<Account>) {
    && (forall i :: 0 <= i < |users| ==> users[i].id != "")
    && (forall i, k :: 0 <= i < |users| && 0 <= k < |users[i].id| ==> users[i].id[k] != ':')
    && (forall i, j :: 0 <= i < j < |users| ==> users[i].id != users[j].id)
  }

  /** The part of a common query's key suffix that all three share. */
  const CommonPrefix: string :=
    SummaryController.Entry("limit", Value(NatToString(10))) + "|"
    + SummaryController.Entry("page", Value(IntToString(1))) + "|" + "status:"

  lemma CommonSuffix(q: ListQuery)
    requires q.limit == 10 && q.page == 1
    ensures ListingSuffix(q) == CommonPrefix + RenderValue(StatusValue(q))
  {
  }

  /** The three common queries are stored under three different suffixes. */
  lemma CommonSuffixesDiffer(j1: nat, j2: nat)
    requires j1 < j2 < 3
    ensures ListingSuffix(CommonQueries()[j1]) != ListingSuffix(CommonQueries()[j2])
  {
    var q1, q2 := CommonQueries()[j1], CommonQueries()[j2];
    CommonSuffix(q1);
    CommonSuffix(q2);
    var x, y := RenderValue(StatusValue(q1)), RenderValue(StatusValue(q2));
    assert x != y by {
      assert x[0] != y[0];
    }
    assert (CommonPrefix + x)[|CommonPrefix|..] == x;
    assert (CommonPrefix + y)[|CommonPrefix|..] == y;
  }

  /** Two keys with one prefix and different suffixes differ. */
  lemma SuffixesSeparate(k1: string, k2: string, p: string, s1: string, s2: string)
    requires k1 == p + s1 && k2 == p + s2 && s1 != s2
    ensures k1 != k2
  {
    assert k1[|p|..] == s1;
    assert k2[|p|..] == s2;
  }

  /** One user's listings for queries with different suffixes are stored under different
      keys. */
  lemma {:induction false} SameUserKeysDiffer(u: string, q1: ListQuery, q2: ListQuery)
    requires ListingSuffix(q1) != ListingSuffix(q2)
    ensures ListingKey(u, q1) != ListingKey(u, q2)
  {
    ListingKeyFormula(u, q1);
    ListingKeyFormula(u, q2);
    SuffixesSeparate(ListingKey(u, q1), ListingKey(u, q2), "summaries" + ":" + u + ":", ListingSuffix(q1), ListingSuffix(q2));
  }

  /** Two common queries of one user, or of two users, never share a key. */
  lemma ListingKeysDiffer(users: seq<Account>, i1: nat, j1: nat, i2: nat, j2: nat)
    requires IdsSweepable(users) && i1 < |users| && i2 < |users| && j1 < 3 && j2 < 3
    requires (i1, j1) != (i2, j2)
    ensures ListingKey(users[i1].id, CommonQueries()[j1]) != ListingKey(users[i2].id, CommonQueries()[j2])
  {
    var u1, u2 := users[i1].id, users[i2].id;
    var q1, q2 := CommonQueries()[j1], CommonQueries()[j2];
    if i1 != i2 {
      if i1 < i2 {
        assert u1 != u2;
      } else {
        assert u2 != u1;
      }
      ListingKeysSeparateUsers(u1, u2, q1, q2);
    } else {
      if j1 < j2 {
        CommonSuffixesDiffer(j1, j2);
      } else {
        CommonSuffixesDiffer(j2, j1);
      }
      SameUserKeysDiffer(u1, q1, q2);
    }
  }

  /** A listing key starts with `summaries:`, so invalidation removes it. */
  lemma ListingKeyPrefix(userId: string, q: ListQuery)
    ensures StartsWith(ListingKey(userId, q), "summaries:")
    ensures ListingKey(userId, q)[6] == 'i'
  {
    ListingKeyFormula(userId, q);
    FormulaPrefix(ListingKey(userId, q), userId, ListingSuffix(q));
  }

  lemma FormulaPrefix(k: string, userId: string, suffix: string)
    requires k == "summaries" + ":" + userId + ":" + suffix
    ensures StartsWith(k, "summaries:") && k[6] == 'i'
  {
    assert k == "summaries:" + (userId + ":" + suffix);
    assert k[..10] == "summaries:";
  }

  /** Three listing writes per user, one per common query, in user order. */
  predicate ListingShaped(users: seq<Account>, ws: seq<Write>) {
    && |ws| == 3 * |users|
    && forall i, j :: 0 <= i < |users| && 0 <= j < 3 ==> ws[3 * i + j] == PutListing(users[i], CommonQueries()[j])
  }

  /** No two writes go to the same key. */
  predicate KeysDistinct(ws: seq<Write>) {
    forall m, n :: 0 <= m < n < |ws| ==> WriteKey(ws[m]) != WriteKey(ws[n])
  }

  /** No two listing writes go to the same key. */
  lemma {:induction false} ListingKeysDistinct(users: seq<Account>, ws: seq<Write>)
    requires IdsSweepable(users) && ListingShaped(users, ws)
    ensures KeysDistinct(ws)
  {
    forall m, n | 0 <= m < n < |ws| ensures WriteKey(ws[m]) != WriteKey(ws[n]) {
      var i1, j1, i2, j2 := m / 3, m % 3, n / 3, n % 3;
      assert m == 3 * i1 + j1 && n == 3 * i2 + j2;
      assert ws[m] == PutListing(users[i1], CommonQueries()[j1]);
      assert ws[n] == PutListing(users[i2], CommonQueries()[j2]);
      ListingKeysDiffer(users, i1, j1, i2, j2);
    }
  }

  /** Every listing key starts with `summaries:`. */
  lemma {:induction false} ListingKeysPrefixed(users: seq<Account>, ws: seq<Write>)
    requires ListingShaped(users, ws)
    ensures forall n :: 0 <= n < |ws| ==> StartsWith(WriteKey(ws[n]), "summaries:") && WriteKey(ws[n])[6] == 'i'
  {
    forall n | 0 <= n < |ws| ensures StartsWith(WriteKey(ws[n]), "summaries:") && WriteKey(ws[n])[6] == 'i' {
      var i, j := n / 3, n % 3;
      assert n == 3 * i + j;
      assert ws[n] == PutListing(users[i], CommonQueries()[j]);
      ListingKeyPrefix(users[i].id, CommonQueries()[j]);
    }
  }

  lemma {:induction false} DistinctWriteKeys(ws: seq<Write>)
    requires KeysDistinct(ws)
    ensures NoDuplicates(Keys(ws))
  {
    var ks := Keys(ws);
    forall m, n | 0 <= m < n < |ks| ensures ks[m] != ks[n] {
      KeyAt(ws, m);
      KeyAt(ws, n);
    }
  }

  lemma {:induction false} PrefixedKeys(ws: seq<Write>)
    requires forall n :: 0 <= n < |ws| ==> StartsWith(WriteKey(ws[n]), "summaries:") && WriteKey(ws[n])[6] == 'i'
    ensures forall n :: 0 <= n < |ws| ==> StartsWith(Keys(ws)[n], "summaries:") && Keys(ws)[n][6] == 'i'
  {
    forall n | 0 <= n < |ws| ensures StartsWith(Keys(ws)[n], "summaries:") && Keys(ws)[n][6] == 'i' {
      KeyAt(ws, n);
    }
  }

  /** The summary key (at most one, for the id invalidated) ahead of distinct listing
      keys: every key is written once and is one that invalidation removes. */
  lemma {:induction false} LeadThenListings(lead: seq<string>, rest: seq<string>, summaryId: Option<string>)
    requires |lead| <= 1
    requires lead != [] ==> IdGiven(summaryId) && lead[0] == "summary:" + summaryId.value
    requires forall n :: 0 <= n < |rest| ==> StartsWith(rest[n], "summaries:") && rest[n][6] == 'i'
    requires NoDuplicates(rest)
    ensures NoDuplicates(lead + rest)
    ensures forall n :: 0 <= n < |lead + rest| ==> ShouldDelete((lead + rest)[n], summaryId)
  {
    var ks := lead + rest;
    forall n | 0 <= n < |ks| ensures ShouldDelete(ks[n], summaryId) {
      if n < |lead| {
        assert ks[n] == lead[0];
      } else {
        assert ks[n] == rest[n - |lead|];
      }
    }
    if lead == [] {
      assert ks == rest;
    } else {
      var sk := lead[0];
      assert |sk| > 6 && sk[6] == 'y';
      forall m, n | 0 <= m < n < |ks| ensures ks[m] != ks[n] {
        assert ks[n] == rest[n - 1];
        if m == 0 {
          assert ks[0] == sk;
        } else {
          assert ks[m] == rest[m - 1];
        }
      }
    }
  }

  /** A summary write for the id invalidated ahead of distinct listing writes: every key
      is written once and is one that invalidation removes. */
  lemma {:induction false} LeadThenListingWrites(lead: seq<Write>, rest: seq<Write>, summaryId: Option<string>)
    requires |lead| <= 1
    requires lead != [] ==> lead[0].PutSummary? && IdGiven(summaryId) && lead[0].id == summaryId.value
    requires forall n :: 0 <= n < |rest| ==> StartsWith(WriteKey(rest[n]), "summaries:") && WriteKey(rest[n])[6] == 'i'
    requires KeysDistinct(rest)
    ensures NoDuplicates(Keys(lead + rest))
    ensures forall n :: 0 <= n < |lead + rest| ==> ShouldDelete(Keys(lead + rest)[n], summaryId)
  {
    DistinctWriteKeys(rest);
    PrefixedKeys(rest);
    KeysAppend(lead, rest);
    if lead != [] {
      KeyAt(lead, 0);
    }
    LeadThenListings(Keys(lead), Keys(rest), summaryId);
  }

  /** The summary write, when there is one, goes to the id invalidated. */
  lemma SummaryWriteFor(ss: seq<Summary>, summaryId: Option<string>)
    ensures |SummaryWrite(ss, summaryId)| <= 1
    ensures SummaryWrite(ss, summaryId) != [] ==>
      SummaryWrite(ss, summaryId)[0].PutSummary? && IdGiven(summaryId) && SummaryWrite(ss, summaryId)[0].id == summaryId.value
  {
  }

  /** The sweep writes every key once, each of them a key invalidation has just removed. */
  lemma {:induction false} RebuildWritesFacts(users: seq<Account>, ss: seq<Summary>, summaryId: Option<string>)
    requires IdsSweepable(users)
    ensures NoDuplicates(Keys(RebuildWrites(users, ss, summaryId)))
    ensures forall n :: 0 <= n < |Keys(RebuildWrites(users, ss, summaryId))| ==>
      ShouldDelete(Keys(RebuildWrites(users, ss, summaryId))[n], summaryId)
  {
    ListingWritesShape(users);
    ListingKeysDistinct(users, ListingWrites(users));
    ListingKeysPrefixed(users, ListingWrites(users));
    SummaryWriteFor(ss, summaryId);
    LeadThenListingWrites(SummaryWrite(ss, summaryId), ListingWrites(users), summaryId);
  }

  /** Where user `i`'s listing for common query `j` stands among the sweep's writes. */
  function ListingPosition(ss: seq<Summary>, summaryId: Option<string>, i: nat, j: nat): nat {
    |SummaryWrite(ss, summaryId)| + 3 * i + j
  }

  /** A listing write goes to the listing key and stores the listing computed now. */
  lemma ListingWriteFacts(w: Write, u: Account, q: ListQuery, ss: seq<Summary>, now: int)
    requires w == PutListing(u, q) && Runnable(q)
    ensures WriteKey(w) == ListingKey(u.id, q)
    ensures WriteBody(w, ss, now) == ListingBody(RunListing(ss, q, u.role, u.id, now))
  {
  }

  lemma CommonRunnable(j: nat)
    requires j < 3
    ensures Runnable(CommonQueries()[j])
  {
  }

  /** The listing write of user `i` for common query `j`. */
  lemma ListingWriteAt(users: seq<Account>, i: nat, j: nat)
    requires i < |users| && j < 3
    ensures 3 * i + j < |ListingWrites(users)|
    ensures ListingWrites(users)[3 * i + j] == PutListing(users[i], CommonQueries()[j])
  {
    ListingWritesShape(users);
  }

  /** User `i`'s listing for common query `j` stands at its position among the sweep's
      writes. */
  lemma {:induction false} ListingInSweep(users: seq<Account>, ss: seq<Summary>, summaryId: Option<string>, i: nat, j: nat)
    requires i < |users| && j < 3
    ensures ListingPosition(ss, summaryId, i, j) < |RebuildWrites(users, ss, summaryId)|
    ensures RebuildWrites(users, ss, summaryId)[ListingPosition(ss, summaryId, i, j)] == PutListing(users[i], CommonQueries()[j])
  {
    ListingWriteAt(users, i, j);
    var lead, rest := SummaryWrite(ss, summaryId), ListingWrites(users);
    assert (lead + rest)[|lead| + 3 * i + j] == rest[3 * i + j];
  }

  // ----- the sweep on a working Redis -----

  /** The Redis keyspace after `SET key value EX ttl` for each key from `from` on. */
  function SetAllRemote<V>(remote: map<string, V>, ks: seq<string>, vs: seq<V>, from: nat): map<string, V>
    requires |ks| == |vs| && from <= |ks|
    decreases |ks| - from
  {
    if from == |ks| then remote else SetAllRemote(remote[ks[from] := vs[from]], ks, vs, from + 1)
  }

  /** On a working Redis every write of the sweep goes to Redis: the flags and the
      in-memory map stay as they are. */
  lemma {:induction false} RedisSweep(b: Backend<CachedBody>, ss: seq<Summary>, ws: seq<Write>, from: nat, now: int)
    requires Good(b) && AllRunnable(ws) && from <= |ws|
    requires RedisActive(b) && b.remoteHealthy
    ensures ApplyWrites(b, ss, ws, from, now) == b.(remote := SetAllRemote(b.remote, Keys(ws), Bodies(ws, ss, now), from))
    decreases |ws| - from
  {
    if from < |ws| {
      var w := ws[from];
      KeyAt(ws, from);
      BodyAt(ws, ss, now, from);
      SetKeepsGood(b, WriteKey(w), WriteBody(w, ss, now), CacheTtl, now);
      var b1 := CacheSet(b, WriteKey(w), WriteBody(w, ss, now), CacheTtl, now);
      assert b1 == b.(remote := b.remote[Keys(ws)[from] := Bodies(ws, ss, now)[from]]);
      RedisSweep(b1, ss, ws, from + 1, now);
    }
  }

  /** A key that no remaining write goes to keeps its value. */
  lemma {:induction false} RemoteKeeps<V>(remote: map<string, V>, ks: seq<string>, vs: seq<V>, from: nat, k: string)
    requires |ks| == |vs| && from <= |ks|
    requires forall n :: from <= n < |ks| ==> ks[n] != k
    requires k in remote
    ensures k in SetAllRemote(remote, ks, vs, from) && SetAllRemote(remote, ks, vs, from)[k] == remote[k]
    decreases |ks| - from
  {
    if from < |ks| {
      RemoteKeeps(remote[ks[from] := vs[from]], ks, vs, from + 1, k);
    }
  }

  /** With keys that do not repeat, every key holds the value written to it. */
  lemma {:induction false} RemoteStores<V>(remote: map<string, V>, ks: seq<string>, vs: seq<V>, from: nat, m: nat)
    requires |ks| == |vs| && from <= m < |ks| && NoDuplicates(ks)
    ensures ks[m] in SetAllRemote(remote, ks, vs, from) && SetAllRemote(remote, ks, vs, from)[ks[m]] == vs[m]
    decreases |ks| - from
  {
    if from == m {
      RemoteKeeps(remote[ks[m] := vs[m]], ks, vs, from + 1, ks[m]);
    } else {
      RemoteStores(remote[ks[from] := vs[from]], ks, vs, from + 1, m);
    }
  }

  // ----- the sweep in memory mode -----

  /** The in-memory map after `setInMemoryCache(key, value, ttl)` for each key from
      `from` on. */
  function SetAll<V>(m: Mem<V>, ks: seq<string>, vs: seq<V>, from: nat, ttl: int, now: int): (r: Mem<V>)
    requires Wf(m) && Size(m) <= MaxSize && |ks| == |vs| && from <= |ks|
    ensures Wf(r) && Size(r) <= MaxSize
    decreases |ks| - from
  {
    if from == |ks| then m
    else
      SetEntryEffect(m, ks[from], vs[from], ttl, now);
      SetAll(SetEntry(m, ks[from], vs[from], ttl, now), ks, vs, from + 1, ttl, now)
  }

  /** In memory mode every write of the sweep goes to the in-memory map. */
  lemma {:induction false} MemorySweep(b: Backend<CachedBody>, ss: seq<Summary>, ws: seq<Write>, from: nat, now: int)
    requires Good(b) && AllRunnable(ws) && from <= |ws|
    requires !RedisActive(b) && b.useInMemoryCache
    ensures ApplyWrites(b, ss, ws, from, now) == b.(mem := SetAll(b.mem, Keys(ws), Bodies(ws, ss, now), from, CacheTtl, now))
    decreases |ws| - from
  {
    if from < |ws| {
      var w := ws[from];
      KeyAt(ws, from);
      BodyAt(ws, ss, now, from);
      SetKeepsGood(b, WriteKey(w), WriteBody(w, ss, now), CacheTtl, now);
      var b1 := CacheSet(b, WriteKey(w), WriteBody(w, ss, now), CacheTtl, now);
      assert b1 == b.(mem := SetEntry(b.mem, Keys(ws)[from], Bodies(ws, ss, now)[from], CacheTtl, now));
      MemorySweep(b1, ss, ws, from + 1, now);
    }
  }

  /** Dropping the first key of a list without repeats leaves the rest. */
  lemma WithoutFirst(s: seq<string>)
    requires NoDuplicates(s) && s != []
    ensures Without(s, {s[0]}) == s[1..]
  {
    assert s[0] !in s[1..];
    WithoutAbsent(s[1..], {s[0]});
  }

  /** One set of a key the map does not hold, with `before` ahead of the keys `done`
      already set: when the map is full the key evicted is the first of `before`. */
  lemma {:induction false} SetAfter<V>(m: Mem<V>, before: seq<string>, done: seq<string>, key: string, value: V, ttl: int, now: int)
    requires Wf(m) && Size(m) <= MaxSize && m.order == before + done
    requires |done| < MaxSize && key !in m.entries
    ensures SetEntry(m, key, value, ttl, now).order
            == (if Size(m) >= MaxSize then before[1..] else before) + (done + [key])
    ensures Size(m) >= MaxSize ==> before != [] && before[0] !in done
  {
    assert key !in m.order;
    if Size(m) >= MaxSize {
      assert m.order[0] == before[0];
      WithoutFirst(m.order);
      assert m.order[1..] == before[1..] + done;
      assert before[0] !in done by {
        assert before[0] !in m.order[1..];
        assert m.order[1..][|before| - 1..] == done;
      }
      assert key !in Delete(m, m.order[0]).entries;
    }
  }

  /** What is left of the keys from before the sweep after one more set. */
  function BeforeAfterSet<V>(m: Mem<V>, before: seq<string>): seq<string> {
    if Size(m) >= MaxSize && before != [] then before[1..] else before
  }

  /** The state of the map partway through the sweep: the keys from before it (what is left
      of them) come first, then the keys set so far, each holding its value, and none of
      the keys still to be set is there. */
  ghost predicate Partway<V>(m: Mem<V>, ks: seq<string>, vs: seq<V>, from: nat, ttl: int, now: int, before: seq<string>)
    requires |ks| == |vs| && from <= |ks|
  {
    && Wf(m) && Size(m) <= MaxSize
    && m.order == before + ks[..from]
    && (forall n :: 0 <= n < from ==> ks[n] in m.entries && m.entries[ks[n]] == Entry(vs[n], now + ttl * 1000))
    && (forall n :: from <= n < |ks| ==> ks[n] !in m.entries)
  }

  /** One set of the sweep keeps the keys set so far and stores the next one. */
  lemma {:induction false} StepStores<V>(m: Mem<V>, ks: seq<string>, vs: seq<V>, from: nat, ttl: int, now: int,
                                         before: seq<string>)
    requires |ks| == |vs| && from < |ks| <= MaxSize && NoDuplicates(ks)
    requires Partway(m, ks, vs, from, ttl, now, before)
    ensures forall n :: 0 <= n < from + 1 ==>
      ks[n] in SetEntry(m, ks[from], vs[from], ttl, now).entries
      && SetEntry(m, ks[from], vs[from], ttl, now).entries[ks[n]] == Entry(vs[n], now + ttl * 1000)
  {
    var key := ks[from];
    SetEntryEffect(m, key, vs[from], ttl, now);
    SetAfter(m, before, ks[..from], key, vs[from], ttl, now);
    var m1 := SetEntry(m, key, vs[from], ttl, now);
    forall n | 0 <= n < from + 1 ensures ks[n] in m1.entries && m1.entries[ks[n]] == Entry(vs[n], now + ttl * 1000) {
      if n < from {
        assert ks[n] != key;
        assert ks[n] in ks[..from];
      }
    }
  }

  /** One set of the sweep adds none of the keys still to be set. */
  lemma {:induction false} StepPending<V>(m: Mem<V>, ks: seq<string>, vs: seq<V>, from: nat, ttl: int, now: int,
                                          before: seq<string>)
    requires |ks| == |vs| && from < |ks| <= MaxSize && NoDuplicates(ks)
    requires Partway(m, ks, vs, from, ttl, now, before)
    ensures forall n :: from + 1 <= n < |ks| ==> ks[n] !in SetEntry(m, ks[from], vs[from], ttl, now).entries
  {
    SetEntryEffect(m, ks[from], vs[from], ttl, now);
    forall n | from + 1 <= n < |ks| ensures ks[n] !in SetEntry(m, ks[from], vs[from], ttl, now).entries {
      assert ks[n] != ks[from];
    }
  }

  /** One set of the sweep keeps it partway, one key further on. */
  lemma {:induction false} MemoryStep<V>(m: Mem<V>, ks: seq<string>, vs: seq<V>, from: nat, ttl: int, now: int,
                                         before: seq<string>)
    requires |ks| == |vs| && from < |ks| <= MaxSize && NoDuplicates(ks)
    requires Partway(m, ks, vs, from, ttl, now, before)
    ensures Partway(SetEntry(m, ks[from], vs[from], ttl, now), ks, vs, from + 1, ttl, now, BeforeAfterSet(m, before))
  {
    SetEntryEffect(m, ks[from], vs[from], ttl, now);
    SetAfter(m, before, ks[..from], ks[from], vs[from], ttl, now);
    assert ks[..from + 1] == ks[..from] + [ks[from]];
    StepStores(m, ks, vs, from, ttl, now, before);
    StepPending(m, ks, vs, from, ttl, now, before);
  }

  /** In memory mode, with no more keys than the map holds, keys that do not repeat and
      that the map does not hold yet, every write survives: when the map is full, the key
      evicted first is always one that was there before the sweep. */
  lemma {:induction false} MemoryStores<V>(m: Mem<V>, ks: seq<string>, vs: seq<V>, from: nat, ttl: int, now: int,
                                           before: seq<string>)
    requires |ks| == |vs| && from <= |ks| <= MaxSize && NoDuplicates(ks)
    requires Partway(m, ks, vs, from, ttl, now, before)
    ensures forall n :: 0 <= n < |ks| ==>
      ks[n] in SetAll(m, ks, vs, from, ttl, now).entries
      && SetAll(m, ks, vs, from, ttl, now).entries[ks[n]] == Entry(vs[n], now + ttl * 1000)
    decreases |ks| - from
  {
    if from < |ks| {
      MemoryStep(m, ks, vs, from, ttl, now, before);
      MemoryStores(SetEntry(m, ks[from], vs[from], ttl, now), ks, vs, from + 1, ttl, now, BeforeAfterSet(m, before));
    } else {
      assert ks[..from] == ks;
    }
  }

  /** Writes to keys that do not repeat, on a working Redis, or in memory mode with no
      more writes than the map holds and none of the keys in the map yet. */
  ghost predicate SweepReady(b: Backend<CachedBody>, ws: seq<Write>) {
    && Good(b) && AllRunnable(ws) && NoDuplicates(Keys(ws))
    && ((RedisActive(b) && b.remoteHealthy)
        || (!RedisActive(b) && b.useInMemoryCache && |ws| <= MaxSize
            && forall n :: 0 <= n < |ws| ==> Keys(ws)[n] !in b.mem.entries))
  }

  /** Invalidation leaves the cache ready for the sweep: the sweep's keys are distinct and
      are all keys that invalidation has just removed. */
  lemma {:induction false} ReadyAfterInvalidate(b: Backend<CachedBody>, users: seq<Account>, ss: seq<Summary>,
                                                summaryId: Option<string>)
    requires Good(b)
    requires (RedisActive(b) && b.remoteHealthy) || (!RedisActive(b) && b.useInMemoryCache && 3 * |users| + 1 <= MaxSize)
    requires IdsSweepable(users)
    ensures Good(CacheInvalidate(b, summaryId))
    ensures SweepReady(CacheInvalidate(b, summaryId), RebuildWrites(users, ss, summaryId))
  {
    InvalidateKeepsGood(b, summaryId);
    RebuildWritesShape(users, ss, summaryId);
    RebuildWritesFacts(users, ss, summaryId);
    if !(RedisActive(b) && b.remoteHealthy) {
      InvalidateEffect(b.mem, summaryId);
      RemovedKeysMiss(Invalidate(b.mem, summaryId), Keys(RebuildWrites(users, ss, summaryId)), summaryId);
    }
  }

  /** Keys that invalidation removes are not in a map where nothing is left to remove. */
  lemma RemovedKeysMiss<V>(m: Mem<V>, ks: seq<string>, summaryId: Option<string>)
    requires forall k :: k in m.entries ==> !ShouldDelete(k, summaryId)
    requires forall n :: 0 <= n < |ks| ==> ShouldDelete(ks[n], summaryId)
    ensures forall n :: 0 <= n < |ks| ==> ks[n] !in m.entries
  {
  }

  /** A sweep ready to run leaves every written key, up to the TTL, answering reads with
      the body written to it. */
  lemma {:induction false} SweepStores(b: Backend<CachedBody>, ss: seq<Summary>, ws: seq<Write>, now: int, later: int, p: nat)
    requires SweepReady(b, ws) && p < |ws|
    requires later <= now + CacheTtl * 1000
    ensures Good(ApplyWrites(b, ss, ws, 0, now))
    ensures CacheGet(ApplyWrites(b, ss, ws, 0, now), WriteKey(ws[p]), later).1 == Some(WriteBody(ws[p], ss, now))
  {
    ApplyWritesKeepsGood(b, ss, ws, 0, now);
    var ks, vs := Keys(ws), Bodies(ws, ss, now);
    KeyAt(ws, p);
    BodyAt(ws, ss, now, p);
    var r := ApplyWrites(b, ss, ws, 0, now);
    if RedisActive(b) && b.remoteHealthy {
      RedisSweep(b, ss, ws, 0, now);
      RemoteStores(b.remote, ks, vs, 0, p);
    } else {
      MemorySweep(b, ss, ws, 0, now);
      assert b.mem.order == b.mem.order + ks[..0];
      assert Partway(b.mem, ks, vs, 0, CacheTtl, now, b.mem.order);
      MemoryStores(b.mem, ks, vs, 0, CacheTtl, now, b.mem.order);
      GetEntryEffect(r.mem, ks[p], later);
    }
  }

  // ----- reading a listing -----

  /** A listing read whose key is a cache hit answers with the cached body. */
  lemma HitServes(b: Backend<CachedBody>, users: seq<Account>, ss: seq<Summary>, userId: string, q: ListQuery,
                  now: int, v: CachedBody)
    requires Good(b) && userId != ""
    requires CacheGet(b, ListingKey(userId, q), now).1 == Some(v)
    ensures GetAll(b, users, ss, Some(userId), q, now).1 == FromCache(v)
  {
  }

  /** In memory mode, a listing read whose key the map does not hold is computed from the
      store for a known user and a query the store can run. */
  lemma MissReadsStore(b: Backend<CachedBody>, users: seq<Account>, ss: seq<Summary>, userId: string, q: ListQuery, now: int)
    requires Good(b) && userId != "" && !RedisActive(b) && b.useInMemoryCache
    requires ListingKey(userId, q) !in b.mem.entries
    requires FindAccount(users, userId).Some? && Runnable(q)
    ensures GetAll(b, users, ss, Some(userId), q, now).1
            == Fresh(ListingBody(RunListing(ss, q, FindAccount(users, userId).value.role, userId, now)))
  {
    GetEntryEffect(b.mem, ListingKey(userId, q), now);
  }

  // ----- the promise -----

  /** After a save, an update or a delete, a read of any stored user's listing for one of
      the common queries, within the TTL, is answered from the cache with the listing the
      sweep computed from the new store. This holds on a working Redis, and in memory mode
      when the sweep's writes fit in the map. */
  lemma {:induction false} SweepServesFreshListings(b: Backend<CachedBody>, users: seq<Account>, ss: seq<Summary>,
                                                    summaryId: Option<string>, now: int, later: int, i: nat, q: ListQuery)
    requires Good(b)
    requires (RedisActive(b) && b.remoteHealthy) || (!RedisActive(b) && b.useInMemoryCache && 3 * |users| + 1 <= MaxSize)
    requires IdsSweepable(users) && i < |users| && q in CommonQueries()
    requires later <= now + CacheTtl * 1000
    ensures Runnable(q)
    ensures GetAll(Refreshed(b, users, ss, summaryId, now), users, ss, Some(users[i].id), q, later).1
            == FromCache(ListingBody(RunListing(ss, q, users[i].role, users[i].id, now)))
  {
    var j :| 0 <= j < 3 && CommonQueries()[j] == q;
    ReadyAfterInvalidate(b, users, ss, summaryId);
    ListingInSweep(users, ss, summaryId, i, j);
    CommonRunnable(j);
    var b0 := CacheInvalidate(b, summaryId);
    var ws := RebuildWrites(users, ss, summaryId);
    var p := ListingPosition(ss, summaryId, i, j);
    ListingWriteFacts(ws[p], users[i], q, ss, now);
    SweepStores(b0, ss, ws, now, later, p);
    HitServes(ApplyWrites(b0, ss, ws, 0, now), users, ss, users[i].id, q, later, WriteBody(ws[p], ss, now));
  }

  // ----- listings cached in memory before Redis connected -----

  /** A sweep on a working Redis leaves the in-memory map as it found it, and once the
      connection closes that map is what reads consult. */
  lemma ClosedAfterRedisSweep(b: Backend<CachedBody>, ss: seq<Summary>, ws: seq<Write>, now: int)
    requires Good(b) && AllRunnable(ws) && RedisActive(b) && b.remoteHealthy
    ensures Good(Closed(ApplyWrites(b, ss, ws, 0, now)))
    ensures Closed(ApplyWrites(b, ss, ws, 0, now)).mem == b.mem
    ensures !RedisActive(Closed(ApplyWrites(b, ss, ws, 0, now)))
    ensures Closed(ApplyWrites(b, ss, ws, 0, now)).useInMemoryCache
  {
    RedisSweep(b, ss, ws, 0, now);
  }

  /** The code as written: a listing cached in the in-memory map before Redis connected
      survives a write, because the Redis branch of invalidation leaves the map alone and
      the sweep writes to Redis only. When the connection then closes, memory mode serves
      that listing again, computed from the store as it was before the write. */
  lemma {:induction false} AsWrittenServesStale(b: Backend<CachedBody>, users: seq<Account>, ss: seq<Summary>,
                                                summaryId: Option<string>, userId: string, q: ListQuery, now: int, later: int)
    requires Good(b) && RedisActive(b) && b.remoteHealthy && userId != ""
    requires ListingKey(userId, q) in b.mem.entries && later <= b.mem.entries[ListingKey(userId, q)].expiresAt
    ensures Good(Closed(Refreshed(b, users, ss, summaryId, now)))
    ensures GetAll(Closed(Refreshed(b, users, ss, summaryId, now)), users, ss, Some(userId), q, later).1
            == FromCache(b.mem.entries[ListingKey(userId, q)].value)
  {
    InvalidateKeepsGood(b, summaryId);
    RebuildWritesShape(users, ss, summaryId);
    var b0 := CacheInvalidate(b, summaryId);
    assert b0.mem == b.mem;
    ClosedAfterRedisSweep(b0, ss, RebuildWrites(users, ss, summaryId), now);
    var c := Closed(Refreshed(b, users, ss, summaryId, now));
    var key := ListingKey(userId, q);
    GetEntryEffect(c.mem, key, later);
    HitServes(c, users, ss, userId, q, later, b.mem.entries[key].value);
  }

  /** Invalidation as evidently intended: the listings and summaries go from the Redis
      keyspace and from the in-memory map alike, whichever one is in use. */
  function InvalidateEverywhere(b: Backend<CachedBody>, summaryId: Option<string>): (r: Backend<CachedBody>)
    requires Good(b)
    ensures Good(r)
    ensures forall k :: k in r.mem.entries <==> k in b.mem.entries && !ShouldDelete(k, summaryId)
    ensures RedisActive(b) && b.remoteHealthy ==> r.remote == WithoutSummaryKeys(b.remote)
    ensures r.redisPresent == b.redisPresent && r.redisConnected == b.redisConnected
    ensures r.useInMemoryCache == b.useInMemoryCache && r.remoteHealthy == b.remoteHealthy
  {
    InvalidateEffect(b.mem, summaryId);
    KeptShrinks(b.mem.order, summaryId);
    var cleared := b.(mem := Invalidate(b.mem, summaryId));
    if RedisActive(b) && b.remoteHealthy then cleared.(remote := WithoutSummaryKeys(b.remote)) else cleared
  }

  /** A write's effect on the cache with the corrected invalidation. */
  function RefreshedEverywhere(b: Backend<CachedBody>, users: seq<Account>, ss: seq<Summary>, summaryId: Option<string>, now: int)
    : (r: Backend<CachedBody>)
    requires Good(b)
    ensures Good(r)
  {
    RebuildWritesShape(users, ss, summaryId);
    ApplyWritesKeepsGood(InvalidateEverywhere(b, summaryId), ss, RebuildWrites(users, ss, summaryId), 0, now);
    ApplyWrites(InvalidateEverywhere(b, summaryId), ss, RebuildWrites(users, ss, summaryId), 0, now)
  }

  /** With the corrected invalidation, no listing from before a write outlives it: after
      the connection closes, a read of a stored user's listing misses the map and is
      computed from the new store. */
  lemma {:induction false} EverywhereReadsFresh(b: Backend<CachedBody>, users: seq<Account>, ss: seq<Summary>,
                                                summaryId: Option<string>, userId: string, q: ListQuery, now: int, later: int)
    requires Good(b) && RedisActive(b) && b.remoteHealthy && userId != ""
    requires FindAccount(users, userId).Some? && Runnable(q)
    ensures Good(Closed(RefreshedEverywhere(b, users, ss, summaryId, now)))
    ensures GetAll(Closed(RefreshedEverywhere(b, users, ss, summaryId, now)), users, ss, Some(userId), q, later).1
            == Fresh(ListingBody(RunListing(ss, q, FindAccount(users, userId).value.role, userId, later)))
  {
    RebuildWritesShape(users, ss, summaryId);
    var b0 := InvalidateEverywhere(b, summaryId);
    ClosedAfterRedisSweep(b0, ss, RebuildWrites(users, ss, summaryId), now);
    ListingKeyPrefix(userId, q);
    MissReadsStore(Closed(RefreshedEverywhere(b, users, ss, summaryId, now)), users, ss, userId, q, later);
  }
}
