# Summary service: a verified model

This project is a Dafny model of the core of a text-summary web application. An Express
server stores summaries in MongoDB. It charges one credit per summary generated by a
language model, and it keeps listings and single summaries in a cache. That cache is
Redis when Redis answers, and a bounded in-process map when it does not. A React/Redux
client signs users in and up and keeps a slice of the user's summaries.

The model covers nine pieces of the code.

- **The cache** (`cache_key.dfy`, `memory_cache.dfy`, `cache_backend.dfy`):
  - the cache-key format;
  - the in-memory map, with its size bound, eviction of the oldest key on a full insert, TTL expiry on read and prefix invalidation;
  - the two mode flags;
  - the Redis wrapper that switches to memory on failure.
- **The controller** (`summary_controller.dfy`, with the store in `summary_store.dfy`):
  - generation with its credit debit and refund;
  - save;
  - listing with role scope, newest-first order and paging;
  - read by id, update and delete;
  - the sweep that rebuilds the cached listings of every user.
- **What the sweep buys readers** (`sweep_freshness.dfy`): after a write, reads of the common listings are cache hits with the listings of the new store, and the one case where that fails.
- **The query sanitiser** (`mongo_sanitize.dfy`): it removes every `$`- or `.`-named member at any depth.
- **The upload middleware** (`upload.dfy`): the stored file name, the file filter, the size limit and the error handler.
- **The two Redux slices** (`summary_slice.dfy`, `auth_slice.dfy`) and their thunks' payload shaping.
- **The sign-in and sign-up forms** (`signin.dfy`, `signup.dfy`, and `password.dfy` for the password rule).

Support modules:
- `text.dfy` gives JavaScript's `trim`, `split(/\s+/)` and word count, decimal text, ASCII lower-casing and the UTF-16 length.
- `json.dfy` gives JavaScript values, truthiness, `||` and object spread.
- `wrappers.dfy` gives `Option`.

How the model is built:
- Pure code is modelled as functions with lemmas.
- Stateful code is modelled as classes. The Redis/memory cache, the server, the Redux stores, the sign-up form and the middleware request are classes.
- Each method's new state is tied to a specification function of the old state. The properties are proved about those functions.
- The database is two sequences: accounts and summaries.
- The clock, the random number, the language model's reply, the health of the Redis connection and server-side availability answers are all parameters.

## Model

| member | source | states |
|---|---|---|
| CacheKey.CacheKeyShape | server/controller/SummaryGenerate.js:73-79 | with no parameters the key is `prefix:userId`; otherwise `prefix:userId:` then the `name:value` entries sorted by name and joined with `|` |
| CacheKey.CacheKeyIgnoresParamOrder | server/controller/SummaryGenerate.js:73-79 | two parameter lists holding the same name/value pairs, in any order, give the same key |
| CacheKey.SortByName | server/controller/SummaryGenerate.js:74-75 | the sorted keys are ordered by JavaScript string order and are a permutation of the input |
| CacheKey.Insert | server/controller/SummaryGenerate.js:74-75 | inserting into a sorted list keeps it sorted and adds exactly that one element |
| CacheKey.SortedPermutationsAreEqual | server/controller/SummaryGenerate.js:74-75 | two sorted permutations of a list with one value per name are equal, so the sort's result does not depend on its input order |
| CacheKey.Entries | server/controller/SummaryGenerate.js:76 | entry `i` is `name:value` of parameter `i` |
| CacheKey.JoinOfEntriesNonEmpty | server/controller/SummaryGenerate.js:77-78 | a non-empty parameter list gives a non-empty (truthy) suffix, so the `:` separator is added |
| MemoryCache.DeleteEffect | server/controller/SummaryGenerate.js:109 | deleting a present key shrinks the map by one; deleting an absent key changes nothing |
| MemoryCache.SetEntryEffect | server/controller/SummaryGenerate.js:96-103 | the size stays at most 1000; the key holds the value with expiry `now + ttl*1000`; on a full map the oldest other key is evicted; every other entry is kept unchanged |
| MemoryCache.GetEntryEffect | server/controller/SummaryGenerate.js:105-113 | a missing key reads null; an expired key reads null and is deleted; a live key reads its value; other keys are untouched |
| MemoryCache.KeysToDeleteMembers | server/controller/SummaryGenerate.js:156-169 | a key is collected exactly when it starts with `summaries:`, is `summary:<id>` for the given id, or starts with `summary:` when no id is given |
| MemoryCache.DeleteAllEffect | server/controller/SummaryGenerate.js:171-174 | deleting the collected keys removes exactly those keys from the order and the entries |
| MemoryCache.InvalidateEffect | server/controller/SummaryGenerate.js:155-177 | after invalidation, exactly the keys that should not be deleted remain, in their order, with their values |
| MemoryCache.InvalidateOneKeepsOthers | server/controller/SummaryGenerate.js:158-164 | invalidating one summary removes its key and every listing key, and keeps other summaries' keys |
| MemoryCache.InvalidateAllSummaryKeys | server/controller/SummaryGenerate.js:158-168 | invalidating with no id removes every `summary:` and `summaries:` key |
| MemoryCache.Kept | server/controller/SummaryGenerate.js:155-177 | the surviving keys are exactly the old keys that are not to be deleted |
| CacheBackend.NoModeNoCaching | server/controller/SummaryGenerate.js:116-132 | with neither flag set, reads miss and writes and invalidation change nothing |
| CacheBackend.FailureSwitchesToMemory | server/controller/SummaryGenerate.js:81-93 | a failing Redis operation returns null and switches to the in-memory mode; later reads and writes use the memory map |
| CacheBackend.SetThenGet | server/controller/SummaryGenerate.js:116-132 | with a working backend, a value written is read back until its TTL runs out |
| CacheBackend.ExpiredReadMisses | server/controller/SummaryGenerate.js:105-113 | in memory mode, a read after the TTL misses and removes the key |
| CacheBackend.RedisInvalidateEffect | server/controller/SummaryGenerate.js:143-154 | on Redis, invalidation removes every `summaries:*` and `summary:*` key and keeps every other key and value |
| CacheBackend.GetKeepsGood | server/controller/SummaryGenerate.js:116-124 | a read keeps the memory map well formed and within its bound |
| CacheBackend.SetKeepsGood | server/controller/SummaryGenerate.js:126-132 | a write keeps the memory map well formed and within its bound |
| CacheBackend.InvalidateKeepsGood | server/controller/SummaryGenerate.js:135-181 | invalidation keeps the memory map well formed and within its bound |
| CacheBackend.Cache.constructor | server/controller/SummaryGenerate.js:17-20 | no connection, no memory mode, an empty memory map |
| CacheBackend.Cache.InitializeRedis | server/controller/SummaryGenerate.js:25-68 | a healthy ping connects and leaves memory mode unchanged; a failed one drops the client and turns memory mode on |
| CacheBackend.Cache.OnConnect | server/controller/SummaryGenerate.js:38-42 | connected, memory mode off |
| CacheBackend.Cache.OnError | server/controller/SummaryGenerate.js:44-52 | disconnected, client dropped, memory mode on |
| CacheBackend.Cache.OnClose | server/controller/SummaryGenerate.js:54-57 | disconnected, memory mode on |
| CacheBackend.Cache.SafeRedisOperation | server/controller/SummaryGenerate.js:81-93 | the state and reply are those of the specification of `safeRedisOperation` |
| CacheBackend.Cache.SetInMemoryCache | server/controller/SummaryGenerate.js:96-103 | the memory map becomes the specified insert with eviction |
| CacheBackend.Cache.GetInMemoryCache | server/controller/SummaryGenerate.js:105-113 | reply and memory map as specified; nothing else changes |
| CacheBackend.Cache.GetFromCache | server/controller/SummaryGenerate.js:116-124 | reply and state as specified for the current mode |
| CacheBackend.Cache.SetCache | server/controller/SummaryGenerate.js:126-132 | state as specified for the current mode |
| CacheBackend.Cache.CollectKeysToDelete | server/controller/SummaryGenerate.js:156-169 | the loop collects exactly the specified keys in map order |
| CacheBackend.Cache.InvalidateInMemory | server/controller/SummaryGenerate.js:155-177 | the memory map becomes its specified invalidation |
| CacheBackend.Cache.InvalidateAllCache | server/controller/SummaryGenerate.js:135-181 | state as specified: the Redis path, the memory path, or nothing |
| SummaryStore.FindAccount | server/controller/SummaryGenerate.js:266 | a found account is in the store with that id; no account is found only when no id matches |
| SummaryStore.AdjustCreditsEffect | server/controller/SummaryGenerate.js:342-350 | `$inc` on credits changes only the matched account, by exactly `delta`, and is a no-op for an unknown id |
| SummaryStore.AdjustCreditsInverse | server/controller/SummaryGenerate.js:387-388 | the refund `$inc: 1` after the debit `$inc: -1` restores the accounts exactly |
| SummaryStore.FindSummary | server/controller/SummaryGenerate.js:536-539 | a found summary is stored with that id; none is found only when no id matches |
| SummaryStore.ReplaceSummaryEffect | server/controller/SummaryGenerate.js:562-566 | after replacement the id reads the new summary; other ids read as before |
| SummaryStore.RemoveSummaryEffect | server/controller/SummaryGenerate.js:595 | deletion removes exactly the summary with that id and keeps ids distinct |
| SummaryStore.Select | server/controller/SummaryGenerate.js:487-493 | the selection is exactly the stored summaries that match the status filter and the role scope |
| SummaryStore.SelectScope | server/controller/SummaryGenerate.js:487-493 | a `user` sees only their own summaries; an admin with no status filter sees all |
| SummaryStore.InsertNewest | server/controller/SummaryGenerate.js:496 | inserting keeps newest-first order and adds exactly that summary |
| SummaryStore.SortNewest | server/controller/SummaryGenerate.js:496 | `sort({createdAt: -1})` yields newest first and is a permutation |
| SummaryStore.Window | server/controller/SummaryGenerate.js:497-498 | `skip` then `limit`: the rows at positions `skip..skip+limit` that exist |
| SummaryStore.WindowFacts | server/controller/SummaryGenerate.js:497-498 | a page holds only stored rows and keeps newest-first order |
| SummaryStore.ProjectAll | server/controller/SummaryGenerate.js:499 | `select("-originalText")` projects every row |
| SummaryStore.TotalPagesIsCeiling | server/controller/SummaryGenerate.js:505 | `Math.ceil(total/limit)` is the least page count covering all rows; it is zero exactly when there are no rows |
| SummaryStore.PageWithinTotal | server/controller/SummaryGenerate.js:505 | a page that starts before the end is within `totalPages` |
| SummaryStore.PageRowsMatch | server/controller/SummaryGenerate.js:487-501 | every listed row is stored and matches the query, newest first |
| SummaryStore.ListingCounts | server/controller/SummaryGenerate.js:503-510 | at most `limit` rows; `total` counts all matches; `totalPages` is the ceiling; `currentPage` is the page asked for |
| SummaryStore.PagesCoverRows | server/controller/SummaryGenerate.js:495-505 | row `k` of page `p` is match number `(p-1)*limit+k` of one newest-first order, so within one store snapshot, under the model's tie order, the pages together list every match exactly once |
| SummaryController.SortedListingParams | server/controller/SummaryGenerate.js:203-211 | the rebuild's parameters sort to `limit`, `page`, `status` |
| SummaryController.ListingKeyFormula | server/controller/SummaryGenerate.js:211 | a listing key is `summaries:<user>:limit:<l>|page:<p>|status:<s>` |
| SummaryController.DefaultListingKey | server/controller/SummaryGenerate.js:204 | the unfiltered query's suffix is `limit:10|page:1|status:undefined` |
| SummaryController.ListingKeysSeparateUsers | server/controller/SummaryGenerate.js:211 | the listing keys of two different colon-free user ids never collide |
| SummaryController.SeparatedIdsDiffer | server/controller/SummaryGenerate.js:211 | distinct colon-free ids between a common prefix and a `:` give distinct strings |
| SummaryController.UserWrites | server/controller/SummaryGenerate.js:210-243 | one write per common query for a user |
| SummaryController.ListingWritesShape | server/controller/SummaryGenerate.js:209-244 | three writes per user, write `3i+j` being query `j` of user `i` |
| SummaryController.ListingWritesRunnable | server/controller/SummaryGenerate.js:209-244 | every rebuild query has `limit >= 1` and `page >= 1` |
| SummaryController.SummaryWriteRunnable | server/controller/SummaryGenerate.js:192-199 | the single-summary write is well formed |
| SummaryController.RebuildWritesShape | server/controller/SummaryGenerate.js:184-248 | the sweep writes the summary key first when the id is stored, then the listings |
| SummaryController.LayoutIsListingWrites | server/controller/SummaryGenerate.js:209-244 | the loop's write layout is exactly the specified write list |
| SummaryController.ApplyWritesKeepsGood | server/controller/SummaryGenerate.js:209-244 | applying the writes keeps the cache well formed |
| SummaryController.ApplyWritesAppend | server/controller/SummaryGenerate.js:192-244 | the writes of two phases apply one after the other |
| SummaryController.ApplyWritesSuffix | server/controller/SummaryGenerate.js:209-244 | applying a suffix from position `|a|+n` is applying the suffix from `n` |
| SummaryController.PutListingWrite | server/controller/SummaryGenerate.js:211-239 | a listing write stores the listing computed from the store under its key |
| SummaryController.AdmitFacts | server/controller/SummaryGenerate.js:256-339 | a generation goes on exactly with a known requester, positive credits and non-blank text; refusals are 401, 404 and 403 with the balance |
| SummaryController.AdmittedAccount | server/controller/SummaryGenerate.js:266-290 | an admitted request names a stored account and carries its balance |
| SummaryController.FailuresKeepCredits | server/controller/SummaryGenerate.js:251-409 | every failed generation leaves all balances unchanged and the cache alone |
| SummaryController.SuccessChargesOneCredit | server/controller/SummaryGenerate.js:342-386 | a success costs the requester exactly one credit and nobody else anything; `remainingCredits` is the new, non-negative balance; `wordCount` counts the text's words; the cache is invalidated |
| SummaryController.ModelFailureRefunds | server/controller/SummaryGenerate.js:387-394 | a model failure refunds the credit and answers 500 |
| SummaryController.SaveRejectsMissingFields | server/controller/SummaryGenerate.js:425-429 | a missing title, content or original text is a 400 and stores nothing |
| SummaryController.SaveAppliesDefaults | server/controller/SummaryGenerate.js:431-447 | a saved summary is appended with status `draft` and file type `text` by default, a trimmed title and the token count of the trimmed content |
| SummaryController.GetAll | server/controller/SummaryGenerate.js:464-520 | the listing handler keeps the cache well formed |
| SummaryController.GetById | server/controller/SummaryGenerate.js:523-549 | the read-by-id handler keeps the cache well formed |
| SummaryController.ListingMissThenHit | server/controller/SummaryGenerate.js:472-512 | a miss computes and caches the listing; a second request within the TTL is answered from the cache with the same body |
| SummaryController.ApplyUpdateEffect | server/controller/SummaryGenerate.js:562-566 | an update sets only the named fields (title trimmed) and keeps the rest; an empty update is the identity |
| SummaryController.Server.constructor | server/controller/SummaryGenerate.js:17-22 | the server starts with the given store and cache |
| SummaryController.Server.GenerateSummary | server/controller/SummaryGenerate.js:251-409 | accounts, response and cache are those of the generation specification |
| SummaryController.Server.ChargeAndSummarize | server/controller/SummaryGenerate.js:342-394 | debit, model call and refund-or-invalidate, as specified |
| SummaryController.Server.UpdateCacheWithFreshData | server/controller/SummaryGenerate.js:184-248 | the cache is the result of applying the sweep's writes in order; what that buys readers is `SweepFreshness.SweepServesFreshListings` |
| SweepFreshness.CommonSuffixesDiffer | server/controller/SummaryGenerate.js:203-207 | the three common queries give three different key suffixes |
| SweepFreshness.SameUserKeysDiffer | server/controller/SummaryGenerate.js:73-79 | one user's listings for queries with different suffixes have different keys |
| SweepFreshness.ListingKeysDiffer | server/controller/SummaryGenerate.js:209-211 | two different (user, common query) pairs never share a listing key, for non-empty, `:`-free, distinct user ids |
| SweepFreshness.ListingKeyPrefix | server/controller/SummaryGenerate.js:158-159 | every listing key starts with `summaries:`, so invalidation removes it |
| SweepFreshness.ListingKeysDistinct | server/controller/SummaryGenerate.js:209-211 | the sweep's listing writes go to pairwise different keys |
| SweepFreshness.ListingKeysPrefixed | server/controller/SummaryGenerate.js:209-211 | every listing write of the sweep goes to a `summaries:` key |
| SweepFreshness.LeadThenListings | server/controller/SummaryGenerate.js:192-211 | a `summary:<id>` key ahead of distinct `summaries:` keys gives keys that do not repeat, each of which invalidation with that id removes |
| SweepFreshness.RebuildWritesFacts | server/controller/SummaryGenerate.js:143-244 | the sweep writes each key once, and each of its keys is one that the invalidation before it removes |
| SweepFreshness.ListingInSweep | server/controller/SummaryGenerate.js:209-211 | user `i`'s write for common query `j` stands after the summary write, at position `3i+j` of the listing writes |
| SweepFreshness.RedisSweep | server/controller/SummaryGenerate.js:126-129 | on a working Redis the sweep sets each key in Redis in order and leaves the flags and the in-memory map as they were |
| SweepFreshness.RemoteStores | server/controller/SummaryGenerate.js:127-128 | with keys that do not repeat, Redis ends holding each written body under its key |
| SweepFreshness.RemoteKeeps | server/controller/SummaryGenerate.js:127-128 | a Redis key that no remaining write goes to keeps its value |
| SweepFreshness.MemorySweep | server/controller/SummaryGenerate.js:129-131 | in memory mode the sweep sets each key in the in-memory map in order |
| SweepFreshness.SetAfter | server/controller/SummaryGenerate.js:96-103 | setting a new key on a full map evicts the oldest key from before the sweep, never one the sweep has set |
| SweepFreshness.MemoryStep | server/controller/SummaryGenerate.js:96-103 | one set keeps the sweep's earlier keys with their values and adds none of its later keys |
| SweepFreshness.MemoryStores | server/controller/SummaryGenerate.js:96-103 | at most 1000 distinct keys that the map does not hold all survive the sweep with the value written and expiry `now + ttl*1000` |
| SweepFreshness.SweepStores | server/controller/SummaryGenerate.js:96-132 | after a sweep that is ready (a working Redis, or memory mode with room and none of its keys held), a read of any written key up to the TTL returns the written body |
| SweepFreshness.ReadyAfterInvalidate | server/controller/SummaryGenerate.js:143-177 | invalidation leaves the cache ready for the sweep, on a working Redis and in memory mode when `3*users + 1 <= 1000` |
| SweepFreshness.HitServes | server/controller/SummaryGenerate.js:472-478 | a listing read whose key hits answers with the cached body |
| SweepFreshness.MissReadsStore | server/controller/SummaryGenerate.js:472-515 | in memory mode a listing read whose key the map lacks answers with the listing computed from the store |
| SweepFreshness.SweepServesFreshListings | server/controller/SummaryGenerate.js:143-248 | after a write, on a working Redis or in memory mode with `3*users + 1 <= 1000`, a read of any stored user's listing for a common query up to an hour later is a cache hit with the listing computed from the new store |
| SweepFreshness.ClosedAfterRedisSweep | server/controller/SummaryGenerate.js:54-57 | after a sweep on a working Redis and a closed connection, reads consult the in-memory map as it was before the sweep |
| SweepFreshness.AsWrittenServesStale | server/controller/SummaryGenerate.js:143-155 | a listing cached in the in-memory map before Redis connected survives a write on Redis; once the connection closes, reads up to its expiry get that pre-write listing |
| SweepFreshness.InvalidateEverywhere | server/controller/SummaryGenerate.js:143-177 | corrected invalidation: the map keeps exactly the keys not to delete, and on a working Redis the `summary:`/`summaries:` keys go from Redis too |
| SweepFreshness.EverywhereReadsFresh | server/controller/SummaryGenerate.js:143-177 | with the corrected invalidation, after the connection closes a listing read misses and is computed from the new store |
| SummaryController.Server.RefreshListings | server/controller/SummaryGenerate.js:209-244 | the nested loops apply exactly the listing writes, user by user and query by query |
| SummaryController.Server.SaveSummary | server/controller/SummaryGenerate.js:412-461 | store and response as specified; on success the cache is invalidated and then rebuilt |
| SummaryController.Server.GetAllSummaries | server/controller/SummaryGenerate.js:464-520 | cache and response as specified |
| SummaryController.Server.GetSummaryById | server/controller/SummaryGenerate.js:523-549 | cache and response as specified |
| SummaryController.Server.UpdateSummary | server/controller/SummaryGenerate.js:552-583 | 404 for an unknown id, the catch-all 500 for a failed validation; otherwise the summary is replaced and the cache invalidated and rebuilt |
| SummaryController.Server.DeleteSummary | server/controller/SummaryGenerate.js:586-609 | 404 for an unknown id; otherwise the summary is removed and the whole cache invalidated and rebuilt with no summary id |
| Text.WordCountIsWordStarts | server/controller/SummaryGenerate.js:381-383 | `split(/\s+/).filter(w => w.length > 0).length` counts the starts of words |
| Text.TrimmedSplitLength | server/controller/SummaryGenerate.js:431 | `trim().split(/\s+/).length` is the word count, or 1 for all-space content |
| Text.BlankIffAllSpace | client/src/pages/SignUpPage.jsx:122-126 | `!s.trim()` holds exactly when the string is all white space |
| MongoSanitize.SanitizeIsClean | server/middleware/mongoSanitize.js:1-10 | after sanitising, no member at any depth has a key starting with `$` or containing `.` |
| MongoSanitize.CleanIsUnchanged | server/middleware/mongoSanitize.js:1-10 | a clean value is left as it is |
| MongoSanitize.CleanIffFixedPoint | server/middleware/mongoSanitize.js:1-10 | a value is clean exactly when sanitising leaves it unchanged |
| MongoSanitize.SanitizeIdempotent | server/middleware/mongoSanitize.js:1-10 | sanitising twice is sanitising once |
| MongoSanitize.KeptMembers | server/middleware/mongoSanitize.js:3-7 | a member survives exactly when its key is not offending, and its value is sanitised |
| MongoSanitize.NonObjectUnchanged | server/middleware/mongoSanitize.js:2 | primitives and null are returned unchanged |
| MongoSanitize.SanitizeMongo | server/middleware/mongoSanitize.js:1-10 | the in-place loop produces the sanitised value |
| MongoSanitize.Request.constructor | server/middleware/mongoSanitize.js:11-15 | a request carries its body and params |
| MongoSanitize.MongoSanitizeMiddleware | server/middleware/mongoSanitize.js:11-15 | truthy body and params are replaced by their sanitised forms; both end clean; `next` is called |
| MongoSanitize.FalsyIsClean | server/middleware/mongoSanitize.js:12-13 | a falsy body or params left alone is already clean |
| Upload.LastIndexOf | server/middleware/uploadMiddleware.js:18 | the last position of the character, or -1 when absent |
| Upload.StripTrailingSlashes | server/middleware/uploadMiddleware.js:18 | the path without its trailing slashes |
| Upload.ExtnameIsExtension | server/middleware/uploadMiddleware.js:18 | `path.extname` is empty or a dot-started tail of the last segment |
| Upload.ExtnameOfStemAndExtension | server/middleware/uploadMiddleware.js:18 | a slash-free stem followed by an extension has that extension |
| Upload.SuffixAvoids | server/middleware/uploadMiddleware.js:17 | the unique suffix has no `/` and no `.` |
| Upload.StoredNameKeepsExtension | server/middleware/uploadMiddleware.js:16-21 | the stored name keeps the original file's extension when the field name, such as `file`, has no `/`, and has no `.` or the extension is non-empty |
| Upload.FileFilterAccepts | server/middleware/uploadMiddleware.js:25-39 | a listed MIME type with a listed extension (in any letter case) is accepted |
| Upload.FileFilterRejectsType | server/middleware/uploadMiddleware.js:25-39 | an unlisted MIME type is rejected with the invalid-type message |
| Upload.FileFilterRejectsBareName | server/middleware/uploadMiddleware.js:31-38 | a name without an extension is rejected |
| Upload.UploadOutcomes | server/middleware/uploadMiddleware.js:42-74 | a file is stored exactly when the field, type and size pass; every upload error is answered with 400, a too-large file with its own message |
| Upload.OtherErrorsPassOn | server/middleware/uploadMiddleware.js:52-73 | any other error goes on to the next handler unchanged |
| SummarySlice.FetchPayload | client/src/store/slices/summarySlice.js:10 | on a body that is not null or undefined: `summaries` when it is an array, `[]` when it is falsy |
| SummarySlice.FetchSummaries | client/src/store/slices/summarySlice.js:5-15 | fulfilled exactly when the request answered with a body that is not null or undefined; a null or undefined body rejects with the `TypeError` message of reading `summaries`; a failed request rejects with the server's message or the error's own |
| SummarySlice.RejectValue | client/src/store/slices/summarySlice.js:12 | the server's response value when truthy, the error message otherwise |
| SummarySlice.SaveData | client/src/store/slices/summarySlice.js:37-46 | defaults `draft` and `text`, a null file name, and the original text falling back to the input text |
| SummarySlice.RemoveById | client/src/store/slices/summarySlice.js:81-85 | the filtered list keeps only items whose `id` and `_id` both differ |
| SummarySlice.RemoveByIdCounts | client/src/store/slices/summarySlice.js:81-85 | each non-matching item keeps its multiplicity; each matching one is gone |
| SummarySlice.RemoveByIdIdempotent | client/src/store/slices/summarySlice.js:81-85 | removing twice is removing once |
| SummarySlice.RejectedKeepsItems | client/src/store/slices/summarySlice.js:75-96 | a rejection records its reason and keeps the list; only the fetch ends loading |
| SummarySlice.LoadingOnlyFromFetch | client/src/store/slices/summarySlice.js:64-97 | only the fetch actions touch `loading` |
| SummarySlice.FetchCycle | client/src/store/slices/summarySlice.js:67-78 | pending then fulfilled loads the list; pending then rejected keeps it and records the error |
| SummarySlice.SaveThenDelete | client/src/store/slices/summarySlice.js:81-93 | a saved summary goes first, and deleting it again restores the state |
| SummarySlice.Summaries.constructor | client/src/store/slices/summarySlice.js:58-62 | the initial state |
| SummarySlice.Summaries.FetchSummariesPending | client/src/store/slices/summarySlice.js:67-70 | state as specified by the reducer |
| SummarySlice.Summaries.FetchSummariesFulfilled | client/src/store/slices/summarySlice.js:71-74 | state as specified by the reducer |
| SummarySlice.Summaries.FetchSummariesRejected | client/src/store/slices/summarySlice.js:75-78 | state as specified by the reducer |
| SummarySlice.Summaries.DeleteSummaryFulfilled | client/src/store/slices/summarySlice.js:81-85 | state as specified by the reducer |
| SummarySlice.Summaries.DeleteSummaryRejected | client/src/store/slices/summarySlice.js:86-88 | state as specified by the reducer |
| SummarySlice.Summaries.SaveSummaryFulfilled | client/src/store/slices/summarySlice.js:91-93 | state as specified by the reducer |
| SummarySlice.Summaries.SaveSummaryRejected | client/src/store/slices/summarySlice.js:94-96 | state as specified by the reducer |
| Json.SpreadGet | client/src/store/slices/slices.js:68-70 | `{...a, ...b}` has the names of both, and a name of `b` reads `b`'s value |
| AuthSlice.UserObjectFields | client/src/store/slices/slices.js:10-19 | the normalised user has its six fields, credits defaulting to 100, with no repeated name |
| AuthSlice.CheckSession | client/src/store/slices/slices.js:5-24 | fulfilled exactly when the body is not null or undefined and its `authenticated` and `user` are truthy; the user's name falls back to `userName`, `email`, `role` and `createdAt` are copied and credits fall back to 100; a null or undefined body rejects with the `TypeError` message of reading `authenticated`; otherwise rejected with the fixed message or the server's |
| AuthSlice.LoginUser | client/src/store/slices/slices.js:30-57 | fulfilled exactly when the body is not null or undefined and the candidate has an `id` or `_id`; the payload has a truthy id, the name fallbacks, the candidate's `email`, `role` and `createdAt`, and default credits; a null or undefined body rejects with the `TypeError` message of reading `user`; otherwise rejected with the no-user-data message or the server's |
| AuthSlice.ReduceKeepsConsistent | client/src/store/slices/slices.js:67-114 | every reducer keeps the user an object with distinct names |
| AuthSlice.ThunkActionsWellFormed | client/src/store/slices/slices.js:10-46 | the thunks only ever dispatch well-formed users |
| AuthSlice.UpdateUserMerges | client/src/store/slices/slices.js:68-70 | `updateUser` overwrites exactly the given fields and keeps the rest and the session flag |
| AuthSlice.LoginRejectedKeepsSession | client/src/store/slices/slices.js:106-109 | a failed login records the error and keeps the session |
| AuthSlice.SessionRejectedKeepsError | client/src/store/slices/slices.js:91-95 | a failed session check signs out and keeps the error |
| AuthSlice.ResetsAreNarrow | client/src/store/slices/slices.js:71-78 | `clearAuth`, `clearError` and logout reset exactly their fields |
| AuthSlice.LoginFlow | client/src/store/slices/slices.js:96-105 | pending then a fulfilled login leaves an authenticated user with a truthy id and no error |
| AuthSlice.Auth.constructor | client/src/store/slices/slices.js:61-66 | the initial state |
| AuthSlice.Auth.UpdateUserReducer | client/src/store/slices/slices.js:68-70 | state as specified by the reducer |
| AuthSlice.Auth.ClearAuthReducer | client/src/store/slices/slices.js:71-75 | state as specified by the reducer |
| AuthSlice.Auth.ClearErrorReducer | client/src/store/slices/slices.js:76-78 | state as specified by the reducer |
| AuthSlice.Auth.CheckSessionPendingReducer | client/src/store/slices/slices.js:82-84 | state as specified by the reducer |
| AuthSlice.Auth.CheckSessionFulfilledReducer | client/src/store/slices/slices.js:85-90 | state as specified by the reducer |
| AuthSlice.Auth.CheckSessionRejectedReducer | client/src/store/slices/slices.js:91-95 | state as specified by the reducer |
| AuthSlice.Auth.LoginPendingReducer | client/src/store/slices/slices.js:96-99 | state as specified by the reducer |
| AuthSlice.Auth.LoginFulfilledReducer | client/src/store/slices/slices.js:100-105 | state as specified by the reducer |
| AuthSlice.Auth.LoginRejectedReducer | client/src/store/slices/slices.js:106-109 | state as specified by the reducer |
| AuthSlice.Auth.LogoutFulfilledReducer | client/src/store/slices/slices.js:110-113 | state as specified by the reducer |
| Password.HasDigit | client/src/pages/SigninPage.jsx:40 | `/\d/.test` holds exactly when some character is a digit |
| Password.HasSpecial | client/src/pages/SigninPage.jsx:41 | the special-character test holds exactly when some character is in the set |
| Password.ValidatePassword | client/src/pages/SigninPage.jsx:38-49 | each flag is its test, with length counted in UTF-16 units, and `isValid` is their conjunction |
| Password.ValidIsNotBlank | client/src/pages/SigninPage.jsx:38-49 | a valid password is never blank |
| Password.LengthInUnits | client/src/pages/SigninPage.jsx:42 | eight characters always pass the length test; fewer than four never do |
| SignIn.ValidateForm | client/src/pages/SigninPage.jsx:51-68 | a username error exactly when blank; a password error exactly when blank or weak, with the matching message; valid exactly when no error |
| SignIn.HandleSubmit | client/src/pages/SigninPage.jsx:71-90 | a request is sent exactly when the form is valid, carrying the entered fields |
| SignIn.WeakWithoutDigit | client/src/pages/SigninPage.jsx:38-68 | every password without a digit is refused, even one of eight characters or more |
| SignUp.Without | client/src/pages/SignUpPage.jsx:94 | `filter((_, i) => i !== index)` drops exactly position `index` |
| SignUp.EditKeepsCount | client/src/pages/SignUpPage.jsx:83-104 | adding and removing keep between 3 and 6 shop names |
| SignUp.EditsKeepCount | client/src/pages/SignUpPage.jsx:83-104 | any sequence of edits keeps between 3 and 6 shop names |
| SignUp.FromInitialForm | client/src/pages/SignUpPage.jsx:9-17 | from the initial three names, every edit sequence stays within bounds |
| SignUp.StatusAfterRemoveAsWritten | client/src/pages/SignUpPage.jsx:95-96 | the removed position's answer is dropped and every other position keeps its old answer |
| SignUp.StatusAfterRemove | client/src/pages/SignUpPage.jsx:92-104 | after removal, each remaining name carries the answer it had |
| SignUp.RemovalKeepsFlags | client/src/pages/SignUpPage.jsx:92-104 | a remaining name is flagged unavailable exactly when it was before removal |
| SignUp.AsWrittenMissesUnavailable | client/src/pages/SignUpPage.jsx:95-96 | as written, removing an earlier name unflags a later unavailable one |
| SignUp.Filled | client/src/pages/SignUpPage.jsx:137-140 | the non-blank names |
| SignUp.ValidateForm | client/src/pages/SignUpPage.jsx:119-152 | one error per failing field, with a refused shop name overriding the too-few message; valid exactly when the form is acceptable |
| SignUp.SignUpForm.constructor | client/src/pages/SignUpPage.jsx:9-17 | the initial form |
| SignUp.SignUpForm.ChangeUsername | client/src/pages/SignUpPage.jsx:19-52 | sets the username, asks availability only when not blank, empties a shown error |
| SignUp.SignUpForm.ChangeShopName | client/src/pages/SignUpPage.jsx:54-81 | sets the name at its position and its answer, reset when blank |
| SignUp.SignUpForm.AddShopName | client/src/pages/SignUpPage.jsx:83-90 | adds a blank name below six; nothing else changes |
| SignUp.SignUpForm.RemoveShopName | client/src/pages/SignUpPage.jsx:92-104 | removes a name when more than three remain; the answer stored at the removed position is deleted and the later names' answers stay at their old positions, as written |
| SignUp.Submit | client/src/pages/SignUpPage.jsx:154-172 | the errors shown and the request posted for given form values: a request with the filled names exactly when the form is acceptable and no error is set |
| SignUp.SignUpForm.HandleSubmit | client/src/pages/SignUpPage.jsx:154-172 | a request with the filled names is sent exactly when the form is acceptable |

## Left out

- `sanitizeMongo` works in place and returns the same reference. Here it is modelled on values, so aliasing between `req.body` and other holders of the object is not captured.
- Arrays are sanitised element by element like objects with index keys. An index key never starts with `$` or contains `.`, so nothing is lost.
- `summarySlice` fetch: a truthy `summaries` that is not an array is given as an empty list. The source would store that value as is.
- Spreading a non-object user or payload, in `updateUser` and the thunks, is modelled as spreading no members.
- Network calls (`axios`), the username and shop-name availability requests, navigation and rendering are not modelled. The availability answers are parameters of `ChangeUsername` and `ChangeShopName`.
- SignUp.SignUpForm.ChangeUsername and ChangeShopName apply the availability answer at once. Every change fires a request in the source; the interleaving of late replies is not modelled.
- SignUp.SignUpForm.ChangeShopName requires an index inside the list, which is the only kind of index the rendered inputs pass.
- Redis is a map plus a health flag. Its retry, timeout and lazy-connect settings are not modelled, nor is the expiry of `setex`: a key written to Redis stays until it is invalidated.
- CacheBackend.CacheInvalidate: the Redis branch succeeds or fails as a whole on one health flag. The source deletes the `summaries:*` keys and then the `summary:*` keys in two separate calls under one `try`, so a failure between them leaves the listings deleted and a stale `summary:<id>` in place; that partial outcome is not modelled.
- The language model, `mammoth` and the file system are not modelled. The model's reply is a function parameter. A file's extracted text, or its failure, is an input of the request.
- The JSON stringify/parse round trip of cached bodies is replaced by storing the typed body.
- Console logging is not modelled.
- Concurrency and the interleaving of `await` points are not modelled. Each handler runs to completion.
- Database errors are not modelled: ObjectId cast errors, the outer 500 of every handler, and `findByIdAndUpdate` returning null after the existence check.
- The clock (`Date.now`) and `Math.random` are parameters. The random value is taken to be already rounded, in 0..1e9. There is one clock reading per handler: the sweep gives every write the same `now`, where the source reads `Date.now()` again for each write's expiry.
- SweepFreshness.SweepServesFreshListings: in memory mode it needs `3*users + 1 <= 1000`. A larger sweep evicts its own earliest writes once the map is full, so early users' listings miss and are recomputed on read.
- SummaryStore.SortNewest and PagesCoverRows: ties on `createdAt` are broken by storage order, and every page is cut from that one order. The source runs a separate sorted `find` for each page, and MongoDB leaves the order of documents with equal `createdAt` unspecified between queries, so a tied row could appear on two pages and another on none.
- The multer instance's own parsing and the `uploads/` directory creation are not modelled. Only the filter, the name, the size limit and the error handler are.
- ListQuery and SummaryController.GetAll: the query's `limit` and `page` are taken as canonical numbers with their defaults applied. The source puts the raw `req.query` strings in the cache key and echoes `page` as `currentPage`, so `?limit=010` and `?limit=10` get different keys, `?limit=` lists with `.limit(0)`, and negative or non-numeric values are not modelled.
- Json: numbers are integers; fractions and NaN are not modelled. Object members keep insertion order, which differs from JavaScript's order for integer-like names; no modelled name is integer-like.
- AuthSlice.CheckSession, AuthSlice.LoginUser and SummarySlice.FetchSummaries reject a null or undefined body with V8's wording of the `TypeError` message; other engines word it differently.
- SummaryController.GetAll and SummaryController.GetById state only that the cache stays well formed. Their results are given by the functions themselves and by `ListingMissThenHit`.

## Findings

| source | as written | input that shows it | evidently intended | confidence | as-written member | corrected member |
|---|---|---|---|---|---|---|
| client/src/pages/SignUpPage.jsx:92-104 | `removeShopName` deletes `newStatus[index]` but leaves the later names' availability answers at their old positions | names `a b c d`, answer "not available" at position 3; remove position 1: `d` moves to position 2 and is no longer flagged, so `validateForm` lets it through | each answer moves with its name | not executed | SignUp.AsWrittenMissesUnavailable | SignUp.RemovalKeepsFlags |
| server/controller/SummaryGenerate.js:143-155 | `invalidateAllCache` clears Redis when it is connected and the in-memory map only otherwise (`if … else if`) | a listing is cached in memory mode; Redis connects; a summary is saved, so Redis is cleared and rebuilt; the connection closes; a listing read within the hour returns the pre-save listing from the map | a write clears every copy of the cached listings, in Redis and in the map | not executed | SweepFreshness.AsWrittenServesStale | SweepFreshness.EverywhereReadsFresh |

`SignUp.SignUpForm.RemoveShopName` applies the removal as written (`StatusAfterRemoveAsWritten`); `StatusAfterRemove` is the corrected re-indexing, and `RemovalKeepsFlags` is proved about it.

The handlers (`SaveSummary`, `UpdateSummary`, `DeleteSummary`) use `CacheInvalidate` as written; `InvalidateEverywhere` and `RefreshedEverywhere` are the corrected invalidation, and `EverywhereReadsFresh` is proved about it.
