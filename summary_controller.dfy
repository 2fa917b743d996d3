/** The request handlers of server/controller/SummaryGenerate.js over the account and
    summary collections and the cache: credit-metered generation, save, listing, read by id,
    update, delete and the rebuild sweep `updateCacheWithFreshData`. */
module SummaryController {
  import opened Wrappers
  import opened Text
  import opened CacheKey
  import opened MemoryCache
  import opened CacheBackend
  import opened SummaryStore
  import opened Upload

  /** What the cache holds; `JSON.stringify` followed by `JSON.parse` is taken as the
      identity. */
  datatype CachedBody = ListingBody(listing: Listing) | SummaryBody(summary: Summary)

  // ----- error messages of the JSON error bodies -----

  const AuthRequired: string := "User authentication required"
  const UserNotFound: string := "User not found"
  const NoTextError: string := "No text provided for summarization"
  const FileNotFound: string := "Uploaded file not found"
  const UnsupportedFile: string := "Unsupported file type"
  const FileError: string := "Error processing uploaded file"
  const ModelError: string := "Failed to generate summary with AI service"
  const MissingFields: string := "Title, content, and original text are required"
  const SaveError: string := "Failed to save summary"
  const UserIdRequired: string := "User ID is required"
  const FetchError: string := "Failed to fetch summaries"
  const SummaryNotFound: string := "Summary not found"
  const UpdateError: string := "Failed to update summary"

  /** The schema default of `prompt`, which `generateSummary` also uses. */
  const DefaultPrompt: string := "Please summarize this text in a clear and concise manner."

  /** A request field that is present and truthy. */
  predicate Given(a: Option<string>) {
    a.Some? && a.value != ""
  }

  /** `a || b`. */
  function OrElse(a: Option<string>, b: Option<string>): Option<string> {
    if Given(a) then a else b
  }

  /** `${n}` for an integer. */
  function IntToString(n: int): string {
    if n < 0 then "-" + NatToString(-n) else NatToString(n)
  }

  // ----- the listing query and its cache key -----

  datatype ListQuery = ListQuery(status: Option<string>, limit: nat, page: int)

  /** A query the store can run: Mongo refuses a negative `skip`, which is
      `(page - 1) * limit`. */
  predicate Runnable(q: ListQuery) {
    q.limit == 0 || q.page >= 1
  }

  /** `{ status, limit, page }` as `getCacheKey` reads it. */
  function ListingParams(q: ListQuery): seq<Param> {
    [Param("status", StatusValue(q)),
     Param("limit", Value(NatToString(q.limit))),
     Param("page", Value(IntToString(q.page)))]
  }

  function ListingKey(userId: string, q: ListQuery): string {
    GetCacheKey("summaries", userId, ListingParams(q))
  }

  /** `commonQueries`. */
  function CommonQueries(): seq<ListQuery> {
    [ListQuery(None, 10, 1), ListQuery(Some("draft"), 10, 1), ListQuery(Some("published"), 10, 1)]
  }

  /** The listing a query returns: `.limit(0)` means no limit, and `Math.ceil(total / 0)`
      is `Infinity`, which serialises as `null`. */
  function RunListing(ss: seq<Summary>, q: ListQuery, role: Role, requester: string, now: int): Listing
    requires Runnable(q)
  {
    if q.limit == 0 then
      var selected := Select(ss, q.status, role, requester);
      Listing(ProjectAll(SortNewest(selected)), None, q.page, |selected|, role, now)
    else BuildListing(ss, q.status, role, requester, q.limit, q.page, now)
  }

  function StatusValue(q: ListQuery): ParamValue {
    if q.status.Some? then Value(q.status.value) else Undefined
  }

  /** The parameters of a listing key in name order are `limit`, `page`, `status`. */
  lemma SortedListingParams(q: ListQuery)
    ensures SortByName(ListingParams(q)) ==
      [Param("limit", Value(NatToString(q.limit))), Param("page", Value(IntToString(q.page))), Param("status", StatusValue(q))]
  {
    var st := Param("status", StatusValue(q));
    var li := Param("limit", Value(NatToString(q.limit)));
    var pa := Param("page", Value(IntToString(q.page)));
    assert ListingParams(q) == [st, li, pa];
    assert [st, li, pa][1..] == [li, pa];
    assert [li, pa][1..] == [pa];
    assert SortByName([pa]) == [pa] by {
      assert [pa][1..] == [];
    }
    assert LessOrEqual("limit", "page");
    assert SortByName([li, pa]) == [li, pa];
    assert !LessOrEqual("status", "limit");
    assert !LessOrEqual("status", "page");
    assert Insert(st, [pa]) == [pa, st] by {
      assert [pa][1..] == [];
    }
    assert Insert(st, [li, pa]) == [li, pa, st];
  }

  /** `name:value`, one entry of a key. */
  function Entry(name: string, v: ParamValue): string {
    name + ":" + RenderValue(v)
  }

  /** The part of a listing key after the user id: `limit:<limit>|page:<page>|status:<status>`,
      in name order whatever order the query object lists them in. */
  function ListingSuffix(q: ListQuery): string {
    Entry("limit", Value(NatToString(q.limit))) + "|" + (Entry("page", Value(IntToString(q.page))) + "|" + Entry("status", StatusValue(q)))
  }

  lemma JoinOfThree(es: seq<string>, sep: string)
    requires |es| == 3
    ensures Join(es, sep) == es[0] + sep + (es[1] + sep + es[2])
  {
    assert es[1..][0] == es[1] && |es[1..]| == 2;
    assert es[1..][1..][0] == es[2] && |es[1..][1..]| == 1;
    assert Join(es[1..][1..], sep) == es[2];
    assert Join(es[1..], sep) == es[1] + sep + es[2];
  }

  /** The sorted entries of a listing query joined by `|` are its `ListingSuffix`. */
  lemma {:induction false} SortedListingEntries(q: ListQuery)
    ensures Join(Entries(SortByName(ListingParams(q))), "|") == ListingSuffix(q)
  {
    SortedListingParams(q);
    var es := Entries(SortByName(ListingParams(q)));
    JoinOfThree(es, "|");
  }

  lemma {:induction false} ListingKeyFormula(userId: string, q: ListQuery)
    ensures ListingKey(userId, q) == "summaries" + ":" + userId + ":" + ListingSuffix(q)
  {
    SortedListingEntries(q);
    CacheKeyShape("summaries", userId, ListingParams(q));
  }

  /** The default listing of `getAllSummaries`, which is also the first common query of the
      sweep, is stored under `summaries:<user>:limit:10|page:1|status:undefined`. */
  lemma DefaultListingKey()
    ensures ListingSuffix(CommonQueries()[0]) == "limit:10" + "|" + ("page:1" + "|" + "status:undefined")
  {
    var q := CommonQueries()[0];
    assert q == ListQuery(None, 10, 1);
    assert NatToString(10) == "10" by {
      assert NatToString(1) == "1";
      assert NatToString(0) == "0";
    }
    assert IntToString(1) == "1";
    assert Entry("limit", Value(NatToString(q.limit))) == "limit:10";
    assert Entry("page", Value(IntToString(q.page))) == "page:1";
    assert Entry("status", StatusValue(q)) == "status:undefined";
  }

  /** Two keys `p + u1 + ":" + s1` and `p + u2 + ":" + s2` differ when the ids differ and
      hold no `:`. */
  lemma {:induction false} SeparatedIdsDiffer(p: string, u1: string, u2: string, s1: string, s2: string)
    requires u1 != u2
    requires forall k :: 0 <= k < |u1| ==> u1[k] != ':'
    requires forall k :: 0 <= k < |u2| ==> u2[k] != ':'
    ensures p + u1 + ":" + s1 != p + u2 + ":" + s2
  {
    var a := p + u1 + ":" + s1;
    var b := p + u2 + ":" + s2;
    var n := |p|;
    assert forall k :: 0 <= k < |u1| ==> a[n + k] == u1[k];
    assert forall k :: 0 <= k < |u2| ==> b[n + k] == u2[k];
    if |u1| < |u2| {
      assert a[n + |u1|] == ':';
      assert a[n + |u1|] != b[n + |u1|];
    } else if |u2| < |u1| {
      assert b[n + |u2|] == ':';
      assert a[n + |u2|] != b[n + |u2|];
    } else {
      assert exists k :: 0 <= k < |u1| && u1[k] != u2[k];
      var k :| 0 <= k < |u1| && u1[k] != u2[k];
      assert a[n + k] != b[n + k];
    }
  }

  /** Listings of different users never share a key, as a user id holds no `:`. */
  lemma ListingKeysSeparateUsers(u1: string, u2: string, q1: ListQuery, q2: ListQuery)
    requires u1 != u2
    requires forall k :: 0 <= k < |u1| ==> u1[k] != ':'
    requires forall k :: 0 <= k < |u2| ==> u2[k] != ':'
    ensures ListingKey(u1, q1) != ListingKey(u2, q2)
  {
    ListingKeyFormula(u1, q1);
    ListingKeyFormula(u2, q2);
    SeparatedIdsDiffer("summaries" + ":", u1, u2, ListingSuffix(q1), ListingSuffix(q2));
  }

  // ----- the rebuild sweep -----

  /** One cache write of the sweep: the listing of a query for a user, or one summary under
      its id. */
  datatype Write = PutListing(user: Account, query: ListQuery) | PutSummary(id: string, summary: Summary)

  predicate WriteRunnable(w: Write) {
    w.PutListing? ==> Runnable(w.query)
  }

  predicate AllRunnable(ws: seq<Write>) {
    forall k :: 0 <= k < |ws| ==> WriteRunnable(ws[k])
  }

  function WriteKey(w: Write): string {
    match w
    case PutListing(u, q) => ListingKey(u.id, q)
    case PutSummary(id, _) => "summary:" + id
  }

  /** The body stored: the listing is computed from the summaries as they are now. */
  function WriteBody(w: Write, ss: seq<Summary>, now: int): CachedBody
    requires WriteRunnable(w)
  {
    match w
    case PutListing(u, q) => ListingBody(RunListing(ss, q, u.role, u.id, now))
    case PutSummary(_, s) => SummaryBody(s)
  }

  function UserWrites(u: Account, qs: seq<ListQuery>): (r: seq<Write>)
    ensures |r| == |qs|
    ensures forall k :: 0 <= k < |qs| ==> r[k] == PutListing(u, qs[k])
  {
    if qs == [] then [] else [PutListing(u, qs[0])] + UserWrites(u, qs[1..])
  }

  /** The writes of the loop over all users and `commonQueries`. */
  function ListingWrites(users: seq<Account>): seq<Write> {
    if users == [] then [] else UserWrites(users[0], CommonQueries()) + ListingWrites(users[1..])
  }

  /** The write of the individual summary, when an id is given and the summary exists. */
  function SummaryWrite(ss: seq<Summary>, summaryId: Option<string>): seq<Write> {
    if Given(summaryId) then
      match FindSummary(ss, summaryId.value)
      case Some(s) => [PutSummary(summaryId.value, s)]
      case None => []
    else []
  }

  lemma SummaryWriteRunnable(ss: seq<Summary>, summaryId: Option<string>)
    ensures AllRunnable(SummaryWrite(ss, summaryId))
  {
  }

  /** Every write of `updateCacheWithFreshData(summaryId)`, in order. */
  function RebuildWrites(users: seq<Account>, ss: seq<Summary>, summaryId: Option<string>): seq<Write> {
    SummaryWrite(ss, summaryId) + ListingWrites(users)
  }

  /** The sweep writes exactly three listings per user, one per common query, in user
      order. */
  lemma {:induction false} ListingWritesShape(users: seq<Account>)
    ensures |ListingWrites(users)| == 3 * |users|
    ensures forall i, j :: 0 <= i < |users| && 0 <= j < 3 ==>
      ListingWrites(users)[3 * i + j] == PutListing(users[i], CommonQueries()[j])
  {
    if users != [] {
      ListingWritesShape(users[1..]);
      var head := UserWrites(users[0], CommonQueries());
      var rest := ListingWrites(users[1..]);
      assert ListingWrites(users) == head + rest;
      forall i, j | 0 <= i < |users| && 0 <= j < 3
        ensures (head + rest)[3 * i + j] == PutListing(users[i], CommonQueries()[j])
      {
        if i == 0 {
          assert |head| == 3;
          assert (head + rest)[j] == head[j];
        } else {
          assert (head + rest)[3 * i + j] == rest[3 * (i - 1) + j];
          assert users[1..][i - 1] == users[i];
        }
      }
    }
  }

  lemma {:induction false} ListingWritesRunnable(users: seq<Account>)
    ensures AllRunnable(ListingWrites(users))
  {
    if users != [] {
      ListingWritesRunnable(users[1..]);
      var head := UserWrites(users[0], CommonQueries());
      var rest := ListingWrites(users[1..]);
      forall k | 0 <= k < |head + rest| ensures WriteRunnable((head + rest)[k]) {
        if k < |head| {
          assert (head + rest)[k] == head[k];
          assert Runnable(CommonQueries()[k]);
        } else {
          assert (head + rest)[k] == rest[k - |head|];
        }
      }
    }
  }

  /** The summary write comes first when there is one, and every query of the sweep can
      run. */
  lemma {:induction false} RebuildWritesShape(users: seq<Account>, ss: seq<Summary>, summaryId: Option<string>)
    ensures |RebuildWrites(users, ss, summaryId)| ==
      3 * |users| + (if Given(summaryId) && FindSummary(ss, summaryId.value).Some? then 1 else 0)
    ensures Given(summaryId) && FindSummary(ss, summaryId.value).Some? ==>
      RebuildWrites(users, ss, summaryId)[0] == PutSummary(summaryId.value, FindSummary(ss, summaryId.value).value)
    ensures AllRunnable(RebuildWrites(users, ss, summaryId))
  {
    ListingWritesShape(users);
    ListingWritesRunnable(users);
    var lead := SummaryWrite(ss, summaryId);
    var rest := ListingWrites(users);
    forall k | 0 <= k < |lead + rest| ensures WriteRunnable((lead + rest)[k]) {
      if k >= |lead| {
        assert (lead + rest)[k] == rest[k - |lead|];
      }
    }
  }

  /** The listing writes described position by position: for user `i` and common query
      `j`, the listing at `3 * i + j`. */
  predicate Layout(ws: seq<Write>, users: seq<Account>) {
    && |ws| == 3 * |users|
    && AllRunnable(ws)
    && forall i, j :: 0 <= i < |users| && 0 <= j < 3 ==> ws[3 * i + j] == PutListing(users[i], CommonQueries()[j])
  }

  lemma LayoutAt(ws: seq<Write>, users: seq<Account>, i: nat, j: nat)
    requires Layout(ws, users) && i < |users| && j < 3
    ensures 3 * i + j < |ws| && ws[3 * i + j] == PutListing(users[i], CommonQueries()[j])
  {
  }

  /** The positional description determines the writes: they are exactly the sweep's
      listing writes. */
  lemma {:induction false} LayoutIsListingWrites(ws: seq<Write>, users: seq<Account>)
    ensures Layout(ws, users) <==> ws == ListingWrites(users)
  {
    ListingWritesShape(users);
    ListingWritesRunnable(users);
    if Layout(ws, users) {
      forall k | 0 <= k < |ws| ensures ws[k] == ListingWrites(users)[k] {
        var i, j := k / 3, k % 3;
        assert k == 3 * i + j;
        assert i < |users|;
        assert ws[3 * i + j] == PutListing(users[i], CommonQueries()[j]);
      }
    }
  }

  /** The cache after `setCache` of `writes[from]`, `writes[from + 1]`, ... in turn, with the
      default TTL. */
  function ApplyWrites(b: Backend<CachedBody>, ss: seq<Summary>, writes: seq<Write>, from: nat, now: int): Backend<CachedBody>
    requires Good(b) && AllRunnable(writes) && from <= |writes|
    decreases |writes| - from
  {
    if from == |writes| then b
    else
      var w := writes[from];
      SetKeepsGood(b, WriteKey(w), WriteBody(w, ss, now), CacheTtl, now);
      ApplyWrites(CacheSet(b, WriteKey(w), WriteBody(w, ss, now), CacheTtl, now), ss, writes, from + 1, now)
  }

  lemma {:induction false} ApplyWritesKeepsGood(b: Backend<CachedBody>, ss: seq<Summary>, writes: seq<Write>, from: nat, now: int)
    requires Good(b) && AllRunnable(writes) && from <= |writes|
    ensures Good(ApplyWrites(b, ss, writes, from, now))
    decreases |writes| - from
  {
    if from < |writes| {
      var w := writes[from];
      SetKeepsGood(b, WriteKey(w), WriteBody(w, ss, now), CacheTtl, now);
      ApplyWritesKeepsGood(CacheSet(b, WriteKey(w), WriteBody(w, ss, now), CacheTtl, now), ss, writes, from + 1, now);
    }
  }

  lemma ApplyWritesOne(b: Backend<CachedBody>, ss: seq<Summary>, ws: seq<Write>, p: nat, now: int)
    requires Good(b) && AllRunnable(ws) && p < |ws|
    ensures Good(CacheSet(b, WriteKey(ws[p]), WriteBody(ws[p], ss, now), CacheTtl, now))
    ensures ApplyWrites(b, ss, ws, p, now)
            == ApplyWrites(CacheSet(b, WriteKey(ws[p]), WriteBody(ws[p], ss, now), CacheTtl, now), ss, ws, p + 1, now)
  {
    SetKeepsGood(b, WriteKey(ws[p]), WriteBody(ws[p], ss, now), CacheTtl, now);
  }

  lemma PutListingWrite(u: Account, q: ListQuery, ss: seq<Summary>, now: int)
    requires Runnable(q)
    ensures WriteKey(PutListing(u, q)) == GetCacheKey("summaries", u.id, ListingParams(q))
    ensures WriteBody(PutListing(u, q), ss, now) == ListingBody(RunListing(ss, q, u.role, u.id, now))
  {
  }

  /** One step of the sweep: the write at `3 * i + j` stores user `i`'s listing for common
      query `j` under its key. */
  lemma ListingStep(b: Backend<CachedBody>, ss: seq<Summary>, ws: seq<Write>, users: seq<Account>, i: nat, j: nat, now: int)
    requires Good(b) && Layout(ws, users) && i < |users| && j < 3
    ensures Good(CacheSet(b, GetCacheKey("summaries", users[i].id, ListingParams(CommonQueries()[j])),
                          ListingBody(RunListing(ss, CommonQueries()[j], users[i].role, users[i].id, now)), CacheTtl, now))
    ensures ApplyWrites(b, ss, ws, 3 * i + j, now)
            == ApplyWrites(CacheSet(b, GetCacheKey("summaries", users[i].id, ListingParams(CommonQueries()[j])),
                                    ListingBody(RunListing(ss, CommonQueries()[j], users[i].role, users[i].id, now)), CacheTtl, now),
                           ss, ws, 3 * i + j + 1, now)
  {
    LayoutAt(ws, users, i, j);
    PutListingWrite(users[i], CommonQueries()[j], ss, now);
    var w := ws[3 * i + j];
    assert WriteKey(w) == GetCacheKey("summaries", users[i].id, ListingParams(CommonQueries()[j]));
    assert WriteBody(w, ss, now) == ListingBody(RunListing(ss, CommonQueries()[j], users[i].role, users[i].id, now));
    SetKeepsGood(b, GetCacheKey("summaries", users[i].id, ListingParams(CommonQueries()[j])),
                 ListingBody(RunListing(ss, CommonQueries()[j], users[i].role, users[i].id, now)), CacheTtl, now);
    ApplyWritesOne(b, ss, ws, 3 * i + j, now);
  }

  /** Applying `a + c` from position `k` inside `a` is applying the rest of `a`, then `c`. */
  lemma {:induction false} ApplyWritesAppend(b: Backend<CachedBody>, ss: seq<Summary>, a: seq<Write>, c: seq<Write>, k: nat, now: int)
    requires Good(b) && AllRunnable(a) && AllRunnable(c) && k <= |a|
    ensures AllRunnable(a + c)
    ensures Good(ApplyWrites(b, ss, a, k, now))
    ensures ApplyWrites(b, ss, a + c, k, now) == ApplyWrites(ApplyWrites(b, ss, a, k, now), ss, c, 0, now)
    decreases |a| - k
  {
    assert forall n :: 0 <= n < |a + c| ==> (a + c)[n] == if n < |a| then a[n] else c[n - |a|];
    ApplyWritesKeepsGood(b, ss, a, k, now);
    if k < |a| {
      var w := a[k];
      assert (a + c)[k] == w;
      SetKeepsGood(b, WriteKey(w), WriteBody(w, ss, now), CacheTtl, now);
      ApplyWritesAppend(CacheSet(b, WriteKey(w), WriteBody(w, ss, now), CacheTtl, now), ss, a, c, k + 1, now);
    } else {
      assert ApplyWrites(b, ss, a, k, now) == b;
      ApplyWritesSuffix(b, ss, a, c, 0, now);
    }
  }

  /** Past the end of `a`, applying `a + c` from `|a| + n` is applying `c` from `n`. */
  lemma {:induction false} ApplyWritesSuffix(b: Backend<CachedBody>, ss: seq<Summary>, a: seq<Write>, c: seq<Write>, n: nat, now: int)
    requires Good(b) && AllRunnable(a + c) && AllRunnable(c) && n <= |c|
    ensures ApplyWrites(b, ss, a + c, |a| + n, now) == ApplyWrites(b, ss, c, n, now)
    decreases |c| - n
  {
    if n < |c| {
      var w := c[n];
      assert (a + c)[|a| + n] == w;
      SetKeepsGood(b, WriteKey(w), WriteBody(w, ss, now), CacheTtl, now);
      ApplyWritesSuffix(CacheSet(b, WriteKey(w), WriteBody(w, ss, now), CacheTtl, now), ss, a, c, n + 1, now);
    }
  }

  /** What a save, update or delete leaves in the cache: invalidation, then the sweep. */
  function Refreshed(b: Backend<CachedBody>, users: seq<Account>, ss: seq<Summary>, summaryId: Option<string>, now: int)
    : (r: Backend<CachedBody>)
    requires Good(b)
    ensures Good(r)
  {
    InvalidateKeepsGood(b, summaryId);
    RebuildWritesShape(users, ss, summaryId);
    ApplyWritesKeepsGood(CacheInvalidate(b, summaryId), ss, RebuildWrites(users, ss, summaryId), 0, now);
    ApplyWrites(CacheInvalidate(b, summaryId), ss, RebuildWrites(users, ss, summaryId), 0, now)
  }

  // ----- generateSummary -----

  /** `req.file` as multer left it: whether it is still on disk, and the text that
      `readFileSync` or `mammoth` extract from it, `None` when they throw. */
  datatype UploadedFile = UploadedFile(originalname: string, mimetype: string, onDisk: bool, extracted: Option<string>)


  datatype GenerateRequest = GenerateRequest(
    prompt: Option<string>,
    bodyUserId: Option<string>,
    queryUserId: Option<string>,
    authUserId: Option<string>,
    file: Option<UploadedFile>,
    text: Option<string>)

  datatype GenerateResponse =
    | GenerateFailed(status: nat, error: string)
    | OutOfCredits(currentCredits: int)
    | Generated(summary: string, originalText: string, fileName: Option<string>, fileType: string,
                wordCount: nat, remainingCredits: int)

  function GenerateStatus(r: GenerateResponse): nat {
    match r
    case GenerateFailed(status, _) => status
    case OutOfCredits(_) => 403
    case Generated(_, _, _, _, _, _) => 200
  }

  /** The text to summarise, or the response that ends the request. */
  datatype Input = Input(text: Option<string>, fileName: Option<string>, fileType: string) | InputError(status: nat, error: string)

  function ResolveInput(file: Option<UploadedFile>, bodyText: Option<string>): Input {
    if file.None? then Input(bodyText, None, "text")
    else
      var f := file.value;
      if !f.onDisk then InputError(400, FileNotFound)
      else if f.mimetype != TextPlainType && f.mimetype != WordDocumentType then InputError(400, UnsupportedFile)
      else if f.extracted.None? then InputError(500, FileError)
      else Input(f.extracted, Some(f.originalname), "file")
  }

  /** `!text || text.trim() === ""`. */
  predicate NoText(text: Option<string>) {
    text.None? || Trim(text.value) == ""
  }

  function UserMessage(prompt: string, text: string): string {
    prompt + "\n\nText to summarize:\n" + text
  }

  /** `req.body.userId || req.query.userId || req.user?.id`. */
  function RequesterId(req: GenerateRequest): Option<string> {
    OrElse(OrElse(req.bodyUserId, req.queryUserId), req.authUserId)
  }

  datatype GenerateOutcome = GenerateOutcome(users: seq<Account>, response: GenerateResponse, invalidated: bool)

  /** The checks `generateSummary` makes before it charges a credit: the request either
      ends with an error response or goes on with the account, its balance and the text. */
  datatype Admission =
    | Refused(response: GenerateResponse)
    | Admitted(id: string, credits: int, text: string, fileName: Option<string>, fileType: string)

  function Admit(users: seq<Account>, req: GenerateRequest): Admission {
    var userId := RequesterId(req);
    if !Given(userId) then Refused(GenerateFailed(401, AuthRequired))
    else
      match FindAccount(users, userId.value)
      case None => Refused(GenerateFailed(404, UserNotFound))
      case Some(account) =>
        if account.credits <= 0 then Refused(OutOfCredits(account.credits))
        else
          match ResolveInput(req.file, req.text)
          case InputError(status, error) => Refused(GenerateFailed(status, error))
          case Input(text, fileName, fileType) =>
            if NoText(text) then Refused(GenerateFailed(400, NoTextError))
            else Admitted(userId.value, account.credits, text.value, fileName, fileType)
  }

  /** A request goes on exactly when it names an account with a positive balance and carries
      a non-blank text; a refusal answers 401 without a requester, 404 for an unknown
      account and 403 with the balance when it is not positive. */
  lemma AdmitFacts(users: seq<Account>, req: GenerateRequest)
    ensures Admit(users, req).Admitted? <==>
      Given(RequesterId(req)) && FindAccount(users, RequesterId(req).value).Some?
      && FindAccount(users, RequesterId(req).value).value.credits > 0
      && ResolveInput(req.file, req.text).Input? && !NoText(ResolveInput(req.file, req.text).text)
    ensures Admit(users, req).Admitted? ==>
      var a := Admit(users, req);
      a.id == RequesterId(req).value && a.credits == FindAccount(users, a.id).value.credits
      && Some(a.text) == ResolveInput(req.file, req.text).text
    ensures !Given(RequesterId(req)) ==> Admit(users, req) == Refused(GenerateFailed(401, AuthRequired))
    ensures Given(RequesterId(req)) && FindAccount(users, RequesterId(req).value).None? ==>
      Admit(users, req) == Refused(GenerateFailed(404, UserNotFound))
    ensures (Given(RequesterId(req)) && FindAccount(users, RequesterId(req).value).Some?
             && FindAccount(users, RequesterId(req).value).value.credits <= 0) ==>
      Admit(users, req) == Refused(OutOfCredits(FindAccount(users, RequesterId(req).value).value.credits))
  {
  }

  lemma AdmittedAccount(users: seq<Account>, req: GenerateRequest)
    requires Admit(users, req).Admitted?
    ensures FindAccount(users, Admit(users, req).id).Some?
    ensures FindAccount(users, Admit(users, req).id).value.credits == Admit(users, req).credits
  {
  }

  /** `generateSummary`: `llm` is the model's answer to a message, `None` when the call
      throws. */
  function Generate(users: seq<Account>, req: GenerateRequest, llm: string -> Option<string>): GenerateOutcome {
    var prompt := if Given(req.prompt) then req.prompt.value else DefaultPrompt;
    match Admit(users, req)
    case Refused(response) => GenerateOutcome(users, response, false)
    case Admitted(_, _, _, _, _) => Charge(users, Admit(users, req), prompt, llm)
  }

  /** What follows the checks: one credit is taken, the model is asked, and the credit is
      given back when the call fails. */
  function Charge(users: seq<Account>, a: Admission, prompt: string, llm: string -> Option<string>): GenerateOutcome
    requires a.Admitted?
  {
    var charged := AdjustCredits(users, a.id, -1);
    match llm(UserMessage(prompt, a.text))
    case None =>
      GenerateOutcome(AdjustCredits(charged, a.id, 1), GenerateFailed(500, ModelError), false)
    case Some(summary) =>
      GenerateOutcome(charged, Generated(summary, a.text, a.fileName, a.fileType, WordCount(a.text), a.credits - 1), true)
  }

  /** Every answer other than a summary leaves every balance as it was and the cache alone:
      a refusal charges nothing, and a failed model call is refunded. */
  lemma {:induction false} FailuresKeepCredits(users: seq<Account>, req: GenerateRequest, llm: string -> Option<string>)
    requires !Generate(users, req, llm).response.Generated?
    ensures Generate(users, req, llm).users == users
    ensures !Generate(users, req, llm).invalidated
  {
    var a := Admit(users, req);
    if a.Admitted? {
      AdjustCreditsInverse(users, a.id, -1);
    }
  }

  /** A generated summary costs exactly one credit of the requester's account and no other;
      `remainingCredits` is the new balance, which is never negative; `wordCount` counts
      the words of the text; the cache is invalidated. */
  lemma {:induction false} SuccessChargesOneCredit(users: seq<Account>, req: GenerateRequest, llm: string -> Option<string>, other: string)
    requires Generate(users, req, llm).response.Generated?
    ensures Given(RequesterId(req)) && FindAccount(users, RequesterId(req).value).Some?
    ensures var id := RequesterId(req).value;
      var before := FindAccount(users, id).value;
      var out := Generate(users, req, llm);
      FindAccount(out.users, id) == Some(before.(credits := before.credits - 1))
      && out.response.remainingCredits == before.credits - 1 >= 0
      && (other != id ==> FindAccount(out.users, other) == FindAccount(users, other))
    ensures Generate(users, req, llm).response.wordCount == WordStarts(Generate(users, req, llm).response.originalText)
    ensures !NoText(Some(Generate(users, req, llm).response.originalText))
    ensures Generate(users, req, llm).invalidated
  {
    AdmitFacts(users, req);
    var a := Admit(users, req);
    AdjustCreditsEffect(users, a.id, -1, other);
    WordCountIsWordStarts(a.text);
  }

  /** When the model call throws after the charge, the refund restores every balance. */
  lemma {:induction false} ModelFailureRefunds(users: seq<Account>, req: GenerateRequest, llm: string -> Option<string>)
    requires Admit(users, req).Admitted?
    requires llm(UserMessage(if Given(req.prompt) then req.prompt.value else DefaultPrompt, Admit(users, req).text)).None?
    ensures Generate(users, req, llm) == GenerateOutcome(users, GenerateFailed(500, ModelError), false)
  {
    AdjustCreditsInverse(users, Admit(users, req).id, -1);
  }

  // ----- saveSummary -----

  datatype SaveRequest = SaveRequest(
    title: Option<string>,
    content: Option<string>,
    originalText: Option<string>,
    prompt: Option<string>,
    status: Option<string>,
    fileName: Option<string>,
    fileType: Option<string>,
    userId: Option<string>)

  datatype SaveResponse = SaveFailed(status: nat, error: string) | Saved(summary: Summary)

  predicate ValidStatus(s: string) {
    s == "draft" || s == "published"
  }

  predicate ValidFileType(s: string) {
    s == "text" || s == "file"
  }

  /** `content.trim().split(/\s+/).length`. */
  function SavedWordCount(content: string): nat {
    |Split(Trim(content))|
  }

  /** The document `new SummarySchemaModel({...})` builds, or `None` when `save()` fails
      validation: `title` is trimmed and required, `userId` is required, `status` and
      `fileType` take their defaults and must be in their enums, and `prompt` takes the
      schema default when absent. */
  function BuildSummary(req: SaveRequest, id: string, now: int): Option<Summary>
    requires Given(req.title) && Given(req.content) && Given(req.originalText)
  {
    var title := Trim(req.title.value);
    var status := OrElse(req.status, Some("draft")).value;
    var fileType := OrElse(req.fileType, Some("text")).value;
    if title == "" || !Given(req.userId) || !ValidStatus(status) || !ValidFileType(fileType) then None
    else
      Some(Summary(id, req.userId.value, title, req.content.value, req.originalText.value,
                   if req.prompt.Some? then req.prompt.value else DefaultPrompt,
                   status, req.fileName, fileType, SavedWordCount(req.content.value), now, now))
  }

  /** `saveSummary` with the fresh `_id` the store assigns; a duplicate `_id` fails. */
  function Save(ss: seq<Summary>, req: SaveRequest, newId: string, now: int): (seq<Summary>, SaveResponse) {
    if !Given(req.title) || !Given(req.content) || !Given(req.originalText) then
      (ss, SaveFailed(400, MissingFields))
    else
      match BuildSummary(req, newId, now)
      case None => (ss, SaveFailed(500, SaveError))
      case Some(s) =>
        if FindSummary(ss, newId).Some? then (ss, SaveFailed(500, SaveError))
        else (ss + [s], Saved(s))
  }

  /** A missing or empty title, content or original text is refused with 400 and nothing is
      stored. */
  lemma SaveRejectsMissingFields(ss: seq<Summary>, req: SaveRequest, newId: string, now: int)
    requires !Given(req.title) || !Given(req.content) || !Given(req.originalText)
    ensures Save(ss, req, newId, now) == (ss, SaveFailed(400, MissingFields))
  {
  }

  /** A stored summary is appended with the defaults applied: status "draft" and file type
      "text" when not given, the trimmed title, and the token count of the trimmed content,
      which is the word count unless the content is all white space. */
  lemma {:induction false} SaveAppliesDefaults(ss: seq<Summary>, req: SaveRequest, newId: string, now: int)
    requires Save(ss, req, newId, now).1.Saved?
    ensures var s := Save(ss, req, newId, now).1.summary;
      Save(ss, req, newId, now).0 == ss + [s]
      && s.id == newId && s.createdAt == now && s.updatedAt == now
      && s.title == Trim(req.title.value) && s.title != ""
      && s.status == (if Given(req.status) then req.status.value else "draft")
      && s.fileType == (if Given(req.fileType) then req.fileType.value else "text")
      && ValidStatus(s.status) && ValidFileType(s.fileType)
      && s.content == req.content.value && s.originalText == req.originalText.value
      && s.wordCount == (if AllSpace(req.content.value) then 1 else WordCount(req.content.value))
  {
    TrimmedSplitLength(req.content.value);
  }

  // ----- reads -----

  datatype ReadResponse = ReadFailed(status: nat, error: string) | FromCache(body: CachedBody) | Fresh(body: CachedBody)

  /** `getAllSummaries`: the new cache and the response. */
  function GetAll(b: Backend<CachedBody>, users: seq<Account>, ss: seq<Summary>, userId: Option<string>, q: ListQuery, now: int)
    : (r: (Backend<CachedBody>, ReadResponse))
    requires Good(b)
    ensures Good(r.0)
  {
    if !Given(userId) then (b, ReadFailed(400, UserIdRequired))
    else
      var key := ListingKey(userId.value, q);
      GetKeepsGood(b, key, now);
      var (b1, hit) := CacheGet(b, key, now);
      if hit.Some? then (b1, FromCache(hit.value))
      else
        match FindAccount(users, userId.value)
        case None => (b1, ReadFailed(404, UserNotFound))
        case Some(account) =>
          if !Runnable(q) then (b1, ReadFailed(500, FetchError))
          else
            var body := ListingBody(RunListing(ss, q, account.role, userId.value, now));
            SetKeepsGood(b1, key, body, CacheTtl, now);
            (CacheSet(b1, key, body, CacheTtl, now), Fresh(body))
  }

  /** `getSummaryById`. */
  function GetById(b: Backend<CachedBody>, ss: seq<Summary>, id: string, now: int): (r: (Backend<CachedBody>, ReadResponse))
    requires Good(b)
    ensures Good(r.0)
  {
    var key := "summary:" + id;
    GetKeepsGood(b, key, now);
    var (b1, hit) := CacheGet(b, key, now);
    if hit.Some? then (b1, FromCache(hit.value))
    else
      match FindSummary(ss, id)
      case None => (b1, ReadFailed(404, SummaryNotFound))
      case Some(s) =>
        SetKeepsGood(b1, key, SummaryBody(s), CacheTtl, now);
        (CacheSet(b1, key, SummaryBody(s), CacheTtl, now), Fresh(SummaryBody(s)))
  }

  /** On a miss with a working backend, a listing is computed from the store and cached, so
      that a second request before the TTL runs out is answered from the cache with the
      same body. */
  lemma {:induction false} ListingMissThenHit(b: Backend<CachedBody>, users: seq<Account>, ss: seq<Summary>,
                                              userId: string, q: ListQuery, now: int, later: int)
    requires Good(b) && userId != ""
    requires RedisActive(b) ==> b.remoteHealthy
    requires RedisActive(b) || b.useInMemoryCache
    requires CacheGet(b, ListingKey(userId, q), now).1.None?
    requires FindAccount(users, userId).Some? && Runnable(q)
    requires now <= later <= now + CacheTtl * 1000
    ensures GetAll(b, users, ss, Some(userId), q, now).1.Fresh?
    ensures GetAll(GetAll(b, users, ss, Some(userId), q, now).0, users, ss, Some(userId), q, later).1
            == FromCache(GetAll(b, users, ss, Some(userId), q, now).1.body)
  {
    var key := ListingKey(userId, q);
    GetKeepsGood(b, key, now);
    var b1 := CacheGet(b, key, now).0;
    var body := GetAll(b, users, ss, Some(userId), q, now).1.body;
    assert RedisActive(b1) ==> b1.remoteHealthy;
    assert RedisActive(b1) || b1.useInMemoryCache;
    SetThenGet(b1, key, body, CacheTtl, now, later);
    SetKeepsGood(b1, key, body, CacheTtl, now);
  }

  // ----- updateSummary and deleteSummary -----

  /** The fields of `{ title, content, status }` that are present are set, with the
      schema's setters and validators (`runValidators`); `None` when validation fails.
      Neither `wordCount` nor `updatedAt` is touched. */
  function ApplyUpdate(s: Summary, title: Option<string>, content: Option<string>, status: Option<string>): Option<Summary> {
    var t := if title.Some? then Trim(title.value) else s.title;
    var c := if content.Some? then content.value else s.content;
    var st := if status.Some? then status.value else s.status;
    if (title.Some? && t == "") || (content.Some? && c == "") || (status.Some? && !ValidStatus(st)) then None
    else Some(s.(title := t, content := c, status := st))
  }

  datatype UpdateResponse = UpdateFailed(status: nat, error: string) | Updated(summary: Summary)

  datatype DeleteResponse = DeleteFailed(status: nat, error: string) | Deleted

  /** An update changes only the fields it names, with the title trimmed, and leaves every
      other field as stored; absent fields are kept. */
  lemma ApplyUpdateEffect(s: Summary, title: Option<string>, content: Option<string>, status: Option<string>)
    requires ApplyUpdate(s, title, content, status).Some?
    ensures var u := ApplyUpdate(s, title, content, status).value;
      u.id == s.id && u.userId == s.userId && u.originalText == s.originalText
      && u.wordCount == s.wordCount && u.createdAt == s.createdAt && u.updatedAt == s.updatedAt
      && u.title == (if title.Some? then Trim(title.value) else s.title) && (title.Some? ==> u.title != "")
    ensures var u := ApplyUpdate(s, title, content, status).value;
      u.content == (if content.Some? then content.value else s.content)
      && u.status == (if status.Some? then status.value else s.status)
    ensures title.None? && content.None? && status.None? ==> ApplyUpdate(s, title, content, status) == Some(s)
  {
  }

  // ----- the server -----

  class Server {
    var users: seq<Account>
    var summaries: seq<Summary>
    const cache: Cache<CachedBody>

    ghost predicate Valid()
      reads this, cache
    {
      cache.Valid()
    }

    constructor (accounts: seq<Account>, stored: seq<Summary>, c: Cache<CachedBody>)
      requires c.Valid()
      ensures Valid() && users == accounts && summaries == stored && cache == c
    {
      users, summaries, cache := accounts, stored, c;
    }

    method GenerateSummary(req: GenerateRequest, llm: string -> Option<string>) returns (r: GenerateResponse)
      modifies this, cache
      requires Valid()
      ensures Valid()
      ensures users == Generate(old(users), req, llm).users && r == Generate(old(users), req, llm).response
      ensures summaries == old(summaries)
      ensures cache.State() == if Generate(old(users), req, llm).invalidated
                               then CacheInvalidate(old(cache.State()), None) else old(cache.State())
    {
      var prompt := if Given(req.prompt) then req.prompt.value else DefaultPrompt;
      var admission := Admit(users, req);
      if admission.Refused? {
        return admission.response;
      }
      AdmittedAccount(users, req);
      r := ChargeAndSummarize(admission, prompt, llm);
    }

    /** The tail of `generateSummary`: the deduction, the model call, the refund on failure
        and the invalidation on success. */
    method ChargeAndSummarize(admission: Admission, prompt: string, llm: string -> Option<string>) returns (r: GenerateResponse)
      modifies this, cache
      requires Valid() && admission.Admitted?
      requires FindAccount(users, admission.id).Some? && FindAccount(users, admission.id).value.credits == admission.credits
      ensures Valid()
      ensures users == Charge(old(users), admission, prompt, llm).users && r == Charge(old(users), admission, prompt, llm).response
      ensures summaries == old(summaries)
      ensures cache.State() == if Charge(old(users), admission, prompt, llm).invalidated
                               then CacheInvalidate(old(cache.State()), None) else old(cache.State())
    {
      var userId := admission.id;
      var accounts := users;
      AdjustCreditsEffect(accounts, userId, -1, userId);
      var charged := AdjustCredits(accounts, userId, -1);
      var updatedUser := FindAccount(charged, userId);
      assert updatedUser.Some? && updatedUser.value.credits == admission.credits - 1;
      var completion := llm(UserMessage(prompt, admission.text));
      if completion.None? {
        users := AdjustCredits(charged, userId, 1);
        return GenerateFailed(500, ModelError);
      }
      users := charged;
      cache.InvalidateAllCache(None);
      r := Generated(completion.value, admission.text, admission.fileName, admission.fileType, WordCount(admission.text),
                     updatedUser.value.credits);
    }

    method UpdateCacheWithFreshData(summaryId: Option<string>, now: int)
      modifies cache
      requires Valid()
      ensures Valid()
      ensures AllRunnable(RebuildWrites(users, summaries, summaryId))
      ensures cache.State() == ApplyWrites(old(cache.State()), summaries, RebuildWrites(users, summaries, summaryId), 0, now)
    {
      ghost var start := cache.State();
      assert Good(start);
      SummaryWriteRunnable(summaries, summaryId);
      if Given(summaryId) {
        var summary := FindSummary(summaries, summaryId.value);
        if summary.Some? {
          var cacheKey := "summary:" + summaryId.value;
          ApplyWritesOne(start, summaries, SummaryWrite(summaries, summaryId), 0, now);
          cache.SetCache(cacheKey, SummaryBody(summary.value), CacheTtl, now);
        }
      }
      assert cache.State() == ApplyWrites(start, summaries, SummaryWrite(summaries, summaryId), 0, now);
      RefreshListings(users, summaries, now);
      ApplyWritesAppend(start, summaries, SummaryWrite(summaries, summaryId), ListingWrites(users), 0, now);
    }

    /** The nested loop of `updateCacheWithFreshData`: for every user and every common
        query, the listing that user would get, stored under its key. */
    method RefreshListings(allUsers: seq<Account>, stored: seq<Summary>, now: int)
      modifies cache
      requires cache.Valid()
      ensures cache.Valid()
      ensures AllRunnable(ListingWrites(allUsers))
      ensures cache.State() == ApplyWrites(old(cache.State()), stored, ListingWrites(allUsers), 0, now)
    {
      assert exists ws :: Layout(ws, allUsers) by {
        LayoutIsListingWrites(ListingWrites(allUsers), allUsers);
      }
      ghost var listings :| Layout(listings, allUsers);
      ghost var target := ApplyWrites(cache.State(), stored, listings, 0, now);
      var commonQueries := CommonQueries();
      ghost var done: nat := 0;
      var i := 0;
      while i < |allUsers|
        invariant 0 <= i <= |allUsers| && done == 3 * i
        invariant cache.Valid()
        invariant ApplyWrites(cache.State(), stored, listings, done, now) == target
      {
        var user := allUsers[i];
        var j := 0;
        while j < |commonQueries|
          invariant 0 <= j <= |commonQueries| && done == 3 * i + j
          invariant cache.Valid()
          invariant ApplyWrites(cache.State(), stored, listings, done, now) == target
        {
          var queryParams := commonQueries[j];
          var cacheKey := GetCacheKey("summaries", user.id, ListingParams(queryParams));
          var responseData := RunListing(stored, queryParams, user.role, user.id, now);
          ghost var before := cache.State();
          ListingStep(before, stored, listings, allUsers, i, j, now);
          cache.SetCache(cacheKey, ListingBody(responseData), CacheTtl, now);
          assert cache.State() == CacheSet(before, cacheKey, ListingBody(responseData), CacheTtl, now);
          done := done + 1;
          j := j + 1;
        }
        i := i + 1;
      }
      LayoutIsListingWrites(listings, allUsers);
    }

    method SaveSummary(req: SaveRequest, newId: string, now: int) returns (r: SaveResponse)
      modifies this, cache
      requires Valid()
      ensures Valid()
      ensures summaries == Save(old(summaries), req, newId, now).0 && r == Save(old(summaries), req, newId, now).1
      ensures users == old(users)
      ensures cache.State() == if r.Saved? then Refreshed(old(cache.State()), users, summaries, Some(newId), now)
                               else old(cache.State())
    {
      if !Given(req.title) || !Given(req.content) || !Given(req.originalText) {
        return SaveFailed(400, MissingFields);
      }
      var summary := BuildSummary(req, newId, now);
      if summary.None? || FindSummary(summaries, newId).Some? {
        return SaveFailed(500, SaveError);
      }
      summaries := summaries + [summary.value];
      cache.InvalidateAllCache(Some(newId));
      UpdateCacheWithFreshData(Some(newId), now);
      r := Saved(summary.value);
    }

    method GetAllSummaries(userId: Option<string>, q: ListQuery, now: int) returns (r: ReadResponse)
      modifies cache
      requires Valid()
      ensures Valid()
      ensures (cache.State(), r) == GetAll(old(cache.State()), users, summaries, userId, q, now)
    {
      if !Given(userId) {
        return ReadFailed(400, UserIdRequired);
      }
      var cacheKey := GetCacheKey("summaries", userId.value, ListingParams(q));
      var cachedData := cache.GetFromCache(cacheKey, now);
      if cachedData.Some? {
        return FromCache(cachedData.value);
      }
      var user := FindAccount(users, userId.value);
      if user.None? {
        return ReadFailed(404, UserNotFound);
      }
      if !Runnable(q) {
        return ReadFailed(500, FetchError);
      }
      var responseData := RunListing(summaries, q, user.value.role, userId.value, now);
      cache.SetCache(cacheKey, ListingBody(responseData), CacheTtl, now);
      r := Fresh(ListingBody(responseData));
    }

    method GetSummaryById(id: string, now: int) returns (r: ReadResponse)
      modifies cache
      requires Valid()
      ensures Valid()
      ensures (cache.State(), r) == GetById(old(cache.State()), summaries, id, now)
    {
      var cacheKey := "summary:" + id;
      var cachedData := cache.GetFromCache(cacheKey, now);
      if cachedData.Some? {
        return FromCache(cachedData.value);
      }
      var summary := FindSummary(summaries, id);
      if summary.None? {
        return ReadFailed(404, SummaryNotFound);
      }
      cache.SetCache(cacheKey, SummaryBody(summary.value), CacheTtl, now);
      r := Fresh(SummaryBody(summary.value));
    }

    method UpdateSummary(id: string, title: Option<string>, content: Option<string>, status: Option<string>, now: int)
      returns (r: UpdateResponse)
      modifies this, cache
      requires Valid()
      ensures Valid()
      ensures users == old(users)
      ensures FindSummary(old(summaries), id).None? ==>
        r == UpdateFailed(404, SummaryNotFound) && summaries == old(summaries) && cache.State() == old(cache.State())
      ensures FindSummary(old(summaries), id).Some? && ApplyUpdate(FindSummary(old(summaries), id).value, title, content, status).None? ==>
        r == UpdateFailed(500, UpdateError) && summaries == old(summaries) && cache.State() == old(cache.State())
      ensures FindSummary(old(summaries), id).Some? && ApplyUpdate(FindSummary(old(summaries), id).value, title, content, status).Some? ==>
        var u := ApplyUpdate(FindSummary(old(summaries), id).value, title, content, status).value;
        r == Updated(u) && summaries == ReplaceSummary(old(summaries), id, u)
        && cache.State() == Refreshed(old(cache.State()), users, summaries, Some(id), now)
    {
      var existingSummary := FindSummary(summaries, id);
      if existingSummary.None? {
        return UpdateFailed(404, SummaryNotFound);
      }
      var summary := ApplyUpdate(existingSummary.value, title, content, status);
      if summary.None? {
        return UpdateFailed(500, UpdateError);
      }
      summaries := ReplaceSummary(summaries, id, summary.value);
      cache.InvalidateAllCache(Some(id));
      UpdateCacheWithFreshData(Some(id), now);
      r := Updated(summary.value);
    }

    method DeleteSummary(id: string, now: int) returns (r: DeleteResponse)
      modifies this, cache
      requires Valid()
      ensures Valid()
      ensures users == old(users)
      ensures FindSummary(old(summaries), id).None? ==>
        r == DeleteFailed(404, SummaryNotFound) && summaries == old(summaries) && cache.State() == old(cache.State())
      ensures FindSummary(old(summaries), id).Some? ==>
        r == Deleted && summaries == RemoveSummary(old(summaries), id)
        && cache.State() == Refreshed(old(cache.State()), users, summaries, None, now)
    {
      var summary := FindSummary(summaries, id);
      if summary.None? {
        return DeleteFailed(404, SummaryNotFound);
      }
      summaries := RemoveSummary(summaries, id);
      cache.InvalidateAllCache(None);
      UpdateCacheWithFreshData(None, now);
      r := Deleted;
    }
  }
}
