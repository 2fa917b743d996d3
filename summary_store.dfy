/** The two collections the summary controller works on, as in-memory sequences in storage
    order: the accounts of server/schemaModel/AuthSchemaModel.js and the summaries of
    server/schemaModel/SummaryModel.js, with the credit ledger (`$inc`) and the listing query
    (filter, newest first, page window, page count). */
module SummaryStore {
  import opened Wrappers

  /** The `role` enum of an account. */
  datatype Role = UserRole | Admin | Editor | Reviewer

  function RoleName(r: Role): string {
    match r
    case UserRole => "user"
    case Admin => "admin"
    case Editor => "editor"
    case Reviewer => "reviewer"
  }

  datatype Account = Account(id: string, role: Role, credits: int)

  /** A stored summary; `createdAt` and `updatedAt` are milliseconds. */
  datatype Summary = Summary(
    id: string,
    userId: string,
    title: string,
    content: string,
    originalText: string,
    prompt: string,
    status: string,
    fileName: Option<string>,
    fileType: string,
    wordCount: nat,
    createdAt: int,
    updatedAt: int)

  /** A summary as a listing returns it: `.select("-originalText")`. */
  datatype Listed = Listed(
    id: string,
    userId: string,
    title: string,
    content: string,
    prompt: string,
    status: string,
    fileName: Option<string>,
    fileType: string,
    wordCount: nat,
    createdAt: int,
    updatedAt: int)

  function Project(s: Summary): Listed {
    Listed(s.id, s.userId, s.title, s.content, s.prompt, s.status, s.fileName, s.fileType,
           s.wordCount, s.createdAt, s.updatedAt)
  }

  function ProjectAll(ss: seq<Summary>): (r: seq<Listed>)
    ensures |r| == |ss|
    ensures forall i :: 0 <= i < |ss| ==> r[i] == Project(ss[i])
  {
    if ss == [] then [] else [Project(ss[0])] + ProjectAll(ss[1..])
  }

  // Accounts and the credit ledger

  /** `findById(id)` on the accounts: the first account with that id. */
  function FindAccount(users: seq<Account>, id: string): (r: Option<Account>)
    ensures r.Some? ==> r.value in users && r.value.id == id
    ensures r.None? ==> forall a :: a in users ==> a.id != id
  {
    if users == [] then None
    else if users[0].id == id then Some(users[0])
    else FindAccount(users[1..], id)
  }

  /** `findByIdAndUpdate(id, { $inc: { credits: delta } })`. */
  /** One account with its balance moved by `delta`. */
  function Credited(a: Account, delta: int): (r: Account)
    ensures r.id == a.id && r.credits == a.credits + delta
  {
    a.(credits := a.credits + delta)
  }

  function AdjustCredits(users: seq<Account>, id: string, delta: int): seq<Account> {
    if users == [] then []
    else if users[0].id == id then [Credited(users[0], delta)] + users[1..]
    else [users[0]] + AdjustCredits(users[1..], id, delta)
  }

  lemma {:induction false} AdjustCreditsLength(users: seq<Account>, id: string, delta: int)
    ensures |AdjustCredits(users, id, delta)| == |users|
  {
    if users != [] && users[0].id != id {
      AdjustCreditsLength(users[1..], id, delta);
    }
  }

  lemma {:induction false} AdjustCreditsFound(users: seq<Account>, id: string, delta: int)
    requires FindAccount(users, id).Some?
    ensures FindAccount(AdjustCredits(users, id, delta), id) == Some(Credited(FindAccount(users, id).value, delta))
  {
    if users[0].id != id {
      AdjustCreditsFound(users[1..], id, delta);
      SkipOther(users[0], AdjustCredits(users[1..], id, delta), id);
    }
  }

  /** Looking an id up past an account with another id. */
  lemma SkipOther(a: Account, rest: seq<Account>, id: string)
    requires a.id != id
    ensures FindAccount([a] + rest, id) == FindAccount(rest, id)
  {
    assert ([a] + rest)[1..] == rest;
  }

  lemma {:induction false} AdjustCreditsOthers(users: seq<Account>, id: string, delta: int, other: string)
    requires other != id
    ensures FindAccount(AdjustCredits(users, id, delta), other) == FindAccount(users, other)
  {
    if users != [] && users[0].id != id {
      AdjustCreditsOthers(users[1..], id, delta, other);
      var r := [users[0]] + AdjustCredits(users[1..], id, delta);
      assert r[0] == users[0] && r[1..] == AdjustCredits(users[1..], id, delta);
    } else if users != [] {
      var first := Credited(users[0], delta);
      var r := [first] + users[1..];
      assert r[0] == first && r[1..] == users[1..];
    }
  }

  lemma {:induction false} AdjustCreditsAbsent(users: seq<Account>, id: string, delta: int)
    requires FindAccount(users, id).None?
    ensures AdjustCredits(users, id, delta) == users
  {
    if users != [] {
      AdjustCreditsAbsent(users[1..], id, delta);
      assert users == [users[0]] + users[1..];
    }
  }

  /** `$inc` changes exactly the balance of the account found, by `delta`: its id and role
      stay, every other account reads as before, and nothing changes when no account has
      that id. */
  lemma AdjustCreditsEffect(users: seq<Account>, id: string, delta: int, other: string)
    ensures |AdjustCredits(users, id, delta)| == |users|
    ensures FindAccount(AdjustCredits(users, id, delta), id) ==
      if FindAccount(users, id).Some?
      then Some(Credited(FindAccount(users, id).value, delta))
      else None
    ensures other != id ==> FindAccount(AdjustCredits(users, id, delta), other) == FindAccount(users, other)
    ensures FindAccount(users, id).None? ==> AdjustCredits(users, id, delta) == users
  {
    AdjustCreditsLength(users, id, delta);
    if FindAccount(users, id).Some? {
      AdjustCreditsFound(users, id, delta);
    }
    if other != id {
      AdjustCreditsOthers(users, id, delta, other);
    }
    if FindAccount(users, id).None? {
      AdjustCreditsAbsent(users, id, delta);
    }
  }

  /** A refund undoes a deduction. */
  lemma {:induction false} AdjustCreditsInverse(users: seq<Account>, id: string, delta: int)
    ensures AdjustCredits(AdjustCredits(users, id, delta), id, -delta) == users
  {
    if users != [] {
      if users[0].id == id {
        assert users == [users[0]] + users[1..];
      } else {
        AdjustCreditsInverse(users[1..], id, delta);
        assert users == [users[0]] + users[1..];
      }
    }
  }

  // Summaries

  function FindSummary(ss: seq<Summary>, id: string): (r: Option<Summary>)
    ensures r.Some? ==> r.value in ss && r.value.id == id
    ensures r.None? ==> forall s :: s in ss ==> s.id != id
  {
    if ss == [] then None
    else if ss[0].id == id then Some(ss[0])
    else FindSummary(ss[1..], id)
  }

  /** `findByIdAndUpdate(id, ...)`: the first summary with that id becomes `s`. */
  function ReplaceSummary(ss: seq<Summary>, id: string, s: Summary): (r: seq<Summary>)
    ensures |r| == |ss|
  {
    if ss == [] then []
    else if ss[0].id == id then [s] + ss[1..]
    else [ss[0]] + ReplaceSummary(ss[1..], id, s)
  }

  /** `findByIdAndDelete(id)`: the first summary with that id is removed. */
  function RemoveSummary(ss: seq<Summary>, id: string): (r: seq<Summary>) {
    if ss == [] then []
    else if ss[0].id == id then ss[1..]
    else [ss[0]] + RemoveSummary(ss[1..], id)
  }

  predicate DistinctIds(ss: seq<Summary>) {
    forall i, j :: 0 <= i < j < |ss| ==> ss[i].id != ss[j].id
  }

  /** When ids are distinct, deleting a summary removes it and keeps every other summary in
      its order. */
  lemma {:induction false} RemoveSummaryEffect(ss: seq<Summary>, id: string)
    requires DistinctIds(ss)
    ensures forall s :: s in RemoveSummary(ss, id) <==> s in ss && s.id != id
    ensures DistinctIds(RemoveSummary(ss, id))
  {
    if ss != [] {
      assert DistinctIds(ss[1..]);
      RemoveSummaryEffect(ss[1..], id);
      if ss[0].id == id {
        assert forall s :: s in ss[1..] ==> s.id != id;
      } else {
        assert forall s :: s in ss[1..] ==> s.id != ss[0].id;
      }
    }
  }

  /** The replaced summary reads back as the new value; others read as before. */
  lemma {:induction false} ReplaceSummaryEffect(ss: seq<Summary>, id: string, s: Summary, other: string)
    requires s.id == id
    ensures FindSummary(ss, id).Some? ==> FindSummary(ReplaceSummary(ss, id, s), id) == Some(s)
    ensures other != id ==> FindSummary(ReplaceSummary(ss, id, s), other) == FindSummary(ss, other)
  {
    if ss != [] && ss[0].id != id {
      ReplaceSummaryEffect(ss[1..], id, s, other);
    }
  }

  // Listing

  /** The query a listing runs: `status` only when truthy, `userId` only for role "user". */
  predicate Matches(s: Summary, status: Option<string>, role: Role, requester: string) {
    (status.Some? && status.value != "" ==> s.status == status.value)
    && (role == UserRole ==> s.userId == requester)
  }

  /** `find(query)`, in storage order. */
  function Select(ss: seq<Summary>, status: Option<string>, role: Role, requester: string): (r: seq<Summary>)
    ensures |r| <= |ss|
    ensures forall s :: s in r <==> s in ss && Matches(s, status, role, requester)
  {
    if ss == [] then []
    else if Matches(ss[0], status, role, requester) then [ss[0]] + Select(ss[1..], status, role, requester)
    else Select(ss[1..], status, role, requester)
  }

  /** Role "user" sees only its own rows; any other role without a status filter sees
      every row, in storage order. */
  lemma {:induction false} SelectScope(ss: seq<Summary>, status: Option<string>, role: Role, requester: string)
    ensures role == UserRole ==> forall s :: s in Select(ss, status, role, requester) ==> s.userId == requester
    ensures role != UserRole && (status.None? || status.value == "") ==> Select(ss, status, role, requester) == ss
  {
    if ss != [] {
      SelectScope(ss[1..], status, role, requester);
      assert ss == [ss[0]] + ss[1..];
    }
  }

  predicate NewestFirst(ss: seq<Summary>) {
    forall i, j :: 0 <= i < j < |ss| ==> ss[i].createdAt >= ss[j].createdAt
  }

  lemma HeadIsNewest(ss: seq<Summary>, x: Summary)
    requires NewestFirst(ss) && x in ss
    ensures ss[0].createdAt >= x.createdAt
  {
    var j :| 0 <= j < |ss| && ss[j] == x;
  }

  function InsertNewest(s: Summary, ss: seq<Summary>): (r: seq<Summary>)
    requires NewestFirst(ss)
    ensures NewestFirst(r)
    ensures multiset(r) == multiset(ss) + multiset{s}
    ensures |r| == |ss| + 1
  {
    if ss == [] || ss[0].createdAt <= s.createdAt then
      assert forall x | x in ss :: s.createdAt >= x.createdAt by {
        forall x | x in ss ensures s.createdAt >= x.createdAt {
          HeadIsNewest(ss, x);
        }
      }
      ConsNewest(s, ss);
      [s] + ss
    else
      TailNewest(ss);
      var rest := InsertNewest(s, ss[1..]);
      BoundAfterInsert(s, ss, rest);
      assert multiset(ss) == multiset{ss[0]} + multiset(ss[1..]) by {
        assert ss == [ss[0]] + ss[1..];
      }
      ConsNewest(ss[0], rest);
      [ss[0]] + rest
  }

  lemma TailNewest(ss: seq<Summary>)
    requires NewestFirst(ss) && ss != []
    ensures NewestFirst(ss[1..])
  {
    forall i, j | 0 <= i < j < |ss| - 1 ensures ss[1..][i].createdAt >= ss[1..][j].createdAt {
      assert ss[1..][i] == ss[i + 1] && ss[1..][j] == ss[j + 1];
    }
  }

  /** The head of a newest-first list stays no older than the rest once an older summary is
      added to the rest. */
  lemma BoundAfterInsert(s: Summary, ss: seq<Summary>, rest: seq<Summary>)
    requires NewestFirst(ss) && ss != [] && ss[0].createdAt > s.createdAt
    requires multiset(rest) == multiset(ss[1..]) + multiset{s}
    ensures forall x | x in rest :: ss[0].createdAt >= x.createdAt
  {
    forall x | x in rest ensures ss[0].createdAt >= x.createdAt {
      assert x in multiset(rest);
      if x != s {
        assert x in multiset(ss[1..]);
        assert x in ss;
        HeadIsNewest(ss, x);
      }
    }
  }

  /** A summary no older than any of a newest-first list can go in front of it. */
  lemma ConsNewest(h: Summary, rest: seq<Summary>)
    requires NewestFirst(rest) && forall x | x in rest :: h.createdAt >= x.createdAt
    ensures NewestFirst([h] + rest)
  {
    var r := [h] + rest;
    forall i, j | 0 <= i < j < |r| ensures r[i].createdAt >= r[j].createdAt {
      assert r[j] == rest[j - 1];
      if i > 0 {
        assert r[i] == rest[i - 1];
      } else {
        assert rest[j - 1] in rest;
      }
    }
  }

  /** `.sort({ createdAt: -1 })`: an insertion sort, newest first. */
  function SortNewest(ss: seq<Summary>): (r: seq<Summary>)
    ensures NewestFirst(r)
    ensures multiset(r) == multiset(ss)
    ensures |r| == |ss|
  {
    if ss == [] then []
    else
      assert ss == [ss[0]] + ss[1..];
      InsertNewest(ss[0], SortNewest(ss[1..]))
  }

  /** `.skip(skip).limit(limit)`. */
  function Window(ss: seq<Summary>, skip: nat, limit: nat): (r: seq<Summary>)
    ensures |r| == if skip >= |ss| then 0 else if skip + limit <= |ss| then limit else |ss| - skip
    ensures forall k :: 0 <= k < |r| ==> skip + k < |ss| && r[k] == ss[skip + k]
  {
    if skip >= |ss| then []
    else if skip + limit <= |ss| then ss[skip..skip + limit]
    else ss[skip..]
  }

  lemma WindowFacts(ss: seq<Summary>, skip: nat, limit: nat)
    ensures forall x :: x in Window(ss, skip, limit) ==> x in ss
    ensures NewestFirst(ss) ==> NewestFirst(Window(ss, skip, limit))
  {
    var r := Window(ss, skip, limit);
    forall x | x in r ensures x in ss {
      var k :| 0 <= k < |r| && r[k] == x;
      assert ss[skip + k] == x;
    }
  }

  /** `Math.ceil(total / limit)` for a whole `limit` of at least 1. */
  function TotalPages(total: nat, limit: nat): nat
    requires limit >= 1
    decreases total
  {
    if total == 0 then 0
    else if total <= limit then 1
    else 1 + TotalPages(total - limit, limit)
  }

  /** `totalPages` is the ceiling: enough pages for every row, and no page without one. */
  lemma {:induction false} TotalPagesIsCeiling(total: nat, limit: nat)
    requires limit >= 1
    ensures TotalPages(total, limit) * limit >= total
    ensures total > 0 ==> (TotalPages(total, limit) - 1) * limit < total
    ensures TotalPages(total, limit) == 0 <==> total == 0
    decreases total
  {
    if total > limit {
      TotalPagesIsCeiling(total - limit, limit);
      var t := TotalPages(total - limit, limit);
      assert (1 + t) * limit == t * limit + limit;
      assert t * limit == (t - 1) * limit + limit;
    }
  }

  /** A page number `p` whose first row index `(p - 1) * limit` is below `total` is
      within `totalPages`. */
  lemma {:induction false} PageWithinTotal(total: nat, limit: nat, p: nat)
    requires limit >= 1 && p >= 1 && (p - 1) * limit < total
    ensures p <= TotalPages(total, limit)
    decreases p
  {
    if p > 1 {
      assert (p - 1) * limit == (p - 2) * limit + limit;
      assert (p - 2) * limit >= 0;
      PageWithinTotal(total - limit, limit, p - 1);
    }
  }

  /** The listing response body of `getAllSummaries` and of the rebuild sweep; `totalPages`
      is `None` where `Math.ceil(total / limit)` is not finite and serialises as `null`. */
  datatype Listing = Listing(
    summaries: seq<Listed>,
    totalPages: Option<nat>,
    currentPage: int,
    total: nat,
    userRole: Role,
    timestamp: int)

  /** The rows of one page of a listing, newest first; `page` counts from 1. */
  function PageRows(ss: seq<Summary>, status: Option<string>, role: Role, requester: string, limit: nat, page: int): seq<Summary>
    requires page >= 1
  {
    Window(SortNewest(Select(ss, status, role, requester)), (page - 1) * limit, limit)
  }

  function BuildListing(ss: seq<Summary>, status: Option<string>, role: Role, requester: string,
                        limit: nat, page: int, now: int): Listing
    requires limit >= 1 && page >= 1
  {
    var total := |Select(ss, status, role, requester)|;
    Listing(ProjectAll(PageRows(ss, status, role, requester, limit, page)),
            Some(TotalPages(total, limit)), page, total, role, now)
  }

  /** Every row of a page is a stored row the query matches, and a page is newest first. */
  lemma {:induction false} PageRowsMatch(ss: seq<Summary>, status: Option<string>, role: Role, requester: string,
                                         limit: nat, page: int)
    requires page >= 1
    ensures forall s :: s in PageRows(ss, status, role, requester, limit, page) ==> s in ss && Matches(s, status, role, requester)
    ensures NewestFirst(PageRows(ss, status, role, requester, limit, page))
  {
    var selected := Select(ss, status, role, requester);
    var sorted := SortNewest(selected);
    WindowFacts(sorted, (page - 1) * limit, limit);
    forall x | x in sorted ensures x in selected {
      assert x in multiset(sorted);
    }
  }

  /** A page holds at most `limit` rows; `total` counts the matching rows and `totalPages`
      is `ceil(total / limit)`. */
  lemma {:induction false} ListingCounts(ss: seq<Summary>, status: Option<string>, role: Role, requester: string,
                                         limit: nat, page: int, now: int)
    requires limit >= 1 && page >= 1
    ensures |BuildListing(ss, status, role, requester, limit, page, now).summaries| <= limit
    ensures BuildListing(ss, status, role, requester, limit, page, now).total == |Select(ss, status, role, requester)|
    ensures BuildListing(ss, status, role, requester, limit, page, now).totalPages
            == Some(TotalPages(|Select(ss, status, role, requester)|, limit))
    ensures BuildListing(ss, status, role, requester, limit, page, now).totalPages.value * limit
            >= BuildListing(ss, status, role, requester, limit, page, now).total
    ensures BuildListing(ss, status, role, requester, limit, page, now).currentPage == page
  {
    TotalPagesIsCeiling(|Select(ss, status, role, requester)|, limit);
  }

  /** The pages cover the matching rows: row `k` of page `p` is the row at position
      `skip + k` of the sorted result, where `skip` is `(p - 1) * limit`, and that page is
      within `totalPages`. */
  lemma {:induction false} PagesCoverRows(ss: seq<Summary>, status: Option<string>, role: Role, requester: string,
                                          limit: nat, p: nat, skip: nat, k: nat)
    requires limit >= 1 && p >= 1 && k < limit && skip == (p - 1) * limit
    requires skip + k < |Select(ss, status, role, requester)|
    ensures p <= TotalPages(|Select(ss, status, role, requester)|, limit)
    ensures k < |PageRows(ss, status, role, requester, limit, p)|
    ensures PageRows(ss, status, role, requester, limit, p)[k]
            == SortNewest(Select(ss, status, role, requester))[skip + k]
  {
    PageWithinTotal(|Select(ss, status, role, requester)|, limit, p);
  }
}
