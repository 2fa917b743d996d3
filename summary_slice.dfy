/** client/src/store/slices/summarySlice.js: the Redux slice that keeps the client's list
    of summaries, its loading flag and the last error, and the request body the save thunk
    builds. Summaries and payloads are JavaScript values. */
module SummarySlice {
  import opened Json

  // ----- the thunks' payloads -----

  /** `res.data.summaries || []` on a body that is not `null` or `undefined`: the list the
      fetch thunk resolves with. */
  function FetchPayload(data: Json): (r: seq<Json>)
    requires !Nullish(data)
    ensures !Truthy(Get(data, "summaries")) ==> r == []
    ensures Get(data, "summaries").Arr? ==> r == Get(data, "summaries").elems
  {
    match Or(Get(data, "summaries"), Arr([]))
    case Arr(es) => es
    case _ => []
  }

  /** `error.response?.data?.message || error.message`: the value a failed thunk rejects
      with (the save thunk reads `error` instead of `message` from the response). */
  function RejectValue(responseValue: Json, message: Json): (r: Json)
    ensures Truthy(responseValue) ==> r == responseValue
    ensures !Truthy(responseValue) ==> r == message
  {
    Or(responseValue, message)
  }

  /** What the HTTP call gave back: the response body, or an error carrying the server's
      `response.data.message` (if any) and its own `message`. */
  datatype Response = Answered(data: Json) | Failed(responseMessage: Json, message: Json)

  /** The body the save thunk posts to `/save-summaries`, one field per property. */
  datatype SaveBody = SaveBody(title: Json, content: Json, originalText: Json, prompt: Json,
                               status: Json, fileName: Json, fileType: Json, userId: Json)

  /** The `saveData` literal. The saved body always carries a status and a file type: a
      falsy status becomes "draft", a falsy file name null, a falsy file type "text", and a
      falsy original text falls back to the input text; a truthy value is sent as given. */
  function SaveData(newSummary: Json, originalText: Json, inputText: Json, prompt: Json, userId: Json): (d: SaveBody)
    ensures Truthy(d.status) && Truthy(d.fileType)
    ensures Truthy(Get(newSummary, "status")) ==> d.status == Get(newSummary, "status")
    ensures !Truthy(Get(newSummary, "status")) ==> d.status == Str("draft")
    ensures Truthy(Get(newSummary, "fileType")) ==> d.fileType == Get(newSummary, "fileType")
    ensures !Truthy(Get(newSummary, "fileType")) ==> d.fileType == Str("text")
    ensures !Truthy(d.fileName) ==> d.fileName == Null
    ensures Truthy(Get(newSummary, "fileName")) ==> d.fileName == Get(newSummary, "fileName")
    ensures d.originalText == (if Truthy(originalText) then originalText else inputText)
    ensures d.title == Get(newSummary, "title") && d.content == Get(newSummary, "content")
    ensures d.prompt == prompt && d.userId == userId
  {
    SaveBody(
      Get(newSummary, "title"),
      Get(newSummary, "content"),
      Or(originalText, inputText),
      prompt,
      Or(Get(newSummary, "status"), Str("draft")),
      Or(Get(newSummary, "fileName"), Null),
      Or(Get(newSummary, "fileType"), Str("text")),
      userId)
  }

  // ----- the list filter of deleteSummary.fulfilled -----

  /** `s.id === id || s._id === id`, compared by value. */
  predicate Matches(s: Json, id: Json) {
    Get(s, "id") == id || Get(s, "_id") == id
  }

  /** `items.filter((s) => s.id !== id && s._id !== id)`. */
  function RemoveById(items: seq<Json>, id: Json): (r: seq<Json>)
    ensures |r| <= |items|
    ensures forall k :: 0 <= k < |r| ==> !Matches(r[k], id) && r[k] in items
  {
    if items == [] then []
    else if Matches(items[0], id) then RemoveById(items[1..], id)
    else [items[0]] + RemoveById(items[1..], id)
  }

  /** Exactly the matching items go: every other item stays, as many times as it was there. */
  lemma {:induction false} RemoveByIdCounts(items: seq<Json>, id: Json, x: Json)
    ensures multiset(RemoveById(items, id))[x] == if Matches(x, id) then 0 else multiset(items)[x]
    decreases items
  {
    if items != [] {
      RemoveByIdCounts(items[1..], id, x);
      assert items == [items[0]] + items[1..];
      assert multiset(items) == multiset{items[0]} + multiset(items[1..]);
      if !Matches(items[0], id) {
        assert multiset([items[0]] + RemoveById(items[1..], id))
          == multiset{items[0]} + multiset(RemoveById(items[1..], id));
      }
    }
  }

  /** The filter works item by item, so the survivors keep their relative order. */
  lemma {:induction false} RemoveByIdAppend(a: seq<Json>, b: seq<Json>, id: Json)
    ensures RemoveById(a + b, id) == RemoveById(a, id) + RemoveById(b, id)
    decreases a
  {
    if a == [] {
      assert a + b == b;
    } else {
      assert (a + b)[0] == a[0] && (a + b)[1..] == a[1..] + b;
      RemoveByIdAppend(a[1..], b, id);
    }
  }

  /** A list without the id is left as it is. */
  lemma {:induction false} RemoveByIdAbsent(items: seq<Json>, id: Json)
    requires forall k :: 0 <= k < |items| ==> !Matches(items[k], id)
    ensures RemoveById(items, id) == items
    decreases items
  {
    if items != [] {
      RemoveByIdAbsent(items[1..], id);
      assert [items[0]] + items[1..] == items;
    }
  }

  lemma RemoveByIdIdempotent(items: seq<Json>, id: Json)
    ensures RemoveById(RemoveById(items, id), id) == RemoveById(items, id)
  {
    RemoveByIdAbsent(RemoveById(items, id), id);
  }

  // ----- the slice -----

  datatype SliceState = SliceState(items: seq<Json>, loading: bool, error: Json)

  const InitialState := SliceState([], false, Null)

  /** The actions the slice handles, each with its payload. */
  datatype Action =
    | FetchPending
    | FetchFulfilled(summaries: seq<Json>)
    | FetchRejected(reason: Json)
    | DeleteFulfilled(summaryId: Json)
    | DeleteRejected(reason: Json)
    | SaveFulfilled(summary: Json)
    | SaveRejected(reason: Json)

  /** The state after one action, case by case as `extraReducers` handles it. */
  function Reduce(s: SliceState, a: Action): SliceState {
    match a
    case FetchPending => s.(loading := true, error := Null)
    case FetchFulfilled(summaries) => s.(loading := false, items := summaries)
    case FetchRejected(reason) => s.(loading := false, error := reason)
    case DeleteFulfilled(summaryId) => s.(items := RemoveById(s.items, summaryId))
    case DeleteRejected(reason) => s.(error := reason)
    case SaveFulfilled(summary) => s.(items := [summary] + s.items)
    case SaveRejected(reason) => s.(error := reason)
  }

  /** `fetchSummaries`: the action it settles with. A `null` or `undefined` body throws at
      `res.data.summaries`, and the rejection carries the `TypeError`'s message; a failed
      request rejects with the server's message or the error's own; any other body fulfils
      with its `summaries` list, or with `[]` when that is falsy. */
  function FetchSummaries(response: Response): (a: Action)
    ensures a.FetchFulfilled? <==> response.Answered? && !Nullish(response.data)
    ensures response.Failed? ==> a == FetchRejected(RejectValue(response.responseMessage, response.message))
    ensures response.Answered? && Nullish(response.data) ==>
      a == FetchRejected(Str(ReadErrorMessage(response.data, "summaries")))
    ensures a.FetchFulfilled? && !Truthy(Get(response.data, "summaries")) ==> a.summaries == []
    ensures a.FetchFulfilled? && Get(response.data, "summaries").Arr? ==>
      a.summaries == Get(response.data, "summaries").elems
  {
    match response
    case Failed(responseMessage, message) => FetchRejected(RejectValue(responseMessage, message))
    case Answered(data) =>
      if Nullish(data) then FetchRejected(Str(ReadErrorMessage(data, "summaries")))
      else FetchFulfilled(FetchPayload(data))
  }

  /** A rejected request records its reason and never touches the list; only the fetch
      also ends the loading state. */
  lemma RejectedKeepsItems(s: SliceState, a: Action)
    requires a.FetchRejected? || a.DeleteRejected? || a.SaveRejected?
    ensures Reduce(s, a).items == s.items
    ensures Reduce(s, a).error == a.reason
    ensures Reduce(s, a).loading == (if a.FetchRejected? then false else s.loading)
  {
  }

  /** Only the fetch cycle moves the loading flag. */
  lemma LoadingOnlyFromFetch(s: SliceState, a: Action)
    requires !a.FetchPending? && !a.FetchFulfilled? && !a.FetchRejected?
    ensures Reduce(s, a).loading == s.loading
  {
  }

  /** A fetch that starts and then settles leaves the flag down; success keeps the cleared
      error and shows the fetched list, failure keeps the old list and shows the reason. */
  lemma FetchCycle(s: SliceState, summaries: seq<Json>, reason: Json)
    ensures Reduce(Reduce(s, FetchPending), FetchFulfilled(summaries)) == SliceState(summaries, false, Null)
    ensures Reduce(Reduce(s, FetchPending), FetchRejected(reason)) == SliceState(s.items, false, reason)
  {
  }

  /** Saving a summary and then deleting it by its id gives back the list as it was, as long
      as no earlier item carried that id; the new summary is shown first. */
  lemma SaveThenDelete(s: SliceState, summary: Json, summaryId: Json)
    requires Matches(summary, summaryId)
    requires forall k :: 0 <= k < |s.items| ==> !Matches(s.items[k], summaryId)
    ensures Reduce(s, SaveFulfilled(summary)).items[0] == summary
    ensures |Reduce(s, SaveFulfilled(summary)).items| == |s.items| + 1
    ensures Reduce(Reduce(s, SaveFulfilled(summary)), DeleteFulfilled(summaryId)) == s
  {
    RemoveByIdAbsent(s.items, summaryId);
    assert [summary] + s.items == [summary] + s.items;
  }

  /** The store's slice: each reducer case assigns the fields of the draft state. */
  class Summaries {
    var items: seq<Json>
    var loading: bool
    var error: Json

    function State(): SliceState
      reads this
    {
      SliceState(items, loading, error)
    }

    constructor()
      ensures State() == InitialState
    {
      items := [];
      loading := false;
      error := Null;
    }

    method FetchSummariesPending()
      modifies this
      ensures State() == Reduce(old(State()), FetchPending)
    {
      loading := true;
      error := Null;
    }

    method FetchSummariesFulfilled(payload: seq<Json>)
      modifies this
      ensures State() == Reduce(old(State()), FetchFulfilled(payload))
    {
      loading := false;
      items := payload;
    }

    method FetchSummariesRejected(payload: Json)
      modifies this
      ensures State() == Reduce(old(State()), FetchRejected(payload))
    {
      loading := false;
      error := payload;
    }

    method DeleteSummaryFulfilled(payload: Json)
      modifies this
      ensures State() == Reduce(old(State()), DeleteFulfilled(payload))
    {
      items := RemoveById(items, payload);
    }

    method DeleteSummaryRejected(payload: Json)
      modifies this
      ensures State() == Reduce(old(State()), DeleteRejected(payload))
    {
      error := payload;
    }

    /** `state.items.unshift(action.payload)`. */
    method SaveSummaryFulfilled(payload: Json)
      modifies this
      ensures State() == Reduce(old(State()), SaveFulfilled(payload))
    {
      items := [payload] + items;
    }

    method SaveSummaryRejected(payload: Json)
      modifies this
      ensures State() == Reduce(old(State()), SaveRejected(payload))
    {
      error := payload;
    }
  }
}
