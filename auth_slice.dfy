/** client/src/store/slices/slices.js: the Redux slice that tracks whether the browser holds
    a session, who the user is, whether a session check or login is under way, and the
    last error; and the user object the session-check and login thunks resolve with. */
module AuthSlice {
  import opened Json

  // ----- the normalised user -----

  /** `credits: user.credits || 100`, so a balance of 0 is shown as 100. */
  const DefaultCredits: int := 100

  /** The object literal both thunks resolve with. */
  function UserObject(id: Json, name: Json, email: Json, role: Json, credits: Json, createdAt: Json): Json {
    Obj([Member("id", id), Member("name", name), Member("email", email), Member("role", role),
         Member("credits", Or(credits, Num(DefaultCredits))), Member("createdAt", createdAt)])
  }

  /** The literal reads back its six fields, with the credit default applied, and has no
      repeated name. */
  lemma UserObjectFields(id: Json, name: Json, email: Json, role: Json, credits: Json, createdAt: Json)
    ensures var u := UserObject(id, name, email, role, credits, createdAt);
      && Get(u, "id") == id && Get(u, "name") == name && Get(u, "email") == email
      && Get(u, "role") == role && Get(u, "createdAt") == createdAt
      && Get(u, "credits") == (if Truthy(credits) then credits else Num(DefaultCredits))
      && Truthy(Get(u, "credits"))
      && DistinctKeys(u.members)
  {
    var u := UserObject(id, name, email, role, credits, createdAt);
    assert DistinctKeys(u.members) by {
      assert "id" != "name" && "id" != "email" && "id" != "role" && "id" != "credits" && "id" != "createdAt";
      assert "name" != "email" && "name" != "role" && "name" != "credits" && "name" != "createdAt";
      assert "email" != "role" && "email" != "credits" && "email" != "createdAt";
      assert "role" != "credits" && "role" != "createdAt";
      assert "credits" != "createdAt";
    }
    LookupAt(u.members, 0);
    LookupAt(u.members, 1);
    LookupAt(u.members, 2);
    LookupAt(u.members, 3);
    LookupAt(u.members, 4);
    LookupAt(u.members, 5);
  }


  // ----- the thunks -----

  /** How a thunk settles: with a payload, or through `rejectWithValue`. */
  datatype Outcome = Fulfilled(payload: Json) | Rejected(reason: Json)

  /** What the HTTP call gave back: the response body, or an error carrying the server's
      `response.data.message` (if any) and its own `message`. */
  datatype Response = Answered(data: Json) | Failed(responseMessage: Json, message: Json)

  const NotAuthenticated: string := "Not authenticated"
  const NoUserData: string := "Login failed - no user data"

  /** `checkSession`: an authenticated answer with a user becomes the normalised user (its
      `id` is taken as it is, with no `_id` fallback); a `null` or `undefined` body throws at
      `data.authenticated` and is rejected with the `TypeError`'s message; anything else is
      rejected as not authenticated. */
  function CheckSession(response: Response): (r: Outcome)
    ensures response.Answered? && Nullish(response.data) ==>
      r == Rejected(Str(ReadErrorMessage(response.data, "authenticated")))
    ensures response.Answered? ==>
      (r.Fulfilled? <==> !Nullish(response.data)
                         && Truthy(Get(response.data, "authenticated")) && Truthy(Get(response.data, "user")))
    ensures response.Answered? && !Nullish(response.data) && r.Rejected? ==> r.reason == Str(NotAuthenticated)
    ensures response.Failed? ==> r == Rejected(Or(response.responseMessage, response.message))
    ensures r.Fulfilled? ==> var user := Get(response.data, "user");
      && Get(r.payload, "id") == Get(user, "id")
      && Get(r.payload, "name") == Or(Get(user, "name"), Get(user, "userName"))
      && Get(r.payload, "email") == Get(user, "email") && Get(r.payload, "role") == Get(user, "role")
      && Get(r.payload, "createdAt") == Get(user, "createdAt")
      && Get(r.payload, "credits") == Or(Get(user, "credits"), Num(DefaultCredits))
      && Truthy(Get(r.payload, "credits"))
    ensures r.Fulfilled? ==> r.payload.Obj? && DistinctKeys(r.payload.members)
  {
    match response
    case Failed(responseMessage, message) => Rejected(Or(responseMessage, message))
    case Answered(data) =>
      if Nullish(data) then Rejected(Str(ReadErrorMessage(data, "authenticated")))
      else if Truthy(Get(data, "authenticated")) && Truthy(Get(data, "user")) then
        var user := Get(data, "user");
        UserObjectFields(Get(user, "id"), Or(Get(user, "name"), Get(user, "userName")), Get(user, "email"),
                         Get(user, "role"), Get(user, "credits"), Get(user, "createdAt"));
        Fulfilled(UserObject(Get(user, "id"), Or(Get(user, "name"), Get(user, "userName")), Get(user, "email"),
                             Get(user, "role"), Get(user, "credits"), Get(user, "createdAt")))
      else Rejected(Str(NotAuthenticated))
  }

  /** `data.user || data.data || data`: where the login answer keeps the user. */
  function LoginCandidate(data: Json): Json {
    Or(Or(Get(data, "user"), Get(data, "data")), data)
  }

  /** `loginUser`: a `null` or `undefined` body throws at `data.user` and is rejected with
      the `TypeError`'s message; otherwise the candidate user is accepted only when it has an
      `id` or an `_id`, and the normalised user then always has a truthy `id` and truthy
      credits. */
  function LoginUser(response: Response): (r: Outcome)
    ensures response.Answered? && Nullish(response.data) ==>
      r == Rejected(Str(ReadErrorMessage(response.data, "user")))
    ensures response.Answered? ==> var user := LoginCandidate(response.data);
      (r.Fulfilled? <==> !Nullish(response.data) && Truthy(user) && (Truthy(Get(user, "id")) || Truthy(Get(user, "_id"))))
    ensures response.Answered? && !Nullish(response.data) && r.Rejected? ==> r.reason == Str(NoUserData)
    ensures response.Failed? ==> r == Rejected(Or(response.responseMessage, response.message))
    ensures r.Fulfilled? ==> var user := LoginCandidate(response.data);
      && Get(r.payload, "id") == Or(Get(user, "id"), Get(user, "_id"))
      && Truthy(Get(r.payload, "id"))
      && Get(r.payload, "name") == Or(Or(Get(user, "name"), Get(user, "userName")), Get(user, "username"))
      && Get(r.payload, "email") == Get(user, "email") && Get(r.payload, "role") == Get(user, "role")
      && Get(r.payload, "createdAt") == Get(user, "createdAt")
      && Get(r.payload, "credits") == Or(Get(user, "credits"), Num(DefaultCredits))
      && Truthy(Get(r.payload, "credits"))
    ensures r.Fulfilled? ==> r.payload.Obj? && DistinctKeys(r.payload.members)
  {
    match response
    case Failed(responseMessage, message) => Rejected(Or(responseMessage, message))
    case Answered(data) =>
      var user := LoginCandidate(data);
      if Nullish(data) then Rejected(Str(ReadErrorMessage(data, "user")))
      else if Truthy(user) && (Truthy(Get(user, "id")) || Truthy(Get(user, "_id"))) then
        var name := Or(Or(Get(user, "name"), Get(user, "userName")), Get(user, "username"));
        UserObjectFields(Or(Get(user, "id"), Get(user, "_id")), name, Get(user, "email"),
                         Get(user, "role"), Get(user, "credits"), Get(user, "createdAt"));
        Fulfilled(UserObject(Or(Get(user, "id"), Get(user, "_id")), name, Get(user, "email"),
                             Get(user, "role"), Get(user, "credits"), Get(user, "createdAt")))
      else Rejected(Str(NoUserData))
  }

  // ----- the slice -----

  datatype AuthState = AuthState(isAuthenticated: bool, user: Json, loading: bool, error: Json)

  const InitialState := AuthState(false, Null, true, Null)

  /** The actions the slice handles; the other thunk stages (`logoutUser.pending`, ...)
      leave the state as it is. */
  datatype Action =
    | UpdateUser(changes: Json)
    | ClearAuth
    | ClearError
    | CheckSessionPending
    | CheckSessionFulfilled(user: Json)
    | CheckSessionRejected
    | LoginPending
    | LoginFulfilled(user: Json)
    | LoginRejected(reason: Json)
    | LogoutFulfilled
    | Other

  function Reduce(s: AuthState, a: Action): AuthState {
    match a
    case UpdateUser(changes) => s.(user := Spread(s.user, changes))
    case ClearAuth => s.(isAuthenticated := false, user := Null, error := Null)
    case ClearError => s.(error := Null)
    case CheckSessionPending => s.(loading := true)
    case CheckSessionFulfilled(user) => AuthState(true, user, false, Null)
    case CheckSessionRejected => s.(loading := false, isAuthenticated := false, user := Null)
    case LoginPending => s.(loading := true, error := Null)
    case LoginFulfilled(user) => AuthState(true, user, false, Null)
    case LoginRejected(reason) => s.(loading := false, error := reason)
    case LogoutFulfilled => s.(isAuthenticated := false, user := Null)
    case Other => s
  }

  /** The action a settled thunk dispatches. */
  function SessionAction(o: Outcome): Action {
    if o.Fulfilled? then CheckSessionFulfilled(o.payload) else CheckSessionRejected
  }

  function LoginAction(o: Outcome): Action {
    if o.Fulfilled? then LoginFulfilled(o.payload) else LoginRejected(o.reason)
  }

  /** The shape the slice keeps: a signed-in state always has a user object, and the user
      is null or an object without repeated names. */
  predicate Consistent(s: AuthState) {
    && (s.isAuthenticated ==> s.user.Obj?)
    && (s.user.Null? || (s.user.Obj? && DistinctKeys(s.user.members)))
  }

  /** Payloads as the thunks produce them. */
  predicate WellFormed(a: Action) {
    match a
    case CheckSessionFulfilled(user) => user.Obj? && DistinctKeys(user.members)
    case LoginFulfilled(user) => user.Obj? && DistinctKeys(user.members)
    case _ => true
  }

  lemma {:induction false} ReduceKeepsConsistent(s: AuthState, a: Action)
    requires Consistent(s) && WellFormed(a)
    ensures Consistent(Reduce(s, a))
  {
    if a.UpdateUser? {
      SpreadIsDistinct(s.user, a.changes);
    }
  }

  /** Whatever the server answers, the thunks' actions are well formed. */
  lemma ThunkActionsWellFormed(response: Response)
    ensures WellFormed(SessionAction(CheckSession(response)))
    ensures WellFormed(LoginAction(LoginUser(response)))
  {
  }

  /** `updateUser` overwrites the names the payload has and keeps every other field. */
  lemma UpdateUserMerges(s: AuthState, changes: Json, k: string)
    requires Consistent(s) && DistinctKeys(MembersOf(changes))
    ensures Get(Reduce(s, UpdateUser(changes)).user, k) ==
      if HasKey(MembersOf(changes), k) then Get(changes, k) else Get(s.user, k)
    ensures HasKey(Reduce(s, UpdateUser(changes)).user.members, k) <==>
      HasKey(MembersOf(s.user), k) || HasKey(MembersOf(changes), k)
    ensures Reduce(s, UpdateUser(changes)).isAuthenticated == s.isAuthenticated
  {
    SpreadGet(s.user, changes, k);
  }

  /** A failed login keeps whatever session there was and only records the reason. */
  lemma LoginRejectedKeepsSession(s: AuthState, reason: Json)
    ensures var t := Reduce(s, LoginRejected(reason));
      t.isAuthenticated == s.isAuthenticated && t.user == s.user && t.error == reason && !t.loading
  {
  }

  /** A failed session check signs out and keeps the last error. */
  lemma SessionRejectedKeepsError(s: AuthState)
    ensures Reduce(s, CheckSessionRejected) == AuthState(false, Null, false, s.error)
  {
  }

  /** `clearAuth` keeps the loading flag, `clearError` and a logout change nothing beyond
      what they name. */
  lemma ResetsAreNarrow(s: AuthState)
    ensures Reduce(s, ClearAuth) == AuthState(false, Null, s.loading, Null)
    ensures Reduce(s, ClearError) == s.(error := Null)
    ensures Reduce(s, LogoutFulfilled) == AuthState(false, Null, s.loading, s.error)
  {
  }

  /** Signing in through either thunk: once the request settles successfully the user is
      signed in with the normalised user and no error, and the loading flag is down. */
  lemma LoginFlow(s: AuthState, response: Response)
    requires LoginUser(response).Fulfilled?
    ensures var t := Reduce(Reduce(s, LoginPending), LoginAction(LoginUser(response)));
      t.isAuthenticated && t.user == LoginUser(response).payload && !t.loading && t.error.Null?
      && Truthy(Get(t.user, "id"))
  {
  }

  /** The store's slice: each reducer case assigns the fields of the draft state. */
  class Auth {
    var isAuthenticated: bool
    var user: Json
    var loading: bool
    var error: Json

    function State(): AuthState
      reads this
    {
      AuthState(isAuthenticated, user, loading, error)
    }

    predicate Valid()
      reads this
    {
      Consistent(State())
    }

    constructor()
      ensures State() == InitialState && Valid()
    {
      isAuthenticated := false;
      user := Null;
      loading := true;
      error := Null;
    }

    /** `state.user = { ...state.user, ...action.payload }`. */
    method UpdateUserReducer(changes: Json)
      requires Valid()
      modifies this
      ensures Valid() && State() == Reduce(old(State()), UpdateUser(changes))
    {
      user := Spread(user, changes);
      ReduceKeepsConsistent(old(State()), UpdateUser(changes));
    }

    method ClearAuthReducer()
      requires Valid()
      modifies this
      ensures Valid() && State() == Reduce(old(State()), ClearAuth)
    {
      isAuthenticated := false;
      user := Null;
      error := Null;
    }

    method ClearErrorReducer()
      requires Valid()
      modifies this
      ensures Valid() && State() == Reduce(old(State()), ClearError)
    {
      error := Null;
    }

    method CheckSessionPendingReducer()
      requires Valid()
      modifies this
      ensures Valid() && State() == Reduce(old(State()), CheckSessionPending)
    {
      loading := true;
    }

    method CheckSessionFulfilledReducer(payload: Json)
      requires Valid() && WellFormed(CheckSessionFulfilled(payload))
      modifies this
      ensures Valid() && State() == Reduce(old(State()), CheckSessionFulfilled(payload))
    {
      loading := false;
      isAuthenticated := true;
      user := payload;
      error := Null;
    }

    method CheckSessionRejectedReducer()
      requires Valid()
      modifies this
      ensures Valid() && State() == Reduce(old(State()), CheckSessionRejected)
    {
      loading := false;
      isAuthenticated := false;
      user := Null;
    }

    method LoginPendingReducer()
      requires Valid()
      modifies this
      ensures Valid() && State() == Reduce(old(State()), LoginPending)
    {
      loading := true;
      error := Null;
    }

    method LoginFulfilledReducer(payload: Json)
      requires Valid() && WellFormed(LoginFulfilled(payload))
      modifies this
      ensures Valid() && State() == Reduce(old(State()), LoginFulfilled(payload))
    {
      loading := false;
      isAuthenticated := true;
      user := payload;
      error := Null;
    }

    method LoginRejectedReducer(payload: Json)
      requires Valid()
      modifies this
      ensures Valid() && State() == Reduce(old(State()), LoginRejected(payload))
    {
      loading := false;
      error := payload;
    }

    method LogoutFulfilledReducer()
      requires Valid()
      modifies this
      ensures Valid() && State() == Reduce(old(State()), LogoutFulfilled)
    {
      isAuthenticated := false;
      user := Null;
    }
  }
}
