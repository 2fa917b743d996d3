/** client/src/pages/SignUpPage.jsx: the sign-up form's list of three to six shop names,
    the checks it runs before posting, and the request it then sends. The availability
    answers the page fetches while the user types are inputs here. */
module SignUp {
  import opened Wrappers
  import opened Text
  import opened Password

  /** An availability answer: `null` before any answer, 'available', 'not available', or
      'error' when the check failed. */
  datatype Availability = Unchecked | Available | NotAvailable | CheckError

  const MinShops: nat := 3
  const MaxShops: nat := 6
  const InitialShopNames: seq<string> := ["", "", ""]

  const UsernameRequired: string := "Username is required"
  const UsernameTaken: string := "Username is already taken. Please choose a different username."
  const PasswordRequired: string := "Password is required"
  const PasswordTooWeak: string :=
    "Password must be at least 8 characters, contain at least one number, and one special character."
  const TooFewShops: string := "At least 3 shop names are required"
  const ShopsUnavailable: string := "Some shop names are not available. Please choose different names."

  // ----- the shop-name list -----

  /** `shopNames.filter((_, i) => i !== index)`: every element but the one at `index`;
      an index outside the list removes nothing. */
  function Without(names: seq<string>, index: int): (r: seq<string>)
    ensures 0 <= index < |names| ==> |r| == |names| - 1
    ensures !(0 <= index < |names|) ==> r == names
    ensures forall k :: 0 <= k < |r| ==> r[k] == names[if 0 <= index <= k then k + 1 else k]
  {
    if names == [] then []
    else
      var rest := Without(names[1..], index - 1);
      if index == 0 then rest else [names[0]] + rest
  }

  /** `addShopName`: one more empty name, while there are fewer than six. */
  function AddShop(names: seq<string>): seq<string> {
    if |names| < MaxShops then names + [""] else names
  }

  /** `removeShopName(index)`: the list without element `index`, while there are more than
      three. */
  function RemoveShop(names: seq<string>, index: int): seq<string> {
    if |names| > MinShops then Without(names, index) else names
  }

  datatype ShopEdit = Add | Remove(index: int)

  function ApplyEdits(names: seq<string>, edits: seq<ShopEdit>): seq<string>
    decreases |edits|
  {
    if edits == [] then names
    else
      var next := if edits[0].Add? then AddShop(names) else RemoveShop(names, edits[0].index);
      ApplyEdits(next, edits[1..])
  }

  /** Each edit keeps the count between three and six. */
  lemma EditKeepsCount(names: seq<string>, e: ShopEdit)
    requires MinShops <= |names| <= MaxShops
    ensures var next := if e.Add? then AddShop(names) else RemoveShop(names, e.index);
      MinShops <= |next| <= MaxShops
    ensures e.Add? ==> AddShop(names) == if |names| < MaxShops then names + [""] else names
  {
  }

  /** Whatever the user clicks, a form that starts with three names keeps between three
      and six. */
  lemma {:induction false} EditsKeepCount(names: seq<string>, edits: seq<ShopEdit>)
    requires MinShops <= |names| <= MaxShops
    ensures MinShops <= |ApplyEdits(names, edits)| <= MaxShops
    decreases |edits|
  {
    if edits != [] {
      EditKeepsCount(names, edits[0]);
      var next := if edits[0].Add? then AddShop(names) else RemoveShop(names, edits[0].index);
      EditsKeepCount(next, edits[1..]);
    }
  }

  lemma FromInitialForm(edits: seq<ShopEdit>)
    ensures MinShops <= |ApplyEdits(InitialShopNames, edits)| <= MaxShops
  {
    EditsKeepCount(InitialShopNames, edits);
  }

  // ----- the availability answers, keyed by position -----

  /** `shopNameStatus[i]`, with a missing entry read as `undefined`. */
  function StatusAt(status: map<int, Availability>, i: int): Availability {
    if i in status then status[i] else Unchecked
  }

  /** `name.trim() && shopNameStatus[index] === 'not available'` for one position. */
  predicate FlaggedAt(names: seq<string>, status: map<int, Availability>, i: int)
    requires 0 <= i < |names|
  {
    !IsBlank(names[i]) && StatusAt(status, i) == NotAvailable
  }

  /** The `.some(...)` test: a non-blank name whose answer is 'not available'. */
  predicate AnyUnavailable(names: seq<string>, status: map<int, Availability>) {
    exists i :: 0 <= i < |names| && FlaggedAt(names, status, i)
  }

  /** The answers after `removeShopName(index)` as written: `delete newStatus[index]`, with
      the answers of later names left at their old positions. */
  function StatusAfterRemoveAsWritten(status: map<int, Availability>, index: int): (r: map<int, Availability>)
    ensures index !in r
    ensures forall i :: i != index ==> StatusAt(r, i) == StatusAt(status, i)
  {
    status - {index}
  }

  /** The position an answer had before the name at `index` was removed. */
  function Source(k: int, index: int): int {
    if 0 <= index <= k then k + 1 else k
  }

  /** The answers after `removeShopName(index)` as intended: every remaining name keeps the
      answer it had, at its new position. */
  function StatusAfterRemove(status: map<int, Availability>, index: int, remaining: nat): (r: map<int, Availability>)
    ensures forall k :: 0 <= k < remaining ==> StatusAt(r, k) == StatusAt(status, Source(k, index))
  {
    map k | 0 <= k < remaining && Source(k, index) in status :: status[Source(k, index)]
  }

  /** After the intended removal, a name is flagged exactly when it was flagged before. */
  lemma RemovalKeepsFlags(names: seq<string>, status: map<int, Availability>, index: int)
    requires 0 <= index < |names|
    ensures var rest := Without(names, index);
      forall k :: 0 <= k < |rest| ==>
        (FlaggedAt(rest, StatusAfterRemove(status, index, |rest|), k) <==> FlaggedAt(names, status, Source(k, index)))
  {
  }

  /** The removal as written loses track of an unavailable shop: with the fourth name
      refused and the second removed, that name moves to position 2 while its answer stays
      at 3, so the form no longer sees it; the intended removal still does. */
  lemma AsWrittenMissesUnavailable()
    ensures var names := ["a", "b", "c", "d"];
      var status := map[3 := NotAvailable];
      var rest := Without(names, 1);
      && FlaggedAt(names, status, 3)
      && rest == ["a", "c", "d"]
      && !AnyUnavailable(rest, StatusAfterRemoveAsWritten(status, 1))
      && AnyUnavailable(rest, StatusAfterRemove(status, 1, |rest|))
  {
    var names := ["a", "b", "c", "d"];
    var status := map[3 := NotAvailable];
    var rest := Without(names, 1);
    assert !IsBlank("d");
    assert rest == ["a", "c", "d"];
    var asWritten := StatusAfterRemoveAsWritten(status, 1);
    assert forall i :: 0 <= i < 3 ==> StatusAt(asWritten, i) == Unchecked;
    assert FlaggedAt(rest, StatusAfterRemove(status, 1, |rest|), 2);
  }

  // ----- validateForm and handleSubmit -----

  /** `shopNames.filter(name => name.trim())`. */
  function Filled(names: seq<string>): (r: seq<string>)
    ensures |r| <= |names|
    ensures forall x :: x in r <==> x in names && !IsBlank(x)
  {
    if names == [] then []
    else
      var rest := Filled(names[1..]);
      assert names == [names[0]] + names[1..];
      if IsBlank(names[0]) then rest else [names[0]] + rest
  }

  /** What a form must satisfy to be posted: a free, non-blank username, a non-blank password
      that passes the rule, at least three non-blank shop names and none of them refused. */
  predicate Acceptable(username: string, password: string, shopNames: seq<string>,
                       shopNameStatus: map<int, Availability>, usernameStatus: Availability) {
    && !IsBlank(username) && usernameStatus != NotAvailable
    && !IsBlank(password) && ValidatePassword(password).isValid
    && |Filled(shopNames)| >= MinShops && !AnyUnavailable(shopNames, shopNameStatus)
  }

  /** The `newErrors` object: one optional message per field. */
  datatype FormErrors = FormErrors(username: Option<string>, password: Option<string>, shopNames: Option<string>)

  const NoErrors := FormErrors(None, None, None)

  /** `Object.keys(errors).length`. */
  function KeyCount(e: FormErrors): nat {
    (if e.username.Some? then 1 else 0) + (if e.password.Some? then 1 else 0) + (if e.shopNames.Some? then 1 else 0)
  }

  /** `validateForm`: fills `newErrors` field by field; a refused shop name overrides the
      too-few message. The form is valid when no field was set. */
  method ValidateForm(username: string, password: string, shopNames: seq<string>,
                      shopNameStatus: map<int, Availability>, usernameStatus: Availability)
    returns (errors: FormErrors, ok: bool)
    ensures errors.username.Some? <==> IsBlank(username) || usernameStatus == NotAvailable
    ensures errors.username.Some? ==>
      errors.username.value == if IsBlank(username) then UsernameRequired else UsernameTaken
    ensures errors.password.Some? <==> IsBlank(password) || !ValidatePassword(password).isValid
    ensures errors.password.Some? ==>
      errors.password.value == if IsBlank(password) then PasswordRequired else PasswordTooWeak
    ensures errors.shopNames.Some? <==> |Filled(shopNames)| < MinShops || AnyUnavailable(shopNames, shopNameStatus)
    ensures errors.shopNames.Some? ==>
      errors.shopNames.value == if AnyUnavailable(shopNames, shopNameStatus) then ShopsUnavailable else TooFewShops
    ensures ok <==> errors == NoErrors
    ensures ok <==> Acceptable(username, password, shopNames, shopNameStatus, usernameStatus)
  {
    var newErrors := NoErrors;
    if IsBlank(username) {
      newErrors := newErrors.(username := Some(UsernameRequired));
    } else if usernameStatus == NotAvailable {
      newErrors := newErrors.(username := Some(UsernameTaken));
    }
    if IsBlank(password) {
      newErrors := newErrors.(password := Some(PasswordRequired));
    } else {
      var passwordValidation := ValidatePassword(password);
      if !passwordValidation.isValid {
        newErrors := newErrors.(password := Some(PasswordTooWeak));
      }
    }
    assert newErrors.username.Some? <==> IsBlank(username) || usernameStatus == NotAvailable;
    assert newErrors.password.Some? <==> IsBlank(password) || !ValidatePassword(password).isValid;
    assert newErrors.shopNames.None?;
    var filledShops := Filled(shopNames);
    if |filledShops| < MinShops {
      newErrors := newErrors.(shopNames := Some(TooFewShops));
    }
    var unavailableShops := AnyUnavailable(shopNames, shopNameStatus);
    if unavailableShops {
      newErrors := newErrors.(shopNames := Some(ShopsUnavailable));
    }
    errors := newErrors;
    ok := KeyCount(newErrors) == 0;
  }

  datatype SignUpRequest = SignUpRequest(username: string, password: string, shopNames: seq<string>)

  /** The errors `handleSubmit` shows and the request it posts, for the form's values. */
  method Submit(username: string, password: string, shopNames: seq<string>,
                shopNameStatus: map<int, Availability>, usernameStatus: Availability)
    returns (errors: FormErrors, request: Option<SignUpRequest>)
    ensures request.Some? <==> errors == NoErrors
    ensures request.Some? <==> Acceptable(username, password, shopNames, shopNameStatus, usernameStatus)
    ensures request.Some? ==> request.value == SignUpRequest(username, password, Filled(shopNames))
  {
    var ok;
    errors, ok := ValidateForm(username, password, shopNames, shopNameStatus, usernameStatus);
    if ok {
      request := Some(SignUpRequest(username, password, Filled(shopNames)));
    } else {
      request := None;
    }
  }

  /** The form's state: what the user typed, the availability answers and the errors shown. */
  class SignUpForm {
    var username: string
    var password: string
    var shopNames: seq<string>
    var shopNameStatus: map<int, Availability>
    var usernameStatus: Availability
    var errors: FormErrors

    predicate Valid()
      reads this
    {
      MinShops <= |shopNames| <= MaxShops
    }

    constructor()
      ensures Valid() && shopNames == InitialShopNames
      ensures username == "" && password == "" && shopNameStatus == map[]
      ensures usernameStatus == Unchecked && errors == NoErrors
    {
      username := "";
      password := "";
      shopNames := InitialShopNames;
      shopNameStatus := map[];
      usernameStatus := Unchecked;
      errors := NoErrors;
    }

    method AddShopName()
      requires Valid()
      modifies this
      ensures Valid() && shopNames == AddShop(old(shopNames))
      ensures username == old(username) && password == old(password) && shopNameStatus == old(shopNameStatus)
      ensures usernameStatus == old(usernameStatus) && errors == old(errors)
    {
      if |shopNames| < MaxShops {
        shopNames := shopNames + [""];
      }
    }

    /** `handleInputChange('username', value)` with the availability answer the check
        returns: a blank name clears the answer, and a shown username error is emptied. */
    method ChangeUsername(value: string, answer: Availability)
      requires Valid()
      modifies this
      ensures Valid() && username == value
      ensures usernameStatus == if IsBlank(value) then Unchecked else answer
      ensures errors == old(errors).(username := if old(errors).username.Some? then Some("") else None)
      ensures password == old(password) && shopNames == old(shopNames) && shopNameStatus == old(shopNameStatus)
    {
      var checked := if IsBlank(value) then Unchecked else answer;
      username := value;
      if errors.username.Some? {
        errors := errors.(username := Some(""));
      }
      usernameStatus := checked;
    }

    /** `handleShopNameChange(index, value)` with the availability answer the check returns:
        a blank name resets the answer at its position to `null`. */
    method ChangeShopName(index: nat, value: string, answer: Availability)
      requires Valid() && index < |shopNames|
      modifies this
      ensures Valid() && shopNames == old(shopNames)[index := value]
      ensures shopNameStatus == old(shopNameStatus)[index := if IsBlank(value) then Unchecked else answer]
      ensures username == old(username) && password == old(password)
      ensures usernameStatus == old(usernameStatus) && errors == old(errors)
    {
      var checked := if IsBlank(value) then Unchecked else answer;
      shopNames := shopNames[index := value];
      shopNameStatus := shopNameStatus[index := checked];
    }

    /** Removes a name above the minimum and deletes the answer stored at its position;
        the answers of the later names stay at their old positions, as the page does
        (`StatusAfterRemove` is the re-indexing it evidently intends). */
    method RemoveShopName(index: int)
      requires Valid()
      modifies this
      ensures Valid() && shopNames == RemoveShop(old(shopNames), index)
      ensures shopNameStatus ==
        if |old(shopNames)| > MinShops then StatusAfterRemoveAsWritten(old(shopNameStatus), index)
        else old(shopNameStatus)
      ensures username == old(username) && password == old(password)
      ensures usernameStatus == old(usernameStatus) && errors == old(errors)
    {
      if |shopNames| > MinShops {
        var newShopNames := Without(shopNames, index);
        var newStatus := StatusAfterRemoveAsWritten(shopNameStatus, index);
        shopNames := newShopNames;
        shopNameStatus := newStatus;
      }
    }

    /** `handleSubmit`: validates, shows the errors, and posts the non-blank shop names only
      when the form is valid. */
    method HandleSubmit() returns (request: Option<SignUpRequest>)
      requires Valid()
      modifies this
      ensures Valid()
      ensures request.Some? <==> errors == NoErrors
      ensures request.Some? <==> Acceptable(username, password, shopNames, shopNameStatus, usernameStatus)
      ensures request.Some? ==> request.value == SignUpRequest(username, password, Filled(shopNames))
      ensures username == old(username) && password == old(password) && shopNames == old(shopNames)
      ensures shopNameStatus == old(shopNameStatus) && usernameStatus == old(usernameStatus)
    {
      var newErrors;
      newErrors, request := Submit(username, password, shopNames, shopNameStatus, usernameStatus);
      errors := newErrors;
    }
  }
}
