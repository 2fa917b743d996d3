/** client/src/pages/SigninPage.jsx: the checks the sign-in form runs before it posts the
    credentials, and the gate that keeps an invalid form from reaching the server. */
module SignIn {
  import opened Wrappers
  import opened Text
  import opened Password

  const UsernameRequired: string := "Username is required"
  const PasswordRequired: string := "Password is required"
  /** The complexity message; it speaks only of length, but any failed rule produces it. */
  const PasswordTooWeak: string := "Password must be at least 8 characters."

  /** The `newErrors` object: one optional message per field. */
  datatype FormErrors = FormErrors(username: Option<string>, password: Option<string>)

  const NoErrors := FormErrors(None, None)

  /** `Object.keys(errors).length`. */
  function KeyCount(e: FormErrors): nat {
    (if e.username.Some? then 1 else 0) + (if e.password.Some? then 1 else 0)
  }

  /** `validateForm`: fills `newErrors` field by field; the form is valid when no field was
      set. */
  method ValidateForm(username: string, password: string) returns (errors: FormErrors, ok: bool)
    ensures errors.username.Some? <==> IsBlank(username)
    ensures errors.username.Some? ==> errors.username.value == UsernameRequired
    ensures errors.password.Some? <==> IsBlank(password) || !ValidatePassword(password).isValid
    ensures errors.password.Some? ==>
      errors.password.value == if IsBlank(password) then PasswordRequired else PasswordTooWeak
    ensures ok <==> errors == NoErrors
  {
    var newErrors := NoErrors;
    if IsBlank(username) {
      newErrors := newErrors.(username := Some(UsernameRequired));
    }
    if IsBlank(password) {
      newErrors := newErrors.(password := Some(PasswordRequired));
    } else {
      var passwordValidation := ValidatePassword(password);
      if !passwordValidation.isValid {
        newErrors := newErrors.(password := Some(PasswordTooWeak));
      }
    }
    errors := newErrors;
    ok := KeyCount(newErrors) == 0;
  }

  datatype SignInRequest = SignInRequest(username: string, password: string, rememberMe: bool)

  /** `handleSubmit`: the credentials are posted, with the "remember me" box, only when the
      form is valid; the errors are what the page shows. */
  method HandleSubmit(username: string, password: string, agreeTerms: bool)
    returns (errors: FormErrors, request: Option<SignInRequest>)
    ensures request.Some? <==> !IsBlank(username) && !IsBlank(password) && ValidatePassword(password).isValid
    ensures request.Some? ==> request.value == SignInRequest(username, password, agreeTerms)
    ensures request.Some? <==> errors == NoErrors
  {
    var ok;
    errors, ok := ValidateForm(username, password);
    if ok {
      request := Some(SignInRequest(username, password, agreeTerms));
    } else {
      request := None;
    }
  }

  /** A password with no digit fails however long it is, so the form refuses it (with the
      length message when it is not blank) even when it has eight characters or more. */
  lemma WeakWithoutDigit(password: string)
    requires forall k :: 0 <= k < |password| ==> !IsDigit(password[k])
    ensures !ValidatePassword(password).isValid
    ensures |password| >= MinLength ==> ValidatePassword(password).isLongEnough
  {
    LengthInUnits(password);
  }
}

