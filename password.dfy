/** The password rule the sign-up and sign-in pages share (their two `validatePassword`
    definitions are identical): at least one decimal digit, at least one character of a
    fixed special set, and a `length` of at least 8. */
module Password {
  import opened Text

  /** The characters of `/[!@#$%^&*()_+\-=\[\]{};':"\\|,.<>\/?~`]/`. */
  const SpecialChars: string := "!@#$%^&*()_+-=[]{};':\"\\|,.<>/?~`"

  const MinLength: nat := 8

  predicate IsSpecial(c: char) {
    c in SpecialChars
  }

  /** `/\d/.test(s)`: a scan for an ASCII digit. */
  function HasDigit(s: string): (r: bool)
    ensures r <==> exists k :: 0 <= k < |s| && IsDigit(s[k])
  {
    if s == [] then false
    else if IsDigit(s[0]) then true
    else
      var r := HasDigit(s[1..]);
      assert forall k :: 1 <= k < |s| ==> s[k] == s[1..][k - 1];
      r
  }

  /** The special-character test: a scan for a member of the set. */
  function HasSpecial(s: string): (r: bool)
    ensures r <==> exists k :: 0 <= k < |s| && IsSpecial(s[k])
  {
    if s == [] then false
    else if IsSpecial(s[0]) then true
    else
      var r := HasSpecial(s[1..]);
      assert forall k :: 1 <= k < |s| ==> s[k] == s[1..][k - 1];
      r
  }

  datatype PasswordCheck = PasswordCheck(isValid: bool, hasNumber: bool, hasSpecialChar: bool, isLongEnough: bool)

  /** `validatePassword`: the three flags, each reported on its own, and their conjunction. */
  function ValidatePassword(password: string): (r: PasswordCheck)
    ensures r.hasNumber <==> exists k :: 0 <= k < |password| && IsDigit(password[k])
    ensures r.hasSpecialChar <==> exists k :: 0 <= k < |password| && IsSpecial(password[k])
    ensures r.isLongEnough <==> Utf16Length(password) >= MinLength
    ensures r.isValid <==> r.hasNumber && r.hasSpecialChar && r.isLongEnough
  {
    var hasNumber := HasDigit(password);
    var hasSpecialChar := HasSpecial(password);
    var isLongEnough := Utf16Length(password) >= MinLength;
    PasswordCheck(hasNumber && hasSpecialChar && isLongEnough, hasNumber, hasSpecialChar, isLongEnough)
  }

  /** A password that passes is never blank, so the pages' "required" message and the
      complexity message cannot both apply. */
  lemma ValidIsNotBlank(password: string)
    requires ValidatePassword(password).isValid
    ensures !IsBlank(password)
  {
    var k :| 0 <= k < |password| && IsDigit(password[k]);
    assert !IsSpace(password[k]);
    BlankIffAllSpace(password);
  }

  /** Length is counted in UTF-16 units: eight characters always suffice, and fewer than
      four never do. */
  lemma LengthInUnits(password: string)
    ensures |password| >= MinLength ==> ValidatePassword(password).isLongEnough
    ensures |password| < MinLength / 2 ==> !ValidatePassword(password).isLongEnough
  {
  }
}
