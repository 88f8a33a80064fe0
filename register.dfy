/**
 * The registration form's `validate`: a map from the form values to an error record. Only
 * name, email, password and confirmPassword can carry an error.
 */
module Register {
  import opened Common
  import opened Text
  import MockApi

  datatype RegisterValues = RegisterValues(
    name: string, email: string, password: string, confirmPassword: string,
    companyName: string, phoneNo: string, isSubscribed: bool)

  /** The error record; `None` marks a key that is absent. */
  datatype RegisterErrors = RegisterErrors(
    name: Option<string>, email: Option<string>, password: Option<string>,
    confirmPassword: Option<string>)

  /** Characters between `lo` and `hi` (exclusive) are all non-space. */
  predicate NonSpaceBetween(s: string, lo: int, hi: int)
    requires 0 <= lo <= hi <= |s|
  {
    forall k :: lo < k < hi ==> !IsWhitespace(s[k])
  }

  /**
   * `/\S+@\S+\.\S+/.test(s)`: somewhere in `s` a non-space character, '@', one or more
   * non-space characters, '.', and a non-space character. The regular expression is not
   * anchored, so one character on each side is enough.
   */
  predicate EmailShaped(s: string) {
    exists at, dot :: 0 <= at < |s| && 0 <= dot < |s| && EmailShapeAt(s, at, dot)
  }

  /** The '@' of the shape is at index `at` and its '.' at index `dot`. */
  predicate EmailShapeAt(s: string, at: int, dot: int) {
    1 <= at && at + 1 < dot && dot + 1 < |s|
    && !IsWhitespace(s[at - 1]) && s[at] == '@' && NonSpaceBetween(s, at, dot)
    && s[dot] == '.' && !IsWhitespace(s[dot + 1])
  }

  /** `validate`: four independent checks. */
  function Validate(v: RegisterValues): (e: RegisterErrors)
    ensures e.name.Some? <==> v.name == ""
    ensures e.email == (if v.email == "" then Some("Email is required")
                        else if !EmailShaped(v.email) then Some("Email is invalid") else None)
    ensures e.password == (if v.password == "" then Some("Password is required")
                           else if |v.password| < 6 then Some("Password must be at least 6 characters") else None)
    ensures e.confirmPassword.Some? <==> v.password != v.confirmPassword
  {
    RegisterErrors(
      if v.name == "" then Some("Name is required") else None,
      if v.email == "" then Some("Email is required")
      else if !EmailShaped(v.email) then Some("Email is invalid") else None,
      if v.password == "" then Some("Password is required")
      else if |v.password| < 6 then Some("Password must be at least 6 characters") else None,
      if v.password != v.confirmPassword then Some("Passwords do not match") else None)
  }

  /** The form submits only when the error record is empty. */
  predicate Acceptable(v: RegisterValues) {
    Validate(v) == RegisterErrors(None, None, None, None)
  }

  /** The error record is empty exactly when all four checks pass. */
  lemma AcceptableIff(v: RegisterValues)
    ensures Acceptable(v) <==> v.name != "" && v.email != "" && EmailShaped(v.email)
                               && |v.password| >= 6 && v.password == v.confirmPassword
  {
  }

  /** companyName, phoneNo and isSubscribed never influence the errors. */
  lemma OtherFieldsNeverError(v: RegisterValues, companyName: string, phoneNo: string, isSubscribed: bool)
    ensures Validate(v.(companyName := companyName, phoneNo := phoneNo, isSubscribed := isSubscribed))
         == Validate(v)
  {
  }

  /** The confirmation error depends only on the two passwords, whatever the other errors are. */
  lemma ConfirmIndependent(v: RegisterValues, w: RegisterValues)
    requires v.password == w.password && v.confirmPassword == w.confirmPassword
    ensures Validate(v).confirmPassword == Validate(w).confirmPassword
  {
  }

  /** An email shaped like `x@y.z` contains '@'. */
  lemma EmailShapedHasAt(s: string)
    requires EmailShaped(s)
    ensures Includes(s, "@")
  {
    var at, dot :| 0 <= at < |s| && 0 <= dot < |s| && EmailShapeAt(s, at, dot);
    assert s[at..at + 1] == [s[at]] == "@";
    assert OccursAt(s, "@", at);
  }

  /** Values the form accepts always get past every check of the mock registration. */
  lemma AcceptedFormPassesMockRegister(v: RegisterValues)
    requires Acceptable(v)
    ensures MockApi.MockRegister(v.email, v.password, v.name) == Ok(MockApi.ApiUser(1, v.email, v.name))
  {
    AcceptableIff(v);
    EmailShapedHasAt(v.email);
  }

  /** An email with '@' but no shape `x@y.z` passes the mock's check yet fails the form's. */
  lemma MockEmailCheckIsLooser()
    ensures !EmailShaped("a@b") && Includes("a@b", "@")
  {
    assert OccursAt("a@b", "@", 1);
  }
}
