/**
 * The yup form schemas as predicates over the submitted strings. yup's `.email()` test is a
 * library regular expression and is taken as the parameter `isEmail`.
 */
module Validators {
  import opened Text

  /** `regex.test(s)` for a one-character class: some character of `s` is in the class. */
  function ContainsCharIn(s: string, inClass: char -> bool): (r: bool)
    ensures r <==> exists i :: 0 <= i < |s| && inClass(s[i])
    decreases |s|
  {
    if s == [] then false
    else if inClass(s[0]) then true
    else
      var rest := ContainsCharIn(s[1..], inClass);
      assert forall i :: 1 <= i < |s| ==> s[i] == s[1..][i - 1];
      rest
  }

  /** `^[class]+$`: `s` is non-empty and every character is in the class. */
  function AllCharsIn(s: string, inClass: char -> bool): (r: bool)
    ensures r <==> |s| >= 1 && forall i :: 0 <= i < |s| ==> inClass(s[i])
    decreases |s|
  {
    if s == [] then false
    else if !inClass(s[0]) then false
    else if |s| == 1 then true
    else
      var rest := AllCharsIn(s[1..], inClass);
      assert forall i :: 1 <= i < |s| ==> s[i] == s[1..][i - 1];
      rest
  }

  /** The character class `[!@#$%^&*(),.?":{}|<>]`. */
  predicate IsSpecial(c: char) {
    c in "!@#$%^&*(),.?\":{}|<>"
  }

  /** The character class `[0-9+\-\s()]`. */
  predicate IsPhoneChar(c: char) {
    IsDigit(c) || c == '+' || c == '-' || IsWhitespace(c) || c == '(' || c == ')'
  }

  predicate Required(s: string) { s != "" }

  /** `loginSchema`. */
  predicate LoginValid(email: string, password: string, isEmail: string -> bool) {
    Required(email) && isEmail(email) && Required(password) && |password| >= 6
  }

  /** `forgotPasswordSchema`. */
  predicate ForgotPasswordValid(email: string, isEmail: string -> bool) {
    Required(email) && isEmail(email)
  }

  /** The `newPassword` rules of `resetPasswordSchema`. */
  predicate StrongPassword(p: string) {
    Required(p) && |p| >= 8 && ContainsCharIn(p, IsAsciiUpper) && ContainsCharIn(p, IsDigit)
    && ContainsCharIn(p, IsSpecial)
  }

  /** `resetPasswordSchema`: a strong new password and a non-empty matching confirmation. */
  predicate ResetPasswordValid(newPassword: string, confirmPassword: string) {
    StrongPassword(newPassword) && Required(confirmPassword) && confirmPassword == newPassword
  }

  datatype CustomerValues = CustomerValues(
    name: string, email: string, companyName: string, phoneNo: string, gender: string,
    country: string, state: string, address: string, notes: string)

  /** `phoneNo`: required, and only digits, `+`, `-`, white space and parentheses. */
  predicate PhoneValid(phone: string) {
    Required(phone) && AllCharsIn(phone, IsPhoneChar)
  }

  /** `customerSchema`. */
  predicate CustomerValid(v: CustomerValues, isEmail: string -> bool) {
    Required(v.name) && |v.name| >= 2
    && Required(v.email) && isEmail(v.email)
    && Required(v.companyName)
    && PhoneValid(v.phoneNo)
    && Required(v.gender) && Required(v.country) && Required(v.state)
    && Required(v.address) && |v.address| >= 5
    && |v.notes| <= 500
  }

  /** A password the reset form accepts also meets the login form's password rule. */
  lemma ResetPasswordMeetsLogin(newPassword: string, confirmPassword: string, email: string, isEmail: string -> bool)
    requires ResetPasswordValid(newPassword, confirmPassword)
    requires ForgotPasswordValid(email, isEmail)
    ensures LoginValid(email, newPassword, isEmail)
  {
  }

  /** The phone rule in the words of the character class: non-empty, and each character allowed. */
  lemma PhoneRule(phone: string)
    ensures PhoneValid(phone) <==> |phone| >= 1 && forall i :: 0 <= i < |phone| ==>
      ('0' <= phone[i] <= '9' || phone[i] in "+-()" || IsWhitespace(phone[i]))
  {
    if PhoneValid(phone) {
      forall i | 0 <= i < |phone|
        ensures '0' <= phone[i] <= '9' || phone[i] in "+-()" || IsWhitespace(phone[i])
      {
        assert IsPhoneChar(phone[i]);
      }
    }
  }

  /** A strong password has an upper-case letter, a digit and a special character at some positions. */
  lemma StrongPasswordWitnesses(p: string)
    requires StrongPassword(p)
    ensures |p| >= 8
    ensures exists i, j, k :: (0 <= i < |p| && 0 <= j < |p| && 0 <= k < |p|
                               && 'A' <= p[i] <= 'Z' && '0' <= p[j] <= '9' && IsSpecial(p[k]))
  {
    var i :| 0 <= i < |p| && IsAsciiUpper(p[i]);
    var j :| 0 <= j < |p| && IsDigit(p[j]);
    var k :| 0 <= k < |p| && IsSpecial(p[k]);
  }
}
