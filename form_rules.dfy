/**
 * The email and password rules shared, word for word, by the login and the
 * registration schemas; only the message of the `required` rule differs.
 */
module FormRules {

  /** The form a password rule belongs to; it decides the `required` message. */
  datatype PasswordForm = LoginSchema | RegistrationSchema

  function RequiredMessage(form: PasswordForm): string {
    match form
    case LoginSchema => "Password is required"
    case RegistrationSchema => "You must enter your password"
  }

  const MinLengthMessage: string := "Password must be at least 8 characters"
  const UppercaseMessage: string := "Password must contain at least one uppercase letter"
  const DigitMessage: string := "Password must contain at least one number"
  const SpecialMessage: string := "Password must contain at least one special character"

  /** The characters of the class `[@$!%*?&#]`. */
  const Specials: string := "@$!%*?&#"

  predicate IsUpper(c: char) { 'A' <= c <= 'Z' }
  predicate IsDigit(c: char) { '0' <= c <= '9' }
  predicate IsSpecial(c: char) { c in Specials }

  /** `/[A-Z]/` finds a match. */
  predicate HasUpper(s: string) { exists i :: 0 <= i < |s| && IsUpper(s[i]) }
  /** `/[0-9]/` finds a match. */
  predicate HasDigit(s: string) { exists i :: 0 <= i < |s| && IsDigit(s[i]) }
  /** `/[@$!%*?&#]/` finds a match. */
  predicate HasSpecial(s: string) { exists i :: 0 <= i < |s| && IsSpecial(s[i]) }

  /** The password policy, stated on its own: long enough and one character of each class. */
  predicate StrongPassword(p: string) {
    |p| >= 8 && HasUpper(p) && HasDigit(p) && HasSpecial(p)
  }

  /**
   * The messages of every password rule that fails, in the order the schema
   * declares the rules (`required`, `min(8)`, then the three `matches`).
   * The form shows the first of them.
   */
  function PasswordMessages(form: PasswordForm, p: string): (r: seq<string>)
    ensures RequiredMessage(form) in r <==> p == ""
    ensures MinLengthMessage in r <==> |p| < 8
    ensures UppercaseMessage in r <==> !HasUpper(p)
    ensures DigitMessage in r <==> !HasDigit(p)
    ensures SpecialMessage in r <==> !HasSpecial(p)
    ensures r == [] <==> StrongPassword(p)
  {
    (if p == "" then [RequiredMessage(form)] else [])
    + (if |p| < 8 then [MinLengthMessage] else [])
    + (if !HasUpper(p) then [UppercaseMessage] else [])
    + (if !HasDigit(p) then [DigitMessage] else [])
    + (if !HasSpecial(p) then [SpecialMessage] else [])
  }

  /** Both schemas accept exactly the same passwords. */
  lemma SamePasswordPolicy(p: string)
    ensures PasswordMessages(LoginSchema, p) == [] <==> PasswordMessages(RegistrationSchema, p) == []
  {
  }

  /** The notification shown when the schema rejects a submitted form. */
  const FixErrorsTitle: string := "Please fix the errors in form"

  const EmailFormatMessage: string := "Your email format is not valid"
  const EmailRequiredMessage: string := "You must enter your email"

  /**
   * The failing email rules, the same in both schemas. The format check
   * belongs to a validation library and is the parameter `isEmail`; it
   * skips the empty string, which only `required` rejects.
   */
  function EmailMessages(email: string, isEmail: string -> bool): (r: seq<string>)
    ensures r == [] <==> email != "" && isEmail(email)
    ensures EmailRequiredMessage in r <==> email == ""
  {
    (if email != "" && !isEmail(email) then [EmailFormatMessage] else [])
    + (if email == "" then [EmailRequiredMessage] else [])
  }

  /** A field whose rules failed, with the message the form shows for it. */
  datatype FieldError = FieldError(field: string, message: string)

  /** The error a field reports: none, or the message of its first failing rule. */
  function FieldCheck(field: string, messages: seq<string>): (r: seq<FieldError>)
    ensures r == [] <==> messages == []
    ensures r != [] ==> r == [FieldError(field, messages[0])]
  {
    if messages == [] then [] else [FieldError(field, messages[0])]
  }
}
