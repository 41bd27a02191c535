/**
 * The registration form: its schema, its default and reset values, and what
 * submitting it does. The phone-number check belongs to a library and is the
 * parameter `isPhone`; the outcome of the register call is `outcome`, whose
 * resolved value is the created user or nothing.
 */
module RegistrationForm {
  import opened Interface
  import opened Store
  import opened FormRules

  const NameRequiredMessage: string := "You must enter your name"
  const AgeMinimumMessage: string := "You must be at least 18 years old"
  const GenderRequiredMessage: string := "You must select gender"
  const GenderInvalidMessage: string := "Invalid Gender"
  const AccountTypeRequiredMessage: string := "You must select account type"
  const AccountTypeInvalidMessage: string := "Invalid Account Type"
  const PhoneRequiredMessage: string := "Phone Number is required"
  const PhoneInvalidMessage: string := "Invalid Phone Number"
  const TermsMessage: string := "You must accept the terms and conditions"

  const RegistrationSuccessTitle: string := "Registration Successful"
  const RegistrationFailedTitle: string := "Registration Failed"

  /** The `oneOf` whitelist of the gender field: the empty string and every `Gender` value. */
  function GenderOptions(): seq<string> { [""] + GenderValues() }

  /** The `oneOf` whitelist of the account-type field: the empty string and every `AccountType` value. */
  function AccountTypeOptions(): seq<string> { [""] + AccountTypeValues() }

  function NameMessages(name: string): (r: seq<string>)
    ensures r == [] <==> name != ""
    ensures r != [] ==> r == [NameRequiredMessage]
  {
    if name == "" then [NameRequiredMessage] else []
  }

  /** `min(18)`: the field holds a number, so `required` always holds. */
  function AgeMessages(age: int): (r: seq<string>)
    ensures r == [] <==> age >= 18
  {
    if age < 18 then [AgeMinimumMessage] else []
  }

  /** `required` rejects the empty string even though the whitelist admits it. */
  function GenderMessages(gender: string): (r: seq<string>)
    ensures r == [] <==> gender == Female.Value() || gender == Male.Value()
  {
    (if gender == "" then [GenderRequiredMessage] else [])
    + (if gender !in GenderOptions() then [GenderInvalidMessage] else [])
  }

  function AccountTypeMessages(accountType: string): (r: seq<string>)
    ensures r == [] <==> accountType == Buyer.Value() || accountType == Seller.Value()
  {
    (if accountType == "" then [AccountTypeRequiredMessage] else [])
    + (if accountType !in AccountTypeOptions() then [AccountTypeInvalidMessage] else [])
  }

  /** The custom test answers false for the empty string without asking the library. */
  function PhoneMessages(phone: string, isPhone: string -> bool): (r: seq<string>)
    ensures r == [] <==> phone != "" && isPhone(phone)
  {
    (if phone == "" then [PhoneRequiredMessage] else [])
    + (if phone == "" || !isPhone(phone) then [PhoneInvalidMessage] else [])
  }

  /** `oneOf([true])`: only an accepted checkbox passes. */
  function TermsMessages(accepted: bool): (r: seq<string>)
    ensures r == [] <==> accepted
  {
    if accepted then [] else [TermsMessage]
  }

  /** The registration policy, stated on its own, field by field. */
  predicate Registrable(u: User, isEmail: string -> bool, isPhone: string -> bool) {
    && u.name != ""
    && u.email != "" && isEmail(u.email)
    && StrongPassword(u.password)
    && u.age >= 18
    && (u.gender == Female.Value() || u.gender == Male.Value())
    && (u.accountType == Buyer.Value() || u.accountType == Seller.Value())
    && u.phoneNumber != "" && isPhone(u.phoneNumber)
    && u.termsAndConditions
  }

  /** The field errors the registration schema reports, one per failing field, in field order. */
  function RegistrationErrors(u: User, isEmail: string -> bool, isPhone: string -> bool): (r: seq<FieldError>)
    ensures r == [] <==> Registrable(u, isEmail, isPhone)
  {
    var r := FieldCheck("name", NameMessages(u.name))
      + FieldCheck("email", EmailMessages(u.email, isEmail))
      + FieldCheck("password", PasswordMessages(RegistrationSchema, u.password))
      + FieldCheck("age", AgeMessages(u.age))
      + FieldCheck("gender", GenderMessages(u.gender))
      + FieldCheck("accountType", AccountTypeMessages(u.accountType))
      + FieldCheck("phoneNumber", PhoneMessages(u.phoneNumber, isPhone))
      + FieldCheck("termsAndConditions", TermsMessages(u.termsAndConditions));
    r
  }

  /** The form's default values, which the reset button restores. */
  const DefaultValues: User := User("", "", "", 0, "", "", "", false)

  /** The whitelists hold exactly the empty string and the enum values. */
  lemma WhitelistsAreEnumValues()
    ensures GenderOptions() == ["", "Female", "Male"]
    ensures AccountTypeOptions() == ["", "Buyer", "Seller"]
  {
  }

  /** The empty choice passes the whitelist but still fails `required`: only the enum values are accepted. */
  lemma EmptyChoiceIsRequired()
    ensures "" in GenderOptions() && GenderMessages("") == [GenderRequiredMessage]
    ensures "" in AccountTypeOptions() && AccountTypeMessages("") == [AccountTypeRequiredMessage]
  {
  }

  /** A lower-case spelling is not an enum value. */
  lemma LowercaseChoiceIsInvalid()
    ensures GenderMessages("female") == [GenderInvalidMessage]
    ensures AccountTypeMessages("buyer") == [AccountTypeInvalidMessage]
  {
    assert "female" !in GenderOptions() by { assert "female"[0] != "Female"[0]; }
    assert "buyer" !in AccountTypeOptions() by { assert "buyer"[0] != "Buyer"[0]; }
  }

  /** The default values never pass, whatever the email and phone checks say: age 0 and unaccepted terms. */
  lemma DefaultsNeverPass(isEmail: string -> bool, isPhone: string -> bool)
    ensures FieldError("age", AgeMinimumMessage) in RegistrationErrors(DefaultValues, isEmail, isPhone)
    ensures FieldError("termsAndConditions", TermsMessage) in RegistrationErrors(DefaultValues, isEmail, isPhone)
    ensures !Registrable(DefaultValues, isEmail, isPhone)
  {
    var r := RegistrationErrors(DefaultValues, isEmail, isPhone);
    assert r[|r| - 1] == FieldError("termsAndConditions", TermsMessage);
  }

  /**
   * What follows the register call: a created user is announced and the login
   * page opened; an empty answer throws, and like a rejection it is announced
   * as a failure.
   */
  function OnOutcomeEffects(outcome: Outcome<Option<User>>): (r: seq<Effect>)
    ensures Navigate(LoginPage) in r <==> outcome.Resolved? && outcome.value.Some?
    ensures NoTokenWrite(r) && NoCacheWrite(r) && NoContextWrite(r)
  {
    match outcome
    case Resolved(Some(_)) => [Notify(RegistrationSuccessTitle), Navigate(LoginPage)]
    case _ => [Notify(RegistrationFailedTitle)]
  }

  /**
   * Submitting the form with the errors the schema reported: with errors it
   * only notifies; without, it starts the register call and handles its outcome.
   */
  function SubmitEffects(errors: seq<FieldError>, outcome: Outcome<Option<User>>): (r: seq<Effect>)
    ensures Request(RegisterCall) in r <==> errors == []
    ensures NoTokenWrite(r) && NoCacheWrite(r) && NoContextWrite(r)
  {
    if errors != [] then
      [Notify(FixErrorsTitle)]
    else
      [Request(RegisterCall)] + OnOutcomeEffects(outcome)
  }

  /**
   * `handleSubmit(onSubmit, onError)`: the schema's errors decide what the
   * submit handler does, so the register call is made exactly for the values
   * the registration policy admits.
   */
  function Submit(u: User, isEmail: string -> bool, isPhone: string -> bool, outcome: Outcome<Option<User>>): (r: seq<Effect>)
    ensures Request(RegisterCall) in r <==> Registrable(u, isEmail, isPhone)
    ensures NoTokenWrite(r) && NoCacheWrite(r) && NoContextWrite(r)
  {
    SubmitEffects(RegistrationErrors(u, isEmail, isPhone), outcome)
  }

  /** Registration never writes the token, the cached user or the context, whatever happens. */
  lemma RegistrationLeavesSessionAlone(s: Snapshot, errors: seq<FieldError>, outcome: Outcome<Option<User>>)
    ensures var t := Run(s, SubmitEffects(errors, outcome));
      t.token == s.token && t.cache == s.cache && t.ctx == s.ctx
  {
    RunFrame(s, SubmitEffects(errors, outcome));
  }

  /** A created user: the success is announced and the login page is opened. */
  lemma RegistrationSucceeds(s: Snapshot, created: User)
    ensures var t := Run(s, SubmitEffects([], Resolved(Some(created))));
      && t.route == LoginPage
      && t.token == s.token && t.cache == s.cache && t.ctx == s.ctx
      && t.log == s.log + [Request(RegisterCall), Notify(RegistrationSuccessTitle), Navigate(LoginPage)]
  {
    var tail := [Notify(RegistrationSuccessTitle), Navigate(LoginPage)];
    assert SubmitEffects([], Resolved(Some(created))) == [Request(RegisterCall)] + tail;
    RunStep(s, Request(RegisterCall), tail);
    var s1 := Apply(s, Request(RegisterCall));
    RunStep(s1, tail[0], tail[1..]);
    RunStep(Apply(s1, tail[0]), tail[1], []);
  }

  /** An empty answer or a rejection: the failure is announced and nothing else changes. */
  lemma RegistrationFails(s: Snapshot, outcome: Outcome<Option<User>>)
    requires outcome == Rejected || outcome == Resolved(None)
    ensures var t := Run(s, SubmitEffects([], outcome));
      SameSlots(s, t) && t.log == s.log + [Request(RegisterCall), Notify(RegistrationFailedTitle)]
  {
    var es := [Request(RegisterCall), Notify(RegistrationFailedTitle)];
    assert SubmitEffects([], outcome) == es;
    RunFrame(s, es);
  }

  /** An invalid form: no call is made, nothing is written, only the form-error notice is shown. */
  lemma InvalidRegistrationIsRefused(s: Snapshot, errors: seq<FieldError>, outcome: Outcome<Option<User>>)
    requires errors != []
    ensures var t := Run(s, SubmitEffects(errors, outcome));
      SameSlots(s, t) && t.log == s.log + [Notify(FixErrorsTitle)]
  {
    var es := SubmitEffects(errors, outcome);
    assert es == [Notify(FixErrorsTitle)];
    RunFrame(s, es);
  }

  /** The form's field values, which the reset button overwrites after a confirmation. */
  class RegistrationFields {
    var values: User

    constructor ()
      ensures values == DefaultValues
    {
      values := DefaultValues;
    }

    /** Typing into the form. */
    method Edit(v: User)
      modifies this
      ensures values == v
    {
      values := v;
    }

    /** The reset button: with the user's confirmation, every field goes back to its default. */
    method Reset(confirmed: bool)
      modifies this
      ensures values == if confirmed then DefaultValues else old(values)
      ensures confirmed ==> forall isEmail, isPhone :: !Registrable(values, isEmail, isPhone)
    {
      if confirmed {
        values := DefaultValues;
      }
    }
  }
}
