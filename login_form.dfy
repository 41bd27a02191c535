/**
 * The login form: its schema, and what submitting it does to the session.
 * The outcome of the login call is the parameter `outcome`.
 */
module LoginForm {
  import opened Interface
  import opened Store
  import opened FormRules

  datatype LoginFormValues = LoginFormValues(email: string, password: string)

  const LoginSuccessTitle: string := "Logged In Successfully"
  const LoginFailedTitle: string := "Login Failed"

  /** The field errors the login schema reports, one per failing field. */
  function LoginErrors(v: LoginFormValues, isEmail: string -> bool): (r: seq<FieldError>)
    ensures r == [] <==> v.email != "" && isEmail(v.email) && StrongPassword(v.password)
    ensures !StrongPassword(v.password) ==> FieldError("password", PasswordMessages(LoginSchema, v.password)[0]) in r
  {
    FieldCheck("email", EmailMessages(v.email, isEmail))
    + FieldCheck("password", PasswordMessages(LoginSchema, v.password))
  }

  /**
   * The success callback: with a truthy token it stores the token, caches the
   * user, notifies and routes to the user page; otherwise it throws, and the
   * rejection handler notifies the failure.
   */
  function OnSuccessEffects(response: AuthResponse): (r: seq<Effect>)
    ensures Truthy(response.accessToken) <==> WriteToken(response.accessToken) in r
    ensures !Truthy(response.accessToken) ==> r == [Notify(LoginFailedTitle)]
  {
    if Truthy(response.accessToken) then
      [ WriteToken(response.accessToken),
        WriteCache(Present(response.user)),
        Notify(LoginSuccessTitle),
        Navigate(UserPage) ]
    else
      [Notify(LoginFailedTitle)]
  }

  /**
   * Submitting the form with the errors the schema reported: with errors it
   * only notifies; without, it starts the login call and then runs the
   * success callback, or on rejection notifies.
   */
  function SubmitEffects(errors: seq<FieldError>, outcome: Outcome<AuthResponse>): (r: seq<Effect>)
    ensures Request(LoginCall) in r <==> errors == []
    ensures NoContextWrite(r)
  {
    if errors != [] then
      [Notify(FixErrorsTitle)]
    else
      [Request(LoginCall)]
      + match outcome
        case Resolved(response) => OnSuccessEffects(response)
        case Rejected => [Notify(LoginFailedTitle)]
  }

  /**
   * `handleSubmit(onSubmit, onError)`: the schema's errors decide what the
   * submit handler does, so the login call is made exactly for a well-formed
   * email and a strong password.
   */
  function Submit(v: LoginFormValues, isEmail: string -> bool, outcome: Outcome<AuthResponse>): (r: seq<Effect>)
    ensures Request(LoginCall) in r <==> v.email != "" && isEmail(v.email) && StrongPassword(v.password)
    ensures NoContextWrite(r)
  {
    SubmitEffects(LoginErrors(v, isEmail), outcome)
  }

  /** The success callback's writes with a truthy token. */
  lemma TokenResponseWrites(s: Snapshot, response: AuthResponse)
    requires Truthy(response.accessToken)
    ensures var t := Run(s, OnSuccessEffects(response));
      && t.token == response.accessToken
      && t.cache == Present(response.user)
      && t.route == UserPage
      && t.ctx == s.ctx
      && t.log == s.log + [WriteToken(response.accessToken), WriteCache(Present(response.user)),
                           Notify(LoginSuccessTitle), Navigate(UserPage)]
  {
    RunFour(s, WriteToken(response.accessToken), WriteCache(Present(response.user)),
            Notify(LoginSuccessTitle), Navigate(UserPage));
  }

  /** A valid form and a response carrying a token: token, cache and route are written. */
  lemma LoginSucceeds(s: Snapshot, response: AuthResponse)
    requires Truthy(response.accessToken)
    ensures var t := Run(s, SubmitEffects([], Resolved(response)));
      && t.token == response.accessToken
      && t.cache == Present(response.user)
      && t.route == UserPage
      && t.ctx == s.ctx
      && t.log == s.log + [Request(LoginCall), WriteToken(response.accessToken), WriteCache(Present(response.user)),
                           Notify(LoginSuccessTitle), Navigate(UserPage)]
  {
    RunStep(s, Request(LoginCall), OnSuccessEffects(response));
    TokenResponseWrites(Apply(s, Request(LoginCall)), response);
  }

  /** A response without a token, or with an empty one: the callback throws before any write. */
  lemma LoginWithoutTokenFails(s: Snapshot, response: AuthResponse)
    requires !Truthy(response.accessToken)
    ensures var t := Run(s, SubmitEffects([], Resolved(response)));
      SameSlots(s, t) && t.log == s.log + [Request(LoginCall), Notify(LoginFailedTitle)]
  {
    var es := SubmitEffects([], Resolved(response));
    assert es == [Request(LoginCall), Notify(LoginFailedTitle)];
    RunFrame(s, es);
  }

  /** A rejected login call: nothing is written and the failure is notified. */
  lemma LoginRejectedFails(s: Snapshot)
    ensures var t := Run(s, SubmitEffects([], Rejected));
      SameSlots(s, t) && t.log == s.log + [Request(LoginCall), Notify(LoginFailedTitle)]
  {
    var es := SubmitEffects([], Rejected);
    assert es == [Request(LoginCall), Notify(LoginFailedTitle)];
    RunFrame(s, es);
  }

  /** An invalid form: no call is made, nothing is written, only the form-error notice is shown. */
  lemma InvalidLoginFormIsRefused(s: Snapshot, errors: seq<FieldError>, outcome: Outcome<AuthResponse>)
    requires errors != []
    ensures var t := Run(s, SubmitEffects(errors, outcome));
      SameSlots(s, t) && t.log == s.log + [Notify(FixErrorsTitle)]
  {
    var es := SubmitEffects(errors, outcome);
    assert es == [Notify(FixErrorsTitle)];
    RunFrame(s, es);
  }
}
