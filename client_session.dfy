/**
 * The client-side session: one object holding the token slot, the cached
 * "user" entry, the identity context, the current route and the titles of
 * the notifications shown so far. Each handler of the application is a
 * method that performs its writes one at a time, in the source's order; its
 * contract ties the new state to the handler's list of writes.
 */
module ClientSession {
  import opened Interface
  import opened Store
  import opened FormRules
  import LoginForm
  import RegistrationForm
  import opened UserContext
  import opened HomeLayout
  import opened Header
  import opened SessionTrace

  class Session {
    var token: Option<string>
    var cache: CacheEntry
    var ctx: Option<User>
    var route: Route
    var notices: seq<string>
    /** Every write so far, in order. */
    ghost var log: seq<Effect>

    ghost predicate Valid()
      reads this
    {
      notices == Titles(log)
    }

    ghost function State(): Snapshot
      reads this
    {
      Snapshot(token, cache, ctx, route, log)
    }

    /**
     * Application start: the token is whatever storage kept, nothing is cached
     * yet and the provider's user starts as null.
     */
    constructor (storedToken: Option<string>, start: Route)
      ensures Valid()
      ensures State() == Snapshot(storedToken, Unknown, InitialValue().loggedInUser, start, [])
    {
      token := storedToken;
      cache := Unknown;
      ctx := InitialValue().loggedInUser;
      route := start;
      notices := [];
      log := [];
    }

    /** `toast(...)`: the title joins the notices. */
    method Toast(title: string)
      requires Valid()
      modifies this
      ensures Valid() && State() == Apply(old(State()), Notify(title))
      ensures notices == old(notices) + [title]
    {
      TitlesSnoc(log, Notify(title));
      notices := notices + [title];
      log := log + [Notify(title)];
    }

    /** `mutateAsync(...)` starts a remote call; it writes no slot. */
    method StartCall(api: Api)
      requires Valid()
      modifies this
      ensures Valid() && State() == Apply(old(State()), Request(api))
    {
      TitlesSnoc(log, Request(api));
      log := log + [Request(api)];
    }

    /** `storage.setToken(t)`. */
    method SetToken(t: string)
      requires Valid()
      modifies this
      ensures Valid() && State() == Apply(old(State()), WriteToken(Some(t)))
    {
      TitlesSnoc(log, WriteToken(Some(t)));
      token := Some(t);
      log := log + [WriteToken(Some(t))];
    }

    /** `storage.clearToken()`: idempotent, whether or not a token was stored. */
    method ClearToken()
      requires Valid()
      modifies this
      ensures Valid() && State() == Apply(old(State()), WriteToken(None))
    {
      TitlesSnoc(log, WriteToken(None));
      token := None;
      log := log + [WriteToken(None)];
    }

    /** `queryClient.setQueryData(["user"], entry)`. */
    method SetCachedUser(entry: CacheEntry)
      requires Valid()
      modifies this
      ensures Valid() && State() == Apply(old(State()), WriteCache(entry))
    {
      TitlesSnoc(log, WriteCache(entry));
      cache := entry;
      log := log + [WriteCache(entry)];
    }

    /** `setLoggedInUser(v)`: replaces the whole context value, with no merge. */
    method SetLoggedInUser(v: Option<User>)
      requires Valid()
      modifies this
      ensures Valid() && State() == Apply(old(State()), SetContext(v))
      ensures ctx == v
    {
      TitlesSnoc(log, SetContext(v));
      ctx := v;
      log := log + [SetContext(v)];
    }

    /** `navigate(to)`. */
    method NavigateTo(to: Route)
      requires Valid()
      modifies this
      ensures Valid() && State() == Apply(old(State()), Navigate(to))
    {
      TitlesSnoc(log, Navigate(to));
      route := to;
      log := log + [Navigate(to)];
    }

    /** The layout's render pass: copy the cached user into the context unless the emails already match. */
    method Render()
      requires Valid()
      modifies this
      ensures Valid() && State() == Reconciled(old(State()))
    {
      if cache.Present? && (ctx.None? || ctx.value.email != cache.user.email) {
        ghost var s0 := State();
        SetLoggedInUser(Some(cache.user));
        RunStep(s0, SetContext(Some(s0.cache.user)), []);
      }
    }

    /**
     * The try block of the header's logout handler. `fault` is the step that
     * throws, if any: the steps before it are done and the later ones are not.
     */
    method LogoutTry(fault: Option<LogoutStep>) returns (threw: bool)
      requires Valid()
      modifies this
      ensures threw <==> fault.Some?
      ensures Valid()
      ensures State() == Run(old(State()), if fault.Some? then LogoutSteps[..fault.value.Index()] else LogoutSteps)
    {
      ghost var s0 := State();
      LogoutStepPrefixes();
      assert fault.Some? ==> fault.value.ToastStep? || fault.value.CacheStep? || fault.value.TokenStep? || fault.value.NavigateStep?;
      if fault == Some(ToastStep) {
        return true;
      }
      Toast(LoggedOutTitle);
      if fault == Some(CacheStep) {
        RunOne(s0, Notify(LoggedOutTitle));
        return true;
      }
      SetCachedUser(Absent);
      if fault == Some(TokenStep) {
        RunTwo(s0, Notify(LoggedOutTitle), WriteCache(Absent));
        return true;
      }
      ClearToken();
      if fault == Some(NavigateStep) {
        RunThree(s0, Notify(LoggedOutTitle), WriteCache(Absent), WriteToken(None));
        return true;
      }
      NavigateTo(LoginPage);
      RunFour(s0, Notify(LoggedOutTitle), WriteCache(Absent), WriteToken(None), Navigate(LoginPage));
      return false;
    }

    /** The header's logout handler: the try block, then the catch block if a step threw; nothing is rolled back. */
    method Logout(fault: Option<LogoutStep>)
      requires Valid()
      modifies this
      ensures Valid() && State() == Run(old(State()), LogoutEffects(fault))
    {
      ghost var s0 := State();
      var threw := LogoutTry(fault);
      if threw {
        Toast(LogoutFailedTitle);
        RunSnoc(s0, LogoutSteps[..fault.value.Index()], Notify(LogoutFailedTitle));
      }
    }

    /** The success callback with a truthy token: store the token, cache the user, notify, open the user page. */
    method StoreLogin(response: AuthResponse)
      requires Valid() && Truthy(response.accessToken)
      modifies this
      ensures Valid() && State() == Run(old(State()), LoginForm.OnSuccessEffects(response))
    {
      ghost var s0 := State();
      SetToken(response.accessToken.value);
      SetCachedUser(Present(response.user));
      Toast(LoginForm.LoginSuccessTitle);
      NavigateTo(UserPage);
      RunFour(s0, WriteToken(response.accessToken), WriteCache(Present(response.user)),
              Notify(LoginForm.LoginSuccessTitle), Navigate(UserPage));
    }

    /** The login call and the handling of its outcome. */
    method Login(outcome: Outcome<AuthResponse>)
      requires Valid()
      modifies this
      ensures Valid() && State() == Run(old(State()), LoginForm.SubmitEffects([], outcome))
    {
      ghost var s0 := State();
      StartCall(LoginCall);
      ghost var s1 := State();
      if outcome.Resolved? && Truthy(outcome.value.accessToken) {
        StoreLogin(outcome.value);
        RunStep(s0, Request(LoginCall), LoginForm.OnSuccessEffects(outcome.value));
      } else {
        Toast(LoginForm.LoginFailedTitle);
        RunTwo(s0, Request(LoginCall), Notify(LoginForm.LoginFailedTitle));
        assert LoginForm.SubmitEffects([], outcome) == [Request(LoginCall), Notify(LoginForm.LoginFailedTitle)];
      }
    }

    /**
     * The login form's submit: the schema's error handler, or the login call
     * followed by its success callback or its rejection handler.
     */
    method SubmitLogin(values: LoginForm.LoginFormValues, isEmail: string -> bool, outcome: Outcome<AuthResponse>)
      requires Valid()
      modifies this
      ensures Valid() && State() == Run(old(State()), LoginForm.Submit(values, isEmail, outcome))
    {
      var errors := LoginForm.LoginErrors(values, isEmail);
      if errors != [] {
        ghost var s0 := State();
        Toast(FixErrorsTitle);
        RunOne(s0, Notify(FixErrorsTitle));
        assert [Notify(FixErrorsTitle)] == LoginForm.SubmitEffects(errors, outcome);
      } else {
        Login(outcome);
      }
    }

    /** The register call and the handling of its outcome. */
    method Register(outcome: Outcome<Option<User>>)
      requires Valid()
      modifies this
      ensures Valid() && State() == Run(old(State()), RegistrationForm.SubmitEffects([], outcome))
    {
      ghost var s0 := State();
      ghost var done: seq<Effect> := [];
      StartCall(RegisterCall);
      RunSnoc(s0, done, Request(RegisterCall));
      done := done + [Request(RegisterCall)];
      if outcome.Resolved? && outcome.value.Some? {
        Toast(RegistrationForm.RegistrationSuccessTitle);
        RunSnoc(s0, done, Notify(RegistrationForm.RegistrationSuccessTitle));
        done := done + [Notify(RegistrationForm.RegistrationSuccessTitle)];
        NavigateTo(LoginPage);
        RunSnoc(s0, done, Navigate(LoginPage));
        done := done + [Navigate(LoginPage)];
      } else {
        Toast(RegistrationForm.RegistrationFailedTitle);
        RunSnoc(s0, done, Notify(RegistrationForm.RegistrationFailedTitle));
        done := done + [Notify(RegistrationForm.RegistrationFailedTitle)];
      }
      assert done == RegistrationForm.SubmitEffects([], outcome);
    }

    /** The registration form's submit: it only notifies and, on success, navigates. */
    method SubmitRegistration(values: User, isEmail: string -> bool, isPhone: string -> bool, outcome: Outcome<Option<User>>)
      requires Valid()
      modifies this
      ensures Valid() && State() == Run(old(State()), RegistrationForm.Submit(values, isEmail, isPhone, outcome))
    {
      var errors := RegistrationForm.RegistrationErrors(values, isEmail, isPhone);
      if errors != [] {
        ghost var s0 := State();
        Toast(FixErrorsTitle);
        RunStep(s0, Notify(FixErrorsTitle), []);
        assert [Notify(FixErrorsTitle)] == RegistrationForm.SubmitEffects(errors, outcome);
      } else {
        Register(outcome);
      }
    }

    /** One user action: the handler it triggers, run to completion. */
    method Perform(a: Action, isEmail: string -> bool, isPhone: string -> bool)
      requires Valid()
      modifies this
      ensures Valid() && State() == Step(old(State()), a, isEmail, isPhone)
    {
      match a
      case RenderPass => Render();
      case LoginSubmit(v, o) => SubmitLogin(v, isEmail, o);
      case RegistrationSubmit(u, o) => SubmitRegistration(u, isEmail, isPhone, o);
      case LogoutClick(f) => Logout(f);
    }
  }
}
