/**
 * Sessions as sequences of user actions: each action is one handler of the
 * application run as an atomic step. The lemmas here relate the handlers to
 * each other: which agreement between the stores survives which action, and
 * what the stores hold after the scenarios the application is built around.
 */
module SessionTrace {
  import opened Interface
  import opened Store
  import opened FormRules
  import LoginForm
  import RegistrationForm
  import opened HomeLayout
  import opened Header
  import opened UserInfoPage

  /** One handler run to completion, with the network outcome or fault it meets. */
  datatype Action =
    | RenderPass
    | LoginSubmit(values: LoginForm.LoginFormValues, loginOutcome: Outcome<AuthResponse>)
    | RegistrationSubmit(user: User, registerOutcome: Outcome<Option<User>>)
    | LogoutClick(fault: Option<LogoutStep>)

  /** The writes of one action from a given session. */
  function ActionEffects(s: Snapshot, a: Action, isEmail: string -> bool, isPhone: string -> bool): seq<Effect> {
    match a
    case RenderPass => ReconcileEffects(s.cache, s.ctx)
    case LoginSubmit(v, o) => LoginForm.Submit(v, isEmail, o)
    case RegistrationSubmit(u, o) => RegistrationForm.Submit(u, isEmail, isPhone, o)
    case LogoutClick(f) => LogoutEffects(f)
  }

  /** The session after one action. */
  function Step(s: Snapshot, a: Action, isEmail: string -> bool, isPhone: string -> bool): (t: Snapshot)
    ensures t.log == s.log + ActionEffects(s, a, isEmail, isPhone)
  {
    Run(s, ActionEffects(s, a, isEmail, isPhone))
  }

  /** The session after a sequence of actions, in order: earlier writes stay logged. */
  function Play(s: Snapshot, actions: seq<Action>, isEmail: string -> bool, isPhone: string -> bool): (t: Snapshot)
    ensures |s.log| <= |t.log| && t.log[..|s.log|] == s.log
    decreases |actions|
  {
    if actions == [] then s
    else
      var next := Step(s, actions[0], isEmail, isPhone);
      assert next.log[..|s.log|] == s.log;
      Play(next, actions[1..], isEmail, isPhone)
  }

  /** Playing two sessions back to back is playing the joined session. */
  lemma {:induction false} PlayAppend(s: Snapshot, first: seq<Action>, second: seq<Action>, isEmail: string -> bool, isPhone: string -> bool)
    ensures Play(s, first + second, isEmail, isPhone) == Play(Play(s, first, isEmail, isPhone), second, isEmail, isPhone)
    decreases |first|
  {
    if first == [] {
      assert first + second == second;
    } else {
      assert (first + second)[0] == first[0];
      assert (first + second)[1..] == first[1..] + second;
      PlayAppend(Step(s, first[0], isEmail, isPhone), first[1..], second, isEmail, isPhone);
    }
  }

  /** A token is stored exactly when a user is cached. */
  predicate TokenTracksCache(s: Snapshot) {
    s.token.Some? <==> s.cache.Present?
  }

  /** Every action except a logout whose token-clearing step throws. */
  predicate KeepsStoresInStep(a: Action) {
    !(a.LogoutClick? && a.fault == Some(TokenStep))
  }

  /** A login submit, whatever the form's errors and the call's outcome, keeps the token and the cached user in step. */
  lemma LoginKeepsTokenTracksCache(s: Snapshot, errors: seq<FieldError>, o: Outcome<AuthResponse>)
    requires TokenTracksCache(s)
    ensures TokenTracksCache(Run(s, LoginForm.SubmitEffects(errors, o)))
  {
    if errors != [] {
      LoginForm.InvalidLoginFormIsRefused(s, errors, o);
    } else if o.Rejected? {
      LoginForm.LoginRejectedFails(s);
    } else if Truthy(o.value.accessToken) {
      LoginForm.LoginSucceeds(s, o.value);
    } else {
      LoginForm.LoginWithoutTokenFails(s, o.value);
    }
  }

  /** A logout whose token step does not throw keeps the token and the cached user in step. */
  lemma LogoutKeepsTokenTracksCache(s: Snapshot, f: Option<LogoutStep>)
    requires TokenTracksCache(s) && f != Some(TokenStep)
    ensures TokenTracksCache(Run(s, LogoutEffects(f)))
  {
    if f.None? {
      LogoutSucceeds(s);
    } else {
      LogoutFaultIsNotRolledBack(s, f.value);
    }
  }

  /** One action keeps the token and the cached user in step. */
  lemma StepKeepsTokenTracksCache(s: Snapshot, a: Action, isEmail: string -> bool, isPhone: string -> bool)
    requires TokenTracksCache(s) && KeepsStoresInStep(a)
    ensures TokenTracksCache(Step(s, a, isEmail, isPhone))
  {
    match a
    case RenderPass =>
      ReconcileIsOneWay(s);
    case LoginSubmit(v, o) =>
      LoginKeepsTokenTracksCache(s, LoginForm.LoginErrors(v, isEmail), o);
    case RegistrationSubmit(u, o) =>
      RegistrationForm.RegistrationLeavesSessionAlone(s, RegistrationForm.RegistrationErrors(u, isEmail, isPhone), o);
    case LogoutClick(f) =>
      LogoutKeepsTokenTracksCache(s, f);
  }

  /** Two actions in a row. */
  lemma PlayTwo(s: Snapshot, a: Action, b: Action, isEmail: string -> bool, isPhone: string -> bool)
    ensures Play(s, [a, b], isEmail, isPhone) == Step(Step(s, a, isEmail, isPhone), b, isEmail, isPhone)
  {
    var actions := [a, b];
    assert actions[1..] == [b];
    assert [b][1..] == [];
    var s1 := Step(s, a, isEmail, isPhone);
    assert Play(s, actions, isEmail, isPhone) == Play(s1, [b], isEmail, isPhone);
    assert Play(s1, [b], isEmail, isPhone) == Play(Step(s1, b, isEmail, isPhone), [], isEmail, isPhone);
  }

  /** A whole session of such actions keeps the token and the cached user in step. */
  lemma {:induction false} PlayKeepsTokenTracksCache(s: Snapshot, actions: seq<Action>, isEmail: string -> bool, isPhone: string -> bool)
    requires TokenTracksCache(s)
    requires forall i :: 0 <= i < |actions| ==> KeepsStoresInStep(actions[i])
    ensures TokenTracksCache(Play(s, actions, isEmail, isPhone))
    decreases |actions|
  {
    if actions != [] {
      StepKeepsTokenTracksCache(s, actions[0], isEmail, isPhone);
      PlayKeepsTokenTracksCache(Step(s, actions[0], isEmail, isPhone), actions[1..], isEmail, isPhone);
    }
  }

  /**
   * A session opened after a reload starts with the stored token and an
   * unknown cache entry: the two are in step exactly when no token was kept.
   */
  lemma FreshSessionInStep(storedToken: Option<string>, start: Route)
    ensures TokenTracksCache(Snapshot(storedToken, Unknown, None, start, [])) <==> storedToken.None?
  {
  }

  /**
   * A logout whose token-clearing step throws leaves a token stored while
   * the cached user is already null.
   */
  lemma TokenFaultSplitsStores(s: Snapshot, isEmail: string -> bool, isPhone: string -> bool)
    requires s.token.Some?
    ensures var t := Step(s, LogoutClick(Some(TokenStep)), isEmail, isPhone);
      t.token == s.token && t.cache == Absent && !TokenTracksCache(t)
  {
    LogoutFaultIsNotRolledBack(s, TokenStep);
  }

  /** A successful login followed by a render: all three stores name the response's user. */
  lemma LoginThenRenderAgrees(s: Snapshot, v: LoginForm.LoginFormValues, isEmail: string -> bool, isPhone: string -> bool, response: AuthResponse)
    requires LoginForm.LoginErrors(v, isEmail) == []
    requires Truthy(response.accessToken)
    ensures var t := Play(s, [LoginSubmit(v, Resolved(response)), RenderPass], isEmail, isPhone);
      && t.token == response.accessToken
      && t.cache == Present(response.user)
      && t.ctx.Some? && t.ctx.value.email == response.user.email
      && t.route == UserPage
  {
    PlayTwo(s, LoginSubmit(v, Resolved(response)), RenderPass, isEmail, isPhone);
    var s1 := Run(s, LoginForm.SubmitEffects([], Resolved(response)));
    assert Step(s, LoginSubmit(v, Resolved(response)), isEmail, isPhone) == s1;
    LoginForm.LoginSucceeds(s, response);
    ReconcileConverges(s1);
    ReconcileIsOneWay(s1);
  }

  /**
   * Logout does not clear the context, and the next render copies nothing
   * from the null cache: a user the context held is still welcomed by the
   * gate after logging out.
   */
  lemma LogoutLeavesGateOpen(s: Snapshot)
    requires s.ctx.Some?
    ensures var t := Reconciled(Run(s, LogoutEffects(None)));
      && t.token == None && t.cache == Absent && t.route == LoginPage
      && t.ctx == s.ctx
      && Gate(t.ctx).Welcome?
  {
    LogoutSucceeds(s);
    ReconcileIgnoresEmptyCache(Run(s, LogoutEffects(None)));
  }
}
