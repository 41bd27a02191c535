/**
 * The header: the name-or-login-link choice and the logout handler, a
 * sequence of four steps inside one try/catch. A step that throws is the
 * parameter `fault`; the steps before it stay done.
 */
module Header {
  import opened Interface
  import opened Store

  const LoggedOutTitle: string := "You are logged out from the app"
  const LogoutFailedTitle: string := "Logout Failed"

  /** The steps of the logout handler, in the order the handler runs them. */
  datatype LogoutStep = ToastStep | CacheStep | TokenStep | NavigateStep {
    /** How many steps complete before this one. */
    function Index(): nat {
      match this
      case ToastStep => 0
      case CacheStep => 1
      case TokenStep => 2
      case NavigateStep => 3
    }
  }

  /** Notify, null the cached user, clear the token, open the login page. */
  const LogoutSteps: seq<Effect> :=
    [Notify(LoggedOutTitle), WriteCache(Absent), WriteToken(None), Navigate(LoginPage)]

  /** The writes of one logout: all four steps, or those before the throwing one and then the failure notice. */
  function LogoutEffects(fault: Option<LogoutStep>): (r: seq<Effect>)
    ensures NoContextWrite(r)
    ensures fault.Some? ==> NoNavigation(r) && r != [] && r[|r| - 1] == Notify(LogoutFailedTitle)
  {
    match fault
    case None => LogoutSteps
    case Some(step) => LogoutSteps[..step.Index()] + [Notify(LogoutFailedTitle)]
  }

  /** The steps completed before each step that can throw. */
  lemma LogoutStepPrefixes()
    ensures LogoutSteps[..ToastStep.Index()] == []
    ensures LogoutSteps[..CacheStep.Index()] == [Notify(LoggedOutTitle)]
    ensures LogoutSteps[..TokenStep.Index()] == [Notify(LoggedOutTitle), WriteCache(Absent)]
    ensures LogoutSteps[..NavigateStep.Index()] == [Notify(LoggedOutTitle), WriteCache(Absent), WriteToken(None)]
  {
  }

  /** A logout without a throw: cache null, no token, the login page; the context is not touched. */
  lemma LogoutSucceeds(s: Snapshot)
    ensures var t := Run(s, LogoutEffects(None));
      && t.cache == Absent && t.token == None && t.route == LoginPage
      && t.ctx == s.ctx
      && t.log == s.log + [Notify(LoggedOutTitle), WriteCache(Absent), WriteToken(None), Navigate(LoginPage)]
  {
    var es := LogoutSteps;
    RunStep(s, es[0], es[1..]);
    var s1 := Apply(s, es[0]);
    RunStep(s1, es[1], es[2..]);
    var s2 := Apply(s1, es[1]);
    RunStep(s2, es[2], es[3..]);
    RunStep(Apply(s2, es[2]), es[3], []);
  }

  /**
   * A step that throws: the steps before it are not rolled back, the later ones
   * do not run, there is no navigation, and "Logout Failed" is the last notice.
   */
  lemma LogoutFaultIsNotRolledBack(s: Snapshot, step: LogoutStep)
    ensures var t := Run(s, LogoutEffects(Some(step)));
      && t.route == s.route
      && t.ctx == s.ctx
      && t.cache == (if step.Index() > CacheStep.Index() then Absent else s.cache)
      && t.token == (if step.Index() > TokenStep.Index() then None else s.token)
      && t.log == s.log + LogoutSteps[..step.Index()] + [Notify(LogoutFailedTitle)]
  {
    var done := LogoutSteps[..step.Index()];
    RunAppend(s, done, [Notify(LogoutFailedTitle)]);
    RunStep(Run(s, done), Notify(LogoutFailedTitle), []);
    var es := LogoutSteps;
    match step
    case ToastStep =>
    case CacheStep =>
      RunStep(s, es[0], []);
    case TokenStep =>
      assert done == [es[0]] + [es[1]];
      RunStep(s, es[0], [es[1]]);
      RunStep(Apply(s, es[0]), es[1], []);
    case NavigateStep =>
      assert done == [es[0]] + ([es[1]] + [es[2]]);
      RunStep(s, es[0], [es[1]] + [es[2]]);
      var s1 := Apply(s, es[0]);
      RunStep(s1, es[1], [es[2]]);
      RunStep(Apply(s1, es[1]), es[2], []);
  }

  /** What the header shows at its right end. */
  datatype HeaderItem = UserName(name: string) | LoginLink(to: Route)

  /** The cached user's name when it is truthy; otherwise the link to the login page. */
  function ShownItem(cache: CacheEntry): (r: HeaderItem)
    ensures r.UserName? <==> cache.Present? && cache.user.name != ""
    ensures r.UserName? ==> r.name == cache.user.name
    ensures r.LoginLink? ==> r.to == LoginPage
  {
    if cache.Present? && cache.user.name != "" then UserName(cache.user.name) else LoginLink(LoginPage)
  }
}
