/**
 * The identity context: the value a `UserProvider` publishes and the hook
 * that reads it. The provider's state itself is a field of the session
 * (`ClientSession.Session.ctx`), overwritten by `SetLoggedInUser`.
 */
module UserContext {
  import opened Interface

  /** What the provider publishes: the logged-in user, or null. */
  datatype UserContextValue = UserContextValue(loggedInUser: Option<User>)

  const MissingProviderMessage: string := "useUserHook must be used within a UserProvider"

  /** The state a provider starts with: nobody is logged in. */
  function InitialValue(): (r: UserContextValue)
    ensures r.loggedInUser.None?
  {
    UserContextValue(None)
  }

  /**
   * The hook: `nearest` is the value of the closest enclosing provider, or
   * None outside every provider, where the hook raises instead of defaulting.
   */
  function UseUserHook(nearest: Option<UserContextValue>): (r: Result<UserContextValue>)
    ensures r.Error? <==> nearest.None?
    ensures r.Error? ==> r.message == MissingProviderMessage
    ensures r.Ok? ==> r.value == nearest.value
  {
    match nearest
    case None => Error(MissingProviderMessage)
    case Some(value) => Ok(value)
  }
}
