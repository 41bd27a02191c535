/**
 * The access gate of the user page: nobody in the context gives the
 * unauthorized view with a link to the login page; a user gets a welcome
 * chosen by an exact match of the account type against the enum values.
 */
module UserInfoPage {
  import opened Interface
  import opened Store
  import opened UserContext

  const BuyerWelcome: string := "Welcome to the shopping cart. Lets start shopping."
  const SellerWelcome: string := "Welcome to the shopping cart. Please start listing items."
  const GenericWelcome: string := "Welcome"

  datatype View = Unauthorized(link: Route) | Welcome(message: string)

  /** The gate; total over every user, every account type included. */
  function Gate(loggedInUser: Option<User>): (v: View)
    ensures v.Unauthorized? <==> loggedInUser.None?
    ensures v.Unauthorized? ==> v.link == LoginPage
    ensures v.Welcome? ==> v.message == BuyerWelcome || v.message == SellerWelcome || v.message == GenericWelcome
  {
    match loggedInUser
    case None => Unauthorized(LoginPage)
    case Some(u) =>
      if u.accountType == Buyer.Value() then Welcome(BuyerWelcome)
      else if u.accountType == Seller.Value() then Welcome(SellerWelcome)
      else Welcome(GenericWelcome)
  }

  /** The page: the context hook, then the gate. Outside a provider the hook's error propagates. */
  function Page(nearest: Option<UserContextValue>): (r: Result<View>)
    ensures r.Error? <==> nearest.None?
    ensures r.Error? ==> r.message == MissingProviderMessage
    ensures r.Ok? ==> r.value == Gate(nearest.value.loggedInUser)
  {
    match UseUserHook(nearest)
    case Error(m) => Error(m)
    case Ok(value) => Ok(Gate(value.loggedInUser))
  }

  lemma BuyerIsWelcomedToShop(u: User)
    requires u.accountType == "Buyer"
    ensures Gate(Some(u)) == Welcome(BuyerWelcome)
  {
  }

  lemma SellerIsWelcomedToList(u: User)
    requires u.accountType == "Seller"
    ensures Gate(Some(u)) == Welcome(SellerWelcome)
  {
  }

  /** Any other account type, the lower-case "buyer" included, gets the generic welcome. */
  lemma OtherAccountTypesGetGenericWelcome(u: User)
    requires u.accountType != "Buyer" && u.accountType != "Seller"
    ensures Gate(Some(u)) == Welcome(GenericWelcome)
  {
  }

  lemma LowercaseBuyerIsNotBuyer(u: User)
    requires u.accountType == "buyer"
    ensures Gate(Some(u)) == Welcome(GenericWelcome)
  {
    assert "buyer"[0] != "Buyer"[0];
  }
}
