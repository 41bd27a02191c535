/** The records exchanged with the remote API and the two string enums of the client. */
module Interface {

  datatype Option<+T> = None | Some(value: T)

  /** A value or the error that was raised instead of it. */
  datatype Result<+T> = Ok(value: T) | Error(message: string)

  /** The outcome of one network call: the promise resolves with a value or rejects. */
  datatype Outcome<+T> = Resolved(value: T) | Rejected

  /** A registered account, as the forms submit it and the API returns it. */
  datatype User = User(
    name: string,
    email: string,
    password: string,
    age: int,
    gender: string,
    accountType: string,
    phoneNumber: string,
    termsAndConditions: bool)

  /** What the login endpoint answers: the user and, on full success, a bearer token. */
  datatype AuthResponse = AuthResponse(user: User, accessToken: Option<string>)

  datatype AccountType = Buyer | Seller {
    /** The string the enum member stands for. */
    function Value(): string {
      match this
      case Buyer => "Buyer"
      case Seller => "Seller"
    }
  }

  datatype Gender = Female | Male {
    function Value(): string {
      match this
      case Female => "Female"
      case Male => "Male"
    }
  }

  /** `Object.values(AccountType)`, in declaration order. */
  function AccountTypeValues(): (r: seq<string>)
    ensures forall t: AccountType :: t.Value() in r
    ensures forall s :: s in r ==> exists t: AccountType :: t.Value() == s
  {
    [Buyer.Value(), Seller.Value()]
  }

  /** `Object.values(Gender)`, in declaration order. */
  function GenderValues(): (r: seq<string>)
    ensures forall g: Gender :: g.Value() in r
    ensures forall s :: s in r ==> exists g: Gender :: g.Value() == s
  {
    [Female.Value(), Male.Value()]
  }

  /** JavaScript truthiness of an optional string: present and not empty. */
  predicate Truthy(s: Option<string>) {
    s.Some? && s.value != ""
  }
}
