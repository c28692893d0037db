/**
 * The storefront's simulated authentication state. `login` and `register` set
 * the loading flag at once and arm a one-second timer; when the timer fires the
 * user is signed in. Each such operation is modelled as two steps: the start
 * step returns the armed timer, and `TimerFires` applies it. `logout` and
 * `updateUser` act at once. Throughout, the signed-in flag is set exactly when
 * there is a user.
 */
module Auth {

  import opened Wrappers

  /** The user record held by the provider. */
  datatype User = User(
    id: string,
    email: string,
    firstName: string,
    lastName: string,
    phone: Option<string>,
    hasAccount: bool)

  /** A `Partial<User>`: the fields a caller supplies, each one optional. */
  datatype UserPatch = UserPatch(
    id: Option<string>,
    email: Option<string>,
    firstName: Option<string>,
    lastName: Option<string>,
    phone: Option<string>,
    hasAccount: Option<bool>)

  /** The data handed to `register`: a user's fields, the id optional. */
  datatype Registration = Registration(
    id: Option<string>,
    email: string,
    firstName: string,
    lastName: string,
    phone: Option<string>,
    hasAccount: Option<bool>)

  /** The patch that supplies no field. */
  const NoChange := UserPatch(None, None, None, None, None, None)

  /** The supplied value when there is one, else the current one. */
  function Pick<T>(supplied: Option<T>, current: T): T
  {
    if supplied.Some? then supplied.value else current
  }

  /** An object spread of the patch over the user: the supplied fields replace the user's. */
  function Merge(u: User, patch: UserPatch): User
  {
    User(
      Pick(patch.id, u.id),
      Pick(patch.email, u.email),
      Pick(patch.firstName, u.firstName),
      Pick(patch.lastName, u.lastName),
      if patch.phone.Some? then patch.phone else u.phone,
      Pick(patch.hasAccount, u.hasAccount))
  }

  /** The patch that supplies every field of `u`. */
  function Full(u: User): UserPatch
  {
    UserPatch(Some(u.id), Some(u.email), Some(u.firstName), Some(u.lastName), u.phone, Some(u.hasAccount))
  }

  /** The user a completed login signs in: a fixed demo identity with the given email. */
  function DemoUser(email: string): (u: User)
    ensures u.email == email && u.id == "1" && u.hasAccount && u.phone.None?
  {
    User("1", email, "Demo", "User", None, true)
  }

  /** The registered user: id `1` unless the data supplies one, the data's fields, and always an account. */
  function RegisteredUser(data: Registration): (u: User)
    ensures u.id == (if data.id.Some? then data.id.value else "1")
    ensures u.email == data.email && u.firstName == data.firstName && u.lastName == data.lastName
    ensures u.phone == data.phone
    ensures u.hasAccount
  {
    User(Pick(data.id, "1"), data.email, data.firstName, data.lastName, data.phone, true)
  }

  /** A patch that supplies nothing leaves the user as it is. */
  lemma MergeNoChange(u: User)
    ensures Merge(u, NoChange) == u
  {
  }

  /** Applying the same patch twice is applying it once. */
  lemma MergeIdempotent(u: User, patch: UserPatch)
    ensures Merge(Merge(u, patch), patch) == Merge(u, patch)
  {
  }

  /** The supplied fields win and the others are kept. */
  lemma MergeFields(u: User, patch: UserPatch)
    ensures var r := Merge(u, patch);
      && (patch.id.Some? ==> r.id == patch.id.value) && (patch.id.None? ==> r.id == u.id)
      && (patch.email.Some? ==> r.email == patch.email.value) && (patch.email.None? ==> r.email == u.email)
      && (patch.firstName.Some? ==> r.firstName == patch.firstName.value) && (patch.firstName.None? ==> r.firstName == u.firstName)
      && (patch.lastName.Some? ==> r.lastName == patch.lastName.value) && (patch.lastName.None? ==> r.lastName == u.lastName)
      && (patch.phone.Some? ==> r.phone == patch.phone) && (patch.phone.None? ==> r.phone == u.phone)
      && (patch.hasAccount.Some? ==> r.hasAccount == patch.hasAccount.value) && (patch.hasAccount.None? ==> r.hasAccount == u.hasAccount)
  {
  }

  /**
   * A patch carrying all of a user's fields replaces any user by that one; an
   * absent phone cannot be supplied, so the old phone then survives.
   */
  lemma MergeFull(u: User, v: User)
    ensures v.phone.Some? ==> Merge(u, Full(v)) == v
    ensures v.phone.None? ==> Merge(u, Full(v)) == v.(phone := u.phone)
  {
  }

  /** The patch that supplies what `second` supplies and, elsewhere, what `first` supplies. */
  function Then(first: UserPatch, second: UserPatch): UserPatch
  {
    UserPatch(
      if second.id.Some? then second.id else first.id,
      if second.email.Some? then second.email else first.email,
      if second.firstName.Some? then second.firstName else first.firstName,
      if second.lastName.Some? then second.lastName else first.lastName,
      if second.phone.Some? then second.phone else first.phone,
      if second.hasAccount.Some? then second.hasAccount else first.hasAccount)
  }

  /**
   * Two updates in a row are one update with the combined patch, and a later
   * patch overrides an earlier one on every field it supplies.
   */
  lemma MergeLaterWins(u: User, first: UserPatch, second: UserPatch)
    ensures Merge(Merge(u, first), second) == Merge(u, Then(first, second))
    ensures var r := Merge(Merge(u, first), second);
      && (second.id.Some? ==> r.id == second.id.value)
      && (second.email.Some? ==> r.email == second.email.value)
      && (second.firstName.Some? ==> r.firstName == second.firstName.value)
      && (second.lastName.Some? ==> r.lastName == second.lastName.value)
      && (second.phone.Some? ==> r.phone == second.phone)
      && (second.hasAccount.Some? ==> r.hasAccount == second.hasAccount.value)
  {
  }

  /** The timer armed by a start step, holding what its callback will apply. */
  datatype Timer = LoginTimer(email: string) | RegisterTimer(data: Registration)

  /** The user the callback of `timer` signs in. */
  function SignedIn(timer: Timer): User
  {
    match timer
    case LoginTimer(email) => DemoUser(email)
    case RegisterTimer(data) => RegisteredUser(data)
  }

  /** Every timer signs in a user who has an account. */
  lemma SignedInHasAccount(timer: Timer)
    ensures SignedIn(timer).hasAccount
    ensures timer.LoginTimer? ==> SignedIn(timer).email == timer.email
    ensures timer.RegisterTimer? ==> SignedIn(timer).email == timer.data.email
  {
  }

  /** `AuthProvider`'s state. */
  class AuthProvider {
    var user: Option<User>
    var isLoading: bool
    var isAuthenticated: bool

    /** The signed-in flag is set exactly when there is a user. */
    ghost predicate Valid()
      reads this
    {
      isAuthenticated == user.Some?
    }

    /** Nobody is signed in and nothing is loading. */
    constructor ()
      ensures Valid()
      ensures user == None && !isLoading && !isAuthenticated
    {
      user := None;
      isLoading := false;
      isAuthenticated := false;
    }

    /** `login`: only the loading flag changes now; the returned timer signs in the demo user. The password is not checked. */
    method Login(email: string, password: string) returns (timer: Timer)
      requires Valid()
      modifies this
      ensures Valid()
      ensures isLoading && user == old(user) && isAuthenticated == old(isAuthenticated)
      ensures timer == LoginTimer(email)
    {
      isLoading := true;
      timer := LoginTimer(email);
    }

    /** `register`: only the loading flag changes now; the returned timer signs in the registered user. */
    method Register(data: Registration) returns (timer: Timer)
      requires Valid()
      modifies this
      ensures Valid()
      ensures isLoading && user == old(user) && isAuthenticated == old(isAuthenticated)
      ensures timer == RegisterTimer(data)
    {
      isLoading := true;
      timer := RegisterTimer(data);
    }

    /** A timer's callback: the user is signed in and loading ends, whatever happened meanwhile. */
    method TimerFires(timer: Timer)
      requires Valid()
      modifies this
      ensures Valid()
      ensures user == Some(SignedIn(timer)) && isAuthenticated && !isLoading
    {
      user := Some(SignedIn(timer));
      isAuthenticated := true;
      isLoading := false;
    }

    /** `logout`: the user is signed out; the loading flag is left as it is. */
    method Logout()
      requires Valid()
      modifies this
      ensures Valid()
      ensures user == None && !isAuthenticated && isLoading == old(isLoading)
    {
      user := None;
      isAuthenticated := false;
    }

    /** `updateUser`: the patch is merged into the signed-in user; without one nothing changes. */
    method UpdateUser(patch: UserPatch)
      requires Valid()
      modifies this
      ensures Valid()
      ensures old(user).Some? ==> user == Some(Merge(old(user).value, patch))
      ensures old(user).None? ==> user == None
      ensures isAuthenticated == old(isAuthenticated) && isLoading == old(isLoading)
    {
      if user.Some? {
        user := Some(Merge(user.value, patch));
      }
    }
  }

  /** A login is signed in only after its timer fires; a logout before that does not stop it. */
  method LoginScenario()
  {
    var auth := new AuthProvider();
    var timer := auth.Login("ada@example.com", "secret");
    assert auth.isLoading && !auth.isAuthenticated && auth.user == None;
    auth.Logout();
    assert auth.isLoading;
    auth.TimerFires(timer);
    assert auth.isAuthenticated && !auth.isLoading;
    assert auth.user == Some(User("1", "ada@example.com", "Demo", "User", None, true));
    auth.UpdateUser(NoChange.(phone := Some("555-0100")));
    assert auth.user.value.phone == Some("555-0100") && auth.user.value.email == "ada@example.com";
    auth.Logout();
    auth.UpdateUser(NoChange.(email := Some("x@example.com")));
    assert auth.user == None && !auth.isAuthenticated;
  }
}
