/**
 * The user session held by `UserProvider` (src/UserContext.js): one `user`
 * field, overwritten by `login` and `logout`, and the login page's rule for
 * when `login` is called (src/pages/Login.jsx).
 */
module Session {
  import opened Common

  /**
   * A user object. The provider only ever stores `{name, role}`; the purchase
   * order list also reads `supplierId`, which is absent (`None`) there.
   */
  datatype User = User(name: Option<string>, role: Option<string>, supplierId: Option<Id>)

  /** The one user `login` stores. */
  const Admin := User(Some("Admin"), Some("Admin"), None)

  /** A call on the provider. */
  datatype Call = Login | Logout

  /** The `user` state after one call, given the state before it. */
  function After(user: Option<User>, call: Call): (r: Option<User>)
    ensures call.Login? ==> r == Some(Admin)
    ensures call.Logout? ==> r == None
  {
    match call
    case Login => Some(Admin)
    case Logout => None
  }

  /** The `user` state after a series of calls, applied in order. */
  function Run(user: Option<User>, calls: seq<Call>): Option<User>
    decreases |calls|
  {
    if calls == [] then user else Run(After(user, calls[0]), calls[1..])
  }

  /** Each call is idempotent: making it twice is making it once. */
  lemma CallIdempotent(user: Option<User>, call: Call)
    ensures After(After(user, call), call) == After(user, call)
  {
  }

  /**
   * After a non-empty series of calls the state is decided by the last call
   * alone, whatever the state before.
   */
  lemma {:induction false} RunDeterminedByLast(user: Option<User>, calls: seq<Call>)
    requires calls != []
    ensures Run(user, calls) == After(None, calls[|calls| - 1])
    decreases |calls|
  {
    if |calls| > 1 {
      RunDeterminedByLast(After(user, calls[0]), calls[1..]);
    }
  }

  /** The login page calls `login` exactly when the password is non-empty. */
  function LoginRequest(password: string): (r: Option<Call>)
    ensures r.Some? <==> password != ""
    ensures r.Some? ==> r.value == Login
  {
    if password != "" then Some(Login) else None
  }

  /** `UserProvider`'s state. */
  class UserProvider {
    var user: Option<User>

    /** `useState(null)`: nobody is logged in at first. */
    constructor ()
      ensures user == None
    {
      user := None;
    }

    /** `login()`: stores the fixed admin user; it takes no arguments. */
    method Login()
      modifies this
      ensures user == After(old(user), Call.Login)
    {
      user := Some(Admin);
    }

    /** `logout()`: forgets the user. */
    method Logout()
      modifies this
      ensures user == After(old(user), Call.Logout)
    {
      user := None;
    }

    /**
     * The login form's submit handler. The username and password it passes
     * to `login` are ignored by the provider; an empty password raises the
     * "Invalid credentials" alert instead.
     */
    method HandleLogin(username: string, password: string) returns (alerted: bool)
      modifies this
      ensures alerted <==> password == ""
      ensures user == (if password != "" then Some(Admin) else old(user))
    {
      match LoginRequest(password)
      case Some(_) =>
        Login();
        alerted := false;
      case None =>
        alerted := true;
    }
  }
}
