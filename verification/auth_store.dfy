/** The client-side authentication store: whether the user is signed in,
    and who. `U` stands for the user record, which this model does not
    inspect. */
module AuthStore {
  import opened Wrappers

  class AuthStore<U> {
    var isAuthenticated: bool
    var user: Option<U>

    /** Signed out, no user. */
    constructor ()
      ensures !isAuthenticated && user.None?
      ensures Consistent()
    {
      isAuthenticated := false;
      user := None;
    }

    /** A signed-in store knows its user. `login` and `logout` establish
        this; `setIsAuthenticated(true)` on its own does not. */
    predicate Consistent()
      reads this
    {
      isAuthenticated ==> user.Some?
    }

    method SetIsAuthenticated(value: bool)
      modifies this
      ensures isAuthenticated == value && user == old(user)
    {
      isAuthenticated := value;
    }

    method SetUser(u: U)
      modifies this
      ensures user == Some(u) && isAuthenticated == old(isAuthenticated)
      ensures Consistent()
    {
      user := Some(u);
    }

    method Login(u: U)
      modifies this
      ensures user == Some(u) && isAuthenticated
      ensures Consistent()
    {
      user := Some(u);
      isAuthenticated := true;
    }

    /** Back to the state of a fresh store. */
    method Logout()
      modifies this
      ensures user.None? && !isAuthenticated
      ensures Consistent()
    {
      user := None;
      isAuthenticated := false;
    }
  }
}
