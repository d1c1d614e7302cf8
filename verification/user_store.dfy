/** The global user session store (store/userStore.ts): who is logged in, and
    whether anyone is. Persistence to device storage is not modelled. */
module UserStore {
  import opened Nullable

  /** A user record as the backend returns it: optional id, name and e-mail,
      and whatever other string fields it carries. */
  datatype User = User(
    id: Option<string>,
    username: Option<string>,
    email: Option<string>,
    extra: map<string, string>)

  class UserSession {
    var user: Option<User>
    var isAuthenticated: bool

    /** The store's invariant: authenticated exactly when a user is held. */
    ghost predicate Valid()
      reads this
    {
      isAuthenticated <==> user.Some?
    }

    /** The initial state: nobody is logged in. */
    constructor ()
      ensures Valid()
      ensures user == None && !isAuthenticated
    {
      user := None;
      isAuthenticated := false;
    }

    /** `setUser(u)`: holds `u`, authenticated when `u` is not null. */
    method SetUser(u: Option<User>)
      modifies this
      ensures Valid()
      ensures user == u && isAuthenticated == u.Some?
    {
      user := u;
      isAuthenticated := u.Some?;
    }

    /** `login(d)`: holds `d` and is authenticated. */
    method Login(d: User)
      modifies this
      ensures Valid()
      ensures user == Some(d) && isAuthenticated
    {
      user := Some(d);
      isAuthenticated := true;
    }

    /** `logout()`: holds nobody and is not authenticated. */
    method Logout()
      modifies this
      ensures Valid()
      ensures user == None && !isAuthenticated
    {
      user := None;
      isAuthenticated := false;
    }
  }
}
