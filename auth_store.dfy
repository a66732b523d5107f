/** The client's global store of the logged-in user, kept in localStorage
    under the `auth-storage` key by zustand's `persist` middleware. */
module AuthStore {
  import opened Wrappers

  /** The user the client keeps. */
  datatype User = User(id: string, name: string, email: string, profile_type: string, picture: Option<string>)

  class Store {
    var user: Option<User>
    /** What `auth-storage` holds: `None` before anything was saved, else the saved `user`. */
    var saved: Option<Option<User>>

    /** The store rehydrates from `auth-storage`: it starts with the saved
        user when there is one, and with the initial `null` otherwise. */
    constructor(stored: Option<Option<User>>)
      ensures user == (if stored.Some? then stored.value else None)
      ensures saved == stored
    {
      user := if stored.Some? then stored.value else None;
      saved := stored;
    }

    /** `setUser`: the user is replaced, whatever it was, and `persist` saves it. */
    method SetUser(u: Option<User>)
      modifies this
      ensures user == u && saved == Some(u)
    {
      user := u;
      saved := Some(u);
    }

    /** `logout`: the same as `setUser(null)`, so a second logout changes nothing. */
    method Logout()
      modifies this
      ensures user == None && saved == Some(None)
    {
      SetUser(None);
    }
  }
}
