/** The authentication provider: the signed-in user, restored from the
    browser store on start, and a local list of registered users. */
module AuthContext {
  import opened Wrappers
  import opened Entities

  /** The browser-store key of the signed-in user. */
  const UserKey: string := "user"

  /** The browser-store key of the list of registered users. */
  const RegisteredUsersKey: string := "registeredUsers"

  /** The user a provider starts with: the stored one, if any. */
  function StoredUser(records: map<string, User>): Option<User>
  {
    if UserKey in records then Some(records[UserKey]) else None
  }

  /** `JSON.parse(localStorage.getItem('registeredUsers') || '[]')`. */
  function RegisteredUsers(lists: map<string, seq<User>>): seq<User>
  {
    if RegisteredUsersKey in lists then lists[RegisteredUsersKey] else []
  }

  class AuthProvider {
    var user: Option<User>
    /** The browser store under the `'user'` key. */
    var records: map<string, User>
    /** The browser store under the `'registeredUsers'` key. */
    var lists: map<string, seq<User>>

    /** A provider started from the present store would show the same
        user: the session survives a reload. */
    predicate Persisted()
      reads this
    {
      user == StoredUser(records)
    }

    constructor (initialRecords: map<string, User>, initialLists: map<string, seq<User>>)
      ensures user == StoredUser(initialRecords)
      ensures records == initialRecords && lists == initialLists
      ensures Persisted()
    {
      user := StoredUser(initialRecords);
      records := initialRecords;
      lists := initialLists;
    }

    /** `login`: the user becomes the signed-in one and is stored. */
    method Login(userData: User)
      modifies this
      ensures user == Some(userData)
      ensures records == old(records)[UserKey := userData] && lists == old(lists)
      ensures Persisted()
    {
      user := Some(userData);
      records := records[UserKey := userData];
    }

    /** `logout`: nobody is signed in and the stored user is removed. */
    method Logout()
      modifies this
      ensures user == None
      ensures records == old(records) - {UserKey} && lists == old(lists)
      ensures Persisted()
    {
      user := None;
      records := records - {UserKey};
    }

    /** `register`: the given data with its id replaced by the clock value,
        appended to the registered users (an absent list read as empty) and
        then signed in. */
    method Register(userData: User, now: nat) returns (newUser: User)
      modifies this
      ensures newUser == userData.(id := now)
      ensures lists == old(lists)[RegisteredUsersKey := RegisteredUsers(old(lists)) + [newUser]]
      ensures user == Some(newUser) && records == old(records)[UserKey := newUser]
      ensures Persisted()
    {
      newUser := userData.(id := now);
      var users := RegisteredUsers(lists);
      users := users + [newUser];
      lists := lists[RegisteredUsersKey := users];
      Login(newUser);
    }
  }
}
