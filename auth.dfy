/**
 * The session provider: `currentUser`, `isAuthenticated` and `loading`,
 * mirrored into the browser's local storage under the key 'user'.
 */
module Auth {
  import opened Base
  import opened UserRecord

  const UserKey := "user"

  /** The browser's local storage: a map from key to stored text; a missing key reads as null. */
  class LocalStorage {
    var items: map<string, string>

    constructor (initial: map<string, string>)
      ensures items == initial
    {
      items := initial;
    }

    method GetItem(key: string) returns (value: Option<string>)
      ensures value.Some? <==> key in items
      ensures value.Some? ==> value.value == items[key]
    {
      value := if key in items then Some(items[key]) else None;
    }

    method SetItem(key: string, value: string)
      modifies this
      ensures items == old(items)[key := value]
    {
      items := items[key := value];
    }

    method RemoveItem(key: string)
      modifies this
      ensures items == old(items) - {key}
    {
      items := items - {key};
    }
  }

  class AuthProvider {
    var currentUser: Option<User>
    var isAuthenticated: bool
    var loading: bool
    const storage: LocalStorage

    constructor (storage: LocalStorage)
      ensures this.storage == storage
      ensures currentUser == None && !isAuthenticated && loading
      ensures !RendersChildren()
    {
      this.storage := storage;
      currentUser := None;
      isAuthenticated := false;
      loading := true;
    }

    /** The provider shows its children only once loading is over. */
    predicate RendersChildren()
      reads this
    {
      !loading
    }

    /**
     * The mount effect. A stored record that is present and not empty is
     * parsed and becomes the current user; in every other case the fields
     * keep their values. If parsing throws (`threw`), the effect stops
     * before loading ends; otherwise loading ends and the children show.
     */
    method LoadEffect() returns (threw: bool)
      modifies this
      ensures storage.items == old(storage.items)
      ensures var stored := if UserKey in storage.items then storage.items[UserKey] else "";
        && (stored == "" ==>
              !threw && currentUser == old(currentUser) && isAuthenticated == old(isAuthenticated))
        && (stored != "" && Decode(stored).Some? ==>
              !threw && currentUser == Decode(stored) && isAuthenticated)
        && (stored != "" && Decode(stored).None? ==>
              threw && currentUser == old(currentUser) && isAuthenticated == old(isAuthenticated))
      ensures threw ==> loading == old(loading)
      ensures !threw ==> RendersChildren()
    {
      var userData := storage.GetItem(UserKey);
      if userData.Some? && userData.value != "" {
        var user := Decode(userData.value);
        if user.None? {
          return true;
        }
        currentUser := user;
        isAuthenticated := true;
      }
      loading := false;
      threw := false;
    }

    /** login: the record becomes the session and is stored under 'user'. */
    method Login(userData: User)
      modifies this, storage
      ensures currentUser == Some(userData) && isAuthenticated && loading == old(loading)
      ensures storage.items == old(storage.items)[UserKey := Encode(userData)]
    {
      currentUser := Some(userData);
      isAuthenticated := true;
      storage.SetItem(UserKey, Encode(userData));
    }

    /** signup: the same effect as login. */
    method Signup(userData: User)
      modifies this, storage
      ensures currentUser == Some(userData) && isAuthenticated && loading == old(loading)
      ensures storage.items == old(storage.items)[UserKey := Encode(userData)]
    {
      currentUser := Some(userData);
      isAuthenticated := true;
      storage.SetItem(UserKey, Encode(userData));
    }

    /** logout: the session ends and the stored record is removed. */
    method Logout()
      modifies this, storage
      ensures currentUser == None && !isAuthenticated && loading == old(loading)
      ensures storage.items == old(storage.items) - {UserKey}
    {
      currentUser := None;
      isAuthenticated := false;
      storage.RemoveItem(UserKey);
    }
  }

  /** A login followed by a page reload over the same storage restores the session. */
  method LoginSurvivesReload(initial: map<string, string>, user: User) returns (restored: Option<User>, authenticated: bool, shown: bool)
    ensures restored == Some(user) && authenticated && shown
  {
    var storage := new LocalStorage(initial);
    var before := new AuthProvider(storage);
    before.Login(user);
    var after := new AuthProvider(storage);
    DecodeEncode(user);
    var threw := after.LoadEffect();
    restored, authenticated, shown := after.currentUser, after.isAuthenticated, after.RendersChildren();
  }

  /** After logout a reload finds no session. */
  method LogoutSurvivesReload(initial: map<string, string>, user: User) returns (restored: Option<User>, authenticated: bool, shown: bool)
    ensures restored == None && !authenticated && shown
  {
    var storage := new LocalStorage(initial);
    var before := new AuthProvider(storage);
    before.Login(user);
    before.Logout();
    var after := new AuthProvider(storage);
    var threw := after.LoadEffect();
    restored, authenticated, shown := after.currentUser, after.isAuthenticated, after.RendersChildren();
  }
}
