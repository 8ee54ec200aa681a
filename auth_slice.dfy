/**
 * The `auth` slice (src/redux/features/AuthSlice.tsx): a session that is
 * either signed in or signed out, mirrored into the browser's local storage
 * under the keys `token` and `user` and read back from there at start-up.
 */
module AuthSlice {
  import opened Wrappers
  import opened UserJson

  const TokenKey: string := "token"
  const UserKey: string := "user"

  /** The slice's three fields. */
  datatype Session = Session(isAuthenticated: bool, user: Option<User>, token: Option<string>)

  /** The slice's invariant: signed in exactly when a token is held. */
  predicate Consistent(s: Session) {
    s.isAuthenticated <==> s.token.Some?
  }

  /** `localStorage.getItem(key)`: the stored text, or null. */
  function StoredItem(items: map<string, string>, key: string): Option<string> {
    if key in items then Some(items[key]) else None
  }

  /** A stored text that JavaScript treats as true: present and non-empty. */
  predicate Present(v: Option<string>) {
    v.Some? && v.value != ""
  }

  /**
   * The state the slice starts in, read from storage. `None` stands for
   * start-up failing because `JSON.parse` throws on the stored user.
   */
  function Initial(items: map<string, string>): (r: Option<Session>)
    ensures r.None? <==> Present(StoredItem(items, UserKey)) && ParseUser(items[UserKey]).None?
    ensures r.Some? ==> Consistent(r.value)
    ensures r.Some? ==> (r.value.isAuthenticated <==> Present(StoredItem(items, TokenKey)))
    ensures r.Some? ==> r.value.token == (if Present(StoredItem(items, TokenKey)) then Some(items[TokenKey]) else None)
    ensures r.Some? && !Present(StoredItem(items, UserKey)) ==> r.value.user.None?
    ensures r.Some? && Present(StoredItem(items, UserKey)) ==> r.value.user == ParseUser(items[UserKey]).value
  {
    var storedToken := StoredItem(items, TokenKey);
    var storedUser := StoredItem(items, UserKey);
    var token := if Present(storedToken) then Some(storedToken.value) else None;
    if Present(storedUser) then
      match ParseUser(storedUser.value)
      case None => None
      case Some(user) => Some(Session(Present(storedToken), user, token))
    else Some(Session(Present(storedToken), None, token))
  }

  /** The state `setCredentials` leaves. */
  function SignedIn(user: Option<User>, token: string): (s: Session)
    ensures Consistent(s)
  {
    Session(true, user, Some(token))
  }

  /** The state `logout` leaves. */
  function SignedOut(): (s: Session)
    ensures Consistent(s) && !s.isAuthenticated
  {
    Session(false, None, None)
  }

  /** Storage after `setCredentials` wrote the token and the serialised user. */
  function Saved(items: map<string, string>, user: Option<User>, token: string): map<string, string> {
    items[TokenKey := token][UserKey := Stringify(user)]
  }

  /** Storage after `logout` removed both keys. */
  function Cleared(items: map<string, string>): map<string, string> {
    items - {TokenKey, UserKey}
  }

  /** After `setCredentials` with a non-empty token, starting again from storage restores the same session. */
  lemma RestoreAfterSetCredentials(items: map<string, string>, user: Option<User>, token: string)
    requires token != ""
    ensures Initial(Saved(items, user, token)) == Some(SignedIn(user, token))
  {
    ParseStringify(user);
  }

  /** After `logout`, starting again from storage gives the signed-out session. */
  lemma RestoreAfterLogout(items: map<string, string>)
    ensures Initial(Cleared(items)) == Some(SignedOut())
  {
  }

  /** Logging out twice leaves storage as logging out once. */
  lemma LogoutIdempotent(items: map<string, string>)
    ensures Cleared(Cleared(items)) == Cleared(items)
  {
  }

  /** The browser's `localStorage`. */
  class LocalStorage {
    var items: map<string, string>

    constructor (items: map<string, string>)
      ensures this.items == items
    {
      this.items := items;
    }

    function GetItem(key: string): (v: Option<string>)
      reads this
      ensures v.Some? <==> key in items
      ensures v.Some? ==> v.value == items[key]
    {
      StoredItem(items, key)
    }

    method SetItem(key: string, value: string)
      modifies this
      ensures items == old(items)[key := value]
    {
      items := items[key := value];
    }

    method RemoveItem(key: string)
      modifies this
      ensures items == old(items) - {key}
    {
      items := items - {key};
    }
  }

  class AuthState {
    var isAuthenticated: bool
    var user: Option<User>
    var token: Option<string>

    function Snapshot(): Session
      reads this
    {
      Session(isAuthenticated, user, token)
    }

    /** The initial state, read from storage when the store is created. */
    constructor (storage: LocalStorage)
      requires Initial(storage.items).Some?
      ensures Snapshot() == Initial(storage.items).value
      ensures Consistent(Snapshot())
    {
      var storedToken := storage.GetItem(TokenKey);
      var storedUser := storage.GetItem(UserKey);
      isAuthenticated := Present(storedToken);
      user := if Present(storedUser) then ParseUser(storedUser.value).value else None;
      token := if Present(storedToken) then storedToken else None;
    }

    /** `setCredentials`: signs in and writes token and serialised user to storage. */
    method SetCredentials(newUser: Option<User>, newToken: string, storage: LocalStorage)
      modifies this, storage
      ensures Snapshot() == SignedIn(newUser, newToken)
      ensures storage.items == Saved(old(storage.items), newUser, newToken)
    {
      user := newUser;
      token := Some(newToken);
      isAuthenticated := true;
      storage.SetItem(TokenKey, newToken);
      storage.SetItem(UserKey, Stringify(newUser));
    }

    /** `logout`: signs out and removes both keys from storage. */
    method Logout(storage: LocalStorage)
      modifies this, storage
      ensures Snapshot() == SignedOut()
      ensures storage.items == Cleared(old(storage.items))
    {
      user := None;
      token := None;
      isAuthenticated := false;
      storage.RemoveItem(TokenKey);
      storage.RemoveItem(UserKey);
    }
  }
}
