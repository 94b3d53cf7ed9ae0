/**
 * The admin login gate: one flag, `isAuthenticated`, that starts false, is restored at mount
 * time from the browser store entry `isAuthenticated`, set by a login with the fixed admin
 * credentials and cleared by logout. The entry is kept in step with the flag.
 */
module Auth {
  import opened Wrappers
  import opened BrowserStorage
  import opened DataProvider

  const AdminUsername: string := "admin"
  const AdminPassword: string := "admin123"

  /** The browser store entry that remembers the login. */
  const AuthKey: string := "isAuthenticated"

  /** The mount-time restore: only the exact text `true` counts as logged in. */
  function Restored(entries: map<string, string>): (r: bool)
    ensures r <==> AuthKey in entries && entries[AuthKey] == "true"
  {
    Item(entries, AuthKey) == Some("true")
  }

  /** The credential check. */
  function Accepts(password: string, username: string): bool {
    username == AdminUsername && password == AdminPassword
  }

  /** Only the admin pair is accepted; any other username or password is refused. */
  lemma AcceptsExactly(password: string, username: string)
    ensures Accepts(password, username) <==> username == "admin" && password == "admin123"
  {
  }

  /** After a login the restore finds the session; after a logout it does not. */
  lemma RestoreAfterLoginAndLogout(entries: map<string, string>)
    ensures Restored(entries[AuthKey := "true"])
    ensures !Restored(entries - {AuthKey})
  {
  }

  /** No collection key is the login key, so saving content never logs anyone in or out. */
  lemma DataKeysAreNotAuthKey(c: Collection)
    ensures StorageKey(c) != AuthKey
  {
    assert StorageKey(c)[0] == 'd';
    assert AuthKey[0] == 'i';
  }

  lemma SavingKeepsSession(entries: map<string, string>, s: Snapshot, refused: set<string>)
    ensures Restored(PersistAll(entries, s, refused)) == Restored(entries)
  {
    forall c: Collection ensures AuthKey != StorageKey(c) {
      DataKeysAreNotAuthKey(c);
    }
    PersistAllOthers(entries, s, refused, AuthKey);
  }

  class AuthSession {
    var isAuthenticated: bool
    const storage: LocalStorage

    /** The initial state is logged out. */
    constructor (storage: LocalStorage)
      ensures !isAuthenticated && this.storage == storage
    {
      isAuthenticated := false;
      this.storage := storage;
    }

    /** The mount effect: sets the flag when the stored entry is exactly `true`, and otherwise leaves it. */
    method Mount()
      modifies this
      ensures isAuthenticated == (Restored(storage.entries) || old(isAuthenticated))
    {
      var auth := storage.GetItem(AuthKey);
      if auth == Some("true") {
        isAuthenticated := true;
      }
    }

    /** `login(password, username = "admin")`: on success sets the flag and stores `true`; on failure changes nothing. */
    method Login(password: string, username: string := "admin") returns (ok: bool)
      modifies this, storage
      ensures ok == Accepts(password, username)
      ensures ok ==> isAuthenticated && storage.entries == old(storage.entries)[AuthKey := "true"]
      ensures !ok ==> isAuthenticated == old(isAuthenticated) && storage.entries == old(storage.entries)
    {
      if username == AdminUsername && password == AdminPassword {
        isAuthenticated := true;
        var stored := storage.SetItem(AuthKey, "true", false);
        return true;
      }
      return false;
    }

    /** `logout`: clears the flag and removes the stored entry. */
    method Logout()
      modifies this, storage
      ensures !isAuthenticated
      ensures storage.entries == old(storage.entries) - {AuthKey}
    {
      isAuthenticated := false;
      storage.RemoveItem(AuthKey);
    }
  }

  /** A logout followed by a reload starts logged out. */
  method LogoutThenReload(storage: LocalStorage) returns (session: AuthSession)
    modifies storage
    ensures !session.isAuthenticated
  {
    var before := new AuthSession(storage);
    before.Logout();
    session := new AuthSession(storage);
    session.Mount();
  }
}
