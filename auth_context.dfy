/** The authentication provider: a `role` and a `loading` flag kept over a
    persistent key-value store, where the role lives under the key `role`.
    Every store operation may fail; the provider then logs and carries on. */
module Auth {
  import opened Wrappers

  const RoleKey := "role"

  /** `getItem('role')`: the stored string, or null when the key is absent. */
  function StoredRole(storage: map<string, string>): (stored: Option<string>)
    ensures stored.Some? <==> RoleKey in storage
    ensures stored.Some? ==> stored.value == storage[RoleKey]
  {
    if RoleKey in storage then Some(storage[RoleKey]) else None
  }

  /** A stored value is adopted only when it is present, non-empty and not
      the literal string `undefined` (left behind by storing an undefined role). */
  predicate Adoptable(stored: Option<string>) {
    stored.Some? && stored.value != "undefined" && stored.value != ""
  }

  /** The role a fresh provider ends up with after reading `storage`. */
  function RestoredRole(storage: map<string, string>): (role: Option<string>)
    ensures role.Some? <==> Adoptable(StoredRole(storage))
    ensures role.Some? ==> role == StoredRole(storage)
  {
    if Adoptable(StoredRole(storage)) then StoredRole(storage) else None
  }

  class AuthProvider {
    var role: Option<string>
    var loading: bool
    /** The persistent key-value store the provider reads and writes. */
    var storage: map<string, string>

    /** A provider mounted over an existing store: no role yet, loading. */
    constructor (storage: map<string, string>)
      ensures role == None && loading && this.storage == storage
    {
      role := None;
      loading := true;
      this.storage := storage;
    }

    /** `loadRole`: adopt the stored role when it passes the filter; loading
        ends whether the read succeeds, is filtered out or fails. */
    method LoadRole(readFails: bool)
      modifies this
      ensures !loading && storage == old(storage)
      ensures role == if !readFails && Adoptable(StoredRole(storage)) then StoredRole(storage) else old(role)
    {
      if !readFails {
        var stored := StoredRole(storage);
        if Adoptable(stored) {
          role := stored;
        }
      }
      loading := false;
    }

    /** `login`: store the role, then adopt it. A failed write leaves both the
        store and the role as they were. */
    method Login(newRole: string, writeFails: bool)
      modifies this
      ensures loading == old(loading)
      ensures writeFails ==> storage == old(storage) && role == old(role)
      ensures !writeFails ==> storage == old(storage)[RoleKey := newRole] && role == Some(newRole)
    {
      if !writeFails {
        storage := storage[RoleKey := newRole];
        role := Some(newRole);
      }
    }

    /** `logout`: remove the stored role, then forget it. A failed removal
        leaves both the store and the role as they were. */
    method Logout(removeFails: bool)
      modifies this
      ensures loading == old(loading)
      ensures removeFails ==> storage == old(storage) && role == old(role)
      ensures !removeFails ==> storage == old(storage) - {RoleKey} && role == None
    {
      if !removeFails {
        storage := storage - {RoleKey};
        role := None;
      }
    }
  }

  /** The store after a successful `login(r)` restores `r` on the next start
      exactly when `r` passes the filter. */
  lemma LoginThenRestore(storage: map<string, string>, r: string)
    ensures RestoredRole(storage[RoleKey := r]) == if r != "" && r != "undefined" then Some(r) else None
  {
  }

  /** The store after a successful `logout` restores no role. */
  lemma LogoutThenRestore(storage: map<string, string>)
    ensures RestoredRole(storage - {RoleKey}) == None
  {
  }

  /** Log in on one provider, then restart the app: a new provider over the
      same store, once its role is loaded, has the role just stored. */
  method LoginSurvivesRestart(storage: map<string, string>, r: string) returns (restored: Option<string>)
    requires r != "" && r != "undefined"
    ensures restored == Some(r)
  {
    var before := new AuthProvider(storage);
    before.LoadRole(false);
    before.Login(r, false);
    var after := new AuthProvider(before.storage);
    after.LoadRole(false);
    restored := after.role;
  }

  /** Log out, then restart the app: the new provider stays logged out. */
  method LogoutSurvivesRestart(storage: map<string, string>) returns (restored: Option<string>)
    ensures restored == None
  {
    var before := new AuthProvider(storage);
    before.LoadRole(false);
    before.Logout(false);
    var after := new AuthProvider(before.storage);
    after.LoadRole(false);
    restored := after.role;
  }
}
