/**
 * The admin session guard (hooks/useAuth.ts): on mount it reads the `token`
 * and `user` entries of the browser store and either accepts the stored user,
 * sends the browser to the login page, or, for a non-admin user on an
 * admin-only view, also clears both entries. `logout` clears them and
 * redirects.
 */
module AuthGuard {
  import opened Wrappers
  import opened BrowserStorage
  import opened Strings

  const LoginPath: string := "/admin/login"
  const AdminRole: string := "admin"

  /** The stored user record once `JSON.parse` has read it. */
  datatype User = User(id: string, name: string, email: string, role: string)

  /** The outcomes of the check: the guard's state machine. */
  datatype Verdict =
    | Unauthenticated       // a key is missing or empty
    | Unparsable            // `JSON.parse` threw
    | Rejected(user: User)  // admin required, role is not "admin"
    | Authenticated(user: User)

  /**
   * The verdict of the check for the store contents `items`; `parse` is
   * `JSON.parse` read as a user record, `None` where it throws.
   */
  function Classify(items: map<string, string>, requireAdmin: bool, parse: string -> Option<User>): (v: Verdict)
    ensures v == Unauthenticated <==> !Truthy(Lookup(items, TokenKey)) || !Truthy(Lookup(items, UserKey))
    ensures v.Authenticated? <==>
      && Truthy(Lookup(items, TokenKey)) && Truthy(Lookup(items, UserKey))
      && parse(items[UserKey]).Some?
      && (!requireAdmin || parse(items[UserKey]).value.role == AdminRole)
    ensures (v.Authenticated? || v.Rejected?) ==> parse(items[UserKey]) == Some(v.user)
  {
    var token := Lookup(items, TokenKey);
    var record := Lookup(items, UserKey);
    if !Truthy(token) || !Truthy(record) then Unauthenticated
    else match parse(record.value)
      case None => Unparsable
      case Some(u) => if requireAdmin && u.role != AdminRole then Rejected(u) else Authenticated(u)
  }

  /** One mounted `useAuth(requireAdmin)`: its `user` and `loading` state and the pushed routes. */
  class SessionGuard {
    const store: Storage
    const requireAdmin: bool
    var user: Option<User>
    var loading: bool
    /** Every `router.push`, oldest first. */
    var navigations: seq<string>

    constructor (store: Storage, requireAdmin: bool)
      ensures this.store == store && this.requireAdmin == requireAdmin
      ensures user == None && loading && navigations == []
    {
      this.store := store;
      this.requireAdmin := requireAdmin;
      user := None;
      loading := true;
      navigations := [];
    }

    /**
     * The effect. A missing entry returns before the `try`, so `loading`
     * keeps its value; every other path runs the `finally` and clears it.
     * The store is only ever cleared here, never written.
     */
    method CheckSession(parse: string -> Option<User>)
      modifies this, store
      ensures var v := Classify(old(store.items), requireAdmin, parse);
        match v
        case Unauthenticated =>
          store.items == old(store.items) && user == old(user) && loading == old(loading)
          && navigations == old(navigations) + [LoginPath]
        case Unparsable =>
          store.items == old(store.items) && user == old(user) && !loading
          && navigations == old(navigations) + [LoginPath]
        case Rejected(_) =>
          store.items == old(store.items) - {TokenKey, UserKey} && user == old(user) && !loading
          && navigations == old(navigations) + [LoginPath]
        case Authenticated(u) =>
          store.items == old(store.items) && user == Some(u) && !loading
          && navigations == old(navigations)
      ensures store.items.Keys <= old(store.items).Keys
      ensures forall k :: k in store.items ==> store.items[k] == old(store.items)[k]
    {
      var token := store.GetItem(TokenKey);
      var userData := store.GetItem(UserKey);
      if !Truthy(token) || !Truthy(userData) {
        navigations := navigations + [LoginPath];
        return;
      }
      var parsed := parse(userData.value);
      if parsed.None? {
        navigations := navigations + [LoginPath];
        loading := false;
        return;
      }
      if requireAdmin && parsed.value.role != AdminRole {
        store.RemoveItem(TokenKey);
        store.RemoveItem(UserKey);
        navigations := navigations + [LoginPath];
        loading := false;
        return;
      }
      user := parsed;
      loading := false;
    }

    /** `logout`: clear both entries and go to the login page, whatever the state. */
    method Logout()
      modifies this, store
      ensures store.items == old(store.items) - {TokenKey, UserKey}
      ensures navigations == old(navigations) + [LoginPath]
      ensures user == old(user) && loading == old(loading)
    {
      store.RemoveItem(TokenKey);
      store.RemoveItem(UserKey);
      navigations := navigations + [LoginPath];
    }
  }
}
