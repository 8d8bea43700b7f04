/** The grant handlers of app/routers/access.py, run after the `AdminDep`
    token dependency produced `actor`. */
module AccessRouter {
  import opened Store
  import opened Tokens
  import opened Dependencies

  /** `create_access`: the reserved-scope guard, then the insert. A failed
      insert is answered with 403, not 409. `reserved` is `RESERVED_SCOPES`. */
  method CreateAccess(store: CredentialStore, clientname: string, scope: string, actor: Principal, reserved: set<string>)
    returns (r: Response<()>)
    modifies store
    ensures r != NotFound && r != Conflict
    ensures !TryGrantAccess(actor, scope, reserved) ==> r == Forbidden && store.access == old(store.access)
    ensures TryGrantAccess(actor, scope, reserved) && Grant(clientname, scope) in old(store.access) ==>
              r == Forbidden && store.access == old(store.access)
    ensures TryGrantAccess(actor, scope, reserved) && Grant(clientname, scope) !in old(store.access) ==>
              r == Ok(()) && store.access == old(store.access) + {Grant(clientname, scope)}
    ensures store.clients == old(store.clients) && store.scopes == old(store.scopes)
  {
    if !TryGrantAccess(actor, scope, reserved) {
      return Forbidden;
    }
    var inserted := store.CreateAccess(clientname, scope);
    if inserted.Fail? {
      return Forbidden;
    }
    r := Ok(());
  }

  /** The revocation guard of `delete_access`: it asks whether the SUBJECT
      holds `admin`, whatever scope is being removed. */
  function RevocationForbidden(subjectIsAdmin: bool, actor: Principal): (forbidden: bool)
    ensures forbidden <==> subjectIsAdmin && "CHAD" !in actor.scopes
  {
    subjectIsAdmin && !actor.IsChad()
  }

  /** `delete_access`: the revocation guard with `check_access` as written,
      then the delete; a missing grant is 404. Since the check answers true
      for every pair, an actor that is not a CHAD is always refused. */
  method DeleteAccess(store: CredentialStore, clientname: string, scope: string, actor: Principal)
    returns (r: Response<()>)
    modifies store
    ensures RevocationForbidden(CheckAccess(old(store.Snapshot()), clientname, "admin"), actor) ==>
              r == Forbidden && store.access == old(store.access)
    ensures !actor.IsChad() ==> r == Forbidden && store.access == old(store.access)
    ensures actor.IsChad() && Grant(clientname, scope) !in old(store.access) ==>
              r == NotFound && store.access == old(store.access)
    ensures actor.IsChad() && Grant(clientname, scope) in old(store.access) ==>
              r == Ok(()) && store.access == old(store.access) - {Grant(clientname, scope)}
    ensures r.Ok? ==> !HasAllScopes(store.Snapshot(), clientname, [scope])
    ensures store.clients == old(store.clients) && store.scopes == old(store.scopes)
  {
    var isSubjectAdmin := CheckAccess(store.Snapshot(), clientname, "admin");
    if RevocationForbidden(isSubjectAdmin, actor) {
      return Forbidden;
    }
    var deleted := store.DeleteAccess(clientname, scope);
    if deleted.Fail? {
      return NotFound;
    }
    r := Ok(());
  }

  /** With the intended membership test the guard still ignores the scope:
      an actor that is not a CHAD may not remove `basic` from a client that
      holds `admin`, and nothing stops it at the guard for a client without
      `admin`. */
  lemma RevocationKeyedOnSubject(db: Db, clientname: string, actor: Principal)
    requires !actor.IsChad()
    ensures RevocationForbidden(CheckAccessIntended(db, clientname, "admin"), actor)
            <==> Grant(clientname, "admin") in db.access
  {
  }
}
