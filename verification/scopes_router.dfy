/** The scope handlers of app/routers/scopes.py. app/routers/api/scopes.py
    runs the same sequence over the same store operations (through
    app/internal/scopes.py instead of app/auth.py), so both are this module.
    `actor` comes from the `AdminDep` token dependency. */
module ScopesRouter {
  import opened Wrappers
  import opened Store
  import opened Tokens
  import opened Dependencies

  /** `create_scope`: no reserved-name check; the caller becomes the owner;
      any failure is 403. A failure of the self-grant still leaves the new
      scope row in place. */
  method CreateScope(store: CredentialStore, name: string, actor: Principal) returns (r: Response<()>)
    modifies store
    ensures r == Ok(()) || r == Forbidden
    ensures name in old(store.scopes) ==>
              r == Forbidden && store.scopes == old(store.scopes) && store.access == old(store.access)
    ensures name !in old(store.scopes) ==> store.scopes == old(store.scopes)[name := actor.clientname]
    ensures name !in old(store.scopes) && Grant(actor.clientname, name) in old(store.access) ==>
              r == Forbidden && store.access == old(store.access)
    ensures name !in old(store.scopes) && Grant(actor.clientname, name) !in old(store.access) ==>
              r == Ok(()) && store.access == old(store.access) + {Grant(actor.clientname, name)}
    ensures r.Ok? ==> HasAllScopes(store.Snapshot(), actor.clientname, [name])
    ensures store.clients == old(store.clients)
  {
    var created := store.CreateScope(name, actor.clientname);
    if created.Fail? {
      return Forbidden;
    }
    r := Ok(());
  }

  /** The owner-or-CHAD guard of `delete_scope`: refused when the recorded
      owner (nothing, for a missing scope) is not the caller and the caller
      is not a CHAD. */
  function DeleteScopeAllowed(db: Db, scope: string, actor: Principal): (allowed: bool)
    ensures allowed <==> (scope in db.scopes && db.scopes[scope] == actor.clientname) || "CHAD" in actor.scopes
  {
    !(ReadScopeOwner(db, scope) != Some(actor.clientname) && !actor.IsChad())
  }

  /** The recorded owner of a scope always passes the guard. */
  lemma OwnerMayDelete(db: Db, scope: string, actor: Principal)
    requires scope in db.scopes && db.scopes[scope] == actor.clientname
    ensures DeleteScopeAllowed(db, scope, actor)
  {
  }

  /** An admin that neither owns the scope nor is a CHAD is refused. */
  lemma OthersMayNotDelete(db: Db, scope: string, actor: Principal)
    requires !actor.IsChad() && "admin" in actor.scopes
    requires scope !in db.scopes || db.scopes[scope] != actor.clientname
    ensures !DeleteScopeAllowed(db, scope, actor)
  {
  }

  /** `delete_scope`: the guard, then the delete; a missing scope is 403
      from the guard for a non-CHAD and 403 from the delete for a CHAD.
      Grant rows naming the scope remain. */
  method DeleteScope(store: CredentialStore, scope: string, actor: Principal) returns (r: Response<()>)
    modifies store
    ensures r == Ok(()) || r == Forbidden
    ensures r.Ok? <==> DeleteScopeAllowed(old(store.Snapshot()), scope, actor) && scope in old(store.scopes)
    ensures scope !in old(store.scopes) ==> r == Forbidden
    ensures r.Ok? ==> store.scopes == old(store.scopes) - {scope}
    ensures r == Forbidden ==> store.scopes == old(store.scopes)
    ensures store.clients == old(store.clients) && store.access == old(store.access)
  {
    if !DeleteScopeAllowed(store.Snapshot(), scope, actor) {
      return Forbidden;
    }
    var deleted := store.DeleteScope(scope);
    if deleted.Fail? {
      return Forbidden;
    }
    r := Ok(());
  }
}
