/** The handlers of app/routers/clients.py. Each one has already passed its
    token dependency (`AdminDep` or `BasicAuthDep`), whose principal is
    `actor`; it then runs its guard, the store operation and maps the
    outcome to a response. */
module ClientsRouter {
  import opened Wrappers
  import opened Text
  import opened Store
  import opened Tokens
  import opened Dependencies

  /** The body of a successful `create_client`. */
  datatype NewClient = NewClient(client: string, key: string, caller: string)

  /** `clientInfo`: the public part of a client row. */
  datatype ClientInfo = ClientInfo(clientname: string, disabled: bool)

  /** `create_client`: any failure of the insert is answered with 409. */
  method CreateClient(store: CredentialStore, newName: string, key: string, hashedkey: string, actor: Principal)
    returns (r: Response<NewClient>)
    modifies store
    ensures newName in old(store.clients) ==> r == Conflict && store.clients == old(store.clients)
    ensures newName !in old(store.clients) ==>
              r == Ok(NewClient(newName, key, actor.clientname))
              && store.clients == old(store.clients)[newName := ClientRow(hashedkey, store.defaultDisabled)]
    ensures store.scopes == old(store.scopes) && store.access == old(store.access)
  {
    var created := store.CreateClient(newName, key, hashedkey);
    if created.Failure? {
      return Conflict;
    }
    r := Ok(NewClient(newName, created.value, actor.clientname));
  }

  /** `read_client`: 404 for a missing name; otherwise the name and flag,
      never the key hash. */
  function ReadClient(db: Db, name: string): (r: Response<ClientInfo>)
    ensures r.Ok? || r == NotFound
    ensures r == NotFound <==> name !in db.clients
    ensures r.Ok? ==> r.body.clientname == name && r.body.disabled == db.clients[name].disabled
  {
    match Store.ReadClient(db, name)
    case None => NotFound
    case Some(row) => Ok(ClientInfo(row.name, row.disabled))
  }

  /** `read_clients`: the result of `filter_clients`, at most 30 distinct
      names, each matching the filter and the flag, and all matches when
      fewer than 30. With the default empty filter it lists the clients
      whose flag equals `disabled` (by default the enabled ones). */
  method ReadClients(store: CredentialStore, filter: string, disabled: bool) returns (names: seq<string>)
    ensures |names| <= LIMIT && Distinct(names)
    ensures forall n :: n in names ==> n in store.clients && ClientMatches(store.Snapshot(), n, filter, disabled)
    ensures |names| < LIMIT ==>
              forall n :: n in store.clients && ClientMatches(store.Snapshot(), n, filter, disabled) ==> n in names
    ensures forall n :: n in names ==> store.clients[n].disabled == disabled
    ensures filter == "" && |names| < LIMIT ==>
              forall n :: n in store.clients && store.clients[n].disabled == disabled ==> n in names
  {
    names := store.FilterClients(filter, disabled);
    if filter == "" {
      forall n | n in store.clients
        ensures Like(Lower(n), Filterize(filter))
      {
        EmptyFilterMatchesAll(Lower(n));
      }
    }
  }

  /** `update_client_disabled`: the edit guard, then the update; a missing
      client is 404; on success exactly that flag changes. */
  method UpdateClientDisabled(store: CredentialStore, subject: string, disabled: bool, actor: Principal)
    returns (r: Response<()>)
    modifies store
    ensures !TryEditUser(old(store.Snapshot()), subject, actor) ==> r == Forbidden && store.clients == old(store.clients)
    ensures TryEditUser(old(store.Snapshot()), subject, actor) && subject !in old(store.clients) ==>
              r == NotFound && store.clients == old(store.clients)
    ensures TryEditUser(old(store.Snapshot()), subject, actor) && subject in old(store.clients) ==>
              r == Ok(()) && store.clients == old(store.clients)[subject := ClientRow(old(store.clients)[subject].hashedkey, disabled)]
    ensures store.scopes == old(store.scopes) && store.access == old(store.access)
  {
    if !TryEditUser(store.Snapshot(), subject, actor) {
      return Forbidden;
    }
    var updated := store.SetDisabledClient(subject, disabled);
    if updated.Fail? {
      return NotFound;
    }
    r := Ok(());
  }

  /** `update_client_key`: the edit guard, then the key reset. The reset
      never fails, so a missing client is answered with a fresh key and
      nothing stored, never with 404. */
  method UpdateClientKey(store: CredentialStore, sub: string, key: string, hashedkey: string, actor: Principal)
    returns (r: Response<string>)
    modifies store
    ensures r != NotFound && r != Conflict
    ensures !TryEditUser(old(store.Snapshot()), sub, actor) ==> r == Forbidden && store.clients == old(store.clients)
    ensures TryEditUser(old(store.Snapshot()), sub, actor) ==> r == Ok(key)
    ensures TryEditUser(old(store.Snapshot()), sub, actor) && sub !in old(store.clients) ==> store.clients == old(store.clients)
    ensures TryEditUser(old(store.Snapshot()), sub, actor) && sub in old(store.clients) ==>
              store.clients == old(store.clients)[sub := ClientRow(hashedkey, old(store.clients)[sub].disabled)]
    ensures store.scopes == old(store.scopes) && store.access == old(store.access)
  {
    if !TryEditUser(store.Snapshot(), sub, actor) {
      return Forbidden;
    }
    var newKey := store.ResetClientKey(sub, key, hashedkey);
    r := Ok(newKey);
  }

  /** `delete_client`: the edit guard, then the delete; a missing client
      is 404. */
  method DeleteClient(store: CredentialStore, sub: string, actor: Principal) returns (r: Response<()>)
    modifies store
    ensures !TryEditUser(old(store.Snapshot()), sub, actor) ==> r == Forbidden && store.clients == old(store.clients)
    ensures TryEditUser(old(store.Snapshot()), sub, actor) && sub !in old(store.clients) ==>
              r == NotFound && store.clients == old(store.clients)
    ensures TryEditUser(old(store.Snapshot()), sub, actor) && sub in old(store.clients) ==>
              r == Ok(()) && store.clients == old(store.clients) - {sub}
    ensures store.scopes == old(store.scopes) && store.access == old(store.access)
  {
    if !TryEditUser(store.Snapshot(), sub, actor) {
      return Forbidden;
    }
    var deleted := store.DeleteClient(sub);
    if deleted.Fail? {
      return NotFound;
    }
    r := Ok(());
  }
}
