/** The credential store: the `client`, `scope` and `access` tables and the
    operations of app/internal/clients.py, app/internal/access.py and
    app/internal/scopes.py (duplicated in app/auth.py). Each table is keyed by
    its primary key, so an INSERT on a key that is already present is
    rejected; that is the only schema rule the model assumes. */
module Store {
  import opened Wrappers
  import opened Text

  /** A `client` row without its key column. */
  datatype ClientRow = ClientRow(hashedkey: string, disabled: bool)

  /** `DBclient`: a whole `client` row as `read_client` returns it. */
  datatype DBClient = DBClient(name: string, hashedkey: string, disabled: bool)

  /** An `access` row: the client may request the scope. */
  datatype Grant = Grant(clientname: string, scopename: string)

  /** The three tables at one moment. */
  datatype Db = Db(clients: map<string, ClientRow>, scopes: map<string, string>, access: set<Grant>)

  /** Why a statement failed: an UPDATE or DELETE matched no row (the
      "not found" exception), or an INSERT hit an existing key. */
  datatype StoreError = NoRowMatched | DuplicateKey

  /** The number of rows the filter queries return at most (`LIMIT 30`). */
  const LIMIT: nat := 30

  /** `AccessList`: scope and client columns of the matched grants, in step. */
  datatype AccessList = AccessList(scopes: seq<string>, clients: seq<string>) {
    function Grants(): seq<Grant>
      requires |scopes| == |clients|
    {
      seq(|scopes|, i requires 0 <= i < |scopes| => Grant(clients[i], scopes[i]))
    }
  }

  /** `ScopesList`: name and owner columns of the matched scopes, in step. */
  datatype ScopesList = ScopesList(scopes: seq<string>, owners: seq<string>)

  // ---------------------------------------------------------------- reads

  /** `read_client`: the row whose name equals `name`, or nothing. */
  function ReadClient(db: Db, name: string): (r: Option<DBClient>)
    ensures r.Some? <==> name in db.clients
    ensures r.Some? ==> r.value == DBClient(name, db.clients[name].hashedkey, db.clients[name].disabled)
  {
    if name in db.clients then
      Some(DBClient(name, db.clients[name].hashedkey, db.clients[name].disabled))
    else
      None
  }

  /** `read_scope_owner`: the owner of the named scope, or nothing. */
  function ReadScopeOwner(db: Db, scope: string): (r: Option<string>)
    ensures r.Some? <==> scope in db.scopes
    ensures r.Some? ==> r.value == db.scopes[scope]
  {
    if scope in db.scopes then Some(db.scopes[scope]) else None
  }

  /** The scope names of the grant rows of `client`: the contents of the
      list `read_access` returns. */
  function GrantedScopes(db: Db, client: string): (granted: set<string>)
    ensures forall s :: s in granted <==> Grant(client, s) in db.access
  {
    set g | g in db.access && g.clientname == client :: g.scopename
  }

  /** `all(scope in has for scope in req)`, evaluated left to right. */
  function AllIn(req: seq<string>, has: set<string>): bool {
    req == [] || (req[0] in has && AllIn(req[1..], has))
  }

  /** `any(scope in has for scope in req)`, evaluated left to right. */
  function AnyIn(req: seq<string>, has: set<string>): bool {
    req != [] && (req[0] in has || AnyIn(req[1..], has))
  }

  lemma {:induction false} AllInIff(req: seq<string>, has: set<string>)
    ensures AllIn(req, has) <==> forall s :: s in req ==> s in has
  {
    if req != [] {
      AllInIff(req[1..], has);
      assert req == [req[0]] + req[1..];
    }
  }

  lemma {:induction false} AnyInIff(req: seq<string>, has: set<string>)
    ensures AnyIn(req, has) <==> exists s :: s in req && s in has
  {
    if req != [] {
      AnyInIff(req[1..], has);
      assert req == [req[0]] + req[1..];
    }
  }

  /** `has_all_scopes`: every requested scope is granted to `client`. */
  function HasAllScopes(db: Db, client: string, req: seq<string>): (b: bool)
    ensures b <==> forall s :: s in req ==> Grant(client, s) in db.access
  {
    AllInIff(req, GrantedScopes(db, client));
    AllIn(req, GrantedScopes(db, client))
  }

  /** `has_any_scopes`: some requested scope is granted to `client`. */
  function HasAnyScopes(db: Db, client: string, req: seq<string>): (b: bool)
    ensures b <==> exists s :: s in req && Grant(client, s) in db.access
  {
    AnyInIff(req, GrantedScopes(db, client));
    AnyIn(req, GrantedScopes(db, client))
  }

  /** An empty request is always satisfied by `has_all_scopes` and never by
      `has_any_scopes`, also for a client with no grant at all. */
  lemma EmptyRequest(db: Db, client: string)
    ensures HasAllScopes(db, client, [])
    ensures !HasAnyScopes(db, client, [])
  {
  }

  /** `has_all_scopes` holds for every request drawn from a request it holds for. */
  lemma HasAllScopesMonotone(db: Db, client: string, req: seq<string>, sub: seq<string>)
    requires HasAllScopes(db, client, req)
    requires forall s :: s in sub ==> s in req
    ensures HasAllScopes(db, client, sub)
  {
  }

  /** A non-empty request satisfied by `has_all_scopes` also satisfies
      `has_any_scopes`. */
  lemma AllImpliesAny(db: Db, client: string, req: seq<string>)
    requires req != [] && HasAllScopes(db, client, req)
    ensures HasAnyScopes(db, client, req)
  {
    assert req[0] in req;
  }

  /** The single row of `SELECT EXISTS (...)`; its one column says whether a
      matching grant row exists. */
  datatype ExistsRow = ExistsRow(found: bool)

  /** What `fetchone` returns for the EXISTS query of `check_access`: always
      one row, whatever the grants are. */
  function ExistsQuery(db: Db, client: string, scope: string): (r: Option<ExistsRow>)
    ensures r.Some?
    ensures r.value.found <==> Grant(client, scope) in db.access
  {
    Some(ExistsRow(Grant(client, scope) in db.access))
  }

  /** `check_access` as written: it tests whether a row came back, which the
      EXISTS query always does, so it answers true for every pair. */
  function CheckAccess(db: Db, client: string, scope: string): (b: bool)
    ensures b
  {
    ExistsQuery(db, client, scope).Some?
  }

  /** `check_access` as intended: read the row's column. */
  function CheckAccessIntended(db: Db, client: string, scope: string): (b: bool)
    ensures b <==> Grant(client, scope) in db.access
    ensures b ==> scope in GrantedScopes(db, client)
  {
    ExistsQuery(db, client, scope).value.found
  }

  /** A store with no grant at all: `check_access` as written still reports
      that the client holds `admin`; the intended test does not. */
  lemma CheckAccessIgnoresGrants(clients: map<string, ClientRow>, scopes: map<string, string>, client: string)
    ensures CheckAccess(Db(clients, scopes, {}), client, "admin")
    ensures !CheckAccessIntended(Db(clients, scopes, {}), client, "admin")
  {
  }

  /** The filter condition of `filter_clients`. */
  predicate ClientMatches(db: Db, name: string, filter: string, disabled: bool)
    requires name in db.clients
  {
    Like(Lower(name), Filterize(filter)) && db.clients[name].disabled == disabled
  }

  /** The filter condition of `filter_access`: both columns lowered. */
  predicate GrantMatches(g: Grant, clientFilter: string, scopeFilter: string) {
    Like(Lower(g.clientname), Filterize(clientFilter)) && Like(Lower(g.scopename), Filterize(scopeFilter))
  }

  /** The filter condition of `filter_scope`: the columns are NOT lowered,
      so a capital letter in a stored name or owner is never matched. */
  predicate ScopeMatches(name: string, owner: string, nameFilter: string, ownerFilter: string) {
    Like(name, Filterize(nameFilter)) && Like(owner, Filterize(ownerFilter))
  }

  /** A scope whose name has a capital letter is not found by a filter equal
      to its own name, although the same search on the lowered columns of
      `filter_access` would find it. */
  lemma ScopeFilterIsCaseSensitive(name: string, owner: string, ownerFilter: string, k: int)
    requires 0 <= k < |name| && IsUpper(name[k])
    ensures !ScopeMatches(name, owner, name, ownerFilter)
    ensures GrantMatches(Grant(owner, name), "", name)
  {
    CapitalColumnMissed(name, k);
    EmptyFilterMatchesAll(Lower(owner));
  }

  // ---------------------------------------------------------------- the store

  class CredentialStore {
    /** The column default of `client.disabled` (not part of this model's
        sources, so fixed at construction). */
    const defaultDisabled: bool
    var clients: map<string, ClientRow>
    var scopes: map<string, string>
    var access: set<Grant>

    constructor (defaultDisabled: bool)
      ensures this.defaultDisabled == defaultDisabled
      ensures clients == map[] && scopes == map[] && access == {}
    {
      this.defaultDisabled := defaultDisabled;
      clients, scopes, access := map[], map[], {};
    }

    function Snapshot(): (db: Db)
      reads this
      ensures db.clients == clients && db.scopes == scopes && db.access == access
    {
      Db(clients, scopes, access)
    }

    // ---- app/internal/clients.py

    /** `create_client`: store the name with the hash of the freshly drawn
        key and the default `disabled`, and hand back the plaintext key.
        `key` stands for `token_hex(32)` and `hashedkey` for its bcrypt hash. */
    method CreateClient(name: string, key: string, hashedkey: string) returns (r: Result<string, StoreError>)
      modifies this`clients
      ensures name in old(clients) ==> r == Failure(DuplicateKey) && clients == old(clients)
      ensures name !in old(clients) ==> r == Success(key) && clients == old(clients)[name := ClientRow(hashedkey, defaultDisabled)]
      ensures r.Success? ==> ReadClient(Snapshot(), name) == Some(DBClient(name, hashedkey, defaultDisabled))
    {
      if name in clients {
        return Failure(DuplicateKey);
      }
      clients := clients[name := ClientRow(hashedkey, defaultDisabled)];
      r := Success(key);
    }

    /** `set_disabled_client`: change the flag of an existing client;
        "not found" when no row has that name. */
    method SetDisabledClient(name: string, disabled: bool) returns (r: Outcome<StoreError>)
      modifies this`clients
      ensures name !in old(clients) ==> r == Fail(NoRowMatched) && clients == old(clients)
      ensures name in old(clients) ==> r == Pass && clients == old(clients)[name := ClientRow(old(clients)[name].hashedkey, disabled)]
      ensures clients.Keys == old(clients).Keys
      ensures forall n :: n in clients && n != name ==> clients[n] == old(clients)[n]
    {
      if name !in clients {
        return Fail(NoRowMatched);
      }
      clients := clients[name := ClientRow(clients[name].hashedkey, disabled)];
      r := Pass;
    }

    /** `reset_client_key`: replace the hash of an existing client and hand
        back the new key. There is no row-count check: for a missing name
        nothing changes and the key is still returned. */
    method ResetClientKey(name: string, key: string, hashedkey: string) returns (newKey: string)
      modifies this`clients
      ensures newKey == key
      ensures name !in old(clients) ==> clients == old(clients)
      ensures name in old(clients) ==> clients == old(clients)[name := ClientRow(hashedkey, old(clients)[name].disabled)]
    {
      if name in clients {
        clients := clients[name := ClientRow(hashedkey, clients[name].disabled)];
      }
      newKey := key;
    }

    /** `delete_client`: remove the named client; "not found" when no row
        matched. Scopes and grants are left as they are. */
    method DeleteClient(name: string) returns (r: Outcome<StoreError>)
      modifies this`clients
      ensures name !in old(clients) ==> r == Fail(NoRowMatched) && clients == old(clients)
      ensures name in old(clients) ==> r == Pass && clients == old(clients) - {name}
      ensures ReadClient(Snapshot(), name) == None
    {
      if name !in clients {
        return Fail(NoRowMatched);
      }
      clients := clients - {name};
      r := Pass;
    }

    /** `filter_clients`: names whose lowered text contains the lowered
        filter and whose flag equals `disabled`; at most 30 of them, in no
        particular order, and all of them when fewer than 30 match. */
    method FilterClients(filter: string, disabled: bool) returns (names: seq<string>)
      ensures |names| <= LIMIT && Distinct(names)
      ensures forall n :: n in names ==> n in clients && ClientMatches(Snapshot(), n, filter, disabled)
      ensures |names| < LIMIT ==> forall n :: n in clients && ClientMatches(Snapshot(), n, filter, disabled) ==> n in names
    {
      var db := Snapshot();
      var pattern := Filterize(filter);
      names := [];
      var rest := clients.Keys;
      while rest != {} && |names| < LIMIT
        invariant rest <= clients.Keys
        invariant |names| <= LIMIT && Distinct(names)
        invariant forall n :: n in names ==> n in clients && n !in rest && ClientMatches(db, n, filter, disabled)
        invariant forall n :: n in clients && n !in rest && ClientMatches(db, n, filter, disabled) ==> n in names
        decreases |rest|
      {
        var n :| n in rest;
        if Like(Lower(n), pattern) && clients[n].disabled == disabled {
          names := names + [n];
        }
        rest := rest - {n};
      }
    }

    // ---- app/internal/access.py

    /** `create_access`: insert the grant row; rejected when it exists. */
    method CreateAccess(client: string, scope: string) returns (r: Outcome<StoreError>)
      modifies this`access
      ensures Grant(client, scope) in old(access) ==> r == Fail(DuplicateKey) && access == old(access)
      ensures Grant(client, scope) !in old(access) ==> r == Pass && access == old(access) + {Grant(client, scope)}
      ensures Grant(client, scope) in access
    {
      if Grant(client, scope) in access {
        return Fail(DuplicateKey);
      }
      access := access + {Grant(client, scope)};
      r := Pass;
    }

    /** `read_access`: the scope names of the client's grant rows, each once,
        in no particular order. */
    method ReadAccess(client: string) returns (names: seq<string>)
      ensures forall s :: s in names <==> Grant(client, s) in access
      ensures Distinct(names)
    {
      names := [];
      var rest := access;
      while rest != {}
        invariant rest <= access
        invariant Distinct(names)
        invariant forall s :: s in names ==> Grant(client, s) in access && Grant(client, s) !in rest
        invariant forall g :: g in access && g !in rest && g.clientname == client ==> g.scopename in names
        decreases |rest|
      {
        var g :| g in rest;
        if g.clientname == client {
          names := names + [g.scopename];
        }
        rest := rest - {g};
      }
    }

    /** `filter_access`: the grants whose lowered client and scope names
        contain the lowered filters, as two lists in step; at most 30 rows,
        all of them when fewer match, both lists empty when none does. */
    method FilterAccess(clientFilter: string, scopeFilter: string) returns (list: AccessList)
      ensures |list.scopes| == |list.clients| <= LIMIT
      ensures Distinct(list.Grants())
      ensures forall g :: g in list.Grants() ==> g in access && GrantMatches(g, clientFilter, scopeFilter)
      ensures |list.scopes| < LIMIT ==> forall g :: g in access && GrantMatches(g, clientFilter, scopeFilter) ==> g in list.Grants()
    {
      var rows: seq<Grant> := [];
      var rest := access;
      while rest != {} && |rows| < LIMIT
        invariant rest <= access
        invariant |rows| <= LIMIT && Distinct(rows)
        invariant forall g :: g in rows ==> g in access && g !in rest && GrantMatches(g, clientFilter, scopeFilter)
        invariant forall g :: g in access && g !in rest && GrantMatches(g, clientFilter, scopeFilter) ==> g in rows
        decreases |rest|
      {
        var g :| g in rest;
        if GrantMatches(g, clientFilter, scopeFilter) {
          rows := rows + [g];
        }
        rest := rest - {g};
      }
      list := AccessList(seq(|rows|, i requires 0 <= i < |rows| => rows[i].scopename),
                         seq(|rows|, i requires 0 <= i < |rows| => rows[i].clientname));
      assert list.Grants() == rows;
    }

    /** `delete_access`: remove exactly the pair; "not found" when absent. */
    method DeleteAccess(client: string, scope: string) returns (r: Outcome<StoreError>)
      modifies this`access
      ensures Grant(client, scope) !in old(access) ==> r == Fail(NoRowMatched) && access == old(access)
      ensures Grant(client, scope) in old(access) ==> r == Pass && access == old(access) - {Grant(client, scope)}
      ensures !HasAllScopes(Snapshot(), client, [scope])
    {
      if Grant(client, scope) !in access {
        return Fail(NoRowMatched);
      }
      access := access - {Grant(client, scope)};
      r := Pass;
    }

    // ---- app/internal/scopes.py

    /** `create_scope`: insert the scope row, then grant the owner access to
        it. The two inserts are separate steps: when the grant row already
        exists the second insert fails, and the scope row of the first one
        stays. */
    method CreateScope(name: string, owner: string) returns (r: Outcome<StoreError>)
      modifies this`scopes, this`access
      ensures name in old(scopes) ==> r == Fail(DuplicateKey) && scopes == old(scopes) && access == old(access)
      ensures name !in old(scopes) ==> scopes == old(scopes)[name := owner]
      ensures name !in old(scopes) && Grant(owner, name) in old(access) ==> r == Fail(DuplicateKey) && access == old(access)
      ensures name !in old(scopes) && Grant(owner, name) !in old(access) ==> r == Pass && access == old(access) + {Grant(owner, name)}
      ensures r.Pass? ==> ReadScopeOwner(Snapshot(), name) == Some(owner) && HasAllScopes(Snapshot(), owner, [name])
    {
      if name in scopes {
        return Fail(DuplicateKey);
      }
      scopes := scopes[name := owner];
      r := CreateAccess(owner, name);
    }

    /** `filter_scope`: scopes whose raw name and owner contain the lowered
        filters; at most 30, all of them when fewer match. */
    method FilterScope(nameFilter: string, ownerFilter: string) returns (list: ScopesList)
      ensures |list.scopes| == |list.owners| <= LIMIT && Distinct(list.scopes)
      ensures forall i :: 0 <= i < |list.scopes| ==>
                list.scopes[i] in scopes && scopes[list.scopes[i]] == list.owners[i]
                && ScopeMatches(list.scopes[i], list.owners[i], nameFilter, ownerFilter)
      ensures |list.scopes| < LIMIT ==>
                forall n :: n in scopes && ScopeMatches(n, scopes[n], nameFilter, ownerFilter) ==> n in list.scopes
    {
      var names: seq<string> := [];
      var owners: seq<string> := [];
      var rest := scopes.Keys;
      while rest != {} && |names| < LIMIT
        invariant rest <= scopes.Keys
        invariant |names| == |owners| <= LIMIT && Distinct(names)
        invariant forall i :: 0 <= i < |names| ==>
                    names[i] in scopes && names[i] !in rest && scopes[names[i]] == owners[i]
                    && ScopeMatches(names[i], owners[i], nameFilter, ownerFilter)
        invariant forall n :: n in scopes && n !in rest && ScopeMatches(n, scopes[n], nameFilter, ownerFilter) ==> n in names
        decreases |rest|
      {
        var n :| n in rest;
        if ScopeMatches(n, scopes[n], nameFilter, ownerFilter) {
          names, owners := names + [n], owners + [scopes[n]];
        }
        rest := rest - {n};
      }
      list := ScopesList(names, owners);
    }

    /** `delete_scope`: remove the scope row only; "not found" when absent.
        Grant rows naming the scope are not touched. */
    method DeleteScope(name: string) returns (r: Outcome<StoreError>)
      modifies this`scopes
      ensures name !in old(scopes) ==> r == Fail(NoRowMatched) && scopes == old(scopes)
      ensures name in old(scopes) ==> r == Pass && scopes == old(scopes) - {name}
    {
      if name !in scopes {
        return Fail(NoRowMatched);
      }
      scopes := scopes - {name};
      r := Pass;
    }
  }
}
