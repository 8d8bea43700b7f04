# wolfeyauth authorization kernel in Dafny

This project models the authorization kernel of wolfeyauth. wolfeyauth is a
service that issues signed access tokens to clients, keeps a permission model
of clients, scopes and access grants, and guards every change to that model
with privilege rules.

The model has one in-memory credential store, the class
`Store.CredentialStore`. It has three relations:

- `clients`: name ↦ (hashed key, disabled flag)
- `scopes`: name ↦ owner
- `access`: a set of (client name, scope name) grants

The store's methods are the table operations of `app/internal/clients.py`,
`app/internal/access.py` and `app/internal/scopes.py`. Each INSERT, UPDATE and
DELETE is one atomic step. The only schema rule assumed is the primary key of
each table, so an INSERT on a key that is already present fails. An UPDATE or
DELETE that matches no row fails with "not found". `reset_client_key` is the
one exception: it has no such check.

Read-only logic is written as functions over `Db`, a snapshot of the three
tables:

- `read_client` and `read_scope_owner`
- the scope resolver: `has_all_scopes`, `has_any_scopes` and `check_access`
- `authenticate_client` and `login`
- the privilege guards of `app/dependencies.py`

Login follows the resource owner password credentials grant of section 4.3 of
RFC 6749. A token is the record of its registered claims `sub`, `iss`, `aud`
and `exp`, as defined in section 4.1 of RFC 7519. The router handlers of
`app/routers/clients.py`, `app/routers/access.py` and `app/routers/scopes.py`
are methods. Each one runs its guard, then the store operation, then maps the
outcome to `Ok`, `Forbidden`, `NotFound` or `Conflict`.

Some inputs come from outside the model and are passed in as parameters:

- bcrypt's `verify` is a function parameter. bcrypt's `hash` and
  `token_hex(32)` are random, so their results are the inputs `hashedkey` and
  `key`.
- `now` is an integer number of seconds.
- `AUTH_ISSUER` is the parameter `issuer`.
- `RESERVED_SCOPES` and the result of `get_reserved_access` are parameters.
  Neither is defined in the modelled files.

The code is followed wherever it disagrees with the service's design. The
differences are:

- `check_access` answers true for every pair (see Findings). The routers and
  `try_edit_user` are therefore modelled with that answer.
  `Dependencies.TryEditUserIntended` and
  `AccessRouter.RevocationKeyedOnSubject` show the guards with the intended
  membership test.
- Scope creation makes no reserved-name check. Creating `admin` or `CHAD` is
  refused only when that scope row already exists, or when the actor already
  holds a grant on that name (for example after `delete_scope`, which leaves
  grants in place). In the second case the answer is 403 but the new scope
  row stays.
- The `delete_access` guard asks whether the subject holds `admin`. It does not
  look at which scope is being removed.
- `reset_client_key` never reports a missing client. `update_client_key`
  therefore answers a missing subject with a fresh key.
- `filter_scope` does not lower-case its columns.
- Failed grant and scope inserts are answered with 403, not 409. A scope
  that is not found is answered with 403, not 404.

## The duplicate copies

`app/auth.py` is an older single-file copy of the same operations. The model
has one member for each operation, shared by both copies:

- `create_client`, `read_client`, `set_disabled_client`, `delete_client` and
  `filter_client` (app/auth.py:81-156) are the `CredentialStore` client methods
  and `Store.ReadClient`.
- `create_scope`, `filter_scope`, `delete_scope` and `read_scope_owner`
  (app/auth.py:159-207, 243-256) are `CreateScope`, `FilterScope`,
  `DeleteScope` and `Store.ReadScopeOwner`.
- `read_scopes`, `has_all_scopes` and `has_any_scopes` (app/auth.py:229-266)
  are `ReadAccess`, `Store.HasAllScopes` and `Store.HasAnyScopes`.
- `create_access`, `check_access`, `filter_access` and `delete_access`
  (app/auth.py:269-334) are the `CredentialStore` grant methods and
  `Store.CheckAccess`.
- `authenticate_client`, `create_token`, `login`, `client` and `authorize_token`
  (app/auth.py:218-226, 337-391) are `Login.AuthenticateClient`,
  `Tokens.CreateToken`, `Login.Login`, `Tokens.Principal` and
  `Tokens.AuthorizeToken`.

`authenticate_client` and `AuthenticateResult` also appear in
app/internal/clients.py:45-61, where they are the same as in
app/internal/auth.py.

app/internal/auth.py:10 imports `has_all_scopes` from a module that does not
define it. The model uses the one in app/internal/access.py:47-49.

app/routers/clients.py:67 calls a `reset_client_key` that app/auth.py does not
define. The model uses the one in app/internal/clients.py:95-107.

app/routers/api/scopes.py runs the same handlers as app/routers/scopes.py
over the same store operations. Both are modelled by module `ScopesRouter`.

## Model

| member | source | states |
|---|---|---|
| `Text.Filterize` | app/internal/db.py:19-20 | the pattern starts and ends with `%`, is two characters longer than the filter, and has no upper-case ASCII letter |
| `Text.FilterizeIgnoresCase` | app/internal/db.py:20 | filters that differ only in ASCII letter case give the same pattern |
| `Text.LikeFilterize` | app/internal/clients.py:64-75 | `value LIKE filterize(f)` holds iff the lowered filter occurs in the value |
| `Text.EmptyFilterMatchesAll` | app/routers/clients.py:41-46 | the default empty filter becomes `%%`, which matches every value |
| `Text.CapitalColumnMissed` | app/internal/scopes.py:45-49 | a column value with any ASCII capital is not matched by a filter equal to itself, but its lowered form is |
| `Tokens.CreateToken` | app/internal/auth.py:79-82 | the claims are sub = client, iss = issuer, aud = the requested list exactly, and exp = now + 1800 s (TOKEN_LIFETIME_MINUTES = 30, line 18) |
| `Tokens.Principal.HasScope` | app/internal/auth.py:108-109 | `count(scope) != 0` holds iff the scope occurs in the principal's list |
| `Tokens.Principal.IsChad` | app/internal/auth.py:111-112 | true iff `CHAD` is among the principal's scopes |
| `Tokens.Principal.IsAdmin` | app/internal/auth.py:114-115 | true iff `admin` is among the principal's scopes |
| `Tokens.Decode` | app/internal/auth.py:124-131 | decoding succeeds iff the signature and audience are accepted, the issuer matches and now < exp; the payload is the token's claims |
| `Tokens.AuthorizeToken` | app/internal/auth.py:118-133 | a decoded payload gives a principal named by `sub` whose scopes are exactly `aud`; a decode failure gives none |
| `Tokens.IssueThenAuthorize` | app/auth.py:337-391 | a token created at t and presented before t + 1800 gives back the client and exactly the scopes it was issued for |
| `Tokens.ExpiredTokenRefused` | app/internal/auth.py:80 | from t + 1800 on, a token created at t is refused whatever its signature and audience |
| `Tokens.ForeignIssuerRefused` | app/internal/auth.py:127 | a token of another issuer is refused |
| `Login.AuthenticateClient` | app/internal/auth.py:68-76 | the order is NOT_FOUND, then DISABLED, then INVALID_KEY; SUCCESS iff the row exists, is enabled and the key verifies; never NOT_AUTHORIZED |
| `Login.NotFoundBeforeKey` | app/internal/auth.py:69-71 | a missing client gives NOT_FOUND whatever the verifier says, because the key is not consulted |
| `Login.DisabledBeforeKey` | app/internal/clients.py:57-60 | a disabled client gives DISABLED even when its key verifies |
| `Login.Login` | app/internal/auth.py:85-101 | a failed authentication is returned unchanged; after success the result is NOT_AUTHORIZED iff some requested scope is not granted; a token is issued iff both checks pass, with sub, iss, aud = request and exp = now + 1800 |
| `Login.EmptyRequestPassesScopeCheck` | app/internal/auth.py:96-98 | an authenticated client with an empty scope request always gets a token |
| `Login.LoginThenAuthorize` | app/internal/auth.py:85-133 | every scope of the principal decoded from a login token before it expires was granted to that client at login |
| `Login.WolfeyAndAlice` | app/auth.py:343-359 | with alice holding nothing and wolfey holding basic, admin and CHAD, alice is refused `admin` with her correct key and wolfey gets a token whose aud contains `admin` |
| `Store.ReadClient` | app/internal/clients.py:31-42 | the row whose name equals the argument, or none when no row has that name |
| `Store.ReadScopeOwner` | app/internal/scopes.py:18-31 | the owner of the named scope, or none when absent |
| `Store.GrantedScopes` | app/internal/access.py:37-44 | exactly the scope names s with a grant row (client, s) |
| `Store.HasAllScopes` | app/internal/access.py:47-49 | true iff every requested scope is granted to the client |
| `Store.HasAnyScopes` | app/auth.py:264-266 | true iff some requested scope is granted to the client |
| `Store.EmptyRequest` | app/internal/access.py:47-54 | an empty request satisfies `has_all_scopes` and never `has_any_scopes`, also for a client with no grants |
| `Store.HasAllScopesMonotone` | app/internal/access.py:47-49 | a request drawn from one that `has_all_scopes` accepts is accepted too |
| `Store.AllImpliesAny` | app/internal/access.py:47-54 | a non-empty request that passes `has_all_scopes` passes `has_any_scopes` |
| `Store.ExistsQuery` | app/internal/access.py:18-29 | the EXISTS query always returns one row; its column is true iff the grant exists |
| `Store.CheckAccess` | app/internal/access.py:16-30 | as written, answers true for every pair |
| `Store.CheckAccessIntended` | app/auth.py:280-294 | with the row's column read, true iff the grant exists |
| `Store.CheckAccessIgnoresGrants` | app/internal/access.py:29-30 | with no grant at all, the written check still says the client holds `admin`; the intended one does not |
| `Store.ScopeFilterIsCaseSensitive` | app/internal/scopes.py:45-49 | a scope whose name has a capital is missed by a name filter equal to its own name, whatever the owner filter; a grant on it is found by the same scope filter in `filter_access` |
| `Store.CredentialStore.CreateClient` | app/internal/clients.py:17-28 | a new name is stored with the given hash and the column default for `disabled`, and the plaintext key is returned; an existing name is rejected with the table unchanged |
| `Store.CredentialStore.SetDisabledClient` | app/internal/clients.py:81-92 | an existing client gets the new flag and keeps its hash, and no other client changes; a missing name is "not found" with the table unchanged |
| `Store.CredentialStore.ResetClientKey` | app/internal/clients.py:95-107 | an existing client gets the new hash and keeps its flag; a missing name changes nothing; the key is returned in both cases, with no error |
| `Store.CredentialStore.DeleteClient` | app/internal/clients.py:110-120 | exactly the named client is removed, or "not found" with the table unchanged; scopes and grants stay |
| `Store.CredentialStore.FilterClients` | app/internal/clients.py:64-78 | at most 30 distinct names; each has the given flag and a lowered name containing the lowered filter; all matches when fewer than 30 |
| `Store.CredentialStore.CreateAccess` | app/internal/access.py:5-13 | adds the pair to the grant relation, or rejects an existing pair with the relation unchanged |
| `Store.CredentialStore.ReadAccess` | app/internal/access.py:33-44 | the list holds exactly the scopes granted to the client, each once |
| `Store.CredentialStore.FilterAccess` | app/auth.py:302-320 | parallel scope and client lists of equal length ≤ 30, distinct existing grants matching both lowered filters, all matches when fewer than 30, both empty when none match |
| `Store.CredentialStore.DeleteAccess` | app/internal/access.py:83-94 | removes exactly the pair and leaves other grants; an absent pair is "not found" with the relation unchanged; afterwards `has_all_scopes` for that scope is false |
| `Store.CredentialStore.CreateScope` | app/internal/scopes.py:6-15 | inserts (name, owner) and then the owner's grant, after which `has_all_scopes(owner, [name])` holds; a failing grant insert leaves the new scope row in place |
| `Store.CredentialStore.FilterScope` | app/internal/scopes.py:39-57 | equal-length name and owner lists ≤ 30 of distinct existing scopes whose raw name and owner contain the lowered filters; all matches when fewer than 30 |
| `Store.CredentialStore.DeleteScope` | app/internal/scopes.py:60-70 | removes only the named scope row, or "not found" with the table unchanged; grants are not touched |
| `Dependencies.TryEditUser` | app/dependencies.py:38-47 | as written, editing is allowed iff the subject is the actor or the actor is a CHAD |
| `Dependencies.TryEditUserIntended` | app/dependencies.py:38-47 | with the membership test, editing is allowed iff the subject is the actor, the actor is a CHAD, or the subject does not hold `admin` |
| `Dependencies.SelfAndChadMayEdit` | app/dependencies.py:39-41 | self-edits and CHAD actors are never forbidden, with either check |
| `Dependencies.LiteralCheckForbidsEveryOther` | app/dependencies.py:38-47 | as written, a non-CHAD actor is forbidden to edit any other client, even with no grants at all; the intended check would allow it |
| `Dependencies.TryGrantAccess` | app/dependencies.py:50-55 | granting is allowed iff the scope is not reserved or the actor is a CHAD |
| `Dependencies.ElevatedGrantNeedsChad` | app/dependencies.py:14-19 | when `admin` and `CHAD` are reserved, a non-CHAD actor cannot grant either |
| `Dependencies.ReservedRequest` | app/dependencies.py:58-62 | the merged request holds `basic`, every requested scope and every owned reserved scope, and nothing else |
| `Dependencies.ReservedRequestIdempotent` | app/dependencies.py:58-62 | merging again with the same owned reserved scopes asks for the same set |
| `Dependencies.AddReserved` | app/dependencies.py:58-62 | the form's scopes become a duplicate-free list of exactly the merged request |
| `Dependencies.AuthorizeClientApi` | app/dependencies.py:23-35 | any decoding failure is 401; otherwise the decoded principal |
| `Dependencies.CookieAuth` | app/dependencies.py:65-84 | a missing cookie redirects to /login whatever the decoder would say; a decoding failure also redirects; otherwise the decoded principal |
| `ClientsRouter.CreateClient` | app/routers/clients.py:12-18 | a duplicate name is 409 with the store unchanged; otherwise the client is stored and its key returned |
| `ClientsRouter.ReadClient` | app/routers/clients.py:31-38 | a missing name is 404; otherwise only name and flag are exposed |
| `ClientsRouter.ReadClients` | app/routers/clients.py:41-46 | at most 30 distinct clients, each with the given flag and a lowered name containing the lowered filter; all matches when fewer than 30; with the default empty filter, all clients with that flag when fewer than 30 |
| `ClientsRouter.UpdateClientDisabled` | app/routers/clients.py:49-60 | a refused edit guard is 403 with the store unchanged; a missing subject is 404; otherwise exactly that flag changes |
| `ClientsRouter.UpdateClientKey` | app/routers/clients.py:63-70 | never 404: after the guard passes, even a missing subject gets a fresh key, with nothing stored |
| `ClientsRouter.DeleteClient` | app/routers/clients.py:73-83 | the guard, then the delete; a missing subject is 404; otherwise exactly that client is removed |
| `AccessRouter.CreateAccess` | app/routers/access.py:11-25 | a reserved scope by a non-CHAD is 403 with the store unchanged; a failed insert is 403, never 409; otherwise the pair is added |
| `AccessRouter.RevocationForbidden` | app/routers/access.py:37-38 | the guard refuses iff the subject holds `admin` and the actor is not a CHAD |
| `AccessRouter.DeleteAccess` | app/routers/access.py:35-51 | as written, every non-CHAD actor is 403 with the store unchanged; for a CHAD, a missing grant is 404 and otherwise exactly the pair is removed |
| `AccessRouter.RevocationKeyedOnSubject` | app/routers/access.py:37-42 | with the intended check, a non-CHAD is refused iff the subject holds `admin`, whatever scope is removed |
| `ScopesRouter.CreateScope` | app/routers/scopes.py:11-21 | no reserved-name check; the owner is the actor; an existing name or existing self-grant is 403; on success the scope and self-grant exist |
| `ScopesRouter.DeleteScopeAllowed` | app/routers/api/scopes.py:33-38 | the guard passes iff the scope exists with the actor as owner, or the actor is a CHAD |
| `ScopesRouter.OwnerMayDelete` | app/routers/api/scopes.py:34 | the recorded owner always passes the guard |
| `ScopesRouter.OthersMayNotDelete` | app/routers/scopes.py:33-38 | an admin that is neither owner nor CHAD is refused |
| `ScopesRouter.DeleteScope` | app/routers/api/scopes.py:31-47 | success iff the guard passes and the scope exists, removing exactly that row; an absent scope is always 403; grants remain |

## Findings

| source | as written | input that shows it | evidently intended | confidence | as-written member | corrected member |
|---|---|---|---|---|---|---|
| app/internal/access.py:29-30 | `check_access` returns `res is not None`. `SELECT EXISTS (...)` always returns one row, so the answer is true for every pair (same in app/auth.py:293-294). | any pair without a grant, e.g. an empty access table and (c, "admin"): the check says true (`Store.CheckAccessIgnoresGrants`) | return the row's boolean column | high; not executed | `Store.CheckAccess` | `Store.CheckAccessIntended` |

Because of this finding, `try_edit_user` forbids every non-CHAD actor from
editing another client, and `delete_access` forbids every non-CHAD actor
outright. The router models keep that behaviour, because it is what the
service does. The corrected check is used by
`Dependencies.TryEditUserIntended` and `AccessRouter.RevocationKeyedOnSubject`.

## Left out

- RS256 signing and verification, and PyJWT's audience matching. They are
  foreign library calls. `Tokens.Decode` takes the signature and audience
  verdicts as inputs and does not choose between subset and intersection
  semantics. It models only the issuer match, the four required claims (a
  `Claims` record always has them) and `exp`. `exp` is checked with no leeway.
- The bcrypt hash and verify, and `token_hex`. They are a foreign library and
  randomness. They appear as the inputs `verify`, `hashedkey` and `key`.
- PEM key loading, environment variables and the global key variables
  (`get_private_key`, `update_private_key`, `get_public_key`,
  `update_public_key`). These are file I/O and process state.
- The async connection pool and cursors. They are I/O and concurrency, so
  each store call is one atomic step. Database failures other than a
  duplicate key are not modelled.
- Foreign keys, cascades and the column default of `disabled`. The schema is
  not part of this model. Grants may name missing clients or scopes. The
  default of `disabled` is the constructor parameter `defaultDisabled`.
- SQL `LIKE` wildcards and escapes inside user-supplied filters. They are
  compared literally. Row order under `LIMIT 30` is left open, because the
  queries have no `ORDER BY`.
- Case mapping beyond ASCII letters in `str.lower` and SQL `LOWER`. Unicode
  tables are not modelled.
- FastAPI wiring, cookies, templates, `read_me`, the token endpoint, and the
  list handlers `read_scopes` (app/routers/scopes.py and
  app/routers/api/scopes.py) and `read_access` (app/routers/access.py), which
  only forward to `filter_scope` and `filter_access`. These are HTTP plumbing.
  Response bodies other than the returned key, the client info and name
  lists are reduced to `()`.
- queries.py, app/codegen.py and the bootstrap scripts. They are generated
  code and one-shot seeding.
- `Store.CredentialStore.CreateClient`: does not state that the plaintext key
  is absent from the store, because the hash is an input unrelated to the key
  in this model.
