/** Authentication and login (app/internal/auth.py; the same code is in
    app/auth.py and, for `authenticate_client`, in app/internal/clients.py).
    Both read a snapshot of the store and change nothing. The login endpoint
    is the resource owner password credentials grant of section 4.3 of
    RFC 6749. bcrypt's `verify` is the parameter `verify`. */
module Login {
  import opened Store
  import opened Tokens

  datatype AuthenticateResult = Success | ClientNotFound | InvalidKey | ClientDisabled | NotAuthorized

  /** `login` returns a signed token or the reason it refused; the token is
      the claims it carries. */
  datatype LoginResult = Issued(token: Claims) | Refused(reason: AuthenticateResult)

  /** `authenticate_client`: look the client up, then test the flag, then
      the key; each test stops at the first failure. */
  function AuthenticateClient(db: Db, name: string, key: string, verify: (string, string) -> bool): (r: AuthenticateResult)
    ensures r != NotAuthorized
    ensures name !in db.clients ==> r == ClientNotFound
    ensures name in db.clients && db.clients[name].disabled ==> r == ClientDisabled
    ensures r == InvalidKey <==>
              name in db.clients && !db.clients[name].disabled && !verify(key, db.clients[name].hashedkey)
    ensures r == Success <==>
              name in db.clients && !db.clients[name].disabled && verify(key, db.clients[name].hashedkey)
  {
    var client := ReadClient(db, name);
    if client.None? then ClientNotFound
    else if client.value.disabled then ClientDisabled
    else if !verify(key, client.value.hashedkey) then InvalidKey
    else Success
  }

  /** A missing client is reported before any key is looked at: the answer
      is the same for every verifier. */
  lemma NotFoundBeforeKey(db: Db, name: string, key: string, v1: (string, string) -> bool, v2: (string, string) -> bool)
    requires name !in db.clients
    ensures AuthenticateClient(db, name, key, v1) == AuthenticateClient(db, name, key, v2) == ClientNotFound
  {
  }

  /** A disabled client is reported as disabled even with the right key. */
  lemma DisabledBeforeKey(db: Db, name: string, key: string, verify: (string, string) -> bool)
    requires name in db.clients && db.clients[name].disabled
    requires verify(key, db.clients[name].hashedkey)
    ensures AuthenticateClient(db, name, key, verify) == ClientDisabled
  {
  }

  /** `login`: authenticate, then check the requested scopes, then issue. */
  function Login(db: Db, name: string, key: string, req: seq<string>,
                 verify: (string, string) -> bool, issuer: string, now: int): (r: LoginResult)
    ensures AuthenticateClient(db, name, key, verify) != Success ==>
              r == Refused(AuthenticateClient(db, name, key, verify))
    ensures AuthenticateClient(db, name, key, verify) == Success ==>
              (r == Refused(NotAuthorized) <==> exists s :: s in req && Grant(name, s) !in db.access)
    ensures r.Issued? <==>
              AuthenticateClient(db, name, key, verify) == Success && forall s :: s in req ==> Grant(name, s) in db.access
    ensures r.Issued? ==> r.token.sub == name && r.token.iss == issuer && r.token.aud == req && r.token.exp == now + 1800
    ensures r.Refused? ==> r.reason != Success
  {
    var authenticated := AuthenticateClient(db, name, key, verify);
    if authenticated != Success then Refused(authenticated)
    else if !HasAllScopes(db, name, req) then Refused(NotAuthorized)
    else Issued(CreateToken(name, req, issuer, now))
  }

  /** An empty scope request never fails the scope check. */
  lemma EmptyRequestPassesScopeCheck(db: Db, name: string, key: string, verify: (string, string) -> bool, issuer: string, now: int)
    requires AuthenticateClient(db, name, key, verify) == Success
    ensures Login(db, name, key, [], verify, issuer, now).Issued?
  {
  }

  /** Every scope of the principal that an issued token later yields was
      granted to the client when the token was issued. */
  lemma LoginThenAuthorize(db: Db, name: string, key: string, req: seq<string>,
                           verify: (string, string) -> bool, issuer: string, issuedAt: int, now: int)
    requires Login(db, name, key, req, verify, issuer, issuedAt).Issued?
    requires issuedAt <= now < issuedAt + 1800
    ensures var p := AuthorizeToken(Decode(Login(db, name, key, req, verify, issuer, issuedAt).token, issuer, now, true, true));
            p.Some? && p.value.clientname == name && p.value.scopes == req
            && forall s :: p.value.HasScope(s) ==> Grant(name, s) in db.access
  {
    IssueThenAuthorize(name, req, issuer, issuedAt, now);
  }

  /** Two clients: `wolfey` holds `basic`, `admin` and `CHAD`, `alice` holds
      nothing. With her correct key alice is refused `admin`; wolfey gets a
      token whose audience contains it. */
  lemma WolfeyAndAlice(verify: (string, string) -> bool, aliceKey: string, aliceHash: string,
                       wolfeyKey: string, wolfeyHash: string, issuer: string, now: int)
    requires verify(aliceKey, aliceHash) && verify(wolfeyKey, wolfeyHash)
    ensures var db := Db(map["alice" := ClientRow(aliceHash, false), "wolfey" := ClientRow(wolfeyHash, false)],
                         map["basic" := "wolfey", "admin" := "wolfey", "CHAD" := "wolfey"],
                         {Grant("wolfey", "basic"), Grant("wolfey", "admin"), Grant("wolfey", "CHAD")});
            Login(db, "alice", aliceKey, ["admin"], verify, issuer, now) == Refused(NotAuthorized)
            && Login(db, "wolfey", wolfeyKey, ["admin"], verify, issuer, now).Issued?
            && "admin" in Login(db, "wolfey", wolfeyKey, ["admin"], verify, issuer, now).token.aud
  {
    var db := Db(map["alice" := ClientRow(aliceHash, false), "wolfey" := ClientRow(wolfeyHash, false)],
                 map["basic" := "wolfey", "admin" := "wolfey", "CHAD" := "wolfey"],
                 {Grant("wolfey", "basic"), Grant("wolfey", "admin"), Grant("wolfey", "CHAD")});
    assert "admin" in ["admin"] && Grant("alice", "admin") !in db.access;
  }
}
