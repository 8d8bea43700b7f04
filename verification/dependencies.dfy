/** The request dependencies of app/dependencies.py: the privilege guards the
    routers run before they change the store, the scope merge done before a
    browser login, and how a token failure becomes a response. */
module Dependencies {
  import opened Wrappers
  import opened Store
  import opened Tokens

  /** The scopes that only a CHAD may grant. `RESERVED_SCOPES` itself is
      defined outside this model's sources, so the guards take it as a
      parameter; these are the two elevated scopes the service declares. */
  const ELEVATED: set<string> := {"admin", "CHAD"}

  /** `try_edit_user` as written: the actor may edit `sub` unless it is
      someone else, the actor is not a CHAD, and `check_access(sub, "admin")`
      answers true. Because that check answers true for every pair, only
      self-edits and CHADs get through. */
  function TryEditUser(db: Db, sub: string, actor: Principal): (allowed: bool)
    ensures allowed <==> sub == actor.clientname || "CHAD" in actor.scopes
  {
    !(sub != actor.clientname && !actor.IsChad() && CheckAccess(db, sub, "admin"))
  }

  /** `try_edit_user` with the membership test `check_access` was meant to
      make: only a CHAD may edit another client that holds `admin`. */
  function TryEditUserIntended(db: Db, sub: string, actor: Principal): (allowed: bool)
    ensures allowed <==> sub == actor.clientname || "CHAD" in actor.scopes || Grant(sub, "admin") !in db.access
  {
    !(sub != actor.clientname && !actor.IsChad() && CheckAccessIntended(db, sub, "admin"))
  }

  /** Editing oneself is never forbidden, and a CHAD is never forbidden. */
  lemma SelfAndChadMayEdit(db: Db, sub: string, actor: Principal)
    requires sub == actor.clientname || actor.IsChad()
    ensures TryEditUser(db, sub, actor) && TryEditUserIntended(db, sub, actor)
  {
  }

  /** With the check as written, an admin that is not a CHAD cannot edit any
      other client, even one without `admin`; with the intended check it can. */
  lemma LiteralCheckForbidsEveryOther(sub: string, actor: Principal)
    requires sub != actor.clientname && !actor.IsChad()
    ensures !TryEditUser(Db(map[], map[], {}), sub, actor)
    ensures TryEditUserIntended(Db(map[], map[], {}), sub, actor)
  {
  }

  /** `try_grant_access`: granting a reserved scope needs a CHAD; any other
      scope passes. */
  function TryGrantAccess(actor: Principal, service: string, reserved: set<string>): (allowed: bool)
    ensures allowed <==> service !in reserved || "CHAD" in actor.scopes
  {
    !(service in reserved && !actor.IsChad())
  }

  /** Neither `admin` nor `CHAD` can be granted by an actor that is not a
      CHAD, whenever both are reserved. */
  lemma ElevatedGrantNeedsChad(actor: Principal, service: string, reserved: set<string>)
    requires ELEVATED <= reserved && service in ELEVATED && !actor.IsChad()
    ensures !TryGrantAccess(actor, service, reserved)
  {
  }

  /** The scope set `add_reserved` asks for: the requested scopes, the
      reserved scopes the client already owns, and `basic`. */
  function ReservedRequest(requested: seq<string>, ownedReserved: seq<string>): (s: set<string>)
    ensures "basic" in s
    ensures forall x :: x in requested || x in ownedReserved ==> x in s
    ensures forall x :: x in s ==> x in requested || x in ownedReserved || x == "basic"
  {
    (set x | x in requested) + (set x | x in ownedReserved) + {"basic"}
  }

  /** Running `add_reserved` on a list it produced asks for the same scopes
      again. */
  lemma ReservedRequestIdempotent(requested: seq<string>, ownedReserved: seq<string>, merged: seq<string>)
    requires forall x :: x in merged <==> x in ReservedRequest(requested, ownedReserved)
    ensures ReservedRequest(merged, ownedReserved) == ReservedRequest(requested, ownedReserved)
  {
  }

  /** `list(scopes)`: the elements of a set, each once, in no particular order. */
  method ListOfSet(s: set<string>) returns (list: seq<string>)
    ensures Distinct(list)
    ensures forall x :: x in list <==> x in s
  {
    list := [];
    var rest := s;
    while rest != {}
      invariant rest <= s
      invariant Distinct(list)
      invariant forall x :: x in list <==> x in s && x !in rest
      decreases |rest|
    {
      var x :| x in rest;
      list := list + [x];
      rest := rest - {x};
    }
  }

  /** The fields of `OAuth2PasswordRequestForm` this model uses. */
  class PasswordForm {
    var username: string
    var password: string
    var scopes: seq<string>

    constructor (username: string, password: string, scopes: seq<string>)
      ensures this.username == username && this.password == password && this.scopes == scopes
    {
      this.username, this.password, this.scopes := username, password, scopes;
    }
  }

  /** `add_reserved`: overwrite the form's scopes with the duplicate-free
      list of `ReservedRequest`. `ownedReserved` is what
      `get_reserved_access(form.username)` returns. */
  method AddReserved(form: PasswordForm, ownedReserved: seq<string>)
    modifies form`scopes
    ensures Distinct(form.scopes)
    ensures forall x :: x in form.scopes <==> x in ReservedRequest(old(form.scopes), ownedReserved)
  {
    form.scopes := ListOfSet(ReservedRequest(form.scopes, ownedReserved));
  }

  /** What a router handler answers: its body, or the HTTP error it raises
      (403, 404 or 409). */
  datatype Response<+T> = Ok(body: T) | Forbidden | NotFound | Conflict

  /** How a failed authorisation is answered. */
  datatype Rejection = Unauthorized401 | RedirectToLogin

  /** `authorize_client_api`: any decoding failure becomes 401. */
  function AuthorizeClientApi(d: DecodeResult): (r: Result<Principal, Rejection>)
    ensures r.Failure? <==> d.DecodeFailed?
    ensures r.Failure? ==> r.error == Unauthorized401
    ensures r.Success? ==> Some(r.value) == AuthorizeToken(d)
  {
    match AuthorizeToken(d)
    case None => Failure(Unauthorized401)
    case Some(p) => Success(p)
  }

  /** `cookie_auth`: no cookie redirects to the login page without decoding
      anything; a decoding failure redirects there too. */
  function CookieAuth(cookie: Option<Claims>, decode: Claims -> DecodeResult): (r: Result<Principal, Rejection>)
    ensures cookie.None? ==> r == Failure(RedirectToLogin)
    ensures cookie.Some? ==> (r.Failure? <==> decode(cookie.value).DecodeFailed?)
    ensures r.Failure? ==> r.error == RedirectToLogin
    ensures r.Success? ==> cookie.Some? && Some(r.value) == AuthorizeToken(decode(cookie.value))
  {
    match cookie
    case None => Failure(RedirectToLogin)
    case Some(token) =>
      match AuthorizeToken(decode(token))
      case None => Failure(RedirectToLogin)
      case Some(p) => Success(p)
  }
}
