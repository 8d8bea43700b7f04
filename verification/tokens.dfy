/** Token claims and the principal a decoded token yields (app/internal/auth.py,
    duplicated in app/auth.py). The claims are the registered claims of
    section 4.1 of RFC 7519; RS256 signing is not modelled, so a token is the
    claim record it carries. */
module Tokens {
  import opened Wrappers

  const TOKEN_LIFETIME_MINUTES: int := 30

  /** `sub`, `iss`, `aud` and `exp` (seconds since the epoch). */
  datatype Claims = Claims(sub: string, iss: string, aud: seq<string>, exp: int)

  /** `create_token`: the claims of a token issued at `now` to `client` for
      `scopes`; `issuer` is the configured AUTH_ISSUER. */
  function CreateToken(client: string, scopes: seq<string>, issuer: string, now: int): (c: Claims)
    ensures c.sub == client && c.iss == issuer && c.aud == scopes
    ensures c.exp - now == 1800
  {
    Claims(client, issuer, scopes, now + TOKEN_LIFETIME_MINUTES * 60)
  }

  /** Number of occurrences of `x` in `xs` (`list.count`). */
  function Count(xs: seq<string>, x: string): nat {
    if xs == [] then 0 else (if xs[0] == x then 1 else 0) + Count(xs[1..], x)
  }

  lemma {:induction false} CountPositiveIff(xs: seq<string>, x: string)
    ensures Count(xs, x) != 0 <==> x in xs
  {
    if xs != [] {
      CountPositiveIff(xs[1..], x);
      assert xs == [xs[0]] + xs[1..];
    }
  }

  /** The class `client`: the name and scopes a request acts under. */
  datatype Principal = Principal(clientname: string, scopes: seq<string>) {

    /** `has_scope`: the scope occurs in the principal's list. */
    function HasScope(scope: string): (b: bool)
      ensures b <==> scope in scopes
    {
      CountPositiveIff(scopes, scope);
      Count(scopes, scope) != 0
    }

    function IsChad(): (b: bool)
      ensures b <==> "CHAD" in scopes
    {
      HasScope("CHAD")
    }

    function IsAdmin(): (b: bool)
      ensures b <==> "admin" in scopes
    {
      HasScope("admin")
    }
  }

  /** What `jwt.decode` gives back: the payload, or the exception it raises. */
  datatype DecodeResult = Decoded(payload: Claims) | DecodeFailed

  /** The decoding step of `authorize_token`. The signature check and the
      audience check are decided outside this model and come in as
      `signatureValid` and `audienceAccepted`; what is modelled is the issuer
      match and the expiry test (a token is refused at and after `exp`). */
  function Decode(token: Claims, issuer: string, now: int, signatureValid: bool, audienceAccepted: bool): (d: DecodeResult)
    ensures d.Decoded? ==> d.payload == token
    ensures d.Decoded? <==> signatureValid && audienceAccepted && token.iss == issuer && now < token.exp
  {
    if signatureValid && token.iss == issuer && now < token.exp && audienceAccepted then Decoded(token) else DecodeFailed
  }

  /** `authorize_token`: a decoded payload becomes a principal named by `sub`
      holding the scopes listed in `aud`; a decoding failure propagates. */
  function AuthorizeToken(d: DecodeResult): (p: Option<Principal>)
    ensures p.Some? <==> d.Decoded?
    ensures p.Some? ==> p.value.clientname == d.payload.sub
    ensures p.Some? ==> forall s :: p.value.HasScope(s) <==> s in d.payload.aud
  {
    match d
    case Decoded(payload) => Some(Principal(payload.sub, payload.aud))
    case DecodeFailed => None
  }

  /** A token issued at `issuedAt` and presented at `now` before it expires
      yields the principal it was issued to, holding exactly the scopes it
      was issued for. */
  lemma IssueThenAuthorize(client: string, scopes: seq<string>, issuer: string, issuedAt: int, now: int)
    requires issuedAt <= now < issuedAt + 1800
    ensures AuthorizeToken(Decode(CreateToken(client, scopes, issuer, issuedAt), issuer, now, true, true))
            == Some(Principal(client, scopes))
  {
  }

  /** From 1800 seconds after issue on, the token is refused whatever its
      signature and audience. */
  lemma ExpiredTokenRefused(client: string, scopes: seq<string>, issuer: string, issuedAt: int,
                            now: int, signatureValid: bool, audienceAccepted: bool)
    requires now >= issuedAt + 1800
    ensures AuthorizeToken(Decode(CreateToken(client, scopes, issuer, issuedAt), issuer, now, signatureValid, audienceAccepted)) == None
  {
  }

  /** A token bearing another issuer is refused. */
  lemma ForeignIssuerRefused(token: Claims, issuer: string, now: int, signatureValid: bool, audienceAccepted: bool)
    requires token.iss != issuer
    ensures Decode(token, issuer, now, signatureValid, audienceAccepted) == DecodeFailed
  {
  }
}
