/** The serverless functions' authentication: a request carries
    `Authorization: Bearer <token>`, where the token is the Base64 text of a
    JSON object with an `authenticated` flag and an expiry time `exp` in
    milliseconds. Base64 and JSON decoding are foreign; they are the
    `decode` parameter, which yields None wherever `atob` or `JSON.parse`
    would throw or the value read has no properties. */
module ServerAuth {
  import opened Common

  /** The two properties read from a decoded token: the truthiness of
      `authenticated`, and `exp` as the number `>` compares (NaN when it is
      missing or not numeric). */
  datatype Claims = Claims(authenticated: bool, exp: Num)

  type Decoder = string -> Option<Claims>

  const BearerPrefix: string := "Bearer "

  /** `payload.authenticated && payload.exp > now`, where a payload that
      could not be decoded gives false. */
  predicate Accepts(c: Option<Claims>, now: int) {
    c.Some? && c.value.authenticated && c.value.exp.Finite? && c.value.exp.value > now as real
  }

  /** `verifyAuth`: the header must start with "Bearer " and the rest must
      decode to claims that are accepted at `now`. */
  function VerifyAuth(header: Option<string>, decode: Decoder, now: int): (ok: bool)
    ensures ok ==> header.Some? && BearerPrefix <= header.value
    ensures ok ==> Accepts(decode(header.value[|BearerPrefix|..]), now)
  {
    if header.Some? && BearerPrefix <= header.value then
      Accepts(decode(header.value[|BearerPrefix|..]), now)
    else false
  }

  /** A header built as "Bearer " followed by a token is accepted exactly
      when the token's claims are. */
  lemma BearerHeader(token: string, decode: Decoder, now: int)
    ensures VerifyAuth(Some(BearerPrefix + token), decode, now) <==> Accepts(decode(token), now)
  {
    assert (BearerPrefix + token)[|BearerPrefix|..] == token;
  }

  /** A missing header, a header shorter than the prefix, or another scheme
      (the prefix is compared case-sensitively) is refused. */
  lemma OtherSchemesRefused(header: Option<string>, decode: Decoder, now: int)
    requires header.None? || |header.value| < 7 || header.value[..7] != BearerPrefix
    ensures !VerifyAuth(header, decode, now)
  {
  }

  /** A token accepted now was accepted at every earlier instant, and one
      refused now stays refused: expiry is permanent. */
  lemma ExpiryIsFinal(c: Option<Claims>, earlier: int, later: int)
    requires earlier <= later
    ensures Accepts(c, later) ==> Accepts(c, earlier)
    ensures !Accepts(c, earlier) ==> !Accepts(c, later)
  {
  }

  /** Every token expires: at its expiry instant it is refused. */
  lemma {:induction false} AcceptedUntilExpiry(c: Claims, now: int)
    requires c.exp.Finite?
    ensures c.exp.value <= now as real ==> !Accepts(Some(c), now)
    ensures c.authenticated && c.exp.value > now as real ==> Accepts(Some(c), now)
  {
  }

  /** A response: status, JSON body (as its string properties) and headers. */
  datatype Response = Response(status: int, body: map<string, string>, headers: map<string, string>)

  const NotAuthenticated: string := "Non authentifié"

  /** `unauthorized()`: status 401 with `{ error: "Non authentifié" }` as
      JSON. */
  function Unauthorized(): (r: Response)
    ensures r.status == 401
    ensures r.body.Keys == {"error"} && r.body["error"] == NotAuthenticated
    ensures r.headers.Keys == {"Content-Type"} && r.headers["Content-Type"] == "application/json"
  {
    Response(401, map["error" := NotAuthenticated], map["Content-Type" := "application/json"])
  }
}
