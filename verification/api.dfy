/** The browser side of the session: the token kept in local storage under
    "jaxa_token", the headers every API request carries, how a response
    turns into a value or an error, and login and logout. The network is a
    parameter: each call is handed the reply it gets. */
module Api {
  import opened Common
  import opened ServerAuth

  const TokenKey: string := "jaxa_token"

  /** A response body: a JSON object (its string properties), or text that
      does not parse, with the parser's message. */
  datatype Body = Json(fields: map<string, string>) | NotJson(parseError: string)

  /** The reply to a fetch: a response, or the error fetch rejects with. */
  datatype Reply =
    | Answered(status: int, statusText: string, body: Body)
    | Unreachable(message: string)

  predicate Ok(status: int) {
    200 <= status < 300
  }

  /** `err.error || fallback`: the body's error text when it has a
      non-empty one. */
  function ErrorField(err: map<string, string>, fallback: string): (m: string)
    ensures "error" in err && err["error"] != "" ==> m == err["error"]
    ensures !("error" in err && err["error"] != "") ==> m == fallback
  {
    if "error" in err && err["error"] != "" then err["error"] else fallback
  }

  /** The error object of a failed response: its JSON body, or
      `{ error: orElse }` when the body is not JSON. */
  function ErrorBody(body: Body, orElse: string): map<string, string> {
    match body
    case Json(fields) => fields
    case NotJson(_) => map["error" := orElse]
  }

  /** The headers of a request: "Content-Type: application/json", then the
      caller's own headers over it, then the bearer token when a non-empty
      one is stored. */
  function RequestHeaders(token: Option<string>, extra: map<string, string>): map<string, string> {
    var h := map["Content-Type" := "application/json"] + extra;
    if token.Some? && token.value != "" then h["Authorization" := BearerPrefix + token.value] else h
  }

  /** The Authorization header is the stored token behind "Bearer " exactly
      when a non-empty token is stored; otherwise only the caller can have
      set it. Content-Type is JSON unless the caller set another. */
  lemma RequestHeadersLaws(token: Option<string>, extra: map<string, string>)
    ensures var h := RequestHeaders(token, extra);
      && (token.Some? && token.value != "" ==> "Authorization" in h && h["Authorization"] == BearerPrefix + token.value)
      && (!(token.Some? && token.value != "") ==> ("Authorization" in h <==> "Authorization" in extra))
      && "Content-Type" in h
      && h["Content-Type"] == (if "Content-Type" in extra then extra["Content-Type"] else "application/json")
  {
  }

  /** The outcome of `request`: the parsed body, or what it throws. */
  type Outcome = Attempt<map<string, string>>

  /** `request`'s handling of the reply, apart from the storage. */
  function RequestOutcome(reply: Reply): (o: Outcome)
    ensures reply.Answered? && reply.status == 401 ==> o == Threw(ErrorWith(NotAuthenticated))
    ensures o.Done? <==> reply.Answered? && Ok(reply.status) && reply.body.Json?
  {
    match reply
    case Unreachable(message) => Threw(ErrorWith(message))
    case Answered(status, statusText, body) =>
      if status == 401 then Threw(ErrorWith(NotAuthenticated))
      else if !Ok(status) then Threw(ErrorWith(ErrorField(ErrorBody(body, statusText), "Erreur serveur")))
      else match body
        case Json(fields) => Done(fields)
        case NotJson(parseError) => Threw(ErrorWith(parseError))
  }

  /** A failed response other than 401 fails with the body's error text,
      the status text when the body is not JSON, or "Erreur serveur" when
      either is empty; the message is never empty. */
  lemma FailureMessage(status: int, statusText: string, body: Body)
    requires status != 401 && !Ok(status)
    ensures var o := RequestOutcome(Answered(status, statusText, body));
      && o.Threw? && o.thrown.ErrorWith? && o.thrown.message != ""
      && (body.Json? && "error" in body.fields && body.fields["error"] != "" ==> o.thrown.message == body.fields["error"])
      && (body.NotJson? && statusText != "" ==> o.thrown.message == statusText)
      && (body.Json? && "error" !in body.fields ==> o.thrown.message == "Erreur serveur")
  {
  }

  /** The server's refusal reaches the caller as its own message. */
  lemma UnauthorizedRoundTrip()
    ensures var r := Unauthorized();
            RequestOutcome(Answered(r.status, "Unauthorized", Json(r.body))) == Threw(ErrorWith(r.body["error"]))
  {
  }

  /** `login`'s handling of the reply, apart from the storage: the token
      the server returned, None when the reply had no `token` property. */
  function LoginOutcome(reply: Reply): (o: Attempt<Option<string>>)
    ensures o.Done? <==> reply.Answered? && Ok(reply.status) && reply.body.Json?
  {
    match reply
    case Unreachable(message) => Threw(ErrorWith(message))
    case Answered(status, _, body) =>
      if !Ok(status) then Threw(ErrorWith(ErrorField(ErrorBody(body, "Erreur"), "Mot de passe incorrect")))
      else match body
        case Json(fields) => Done(if "token" in fields then Some(fields["token"]) else None)
        case NotJson(parseError) => Threw(ErrorWith(parseError))
  }

  /** `localStorage.setItem(key, token)` turns an `undefined` token into
      the text "undefined". */
  function Stored(token: Option<string>): string {
    token.GetOr("undefined")
  }

  /** `isAuthenticated` for a stored token: false without a non-empty token,
      otherwise the server's own test of the decoded claims. */
  predicate TokenValid(token: Option<string>, decode: Decoder, now: int) {
    token.Some? && token.value != "" && Accepts(decode(token.value), now)
  }

  /** The browser and the server agree: a request made with a stored token
      passes `verifyAuth` exactly when `isAuthenticated` holds for it. */
  lemma ClientServerAgree(token: Option<string>, decode: Decoder, now: int)
    requires token.Some? && token.value != ""
    ensures var h := RequestHeaders(token, map[]);
            VerifyAuth(Some(h["Authorization"]), decode, now) <==> TokenValid(token, decode, now)
  {
    BearerHeader(token.value, decode, now);
  }

  /** Without a stored token a request carries no Authorization header, and
      the server refuses it. */
  lemma NoTokenRefused(token: Option<string>, decode: Decoder, now: int)
    requires !(token.Some? && token.value != "")
    ensures "Authorization" !in RequestHeaders(token, map[])
    ensures !VerifyAuth(None, decode, now)
  {
  }

  /** The browser's local storage, of which the session uses one key. */
  class Session {
    var storage: map<string, string>

    constructor(initial: map<string, string>)
      ensures storage == initial
    {
      storage := initial;
    }

    function Token(): Option<string>
      reads this
    {
      if TokenKey in storage then Some(storage[TokenKey]) else None
    }

    predicate IsAuthenticated(decode: Decoder, now: int)
      reads this
    {
      TokenValid(Token(), decode, now)
    }

    /** `request`: the headers sent and the outcome; a 401 also removes the
        stored token, so the session is no longer authenticated. */
    method Request(extra: map<string, string>, reply: Reply) returns (headers: map<string, string>, outcome: Outcome)
      modifies this
      ensures headers == RequestHeaders(old(Token()), extra)
      ensures outcome == RequestOutcome(reply)
      ensures reply.Answered? && reply.status == 401 ==> storage == old(storage) - {TokenKey}
      ensures !(reply.Answered? && reply.status == 401) ==> storage == old(storage)
      ensures reply.Answered? && reply.status == 401 ==> forall decode: Decoder, now: int :: !IsAuthenticated(decode, now)
    {
      var token := Token();
      headers := map["Content-Type" := "application/json"] + extra;
      if token.Some? && token.value != "" {
        headers := headers["Authorization" := BearerPrefix + token.value];
      }
      if reply.Answered? && reply.status == 401 {
        storage := storage - {TokenKey};
      }
      outcome := RequestOutcome(reply);
    }

    /** `login`: on success the returned token is stored (the text
        "undefined" when the reply had none); on failure the storage is
        untouched, even after a 401. */
    method Login(reply: Reply) returns (outcome: Attempt<Option<string>>)
      modifies this
      ensures outcome == LoginOutcome(reply)
      ensures outcome.Done? ==> storage == old(storage)[TokenKey := Stored(outcome.value)]
      ensures outcome.Threw? ==> storage == old(storage)
      ensures outcome.Done? ==> Token() == Some(Stored(outcome.value))
    {
      outcome := LoginOutcome(reply);
      if outcome.Done? {
        storage := storage[TokenKey := Stored(outcome.value)];
      }
    }

    /** `logout`: the token is removed and nothing else. */
    method Logout()
      modifies this
      ensures storage == old(storage) - {TokenKey}
      ensures Token() == None
      ensures forall decode: Decoder, now: int :: !IsAuthenticated(decode, now)
    {
      storage := storage - {TokenKey};
    }
  }
}
