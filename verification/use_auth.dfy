/** The authentication hook: whether the session is authenticated, whether
    a login is in progress, and the last login error. */
module UseAuth {
  import opened Common
  import opened ServerAuth
  import Api

  const LoginFailed: string := "Erreur de connexion"

  class AuthHook {
    var authenticated: bool
    var loading: bool
    var error: Option<string>

    /** The hook's initial state reads the stored token once; the mount
        effect reads it again at the same instant and so changes nothing. */
    constructor(session: Api.Session, decode: Decoder, now: int)
      ensures authenticated == session.IsAuthenticated(decode, now)
      ensures !loading && error == None
    {
      authenticated := session.IsAuthenticated(decode, now);
      loading := false;
      error := None;
    }

    /** The mount effect: `setAuthenticated(isAuthenticated())`. */
    method Refresh(session: Api.Session, decode: Decoder, now: int)
      modifies this
      ensures authenticated == session.IsAuthenticated(decode, now)
      ensures loading == old(loading) && error == old(error)
    {
      authenticated := session.IsAuthenticated(decode, now);
    }

    /** `login`: loading while the call runs, then authenticated on success,
        or the failure's message kept and the failure raised again; the
        session is updated as `Api.Session.Login` says. */
    method Login(session: Api.Session, reply: Api.Reply) returns (raised: Option<Thrown>)
      modifies this, session
      ensures !loading
      ensures var o := Api.LoginOutcome(reply);
        && (o.Done? ==> authenticated && error == None && raised == None
                        && session.storage == old(session.storage)[Api.TokenKey := Api.Stored(o.value)])
        && (o.Threw? ==> authenticated == old(authenticated) && raised == Some(o.thrown)
                         && error == Some(MessageOr(o.thrown, LoginFailed))
                         && session.storage == old(session.storage))
    {
      loading := true;
      error := None;
      raised := None;
      var outcome := session.Login(reply);
      match outcome {
        case Done(_) =>
          authenticated := true;
        case Threw(e) =>
          error := Some(MessageOr(e, LoginFailed));
          raised := Some(e);
      }
      loading := false;
    }

    /** `logout`: the token is removed and the hook is no longer
        authenticated, in agreement with the session. */
    method Logout(session: Api.Session)
      modifies this, session
      ensures !authenticated && loading == old(loading) && error == old(error)
      ensures session.storage == old(session.storage) - {Api.TokenKey}
      ensures forall decode: Decoder, now: int :: authenticated == session.IsAuthenticated(decode, now)
    {
      session.Logout();
      authenticated := false;
    }
  }

  /** A successful login marks the hook authenticated whatever token came
      back, while the session's own test depends on that token: a reply
      without a token stores "undefined", which counts as authenticated
      exactly when its decoding is accepted. */
  lemma LoginTrustsServer(decode: Decoder, now: int, fields: map<string, string>)
    requires "token" !in fields
    ensures var o := Api.LoginOutcome(Api.Answered(200, "OK", Api.Json(fields)));
      && o == Done(None)
      && (Api.TokenValid(Some(Api.Stored(o.value)), decode, now) <==> Accepts(decode("undefined"), now))
  {
  }
}
