/**
 * The session with the billing backend: one bearer token, obtained by logging in
 * at start-up and again whenever a request comes back 401 (`initializeAuth`,
 * `refreshAuth`). The login request itself is outside the model; its answer is
 * a parameter.
 */
module Auth {
  import opened Wrappers

  /** The login endpoint's answer: a body whose `token` may be missing, or a failed request. */
  datatype LoginOutcome = LoginAccepted(token: Option<string>) | LoginRejected

  /** `!authToken` is false: the token is a non-empty string. */
  predicate Usable(token: Option<string>) {
    token.Some? && token.value != ""
  }

  /** The token a login attempt leaves behind: the one returned, or `null` after a failure. */
  function TokenAfter(outcome: LoginOutcome): Option<string> {
    match outcome
    case LoginAccepted(t) => t
    case LoginRejected => None
  }

  /**
   * A login the backend accepts without handing out a token still reports
   * success, yet leaves no usable token, so the next call logs in again.
   */
  lemma AcceptedWithoutToken()
    ensures LoginAccepted(None).LoginAccepted? && !Usable(TokenAfter(LoginAccepted(None)))
  {
  }

  /** After a failed login the token is always cleared, never kept from before. */
  lemma RejectedClearsToken(outcome: LoginOutcome)
    ensures outcome.LoginRejected? ==> TokenAfter(outcome) == None
    ensures Usable(TokenAfter(outcome)) ==> outcome.LoginAccepted?
  {
  }

  class AuthSession {
    /** `authToken`. */
    var token: Option<string>

    /** `let authToken = null`. */
    constructor()
      ensures token == None
    {
      token := None;
    }

    /** Logs in; succeeds exactly when the request does, and stores what it got. */
    method InitializeAuth(outcome: LoginOutcome) returns (ok: bool)
      modifies this
      ensures ok <==> outcome.LoginAccepted?
      ensures token == TokenAfter(outcome)
      ensures !ok ==> token == None
    {
      match outcome
      case LoginAccepted(t) =>
        token := t;
        ok := true;
      case LoginRejected =>
        token := None;
        ok := false;
    }

    /** Logs in again; nothing more than a fresh `InitializeAuth`. */
    method RefreshAuth(outcome: LoginOutcome) returns (ok: bool)
      modifies this
      ensures ok <==> outcome.LoginAccepted?
      ensures token == TokenAfter(outcome)
    {
      ok := InitializeAuth(outcome);
    }
  }
}
