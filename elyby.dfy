/**
 * Login against the ElyBy auth server: the Yggdrasil protocol at a fixed URL,
 * with one extra outcome, a two-factor challenge, recognised from the error
 * body of a 2xx reply.
 */
module ElyByAuth {
  import opened Wrappers
  import opened Http
  import opened SecretStore
  import opened DraslError
  import opened DraslProvider
  import opened Auth
  import opened Drasl

  const AuthenticateUrl := "https://authserver.ely.by/auth/authenticate"
  const ElyByDomain := "authserver.ely.by"

  /** The error body ElyBy sends for an account protected by a one-time password. */
  const OtpChallenge := AccountResponseError("ForbiddenOperationException", "Account protected with two factor auth.")

  /**
   * `get_elyby_provider`: the provider for the fixed ElyBy URL, which the URL
   * parser reads with host "authserver.ely.by".
   */
  function ElyByProvider(): (p: YggdrasilProvider)
    ensures p.url.serialization == AuthenticateUrl
    ensures HasHost(p) && Domain(p) == ElyByDomain
  {
    YggdrasilProvider(Url(AuthenticateUrl, Some(ElyByDomain)))
  }

  /** The result of an ElyBy login. */
  datatype Account = Account(data: AccountData) | NeedsOtp

  /** How an ElyBy reply reads before the credential store is involved. */
  datatype Verdict = Granted(session: Session) | OtpRequired

  /**
   * How ElyBy's `login_new` reads a reply: the status, then the success shape;
   * a body that does not decode is the two-factor challenge when it is exactly
   * `OtpChallenge`, and otherwise the decoder's error, even when it carries a
   * server error.
   */
  function LoginOutcome(reply: Reply): (r: Result<Verdict, Error>)
    ensures r.Failure? ==> !r.error.Response?
    ensures r == Success(OtpRequired) <==>
      && ReceiveText(reply).Success?
      && ReceiveText(reply).value.asLogin.Failure?
      && ReceiveText(reply).value.asError == Some(OtpChallenge)
  {
    match ReceiveText(reply)
    case Failure(e) => Failure(e)
    case Success(body) =>
      match body.asLogin
      case Success(login) =>
        (match RequireProfile(login)
         case Success(s) => Success(Granted(s))
         case Failure(e) => Failure(e))
      case Failure(reason) =>
        if body.asError == Some(OtpChallenge) then Success(OtpRequired)
        else Failure(Json(JsonError(body.text, reason)))
  }

  /**
   * ElyBy reads a reply exactly as a refresh does (no fallback to the server's
   * error), except for the two-factor challenge, which the generic login reports
   * as the server's error.
   */
  lemma ElyByAgreesWithRefresh(reply: Reply)
    ensures LoginOutcome(reply) == Success(OtpRequired) ==>
      AuthenticateOutcome(reply) == Failure(Response(OtpChallenge))
    ensures LoginOutcome(reply) != Success(OtpRequired) ==>
      match RefreshOutcome(reply)
      case Success(s) => LoginOutcome(reply) == Success(Granted(s))
      case Failure(e) => LoginOutcome(reply) == Failure(e)
  {
  }

  /**
   * A reply that fits the success shape is read alike by ElyBy and by the
   * generic login.
   */
  lemma ElyByAgreesWithDraslOnSuccess(reply: Reply)
    requires AuthenticateOutcome(reply).Success?
    ensures LoginOutcome(reply) == Success(Granted(AuthenticateOutcome(reply).value))
  {
  }

  /**
   * The body of a non-2xx reply is never looked at, so a two-factor challenge in
   * it is a `DownloadError`, as for any refused request.
   */
  lemma OtpOnlyOnSuccessStatus(reply: Reply)
    requires reply.Success? && !IsSuccess(reply.value.status)
    ensures LoginOutcome(reply) == Failure(Request(DownloadError(reply.value.status, reply.value.url)))
  {
  }

  /**
   * The same challenge body with status 200: ElyBy asks for the one-time
   * password, the generic login reports the server's error with both fields.
   */
  lemma OtpChallengeOnSuccessStatus(url: Url, text: string, reason: string)
    ensures var reply: Reply :=
      Success(HttpResponse(200, url, Success(Body(text, Failure(reason), Some(OtpChallenge)))));
      && LoginOutcome(reply) == Success(OtpRequired)
      && AuthenticateOutcome(reply) ==
           Failure(Response(AccountResponseError(
             "ForbiddenOperationException", "Account protected with two factor auth.")))
  {
  }

  /**
   * ElyBy's `login_new`: reads the reply; on a granted session it stores the
   * access token under the email and ElyBy's domain and returns the account; a
   * two-factor challenge returns `NeedsOtp` without touching the store.
   */
  method LoginNew(store: Store, email: string, reply: Reply) returns (r: Result<Account, Error>)
    modifies store
    ensures var key := EntryKey(KeyringService, KeyringUser(email, ElyByDomain));
      match LoginOutcome(reply)
      case Failure(e) => r == Failure(e) && store.secrets == old(store.secrets)
      case Success(OtpRequired) => r == Success(NeedsOtp) && store.secrets == old(store.secrets)
      case Success(Granted(s)) =>
        if key in store.invalidEntries then
          r == Failure(KeyringError(store.invalidEntries[key])) && store.secrets == old(store.secrets)
        else if key in store.accessFaults then
          r == Failure(KeyringError(store.accessFaults[key])) && store.secrets == old(store.secrets)
        else
          && r == Success(Account(AccountData(
               accessToken := Some(s.accessToken),
               clientToken := s.clientToken,
               uuid := s.profile.id,
               refreshToken := s.accessToken,
               needsRefresh := false,
               username := email,
               niceUsername := s.profile.name,
               accountType := ElyBy)))
          && store.secrets == old(store.secrets)[key := s.accessToken]
    ensures r.Success? && r.value.Account? ==>
      && FreshSession(r.value.data)
      && IsElyBy(r.value.data)
      && ReadRefreshToken(store, email, ElyByDomain) == Success(r.value.data.refreshToken)
  {
    var outcome := LoginOutcome(reply);
    if outcome.Failure? {
      return Failure(outcome.error);
    }
    if outcome.value.OtpRequired? {
      return Success(NeedsOtp);
    }
    var session := outcome.value.session;
    var entry := GetKeyringEntry(store, email, Domain(ElyByProvider()));
    if entry.Failure? {
      return Failure(entry.error);
    }
    var written := store.SetPassword(entry.value, session.accessToken);
    if written.Failure? {
      return Failure(FromKeyring(written.error));
    }
    r := Success(Account(AccountData(
      accessToken := Some(session.accessToken),
      clientToken := session.clientToken,
      uuid := session.profile.id,
      refreshToken := session.accessToken,
      needsRefresh := false,
      username := email,
      niceUsername := session.profile.name,
      accountType := ElyBy)));
  }
}
