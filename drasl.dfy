/**
 * The Yggdrasil-protocol login engine for a self-hosted auth server: first
 * login, token refresh, token invalidation and logout. Each server reply is an
 * input; the pure functions classify it, and the methods sequence that
 * classification with the credential-store reads and writes.
 */
module Drasl {
  import opened Wrappers
  import opened Http
  import opened SecretStore
  import opened DraslError
  import opened DraslProvider
  import opened Auth

  datatype SelectedProfile = SelectedProfile(id: string, name: string)

  /** The success body of `authenticate` and `refresh`. */
  datatype LoginResponse = LoginResponse(
    accessToken: string,
    clientToken: string,
    selectedProfile: Option<SelectedProfile>)

  /**
   * A response body: its text and the outcome of decoding it as each of the two
   * shapes the code tries. Decoding as `LoginResponse` fails with the decoder's
   * reason; a body may fit both shapes, one, or neither.
   */
  datatype Body = Body(
    text: string,
    asLogin: Result<LoginResponse, string>,
    asError: Option<AccountResponseError>)

  /** A response: its status, the final URL, and its text (reading it can fail). */
  datatype HttpResponse = HttpResponse(status: nat, url: Url, body: Result<Body, TransportFailure>)

  /** The outcome of sending a request. */
  type Reply = Result<HttpResponse, TransportFailure>

  /** A login response that names a profile. */
  datatype Session = Session(accessToken: string, clientToken: string, profile: SelectedProfile)

  /**
   * The status check every login path makes before it reads the body: a non-2xx
   * status is a `DownloadError` carrying the status and URL, and the body is
   * then not looked at.
   */
  function ReceiveText(reply: Reply): (r: Result<Body, Error>)
    ensures r.Success? <==>
      reply.Success? && IsSuccess(reply.value.status) && reply.value.body.Success?
    ensures r.Success? ==> r.value == reply.value.body.value
    ensures reply.Failure? ==> r == Failure(FromReqwest(reply.error))
    ensures reply.Success? && !IsSuccess(reply.value.status) ==>
      r == Failure(Request(DownloadError(reply.value.status, reply.value.url)))
    ensures reply.Success? && IsSuccess(reply.value.status) && reply.value.body.Failure? ==>
      r == Failure(FromReqwest(reply.value.body.error))
  {
    match reply
    case Failure(t) => Failure(FromReqwest(t))
    case Success(response) =>
      if !IsSuccess(response.status) then
        Failure(Request(DownloadError(response.status, response.url)))
      else
        match response.body
        case Failure(t) => Failure(FromReqwest(t))
        case Success(body) => Success(body)
  }

  /** A missing selected profile is an invalid response. */
  function RequireProfile(login: LoginResponse): (r: Result<Session, Error>)
    ensures r.Success? <==> login.selectedProfile.Some?
    ensures r.Success? ==> r.value == Session(login.accessToken, login.clientToken, login.selectedProfile.value)
    ensures r.Failure? ==> r.error == InvalidResponse(MissingProfile)
  {
    match login.selectedProfile
    case None => Failure(InvalidResponse(MissingProfile))
    case Some(profile) => Success(Session(login.accessToken, login.clientToken, profile))
  }

  /**
   * How `login_new` reads a reply: the status, then the success shape, then the
   * error shape as a fallback that reports the server's own error, then the
   * profile.
   */
  function AuthenticateOutcome(reply: Reply): (r: Result<Session, Error>)
    ensures ReceiveText(reply).Failure? ==> r == Failure(ReceiveText(reply).error)
    ensures ReceiveText(reply).Success? ==>
      var body := ReceiveText(reply).value;
      match body.asLogin
      case Success(login) => r == RequireProfile(login)
      case Failure(reason) =>
        if body.asError.Some? then r == Failure(Response(body.asError.value))
        else r == Failure(Json(JsonError(body.text, reason)))
  {
    match ReceiveText(reply)
    case Failure(e) => Failure(e)
    case Success(body) =>
      match body.asLogin
      case Success(login) => RequireProfile(login)
      case Failure(reason) =>
        match body.asError
        case Some(remote) => Failure(Response(remote))
        case None => Failure(Json(JsonError(body.text, reason)))
  }

  /**
   * How `login_refresh` reads a reply: as `login_new` does, but a body that does
   * not decode is always the decoder's error; the error shape is not tried.
   */
  function RefreshOutcome(reply: Reply): (r: Result<Session, Error>)
    ensures r.Failure? ==> !r.error.Response?
    ensures ReceiveText(reply).Success? && ReceiveText(reply).value.asLogin.Failure? ==>
      var body := ReceiveText(reply).value;
      r == Failure(Json(JsonError(body.text, body.asLogin.error)))
  {
    match ReceiveText(reply)
    case Failure(e) => Failure(e)
    case Success(body) =>
      match body.asLogin
      case Success(login) => RequireProfile(login)
      case Failure(reason) => Failure(Json(JsonError(body.text, reason)))
  }

  /**
   * `login_refresh` differs from `login_new` in reading a reply only where the
   * body fails to decode but has the error shape: `login_new` reports the
   * server's error, `login_refresh` the decoder's.
   */
  lemma RefreshHasNoFallback(reply: Reply)
    ensures var text := ReceiveText(reply);
      if text.Success? && text.value.asLogin.Failure? && text.value.asError.Some? then
        && AuthenticateOutcome(reply) == Failure(Response(text.value.asError.value))
        && RefreshOutcome(reply) == Failure(Json(JsonError(text.value.text, text.value.asLogin.error)))
      else
        AuthenticateOutcome(reply) == RefreshOutcome(reply)
  {
  }

  /** A login reply with a non-2xx status is a `DownloadError`, whatever its body says. */
  lemma StatusCheckedFirst(reply: Reply)
    requires reply.Success? && !IsSuccess(reply.value.status)
    ensures AuthenticateOutcome(reply) == Failure(Request(DownloadError(reply.value.status, reply.value.url)))
    ensures RefreshOutcome(reply) == AuthenticateOutcome(reply)
  {
  }

  /** The error `invalidate` reports when a refusal has no readable error body. */
  const UnparsableFailure :=
    AccountResponseError("Cant parse unsuccessful response", "cant parse Error into AccountResponseError")

  /**
   * `invalidate`: without an access token it fails before any request with the
   * keyring's `NoEntry`; a 2xx reply is success; any other reply is a remote
   * error, the server's own or `UnparsableFailure`. The account is not changed:
   * in particular its access token is kept.
   */
  method Invalidate(account: AccountData, reply: Reply) returns (r: Result<(), Error>)
    ensures account.accessToken.None? ==> r == Failure(KeyringError(NoEntry))
    ensures r.Success? <==> account.accessToken.Some? && reply.Success? && IsSuccess(reply.value.status)
    ensures account.accessToken.Some? && reply.Failure? ==> r == Failure(FromReqwest(reply.error))
    ensures account.accessToken.Some? && reply.Success? && !IsSuccess(reply.value.status) ==>
      match reply.value.body
      case Failure(t) => r == Failure(FromReqwest(t))
      case Success(body) =>
        r == Failure(Response(if body.asError.Some? then body.asError.value else UnparsableFailure))
  {
    if account.accessToken.None? {
      return Failure(KeyringError(NoEntry));
    }
    if reply.Failure? {
      return Failure(FromReqwest(reply.error));
    }
    var response := reply.value;
    if IsSuccess(response.status) {
      return Success(());
    }
    if response.body.Failure? {
      return Failure(FromReqwest(response.body.error));
    }
    var body := response.body.value;
    if body.asError.Some? {
      r := Failure(Response(body.asError.value));
    } else {
      r := Failure(Response(UnparsableFailure));
    }
  }

  /**
   * `logout`: deletes the account's secret. Only a failure to build the entry is
   * reported, as the error's display text; a failed deletion is ignored, so
   * logging out of an account with no stored secret succeeds.
   */
  method Logout(store: Store, provider: YggdrasilProvider, username: string, text: ForeignText)
    returns (r: Result<(), string>)
    requires HasHost(provider)
    modifies store
    ensures var key := EntryKey(KeyringService, KeyringUser(username, Domain(provider)));
      if key in store.invalidEntries then
        && r == Failure(Message(KeyringError(store.invalidEntries[key]), text).value)
        && store.secrets == old(store.secrets)
      else
        && r == Success(())
        && store.secrets == if key in store.accessFaults then old(store.secrets) else old(store.secrets) - {key}
    ensures var key := EntryKey(KeyringService, KeyringUser(username, Domain(provider)));
      r.Success? && key !in store.accessFaults ==>
        ReadRefreshToken(store, username, Domain(provider)) == Failure(KeyringError(NoEntry))
  {
    var entry := GetKeyringEntry(store, username, Domain(provider));
    if entry.Failure? {
      return Failure(Message(entry.error, text).value);
    }
    var deleted := store.DeleteCredential(entry.value);
    r := Success(());
  }

  /**
   * `login_refresh`: builds the account's entry first, then reads the reply; on
   * success it overwrites the stored secret and returns the account with the
   * new tokens and profile. The username and account type are kept.
   */
  method LoginRefresh(store: Store, provider: YggdrasilProvider, account: AccountData, reply: Reply)
    returns (r: Result<AccountData, Error>)
    requires HasHost(provider)
    modifies store
    ensures var key := EntryKey(KeyringService, KeyringUser(account.username, Domain(provider)));
      if key in store.invalidEntries then
        r == Failure(KeyringError(store.invalidEntries[key])) && store.secrets == old(store.secrets)
      else
        match RefreshOutcome(reply)
        case Failure(e) => r == Failure(e) && store.secrets == old(store.secrets)
        case Success(s) =>
          if key in store.accessFaults then
            r == Failure(KeyringError(store.accessFaults[key])) && store.secrets == old(store.secrets)
          else
            && r == Success(account.(
                 accessToken := Some(s.accessToken),
                 clientToken := s.clientToken,
                 uuid := s.profile.id,
                 niceUsername := s.profile.name,
                 refreshToken := s.accessToken,
                 needsRefresh := false))
            && store.secrets == old(store.secrets)[key := s.accessToken]
    ensures r.Success? ==>
      && FreshSession(r.value)
      && r.value.username == account.username
      && r.value.accountType == account.accountType
      && ReadRefreshToken(store, account.username, Domain(provider)) == Success(r.value.refreshToken)
  {
    var entry := GetKeyringEntry(store, account.username, Domain(provider));
    if entry.Failure? {
      return Failure(entry.error);
    }
    var outcome := RefreshOutcome(reply);
    if outcome.Failure? {
      return Failure(outcome.error);
    }
    var session := outcome.value;
    var written := store.SetPassword(entry.value, session.accessToken);
    if written.Failure? {
      return Failure(FromKeyring(written.error));
    }
    var updated := account;
    updated := updated.(accessToken := Some(session.accessToken));
    updated := updated.(clientToken := session.clientToken);
    updated := updated.(uuid := session.profile.id);
    updated := updated.(niceUsername := session.profile.name);
    updated := updated.(refreshToken := session.accessToken);
    updated := updated.(needsRefresh := false);
    r := Success(updated);
  }

  /**
   * `login_new`: parses the server URL (a URL that does not parse is a panic, so
   * it is required to parse), reads the `authenticate` reply, and on success
   * stores the access token under the username and the server's domain before
   * returning the new account.
   */
  method LoginNew(store: Store, url: string, username: string,
                  urlParse: string -> Result<Url, string>, reply: Reply)
    returns (r: Result<AccountData, Error>)
    requires Parse(url, urlParse).Success?
    modifies store
    ensures var provider := Parse(url, urlParse).value;
            var key := EntryKey(KeyringService, KeyringUser(username, Domain(provider)));
      match AuthenticateOutcome(reply)
      case Failure(e) => r == Failure(e) && store.secrets == old(store.secrets)
      case Success(s) =>
        if key in store.invalidEntries then
          r == Failure(KeyringError(store.invalidEntries[key])) && store.secrets == old(store.secrets)
        else if key in store.accessFaults then
          r == Failure(KeyringError(store.accessFaults[key])) && store.secrets == old(store.secrets)
        else
          && r == Success(AccountData(
               accessToken := Some(s.accessToken),
               clientToken := s.clientToken,
               uuid := s.profile.id,
               refreshToken := s.accessToken,
               needsRefresh := false,
               username := username,
               niceUsername := s.profile.name,
               accountType := Yggdrasil(provider)))
          && store.secrets == old(store.secrets)[key := s.accessToken]
    ensures r.Success? ==>
      && FreshSession(r.value)
      && ReadRefreshToken(store, username, Domain(Parse(url, urlParse).value)) == Success(r.value.refreshToken)
  {
    var provider := Parse(url, urlParse).value;
    var outcome := AuthenticateOutcome(reply);
    if outcome.Failure? {
      return Failure(outcome.error);
    }
    var session := outcome.value;
    var entry := GetKeyringEntry(store, username, Domain(provider));
    if entry.Failure? {
      return Failure(entry.error);
    }
    var written := store.SetPassword(entry.value, session.accessToken);
    if written.Failure? {
      return Failure(FromKeyring(written.error));
    }
    r := Success(AccountData(
      accessToken := Some(session.accessToken),
      clientToken := session.clientToken,
      uuid := session.profile.id,
      refreshToken := session.accessToken,
      needsRefresh := false,
      username := username,
      niceUsername := session.profile.name,
      accountType := Yggdrasil(provider)));
  }
}
