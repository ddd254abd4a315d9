/**
 * The error taxonomy of the Yggdrasil-family login code: the remote error body,
 * the unified `Error` type with its display texts, and the conversions into it.
 * The display of the wrapped foreign errors (request errors, JSON errors and the
 * keyring crate's errors) is rendered outside this model and given as `ForeignText`.
 */
module DraslError {
  import opened Wrappers
  import opened Http
  import opened SecretStore

  /** The `{error, errorMessage}` body an auth server sends when it refuses a request. */
  datatype AccountResponseError = AccountResponseError(error: string, errorMessage: string)

  /** Why a decoded response is unusable. */
  datatype ResponseDefect = MissingProfile

  /** Why user input was rejected. */
  datatype DrasilInputError = CantParseUrl(reason: string)

  /**
   * One error type for every failure of a login. `KeyringError` holds the keyring
   * crate's error directly; the source wraps it in a one-field struct whose only
   * addition is the display header of `KeyringErrorText`.
   */
  datatype Error =
    | Request(request: RequestError)
    | Json(json: JsonError)
    | Response(response: AccountResponseError)
    | KeyringError(keyring: KeyringFailure)
    | InvalidResponse(defect: ResponseDefect)
    | InputError(input: DrasilInputError)

  /** The display texts of the foreign errors, as their own libraries render them. */
  datatype ForeignText = ForeignText(
    request: RequestError -> string,
    json: JsonError -> string,
    keyring: KeyringFailure -> string)

  const AuthErrPrefix := "while logging into yggdrasil account:\n"
  const KeyringErrorHeader := "Account keyring error:\n"

  /** The display of a remote error body: its code, a colon and a space, its message. */
  function ResponseErrorText(e: AccountResponseError): (s: string)
    ensures |s| == |e.error| + 2 + |e.errorMessage|
    ensures s[..|e.error|] == e.error && s[|e.error| + 2..] == e.errorMessage
    ensures s[|e.error|] == ':' && s[|e.error| + 1] == ' '
  {
    e.error + ": " + e.errorMessage
  }

  /**
   * A remote error is recovered from its display text whenever its code has no
   * colon: the first colon of the text ends the code.
   */
  lemma ResponseErrorTextInjective(e1: AccountResponseError, e2: AccountResponseError)
    requires ':' !in e1.error && ':' !in e2.error
    requires ResponseErrorText(e1) == ResponseErrorText(e2)
    ensures e1 == e2
  {
  }

  /** The display of the keyring error wrapper (without the Linux-only hints). */
  function KeyringErrorText(f: KeyringFailure, text: ForeignText): (s: string)
    ensures |KeyringErrorHeader| <= |s| && s[..|KeyringErrorHeader|] == KeyringErrorHeader
    ensures s[|KeyringErrorHeader|..] == text.keyring(f)
  {
    KeyringErrorHeader + text.keyring(f)
  }

  /** What each variant writes between the common prefix and its payload. */
  function Separator(e: Error): (sep: string)
    ensures sep == "" <==> e.Request? || e.Json?
    ensures sep == "" || sep == "\n"
  {
    match e
    case Request(_) => ""
    case Json(_) => ""
    case _ => "\n"
  }

  /**
   * The display of the payload of `e`. The payloads `ResponseDefect` and
   * `DrasilInputError` format themselves inside their own display, which never
   * terminates: they have no text.
   */
  function PayloadText(e: Error, text: ForeignText): (s: Option<string>)
    ensures s.None? <==> e.InvalidResponse? || e.InputError?
  {
    match e
    case Request(r) => Some(text.request(r))
    case Json(j) => Some(text.json(j))
    case Response(a) => Some(ResponseErrorText(a))
    case KeyringError(f) => Some(KeyringErrorText(f, text))
    case InvalidResponse(_) => None
    case InputError(_) => None
  }

  /** The display of an error: the common prefix, the separator, the payload's text. */
  function Message(e: Error, text: ForeignText): (m: Option<string>)
    ensures m.None? <==> e.InvalidResponse? || e.InputError?
    ensures m.Some? ==> |AuthErrPrefix| <= |m.value| && m.value[..|AuthErrPrefix|] == AuthErrPrefix
  {
    match PayloadText(e, text)
    case Some(payload) => Some(AuthErrPrefix + Separator(e) + payload)
    case None => None
  }

  /**
   * Request and JSON errors put their text right after the prefix; remote errors
   * and keyring errors put a blank line first.
   */
  lemma MessageLayout(e: Error, text: ForeignText)
    ensures e.Request? ==> Message(e, text) == Some(AuthErrPrefix + text.request(e.request))
    ensures e.Json? ==> Message(e, text) == Some(AuthErrPrefix + text.json(e.json))
    ensures e.Response? ==>
      Message(e, text) == Some(AuthErrPrefix + "\n" + e.response.error + ": " + e.response.errorMessage)
    ensures e.KeyringError? ==>
      Message(e, text) == Some(AuthErrPrefix + "\n" + KeyringErrorHeader + text.keyring(e.keyring))
  {
    match e
    case Response(a) =>
      assert AuthErrPrefix + "\n" + (a.error + ": " + a.errorMessage)
          == AuthErrPrefix + "\n" + a.error + ": " + a.errorMessage;
    case KeyringError(f) =>
      KeyringConversionMessage(f, text);
    case _ =>
  }

  /** `From<ql_reqwest::Error>`: a transport error becomes a request error. */
  function FromReqwest(t: TransportFailure): (e: Error)
    ensures e.Request? && e.request == ReqwestError(t)
  {
    Request(ReqwestError(t))
  }

  /** `From<keyring::Error>`: a keyring error becomes the keyring variant. */
  function FromKeyring(f: KeyringFailure): (e: Error)
    ensures e.KeyringError? && e.keyring == f
  {
    KeyringError(f)
  }

  /** A converted keyring error reads as the prefix, a blank line, the keyring header, the crate's text. */
  lemma KeyringConversionMessage(f: KeyringFailure, text: ForeignText)
    ensures Message(FromKeyring(f), text) == Some(AuthErrPrefix + "\n" + KeyringErrorHeader + text.keyring(f))
  {
    assert AuthErrPrefix + "\n" + (KeyringErrorHeader + text.keyring(f))
        == AuthErrPrefix + "\n" + KeyringErrorHeader + text.keyring(f);
  }

  /** A converted transport error reads as the prefix followed directly by the request error's text. */
  lemma ReqwestConversionMessage(t: TransportFailure, text: ForeignText)
    ensures Message(FromReqwest(t), text) == Some(AuthErrPrefix + text.request(ReqwestError(t)))
  {
  }
}
