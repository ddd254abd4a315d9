# Yggdrasil-family account login, modelled in Dafny

This project models the account-login core of a game launcher: how a username
and password (or a stored token) become a normalised `AccountData` record for
a self-hosted Yggdrasil-protocol server ("Drasl") or for ElyBy, how the
replies of those servers are classified into one error taxonomy, and when the
session's access token is written to, read from or deleted from the platform
credential store.

Modules, leaves first:

- `Wrappers` (`wrappers.dfy`): `Option` and `Result`.
- `Http` (`http.dfy`): the URL, transport-error, request-error and JSON-error
  types of the HTTP client and of `ql_core`, and the 2xx status test.
- `SecretStore` (`secret_store.dfy`): the credential store behind the
  `keyring` crate, as a class `Store` whose `secrets` map the login methods
  update. Which entries the platform refuses to build (`invalidEntries`) and
  which it cannot access (`accessFaults`) are fixed per store.
- `DraslError` (`drasl_error.dfy`): `auth/drasl/error.rs`, plus the display of
  the keyring-error wrapper from `auth/mod.rs`.
- `DraslProvider` (`drasl_provider.dfy`): the provider descriptor of
  `auth/drasl/mod.rs` (URL validation and domain).
- `Auth` (`auth.dfy`): `auth/mod.rs` — account kinds, the account record, its
  display helpers, and the credential-store key.
- `Drasl` (`drasl.dfy`): the login engine of `auth/drasl/mod.rs`.
- `ElyByAuth` (`elyby.dfy`): `auth/elyby.rs`.

The Rust modules import each other in a cycle (`auth/mod.rs` uses the provider
type, `auth/drasl/mod.rs` uses the account type); Dafny modules cannot, so the
provider descriptor of `auth/drasl/mod.rs` is its own module.

A server reply is an input value: `Reply` is either a transport failure or a
response with a status, a final URL and a body; a `Body` holds its text and the
outcome of decoding it as a login response and as an `{error, errorMessage}`
error body (a body may fit both, one or neither). The pure functions
`ReceiveText`, `AuthenticateOutcome`, `RefreshOutcome` and
`ElyByAuth.LoginOutcome` classify a reply in the order the code does; the
methods sequence that classification with the credential store and say the
store's whole new state.

Where a natural reading of the protocol differs from what the code does, the model follows the code:

- A two-factor challenge sent with a non-2xx status is a `DownloadError`, not
  `NeedsOTP`: the ElyBy login never reads the body of a non-2xx reply
  (`ElyByAuth.OtpOnlyOnSuccessStatus`). Likewise the generic login reports a
  non-2xx reply as a `DownloadError`, not as the server's error
  (`Drasl.StatusCheckedFirst`). Only a 2xx reply with the challenge body gives
  `NeedsOtp` (`ElyByAuth.OtpChallengeOnSuccessStatus`).
- For any other error body, ElyBy returns the decoder's error, not the
  server's error; `login_refresh` never tries the error shape at all.
- `invalidate` does not clear the account's access token.
- A successful login or refresh promises a present access token, but nothing
  makes that token non-empty.

## Model

| member | source | states |
|---|---|---|
| `Auth.UsernameModified` | crates/ql_instances/src/auth/mod.rs:32-41 | the username comes first; nothing follows it for Microsoft, " (elyby)" for ElyBy, " (" + server URL + ")" for Yggdrasil |
| `Auth.TypeName` | crates/ql_instances/src/auth/mod.rs:43-55 | the display is one of "Microsoft", "ElyBy", "Drasl": "Microsoft" exactly for Microsoft, "ElyBy" exactly for ElyBy, and "Drasl" for every Yggdrasil account whatever its server |
| `Auth.IsElyBy` | crates/ql_instances/src/auth/mod.rs:57-62 | true exactly when the account type displays as "ElyBy" |
| `Auth.ReplaceDots` | crates/ql_instances/src/auth/mod.rs:105 | same length as the domain; each '.' becomes '_', every other character is kept |
| `Auth.KeyringUser` | crates/ql_instances/src/auth/mod.rs:105 | the entry's user part is username, '#', then the domain with dots replaced; the domain part has the domain's length and no '.' |
| `Auth.KeyringUserInjective` | crates/ql_instances/src/auth/mod.rs:105 | for domains without '#' or '_', the user part determines both the username and the domain |
| `Auth.DotAndUnderscoreShareEntry` | crates/ql_instances/src/auth/mod.rs:105 | for one username, two domains give the same entry exactly when they have equal length and agree at every position except that '.' and '_' stand for each other |
| `Auth.GetKeyringEntry` | crates/ql_instances/src/auth/mod.rs:102-107 | the entry is service "QuantumLauncher" with the derived user part; an entry the keyring refuses is `KeyringError` with the keyring's error |
| `Auth.ReadRefreshToken` | crates/ql_instances/src/auth/mod.rs:109-112 | succeeds exactly when the entry can be built and read and holds a secret, returning that secret; a refused entry gives `KeyringError` of the refusal, an inaccessible store `KeyringError` of its access error, and an absent secret `KeyringError(NoEntry)` |
| `DraslError.KeyringErrorText` | crates/ql_instances/src/auth/mod.rs:68-70 | the keyring error's display begins with the line "Account keyring error:" followed by the keyring's own text |
| `DraslError.ResponseErrorText` | crates/ql_instances/src/auth/drasl/error.rs:14-18 | the display is the error code, ": ", then the message |
| `DraslError.ResponseErrorTextInjective` | crates/ql_instances/src/auth/drasl/error.rs:14-18 | when the codes hold no ':', equal displays come from equal error bodies |
| `DraslError.Separator` | crates/ql_instances/src/auth/drasl/error.rs:22-35 | request and JSON errors add nothing after the prefix; every other variant adds one newline |
| `DraslError.PayloadText` | crates/ql_instances/src/auth/drasl/error.rs:49-60 | the payload has a text except for the invalid-response and input errors, whose display formats itself without end |
| `DraslError.Message` | crates/ql_instances/src/auth/drasl/error.rs:20-35 | every message that exists starts with "while logging into yggdrasil account:\n"; only the two self-formatting variants have none |
| `DraslError.MessageLayout` | crates/ql_instances/src/auth/drasl/error.rs:23-30 | request and JSON text follows the prefix directly; remote and keyring errors follow a blank line |
| `DraslError.FromReqwest` | crates/ql_instances/src/auth/drasl/error.rs:63-67 | a transport error becomes `Request(ReqwestError(e))` |
| `DraslError.ReqwestConversionMessage` | crates/ql_instances/src/auth/drasl/error.rs:63-67 | a converted transport error displays as the prefix followed directly by the request error's text |
| `DraslError.FromKeyring` | crates/ql_instances/src/auth/drasl/error.rs:69-73 | a keyring error becomes the keyring variant holding it |
| `DraslError.KeyringConversionMessage` | crates/ql_instances/src/auth/drasl/error.rs:69-73 | a converted keyring error displays as prefix, newline, "Account keyring error:\n", the keyring's text |
| `DraslProvider.TrimStart` | crates/ql_instances/src/auth/drasl/mod.rs:23 | the result is a suffix of the input that does not start with whitespace, and all that was dropped is whitespace |
| `DraslProvider.TrimEnd` | crates/ql_instances/src/auth/drasl/mod.rs:23 | the result is a prefix of the input that does not end with whitespace, and all that was dropped is whitespace |
| `DraslProvider.Trim` | crates/ql_instances/src/auth/drasl/mod.rs:23 | the trimmed URL text is a slice of the input that neither starts nor ends with whitespace, and everything cut on either side is whitespace |
| `DraslProvider.TrimIdempotent` | crates/ql_instances/src/auth/drasl/mod.rs:23 | trimming twice is trimming once |
| `DraslProvider.Parse` | crates/ql_instances/src/auth/drasl/mod.rs:21-35 | succeeds exactly when the trimmed text parses to a URL with a host; a parse error is `CantParseUrl` with the parser's message, a host-less URL `CantParseUrl` with the fixed hint; every returned provider has a host, so its domain exists and is the parsed URL's host |
| `DraslProvider.Domain` | crates/ql_instances/src/auth/drasl/mod.rs:33-35 | the domain is the URL's host |
| `Drasl.ReceiveText` | crates/ql_instances/src/auth/drasl/mod.rs:163-171 | a non-2xx status is `DownloadError` with the status and final URL; the body is read only for a 2xx status; transport failures become request errors |
| `Drasl.RequireProfile` | crates/ql_instances/src/auth/drasl/mod.rs:185-187 | a login response without a selected profile is `InvalidResponse(MissingProfile)`; one with a profile becomes a session with its tokens and profile |
| `Drasl.AuthenticateOutcome` | crates/ql_instances/src/auth/drasl/mod.rs:163-187 | status first, then the login shape, then the error shape (the server's error) before the decoder's error, then the profile |
| `Drasl.RefreshOutcome` | crates/ql_instances/src/auth/drasl/mod.rs:69-82 | a body that does not decode is always the decoder's error with the body text; a refresh never reports the server's error |
| `Drasl.RefreshHasNoFallback` | crates/ql_instances/src/auth/drasl/mod.rs:79 | refresh and login read every reply alike except an undecodable error-shaped body: login gives the server's error, refresh the decoder's |
| `Drasl.StatusCheckedFirst` | crates/ql_instances/src/auth/drasl/mod.rs:163-171 | any non-2xx reply is `DownloadError(status, url)` for login and refresh, whatever the body |
| `Drasl.Invalidate` | crates/ql_instances/src/auth/drasl/mod.rs:97-133 | no access token fails with `KeyringError(NoEntry)` whatever the reply; success exactly on a 2xx reply; otherwise the server's error body or the fixed "Cant parse unsuccessful response" pair; the account is not changed |
| `Drasl.Logout` | crates/ql_instances/src/auth/drasl/mod.rs:37-47 | only an entry that cannot be built fails, with the error's display text; otherwise Ok, the secret is deleted if the store can be reached, and reading it afterwards is `NoEntry` |
| `Drasl.LoginRefresh` | crates/ql_instances/src/auth/drasl/mod.rs:49-95 | the entry is built before the reply is read; on success the stored secret becomes the new access token and only the two tokens, uuid, display name, refresh token and refresh flag change; username and type are kept; every failure leaves the store unchanged |
| `Drasl.LoginNew` | crates/ql_instances/src/auth/drasl/mod.rs:135-202 | a failed reply or missing profile leaves the store unchanged; success stores the access token under the username and the server's domain and returns a fresh session for the caller's username with the profile's uuid and name and type Yggdrasil; reading the stored token back gives the refresh token |
| `ElyByAuth.ElyByProvider` | crates/ql_instances/src/auth/elyby.rs:6-12 | the provider's URL is "https://authserver.ely.by/auth/authenticate" and its domain "authserver.ely.by" |
| `ElyByAuth.LoginOutcome` | crates/ql_instances/src/auth/elyby.rs:33-61 | never a server error; the two-factor verdict exactly when a 2xx body fails the login shape and is the challenge body |
| `ElyByAuth.ElyByAgreesWithRefresh` | crates/ql_instances/src/auth/elyby.rs:43-57 | apart from the challenge, which the generic login reports as the server's error, ElyBy reads every reply as a refresh does |
| `ElyByAuth.ElyByAgreesWithDraslOnSuccess` | crates/ql_instances/src/auth/elyby.rs:43-44 | a reply the generic login accepts gives ElyBy the same session |
| `ElyByAuth.OtpOnlyOnSuccessStatus` | crates/ql_instances/src/auth/elyby.rs:33-41 | every non-2xx reply is `DownloadError(status, url)` for ElyBy whatever its body, so no two-factor check is made on it |
| `ElyByAuth.OtpChallengeOnSuccessStatus` | crates/ql_instances/src/auth/elyby.rs:46-50 | the challenge body with status 200 gives the two-factor verdict for ElyBy and the server's error with both fields for the generic login |
| `ElyByAuth.LoginNew` | crates/ql_instances/src/auth/elyby.rs:19-80 | a two-factor challenge returns `NeedsOtp` and failures return their error, all without touching the store; success stores the token under the email and "authserver.ely.by" and returns an ElyBy account with username = email and a fresh session |

## Left out

- The HTTP transport: sending, the request URLs joined to the server URL, and the request payloads (agent, username, password, tokens). A reply is an input value.
- JSON decoding: a body is given with the outcome of decoding it as each shape.
- URL parsing is a foreign library: `DraslProvider.Parse` takes it as a function, and the ElyBy provider's host is the one that parser gives for its fixed URL.
- The `unwrap` of `parse` in the generic `login_new` and of the host in `domain` are panics, not error paths: both are preconditions.
- The display texts of request errors, JSON errors and keyring errors belong to other libraries and are an input (`ForeignText`).
- DraslError.KeyringErrorText: omits the Linux-only hint texts added for two platform errors, which depend on the operating system.
- The keyring-error struct is folded into the error variant that holds it; its only addition, the display header, is `KeyringErrorText`.
- The platform credential store is reduced to a map with fixed sets of entries it cannot build or access; a failed write or delete leaves it unchanged.
- Drasl.Invalidate: takes the account by value, since the code never writes through its mutable reference.
- Logging and printing, including the warning `logout` logs when deletion fails.
- Asynchrony: every operation runs its steps in order with no concurrency.
- The `authlib` and `ms` modules and the Microsoft login flow, which are not part of this model.
