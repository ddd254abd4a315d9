/**
 * The provider-agnostic account model: the account kinds, the account record,
 * its display helpers, and the key under which an account's secret is kept in
 * the platform credential store.
 */
module Auth {
  import opened Wrappers
  import opened SecretStore
  import opened DraslError
  import opened DraslProvider

  datatype AccountType = Microsoft | ElyBy | Yggdrasil(provider: YggdrasilProvider)

  datatype AccountData = AccountData(
    accessToken: Option<string>,
    /** The client id. */
    clientToken: string,
    uuid: string,
    refreshToken: string,
    needsRefresh: bool,
    /** What the user typed to log in. */
    username: string,
    /** The name the server reports for the selected profile. */
    niceUsername: string,
    accountType: AccountType)

  /**
   * A session just obtained from a server: the access token is present, the
   * refresh token is that same token, and no refresh is pending.
   */
  predicate FreshSession(a: AccountData)
  {
    a.accessToken == Some(a.refreshToken) && !a.needsRefresh
  }

  /** What `UsernameModified` appends to the username, by account kind. */
  function ProviderSuffix(t: AccountType): string
  {
    match t
    case Microsoft => ""
    case ElyBy => " (elyby)"
    case Yggdrasil(p) => " (" + p.url.serialization + ")"
  }

  /**
   * `get_username_modified`: the username, followed by a note naming the provider:
   * nothing for Microsoft, "(elyby)" for ElyBy, the server's URL for Yggdrasil.
   */
  function UsernameModified(a: AccountData): (s: string)
    ensures |a.username| <= |s| && s[..|a.username|] == a.username
    ensures a.accountType.Microsoft? ==> s == a.username
    ensures a.accountType.ElyBy? ==> s[|a.username|..] == " (elyby)"
    ensures a.accountType.Yggdrasil? ==>
      s[|a.username|..] == " (" + a.accountType.provider.url.serialization + ")"
  {
    a.username + ProviderSuffix(a.accountType)
  }

  /** The display of `AccountType`. */
  function TypeName(t: AccountType): (s: string)
    ensures s in {"Microsoft", "ElyBy", "Drasl"}
    ensures s == "Microsoft" <==> t.Microsoft?
    ensures s == "ElyBy" <==> t.ElyBy?
    ensures t.Yggdrasil? ==> s == "Drasl"
  {
    match t
    case Microsoft => "Microsoft"
    case ElyBy => "ElyBy"
    case Yggdrasil(_) => "Drasl"
  }

  /** `is_elyby`. */
  function IsElyBy(a: AccountData): (b: bool)
    ensures b <==> TypeName(a.accountType) == "ElyBy"
  {
    a.accountType.ElyBy?
  }

  /** The service name of every credential-store entry of the launcher. */
  const KeyringService := "QuantumLauncher"

  /** `domain.replace('.', "_")`. */
  function ReplaceDots(domain: string): (r: string)
    ensures |r| == |domain|
    ensures forall i :: 0 <= i < |domain| ==> r[i] == if domain[i] == '.' then '_' else domain[i]
  {
    if domain == [] then []
    else (if domain[0] == '.' then "_" else [domain[0]]) + ReplaceDots(domain[1..])
  }

  /**
   * The user part of an account's credential-store entry: the username, '#', and
   * the domain with every '.' replaced by '_'.
   */
  function KeyringUser(username: string, domain: string): (u: string)
    ensures |u| == |username| + 1 + |domain|
    ensures u[..|username|] == username && u[|username|] == '#'
    ensures u[|username| + 1..] == ReplaceDots(domain)
    ensures '.' !in u[|username| + 1..]
  {
    username + "#" + ReplaceDots(domain)
  }

  /**
   * When no domain holds '#' or '_' (hosts never hold '#'), the entry's user part
   * determines both the username and the domain: the last '#' splits them.
   */
  lemma KeyringUserInjective(u1: string, d1: string, u2: string, d2: string)
    requires '#' !in d1 && '#' !in d2 && '_' !in d1 && '_' !in d2
    requires KeyringUser(u1, d1) == KeyringUser(u2, d2)
    ensures u1 == u2 && d1 == d2
  {
  }

  /**
   * For one username, two domains give the same entry exactly when they have the
   * same length and agree at every position, except that '.' and '_' stand for
   * each other.
   */
  lemma DotAndUnderscoreShareEntry(username: string, d1: string, d2: string)
    ensures KeyringUser(username, d1) == KeyringUser(username, d2) <==>
      && |d1| == |d2|
      && forall i :: 0 <= i < |d1| ==> d1[i] == d2[i] || (d1[i] in {'.', '_'} && d2[i] in {'.', '_'})
  {
  }

  /** `get_keyring_entry`: the launcher's entry for a username on a domain. */
  function GetKeyringEntry(store: Store, username: string, domain: string): (r: Result<EntryKey, Error>)
    ensures var key := EntryKey(KeyringService, KeyringUser(username, domain));
      && (r.Success? <==> key !in store.invalidEntries)
      && (r.Success? ==> r.value == key)
      && (r.Failure? ==> r.error == KeyringError(store.invalidEntries[key]))
  {
    match store.NewEntry(KeyringService, KeyringUser(username, domain))
    case Failure(f) => Failure(FromKeyring(f))
    case Success(key) => Success(key)
  }

  /**
   * `read_refresh_token`: the secret stored for the username on the domain. A
   * refused entry and an inaccessible store pass on the keyring's own error; an
   * absent secret is the keyring's `NoEntry` error, never a default value.
   */
  function ReadRefreshToken(store: Store, username: string, domain: string): (r: Result<string, Error>)
    reads store
    ensures var key := EntryKey(KeyringService, KeyringUser(username, domain));
      && (r.Success? <==> key !in store.invalidEntries && key !in store.accessFaults && key in store.secrets)
      && (r.Success? ==> r.value == store.secrets[key])
      && (key in store.invalidEntries ==> r == Failure(KeyringError(store.invalidEntries[key])))
      && (key !in store.invalidEntries && key in store.accessFaults ==>
            r == Failure(KeyringError(store.accessFaults[key])))
      && (key !in store.invalidEntries && key !in store.accessFaults && key !in store.secrets ==>
            r == Failure(KeyringError(NoEntry)))
  {
    match GetKeyringEntry(store, username, domain)
    case Failure(e) => Failure(e)
    case Success(key) =>
      match store.GetPassword(key)
      case Failure(f) => Failure(FromKeyring(f))
      case Success(secret) => Success(secret)
  }
}
