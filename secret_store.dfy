/**
 * The platform credential store reached through the `keyring` crate. An entry is
 * addressed by a service name and a user string. Which entries the platform
 * refuses to create, and which it cannot access, is fixed for a store; only the
 * stored secrets change.
 */
module SecretStore {
  import opened Wrappers

  /** `keyring::Error`, reduced to the variants whose meaning the login code relies on. */
  datatype KeyringFailure =
    | NoEntry
    | PlatformFailure(detail: string)
    | NoStorageAccess(detail: string)
    | Invalid(attribute: string, reason: string)

  /** What `keyring::Entry::new` identifies. */
  datatype EntryKey = EntryKey(service: string, user: string)

  class Store {
    /** The secrets currently held, by entry. */
    var secrets: map<EntryKey, string>
    /** Entries that `Entry::new` refuses to build, with the error it returns. */
    const invalidEntries: map<EntryKey, KeyringFailure>
    /** Entries the platform store cannot read, write or delete, with the error it returns. */
    const accessFaults: map<EntryKey, KeyringFailure>

    constructor (secrets: map<EntryKey, string>,
                 invalidEntries: map<EntryKey, KeyringFailure>,
                 accessFaults: map<EntryKey, KeyringFailure>)
      ensures this.secrets == secrets
      ensures this.invalidEntries == invalidEntries && this.accessFaults == accessFaults
    {
      this.secrets := secrets;
      this.invalidEntries := invalidEntries;
      this.accessFaults := accessFaults;
    }

    /** `Entry::new(service, user)`. */
    function NewEntry(service: string, user: string): (r: Result<EntryKey, KeyringFailure>)
      ensures r.Success? <==> EntryKey(service, user) !in invalidEntries
      ensures r.Success? ==> r.value == EntryKey(service, user)
      ensures r.Failure? ==> r.error == invalidEntries[EntryKey(service, user)]
    {
      var key := EntryKey(service, user);
      if key in invalidEntries then Failure(invalidEntries[key]) else Success(key)
    }

    /**
     * `Entry::get_password`: a store that cannot be accessed reports its own error;
     * otherwise a missing secret is the `NoEntry` error.
     */
    function GetPassword(key: EntryKey): (r: Result<string, KeyringFailure>)
      reads this
      ensures r.Success? <==> key !in accessFaults && key in secrets
      ensures r.Success? ==> r.value == secrets[key]
      ensures key in accessFaults ==> r == Failure(accessFaults[key])
      ensures key !in accessFaults && key !in secrets ==> r == Failure(NoEntry)
    {
      if key in accessFaults then Failure(accessFaults[key])
      else if key in secrets then Success(secrets[key])
      else Failure(NoEntry)
    }

    /** `Entry::set_password`: a failed write leaves the store as it was. */
    method SetPassword(key: EntryKey, secret: string) returns (r: Result<(), KeyringFailure>)
      modifies this
      ensures key in accessFaults ==> r == Failure(accessFaults[key]) && secrets == old(secrets)
      ensures key !in accessFaults ==> r.Success? && secrets == old(secrets)[key := secret]
    {
      if key in accessFaults {
        r := Failure(accessFaults[key]);
      } else {
        secrets := secrets[key := secret];
        r := Success(());
      }
    }

    /** `Entry::delete_credential`: deleting a missing secret is the `NoEntry` error. */
    method DeleteCredential(key: EntryKey) returns (r: Result<(), KeyringFailure>)
      modifies this
      ensures key in accessFaults ==> r == Failure(accessFaults[key]) && secrets == old(secrets)
      ensures key !in accessFaults && key !in old(secrets) ==> r == Failure(NoEntry) && secrets == old(secrets)
      ensures key !in accessFaults && key in old(secrets) ==> r.Success? && secrets == old(secrets) - {key}
    {
      if key in accessFaults {
        r := Failure(accessFaults[key]);
      } else if key in secrets {
        secrets := secrets - {key};
        r := Success(());
      } else {
        r := Failure(NoEntry);
      }
    }
  }
}
