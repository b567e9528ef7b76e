/** The persisted per-user configuration store (a `conf` instance) and the
    records the command-line tool keeps in it. The store is read and written
    by dotted paths; only the paths the tool uses are modelled, each as a
    method of `Store`. */
module Conf {
  import opened Wrappers
  import Dict

  /** An ISO date-time as stored in the configuration file; opaque here. */
  type Timestamp = string

  /** The Plaid account record returned by the linking flow. */
  datatype PlaidAccount = PlaidAccount(accountId: string, name: string, mask: string, subtype: string, kind: string)

  /** A value of the `plaidAccounts` dictionary, keyed by Plaid account id. */
  datatype PlaidLink = PlaidLink(
    account: PlaidAccount,
    plaidToken: string,
    plaidItemId: string,
    plaidBankName: string,
    plaidInstitutionId: string)

  /** A value of the `actualSync` dictionary, keyed by Actual account id: one
      Actual account linked to one Plaid account, with its import checkpoint. */
  datatype SyncEntry = SyncEntry(
    actualName: string,
    actualType: string,
    actualAccountId: string,
    plaidItemId: string,
    plaidToken: string,
    plaidAccount: PlaidAccount,
    plaidBankName: string,
    lastImport: Option<Timestamp>)

  /** What a configuration file holds when it is opened. */
  datatype StoreData = StoreData(
    user: Option<string>,
    actualSync: Option<Dict.Dict<SyncEntry>>,
    plaidAccounts: Option<Dict.Dict<PlaidLink>>)

  ghost predicate ValidData(data: StoreData)
  {
    && (data.actualSync.Some? ==> Dict.Valid(data.actualSync.value))
    && (data.plaidAccounts.Some? ==> Dict.Valid(data.plaidAccounts.value))
  }

  /** `actualSync` after `set("actualSync.<actualId>.lastImport", at)`: the one
      entry gets the new checkpoint, every other field and entry stays. */
  function WithLastImport(d: Dict.Dict<SyncEntry>, actualId: string, at: Timestamp): (r: Dict.Dict<SyncEntry>)
    requires Dict.Valid(d) && actualId in Dict.Keys(d)
    ensures Dict.Valid(r) && Dict.Keys(r) == Dict.Keys(d)
    ensures Dict.Get(r, actualId) == Some(Dict.Get(d, actualId).value.(lastImport := Some(at)))
    ensures forall k :: k != actualId ==> Dict.Get(r, k) == Dict.Get(d, k)
  {
    Dict.Set(d, actualId, Dict.Get(d, actualId).value.(lastImport := Some(at)))
  }

  /** `actualSync` after `set("actualSync.<actualId>", entry)`; the dictionary
      is created when the store has none yet. */
  function WithEntry(d: Option<Dict.Dict<SyncEntry>>, actualId: string, entry: SyncEntry): (r: Dict.Dict<SyncEntry>)
    requires d.Some? ==> Dict.Valid(d.value)
    ensures Dict.Valid(r)
    ensures Dict.Get(r, actualId) == Some(entry)
    ensures forall k :: k != actualId ==> Dict.Get(r, k) == (if d.Some? then Dict.Get(d.value, k) else None)
  {
    Dict.Set(if d.Some? then d.value else [], actualId, entry)
  }

  class Store {
    /** The file name the store was opened under. */
    const configName: string
    var user: Option<string>
    var actualSync: Option<Dict.Dict<SyncEntry>>
    var plaidAccounts: Option<Dict.Dict<PlaidLink>>

    ghost predicate Valid()
      reads this
    {
      ValidData(StoreData(user, actualSync, plaidAccounts))
    }

    /** `new Conf({ configName })`: opens the file `configName`, whose
        contents are `persisted`. */
    constructor (configName: string, persisted: StoreData)
      requires ValidData(persisted)
      ensures Valid()
      ensures this.configName == configName
      ensures user == persisted.user && actualSync == persisted.actualSync && plaidAccounts == persisted.plaidAccounts
    {
      this.configName := configName;
      user := persisted.user;
      actualSync := persisted.actualSync;
      plaidAccounts := persisted.plaidAccounts;
    }

    /** `set("user", key)`. */
    method SetUser(key: string)
      requires Valid()
      modifies this
      ensures Valid()
      ensures user == Some(key)
      ensures actualSync == old(actualSync) && plaidAccounts == old(plaidAccounts)
    {
      user := Some(key);
    }

    /** `set("actualSync.<actualId>.lastImport", at)` for a linked account. */
    method SetLastImport(actualId: string, at: Timestamp)
      requires Valid() && actualSync.Some? && actualId in Dict.Keys(actualSync.value)
      modifies this
      ensures Valid()
      ensures actualSync == Some(WithLastImport(old(actualSync.value), actualId, at))
      ensures user == old(user) && plaidAccounts == old(plaidAccounts)
    {
      actualSync := Some(WithLastImport(actualSync.value, actualId, at));
    }

    /** `set("actualSync.<actualId>", entry)`: links (or relinks) an account. */
    method SetEntry(actualId: string, entry: SyncEntry)
      requires Valid()
      modifies this
      ensures Valid()
      ensures actualSync == Some(WithEntry(old(actualSync), actualId, entry))
      ensures user == old(user) && plaidAccounts == old(plaidAccounts)
    {
      actualSync := Some(WithEntry(actualSync, actualId, entry));
    }
  }
}
