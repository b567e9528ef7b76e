/** The command-line tool (cli.js): the `import` run that moves each linked
    account's new Plaid transactions into Actual, and the bookkeeping of `ls`
    and `setup` that tells linked from unlinked accounts. Plaid, Actual and
    the clock are parameters. */
module Cli {
  import opened Wrappers
  import Seqs
  import Dict
  import Js
  import Conf
  import Config
  import Actual

  type Timestamp = Conf.Timestamp

  /** A calendar day as `dateFns.format(date, "yyyy-MM-dd")` writes it. */
  type Day = s: string | |s| == 10 witness "1970-01-01"

  /** The command-line flags `--user`, `--account` and `--since`. */
  datatype Flags = Flags(user: Option<string>, account: Option<string>, since: Option<string>)

  /** The errors the commands throw. */
  datatype CliError =
    | NoSyncingData                 // "No syncing data found please run `actualplaid setup`"
    | NoPlaidAccountsLinked         // "You did not link any Plaid accounts"
    | TypeError                     // a missing `plaidAccounts` dictionary is dereferenced
    | FetchFailed(message: string)  // Plaid's `getTransactions` rejected

  /** The body of Plaid's transactions response. */
  datatype Response = Response(transactions: seq<Actual.PlaidTransaction>)

  /** `plaidClient.getTransactions(token, startDate, endDate)`: the response,
      or the error it rejects with. */
  type PlaidClient = (string, Day, Day) -> Result<Response, string>

  /** The clock, the ledger and the date formatter, as one run sees them. */
  datatype RunInputs = RunInputs(
    ledgerLast: string -> Timestamp,   // getLastTransactionDate(actual, actualId)
    formatDay: Timestamp -> Day,       // dateFns.format(new Date(t), "yyyy-MM-dd")
    now: Timestamp,                    // new Date() when the run starts
    elapsedMs: nat -> int,             // time the i-th account's fetch took
    importedAt: nat -> Timestamp)      // new Date() when the i-th checkpoint is written

  /** `flags.user || "default"`: whose store the command opens. */
  function ConfUser(flags: Flags): (user: string)
    ensures Js.Truthy(flags.user) ==> user == flags.user.value
    ensures !Js.Truthy(flags.user) ==> user == "default"
  {
    Js.Or(flags.user, "default")
  }

  /** `config = getConf(flags.user || "default")`: the store of the user the
      flags name, for the Plaid environment the process runs against. It
      fails exactly when one of the three settings without a default is
      unset. */
  method OpenConfig(env: Config.Env, flags: Flags, disk: string -> Conf.StoreData)
    returns (r: Result<Conf.Store, Config.ConfigError>)
    requires forall name :: Conf.ValidData(disk(name))
    ensures r.Failure? <==>
              || !Config.IsSet(env, "PLAID_CLIENT_ID")
              || !Config.IsSet(env, "ACTUAL_SERVER_URL")
              || !Config.IsSet(env, "ACTUAL_SERVER_PASSWORD")
    ensures r.Failure? ==>
              r.error == Config.MissingEnvironmentVariable(
                if !Config.IsSet(env, "PLAID_CLIENT_ID") then "PLAID_CLIENT_ID"
                else if !Config.IsSet(env, "ACTUAL_SERVER_URL") then "ACTUAL_SERVER_URL"
                else "ACTUAL_SERVER_PASSWORD")
    ensures r.Success? ==>
              && fresh(r.value) && r.value.Valid()
              && r.value.configName == Config.ConfKey(ConfUser(flags), Config.FromEnv(env).plaidEnv)
              && r.value.user == Some(r.value.configName)
              && r.value.actualSync == disk(r.value.configName).actualSync
              && r.value.plaidAccounts == disk(r.value.configName).plaidAccounts
  {
    Config.ValidationOutcome(env);
    r := Config.GetConf(env, ConfUser(flags), disk);
  }

  // ---------------------------------------------------------------------
  // import: which accounts, from which date

  /** The `actualSync` entries to process: all of them without an `--account`
      flag, otherwise those whose Actual name equals the flag; in stored order. */
  function SelectAccounts(syncing: Dict.Dict<Conf.SyncEntry>, account: Option<string>): (r: Dict.Dict<Conf.SyncEntry>)
    requires Dict.Valid(syncing)
    ensures Dict.Valid(r) && Seqs.SubsequenceOf(r, syncing)
    ensures forall e :: e in r <==> e in syncing && (!Js.Truthy(account) || e.1.actualName == account.value)
    ensures !Js.Truthy(account) ==> r == syncing
    ensures forall i :: 0 <= i < |r| ==> Dict.Get(syncing, r[i].0) == Some(r[i].1)
  {
    var keep := (e: (string, Conf.SyncEntry)) => !Js.Truthy(account) || e.1.actualName == account.value;
    Dict.FilterValid(syncing, keep);
    assert forall i :: 0 <= i < |Seqs.Filter(syncing, keep)| ==>
             Dict.Get(syncing, Seqs.Filter(syncing, keep)[i].0) == Some(Seqs.Filter(syncing, keep)[i].1) by {
      var r := Seqs.Filter(syncing, keep);
      forall i | 0 <= i < |r|
        ensures Dict.Get(syncing, r[i].0) == Some(r[i].1)
      {
        assert r[i] in syncing;
        var j :| 0 <= j < |syncing| && syncing[j] == r[i];
      }
    }
    assert !Js.Truthy(account) ==> Seqs.Filter(syncing, keep) == syncing by {
      if !Js.Truthy(account) {
        Seqs.FilterAll(syncing, keep);
      }
    }
    Seqs.Filter(syncing, keep)
  }

  /** Where an account's start date comes from. */
  datatype StartSource = SinceFlag | StoredLastImport | LedgerLastTransaction

  /** `flags.since || account.lastImport || getLastTransactionDate(...)`:
      the first truthy source wins. */
  function StartSourceOf(since: Option<string>, lastImport: Option<Timestamp>): (s: StartSource)
    ensures s == SinceFlag <==> Js.Truthy(since)
    ensures s == StoredLastImport <==> !Js.Truthy(since) && Js.Truthy(lastImport)
    ensures s == LedgerLastTransaction <==> !Js.Truthy(since) && !Js.Truthy(lastImport)
  {
    if Js.Truthy(since) then SinceFlag
    else if Js.Truthy(lastImport) then StoredLastImport
    else LedgerLastTransaction
  }

  /** The moment the start date is taken from, as `StartSourceOf` selects it.
      The ledger is only consulted when both other sources are falsy. */
  function StartTimestamp(since: Option<string>, lastImport: Option<Timestamp>, ledgerLast: Timestamp): (t: Timestamp)
    ensures StartSourceOf(since, lastImport) == SinceFlag ==> t == since.value
    ensures StartSourceOf(since, lastImport) == StoredLastImport ==> t == lastImport.value
    ensures StartSourceOf(since, lastImport) == LedgerLastTransaction ==> t == ledgerLast
  {
    match StartSourceOf(since, lastImport)
    case SinceFlag => since.value
    case StoredLastImport => lastImport.value
    case LedgerLastTransaction => ledgerLast
  }

  // ---------------------------------------------------------------------
  // import: the run-scoped fetch cache

  /** The cache key `${token}-${startDate}`. */
  function CacheKey(token: string, startDate: Day): (key: string)
    ensures |key| == |token| + 11
    ensures key[..|token|] == token && key[|token|] == '-' && key[|token| + 1..] == startDate
  {
    token + "-" + startDate
  }

  /** Because a formatted day has a fixed width, a key names one token and
      one day: a cache hit never returns another token's response. */
  lemma CacheKeyInjective(t1: string, d1: Day, t2: string, d2: Day)
    requires CacheKey(t1, d1) == CacheKey(t2, d2)
    ensures t1 == t2 && d1 == d2
  {
    var k := CacheKey(t1, d1);
    assert |t1| == |t2|;
    assert t1 == k[..|t1|] == t2;
  }

  /** One upstream `getTransactions` call and what it returned. */
  datatype Fetch = Fetch(token: string, startDate: Day, endDate: Day, result: Result<Response, string>)
  {
    function Key(): string
    {
      CacheKey(token, startDate)
    }
  }

  /** What the loop did for one account. */
  datatype Step = Step(
    actualId: string,
    token: string,
    startDate: Day,
    response: Response,
    sleepMs: nat,
    request: Actual.ImportRequest)
  {
    function Key(): string
    {
      CacheKey(token, startDate)
    }
  }

  /** The keys of the calls made so far. */
  function FetchKeys(fs: seq<Fetch>): set<string>
  {
    if fs == [] then {} else FetchKeys(fs[..|fs| - 1]) + {fs[|fs| - 1].Key()}
  }

  /** The keys of the accounts handled so far. */
  function StepKeys(ss: seq<Step>): set<string>
  {
    if ss == [] then {} else StepKeys(ss[..|ss| - 1]) + {ss[|ss| - 1].Key()}
  }

  lemma FetchKeysAppend(fs: seq<Fetch>, f: Fetch)
    ensures FetchKeys(fs + [f]) == FetchKeys(fs) + {f.Key()}
  {
    assert (fs + [f])[..|fs|] == fs;
  }

  lemma StepKeysAppend(ss: seq<Step>, s: Step)
    ensures StepKeys(ss + [s]) == StepKeys(ss) + {s.Key()}
  {
    assert (ss + [s])[..|ss|] == ss;
  }

  /** Every call succeeded, and the keys called, the keys cached and the
      keys of the accounts handled are the same. */
  ghost predicate KeysAgree(cache: map<string, Response>, fetches: seq<Fetch>, steps: seq<Step>)
  {
    && (forall j :: 0 <= j < |fetches| ==> fetches[j].result.Success?)
    && FetchKeys(fetches) == StepKeys(steps)
    && cache.Keys == StepKeys(steps)
  }

  /** An account whose key was already cached adds no call. */
  lemma HitKeepsKeysAgree(cache: map<string, Response>, fetches: seq<Fetch>, steps: seq<Step>, step: Step)
    requires KeysAgree(cache, fetches, steps) && step.Key() in cache
    ensures KeysAgree(cache, fetches, steps + [step])
  {
    StepKeysAppend(steps, step);
  }

  /** An account whose key was missing adds one successful call and caches
      its answer under the account's key. */
  lemma MissKeepsKeysAgree(cache: map<string, Response>, fetches: seq<Fetch>, steps: seq<Step>, step: Step, call: Fetch)
    requires KeysAgree(cache, fetches, steps) && call.result.Success? && call.Key() == step.Key()
    ensures KeysAgree(cache[call.Key() := call.result.value], fetches + [call], steps + [step])
  {
    StepKeysAppend(steps, step);
    FetchKeysAppend(fetches, call);
  }

  /** The cache invariant, on the run's state as values: every cached
      response is what Plaid answered for the token and day its key names;
      every call used the run's end date and is logged with its answer; a
      key is cached exactly when it was fetched successfully; and a key was
      fetched twice only after an earlier call for it failed. */
  ghost predicate CacheInvariant(
    endDate: Day, plaid: PlaidClient, cache: map<string, Response>,
    origin: map<string, (string, Day)>, fetches: seq<Fetch>)
  {
    && origin.Keys == cache.Keys
    && (forall k :: k in origin ==>
          && CacheKey(origin[k].0, origin[k].1) == k
          && plaid(origin[k].0, origin[k].1, endDate) == Success(cache[k]))
    && (forall i :: 0 <= i < |fetches| ==>
          && fetches[i].endDate == endDate
          && fetches[i].result == plaid(fetches[i].token, fetches[i].startDate, endDate))
    && (forall i :: 0 <= i < |fetches| && fetches[i].result.Success? ==> fetches[i].Key() in cache)
    && (forall k :: k in cache ==> k in FetchKeys(fetches))
    && (forall i, j :: 0 <= i < j < |fetches| && fetches[i].Key() == fetches[j].Key() ==> fetches[i].result.Failure?)
  }

  /** A hit answers what Plaid would have answered. */
  lemma CacheHitAnswers(
    endDate: Day, plaid: PlaidClient, cache: map<string, Response>,
    origin: map<string, (string, Day)>, fetches: seq<Fetch>, token: string, startDate: Day)
    requires CacheInvariant(endDate, plaid, cache, origin, fetches)
    requires CacheKey(token, startDate) in cache
    ensures plaid(token, startDate, endDate) == Success(cache[CacheKey(token, startDate)])
  {
    var key := CacheKey(token, startDate);
    CacheKeyInjective(origin[key].0, origin[key].1, token, startDate);
  }

  /** A miss whose call fails is logged and leaves the cache as it was. */
  lemma FailedMissKeepsInvariant(
    endDate: Day, plaid: PlaidClient, cache: map<string, Response>,
    origin: map<string, (string, Day)>, fetches: seq<Fetch>, token: string, startDate: Day)
    requires CacheInvariant(endDate, plaid, cache, origin, fetches)
    requires CacheKey(token, startDate) !in cache
    requires plaid(token, startDate, endDate).Failure?
    ensures CacheInvariant(endDate, plaid, cache, origin,
                           fetches + [Fetch(token, startDate, endDate, plaid(token, startDate, endDate))])
  {
    var call := Fetch(token, startDate, endDate, plaid(token, startDate, endDate));
    FetchKeysAppend(fetches, call);
  }

  /** A miss whose call succeeds is logged and cached under its key. */
  lemma CachedMissKeepsInvariant(
    endDate: Day, plaid: PlaidClient, cache: map<string, Response>,
    origin: map<string, (string, Day)>, fetches: seq<Fetch>, token: string, startDate: Day)
    requires CacheInvariant(endDate, plaid, cache, origin, fetches)
    requires CacheKey(token, startDate) !in cache
    requires plaid(token, startDate, endDate).Success?
    ensures var call := Fetch(token, startDate, endDate, plaid(token, startDate, endDate));
            CacheInvariant(endDate, plaid, cache[call.Key() := call.result.value],
                           origin[call.Key() := (token, startDate)], fetches + [call])
  {
    var call := Fetch(token, startDate, endDate, plaid(token, startDate, endDate));
    FetchKeysAppend(fetches, call);
    assert forall i :: 0 <= i < |fetches| ==> fetches[i].Key() != call.Key();
  }

  /** One `import` run: its end date, fixed when the run starts, and the
      `transactionsPerToken` cache of `cachedTransaction`. The ghost fields
      record the run's upstream calls and, for each key, what it was
      cached for. */
  class ImportRun {
    const endDate: Day
    const plaid: PlaidClient
    var transactionsPerToken: map<string, Response>
    ghost var origin: map<string, (string, Day)>
    ghost var fetches: seq<Fetch>

    ghost predicate Valid()
      reads this`transactionsPerToken, this`origin, this`fetches
    {
      CacheInvariant(endDate, plaid, transactionsPerToken, origin, fetches)
    }

    constructor (endDate: Day, plaid: PlaidClient)
      ensures Valid()
      ensures this.endDate == endDate && this.plaid == plaid
      ensures transactionsPerToken == map[] && fetches == []
    {
      this.endDate := endDate;
      this.plaid := plaid;
      transactionsPerToken := map[];
      origin := map[];
      fetches := [];
    }

    /** `cachedTransaction(token, startDate)`: answers from the cache when the
        key is there, otherwise calls Plaid once and caches a successful
        answer. Either way the answer is Plaid's for this token, day and the
        run's end date. */
    method CachedTransaction(token: string, startDate: Day) returns (r: Result<Response, string>)
      requires Valid()
      modifies this
      ensures Valid()
      ensures r == plaid(token, startDate, endDate)
      ensures CacheKey(token, startDate) in old(transactionsPerToken) ==>
                && r == Success(old(transactionsPerToken)[CacheKey(token, startDate)])
                && fetches == old(fetches) && transactionsPerToken == old(transactionsPerToken)
      ensures CacheKey(token, startDate) !in old(transactionsPerToken) ==>
                fetches == old(fetches) + [Fetch(token, startDate, endDate, r)]
      ensures transactionsPerToken
              == if r.Success? then old(transactionsPerToken)[CacheKey(token, startDate) := r.value]
                 else old(transactionsPerToken)
    {
      var key := CacheKey(token, startDate);
      if key !in transactionsPerToken {
        var response := plaid(token, startDate, endDate);
        if response.Failure? {
          FailedMissKeepsInvariant(endDate, plaid, transactionsPerToken, origin, fetches, token, startDate);
          fetches := fetches + [Fetch(token, startDate, endDate, response)];
          return response;
        }
        CachedMissKeepsInvariant(endDate, plaid, transactionsPerToken, origin, fetches, token, startDate);
        fetches := fetches + [Fetch(token, startDate, endDate, response)];
        transactionsPerToken := transactionsPerToken[key := response.value];
        origin := origin[key := (token, startDate)];
      } else {
        CacheHitAnswers(endDate, plaid, transactionsPerToken, origin, fetches, token, startDate);
      }
      return Success(transactionsPerToken[key]);
    }

    /** So far every call succeeded, and the keys called, the keys cached
        and the keys of the accounts handled in `steps` are the same. */
    ghost predicate Consistent(steps: seq<Step>)
      reads this
    {
      KeysAgree(transactionsPerToken, fetches, steps)
    }

    /** The loop body for the i-th account: the start date by priority, the
        cached fetch, this account's transactions, the pacing wait, the
        import request and the checkpoint of the account's `lastImport`. A
        rejected fetch is returned as the error, before any checkpoint. */
    method SyncAccount(
      store: Conf.Store, i: nat, account: (string, Conf.SyncEntry), flags: Flags, inputs: RunInputs, ghost steps: seq<Step>)
      returns (r: Result<Step, string>)
      requires Valid() && Consistent(steps)
      requires store.Valid() && store.actualSync.Some? && account.0 in Dict.Keys(store.actualSync.value)
      modifies this, store
      ensures Valid()
      ensures store.Valid() && store.user == old(store.user) && store.plaidAccounts == old(store.plaidAccounts)
      ensures store.actualSync
              == if r.Success? then Some(Conf.WithLastImport(old(store.actualSync).value, account.0, inputs.importedAt(i)))
                 else old(store.actualSync)
      ensures r.Success? ==> Consistent(steps + [r.value]) && StepFollows(r.value, i, account, flags, endDate, plaid, inputs)
      ensures r.Failure? ==>
                && OnlyLastMayFail(fetches)
                && var start := inputs.formatDay(StartTimestamp(flags.since, account.1.lastImport, inputs.ledgerLast(account.0)));
                   plaid(account.1.plaidToken, start, endDate) == Failure(r.error)
    {
      var (actualId, entry) := account;
      var startDate := inputs.formatDay(StartTimestamp(flags.since, entry.lastImport, inputs.ledgerLast(actualId)));
      ghost var before := fetches;
      var transactionsResponse := CachedTransaction(entry.plaidToken, startDate);
      if transactionsResponse.Failure? {
        assert fetches[..|before|] == before;
        return Failure(transactionsResponse.error);
      }
      var transactionsForThisAccount := TransactionsForAccount(transactionsResponse.value, entry.plaidAccount.accountId);
      var timeToSleep := PacingDelay(inputs.elapsedMs(i));
      var request := Actual.ImportPlaidTransactions(actualId, transactionsForThisAccount);
      var step := Step(actualId, entry.plaidToken, startDate, transactionsResponse.value, timeToSleep, request);
      if fetches == before {
        HitKeepsKeysAgree(transactionsPerToken, fetches, steps, step);
      } else {
        MissKeepsKeysAgree(old(transactionsPerToken), before, steps, step, fetches[|before|]);
      }
      store.SetLastImport(actualId, inputs.importedAt(i));
      return Success(step);
    }
  }

  // ---------------------------------------------------------------------
  // import: filtering, pacing, checkpoints

  /** `transactions.filter(t => t.account_id === plaidAccountId)`. */
  function TransactionsForAccount(response: Response, plaidAccountId: string): (r: seq<Actual.PlaidTransaction>)
    ensures Seqs.SubsequenceOf(r, response.transactions)
    ensures forall t :: t in r <==> t in response.transactions && t.accountId == plaidAccountId
    ensures forall t :: multiset(r)[t] == if t.accountId == plaidAccountId then multiset(response.transactions)[t] else 0
  {
    Seqs.Filter(response.transactions, (t: Actual.PlaidTransaction) => t.accountId == plaidAccountId)
  }

  const PacingTargetMs: int := 2000

  /** The wait after a fetch: the shortest one that makes fetch and wait last
      at least two seconds together, and none when the fetch already did. */
  function PacingDelay(elapsedMs: int): (sleepMs: nat)
    ensures sleepMs == 0 <==> elapsedMs >= PacingTargetMs
    ensures elapsedMs + sleepMs >= PacingTargetMs
    ensures sleepMs > 0 ==> elapsedMs + sleepMs == PacingTargetMs
  {
    if PacingTargetMs - elapsedMs > 0 then PacingTargetMs - elapsedMs else 0
  }

  /** `actualSync` after the checkpoints of `accounts` were written in
      order, the i-th with `importedAt(i)`. */
  function Checkpointed(d: Dict.Dict<Conf.SyncEntry>, accounts: seq<(string, Conf.SyncEntry)>, importedAt: nat -> Timestamp)
    : (r: Dict.Dict<Conf.SyncEntry>)
    requires Dict.Valid(d) && forall i :: 0 <= i < |accounts| ==> accounts[i].0 in Dict.Keys(d)
    ensures Dict.Valid(r) && Dict.Keys(r) == Dict.Keys(d)
    decreases |accounts|
  {
    if accounts == [] then d
    else
      var n := |accounts| - 1;
      Conf.WithLastImport(Checkpointed(d, accounts[..n], importedAt), accounts[n].0, importedAt(n))
  }

  /** One more checkpoint on top of the earlier ones. */
  lemma CheckpointedNext(
    d: Dict.Dict<Conf.SyncEntry>, accounts: seq<(string, Conf.SyncEntry)>, importedAt: nat -> Timestamp, i: nat)
    requires Dict.Valid(d) && forall j :: 0 <= j < |accounts| ==> accounts[j].0 in Dict.Keys(d)
    requires i < |accounts|
    ensures Checkpointed(d, accounts[..i + 1], importedAt)
            == Conf.WithLastImport(Checkpointed(d, accounts[..i], importedAt), accounts[i].0, importedAt(i))
  {
    assert accounts[..i + 1][..i] == accounts[..i];
  }

  /** Accounts the run did not reach keep their entries as they were. */
  lemma {:induction false} CheckpointedUntouched(
    d: Dict.Dict<Conf.SyncEntry>, accounts: seq<(string, Conf.SyncEntry)>, importedAt: nat -> Timestamp, k: string)
    requires Dict.Valid(d) && forall i :: 0 <= i < |accounts| ==> accounts[i].0 in Dict.Keys(d)
    requires forall i :: 0 <= i < |accounts| ==> accounts[i].0 != k
    ensures Dict.Get(Checkpointed(d, accounts, importedAt), k) == Dict.Get(d, k)
    decreases |accounts|
  {
    if accounts != [] {
      CheckpointedUntouched(d, accounts[..|accounts| - 1], importedAt, k);
    }
  }

  /** A processed account's entry differs from before only in its
      `lastImport`, which is the moment its checkpoint was written. */
  lemma {:induction false} CheckpointedWritten(
    d: Dict.Dict<Conf.SyncEntry>, accounts: seq<(string, Conf.SyncEntry)>, importedAt: nat -> Timestamp, j: nat)
    requires Dict.Valid(d) && forall i :: 0 <= i < |accounts| ==> accounts[i].0 in Dict.Keys(d)
    requires Dict.Valid(accounts) && j < |accounts|
    ensures Dict.Get(Checkpointed(d, accounts, importedAt), accounts[j].0)
            == Some(Dict.Get(d, accounts[j].0).value.(lastImport := Some(importedAt(j))))
    decreases |accounts|
  {
    if j == |accounts| - 1 {
      var init := accounts[..j];
      forall i | 0 <= i < |init|
        ensures init[i].0 != accounts[j].0
      {
        assert init[i] == accounts[i];
      }
      CheckpointedUntouched(d, init, importedAt, accounts[j].0);
      CheckpointedNext(d, accounts, importedAt, j);
      assert accounts[..j + 1] == accounts;
    } else {
      var init := accounts[..|accounts| - 1];
      assert init[j] == accounts[j];
      CheckpointedWritten(d, init, importedAt, j);
    }
  }

  /** Once an account is checkpointed, a later run without `--since` starts
      from that checkpoint and not from the ledger. */
  lemma NextRunResumesFromCheckpoint(
    d: Dict.Dict<Conf.SyncEntry>, actualId: string, at: Timestamp, ledgerLast: Timestamp)
    requires Dict.Valid(d) && actualId in Dict.Keys(d) && at != ""
    ensures StartTimestamp(None, Dict.Get(Conf.WithLastImport(d, actualId, at), actualId).value.lastImport, ledgerLast) == at
  {
  }

  /** The account the i-th step handled was handled as the source does it:
      start date by priority, response from Plaid for that token and day up
      to the run's end date, only this account's transactions, the pacing
      wait, and the mapped batch under the Actual account id. */
  ghost predicate StepFollows(
    step: Step, i: nat, account: (string, Conf.SyncEntry), flags: Flags,
    endDate: Day, plaid: PlaidClient, inputs: RunInputs)
  {
    && step.actualId == account.0
    && step.token == account.1.plaidToken
    && step.startDate == inputs.formatDay(StartTimestamp(flags.since, account.1.lastImport, inputs.ledgerLast(account.0)))
    && plaid(step.token, step.startDate, endDate) == Success(step.response)
    && step.sleepMs == PacingDelay(inputs.elapsedMs(i))
    && step.request
       == Actual.ImportPlaidTransactions(account.0, TransactionsForAccount(step.response, account.1.plaidAccount.accountId))
  }

  /** The first `|steps|` accounts were handled in order, each as
      `StepFollows` says. */
  ghost predicate StepsFollow(
    steps: seq<Step>, accounts: seq<(string, Conf.SyncEntry)>, flags: Flags,
    endDate: Day, plaid: PlaidClient, inputs: RunInputs)
  {
    && |steps| <= |accounts|
    && forall j :: 0 <= j < |steps| ==> StepFollows(steps[j], j, accounts[j], flags, endDate, plaid, inputs)
  }

  lemma StepsFollowAppend(
    steps: seq<Step>, step: Step, accounts: seq<(string, Conf.SyncEntry)>, flags: Flags,
    endDate: Day, plaid: PlaidClient, inputs: RunInputs)
    requires StepsFollow(steps, accounts, flags, endDate, plaid, inputs) && |steps| < |accounts|
    requires StepFollows(step, |steps|, accounts[|steps|], flags, endDate, plaid, inputs)
    ensures StepsFollow(steps + [step], accounts, flags, endDate, plaid, inputs)
  {
    var longer := steps + [step];
    forall j | 0 <= j < |longer|
      ensures StepFollows(longer[j], j, accounts[j], flags, endDate, plaid, inputs)
    {
      if j < |steps| {
        assert longer[j] == steps[j];
      }
    }
  }

  /** How a run over `accounts` ended: the steps taken follow the accounts
      in order; a completed run took one step per account and reports their
      number; an aborted one stopped at the first account whose fetch Plaid
      rejected, with Plaid's error. */
  ghost predicate RunEnded(
    r: Result<nat, CliError>, steps: seq<Step>, accounts: seq<(string, Conf.SyncEntry)>, flags: Flags,
    endDate: Day, plaid: PlaidClient, inputs: RunInputs)
  {
    && StepsFollow(steps, accounts, flags, endDate, plaid, inputs)
    && (r.Success? ==> r.value == |steps| == |accounts|)
    && (r.Failure? ==>
          && |steps| < |accounts|
          && var a := accounts[|steps|];
             var start := inputs.formatDay(StartTimestamp(flags.since, a.1.lastImport, inputs.ledgerLast(a.0)));
             r.error.FetchFailed? && plaid(a.1.plaidToken, start, endDate) == Failure(r.error.message))
  }

  /** Every call but the last was answered. */
  ghost predicate OnlyLastMayFail(fetches: seq<Fetch>)
  {
    forall j :: 0 <= j < |fetches| - 1 ==> fetches[j].result.Success?
  }

  /** When only the last call may have been rejected, no key was called
      twice: the cache saved every repeated (token, start date) pair a
      second call. */
  lemma NoRepeatedCalls(
    endDate: Day, plaid: PlaidClient, cache: map<string, Response>,
    origin: map<string, (string, Day)>, fetches: seq<Fetch>)
    requires CacheInvariant(endDate, plaid, cache, origin, fetches) && OnlyLastMayFail(fetches)
    ensures forall i, j :: 0 <= i < j < |fetches| ==> fetches[i].Key() != fetches[j].Key()
  {
  }

  /** The loop of `import` over the selected accounts, in order: each one
      handled and checkpointed by `SyncAccount`; the first rejected fetch
      ends the loop. */
  method SyncAll(
    store: Conf.Store, run: ImportRun, d: Dict.Dict<Conf.SyncEntry>, accounts: seq<(string, Conf.SyncEntry)>,
    flags: Flags, inputs: RunInputs)
    returns (r: Result<nat, CliError>, ghost steps: seq<Step>)
    requires store.Valid() && store.actualSync == Some(d)
    requires forall j :: 0 <= j < |accounts| ==> accounts[j].0 in Dict.Keys(d)
    requires run.Valid() && run.Consistent([])
    modifies store, run
    ensures store.Valid() && store.user == old(store.user) && store.plaidAccounts == old(store.plaidAccounts)
    ensures run.Valid()
    ensures RunEnded(r, steps, accounts, flags, run.endDate, run.plaid, inputs)
    ensures store.actualSync == Some(Checkpointed(d, accounts[..|steps|], inputs.importedAt))
    ensures r.Success? ==> run.Consistent(steps)
    ensures r.Failure? ==> OnlyLastMayFail(run.fetches)
  {
    steps := [];
    var i := 0;
    while i < |accounts|
      invariant 0 <= i <= |accounts| && |steps| == i
      invariant run.Valid() && run.Consistent(steps)
      invariant store.Valid() && store.user == old(store.user) && store.plaidAccounts == old(store.plaidAccounts)
      invariant StepsFollow(steps, accounts, flags, run.endDate, run.plaid, inputs)
      invariant store.actualSync == Some(Checkpointed(d, accounts[..i], inputs.importedAt))
    {
      CheckpointedNext(d, accounts, inputs.importedAt, i);
      var outcome := run.SyncAccount(store, i, accounts[i], flags, inputs, steps);
      if outcome.Failure? {
        return Failure(FetchFailed(outcome.error)), steps;
      }
      StepsFollowAppend(steps, outcome.value, accounts, flags, run.endDate, run.plaid, inputs);
      steps := steps + [outcome.value];
      i := i + 1;
    }
    return Success(i), steps;
  }

  /** The `import` command. Without linked accounts it fails before any
      fetch. Otherwise it processes the selected accounts in order; a
      rejected fetch aborts the run, keeping the checkpoints already
      written. The import request is not awaited, so each account's
      checkpoint is written whatever Actual does with the batch. */
  method Import(store: Conf.Store, flags: Flags, plaid: PlaidClient, inputs: RunInputs)
    returns (r: Result<nat, CliError>, run: ImportRun?, ghost steps: seq<Step>)
    requires store.Valid()
    modifies store
    ensures store.Valid() && store.user == old(store.user) && store.plaidAccounts == old(store.plaidAccounts)
    ensures Dict.OrEmpty(old(store.actualSync)) == [] ==>
              r == Failure(NoSyncingData) && run == null && store.actualSync == old(store.actualSync)
    ensures Dict.OrEmpty(old(store.actualSync)) != [] ==>
              && run != null && fresh(run) && run.Valid()
              && run.endDate == inputs.formatDay(inputs.now) && run.plaid == plaid
              && var d := old(store.actualSync).value;
                 var accounts := SelectAccounts(d, flags.account);
                 && RunEnded(r, steps, accounts, flags, run.endDate, plaid, inputs)
                 && store.actualSync == Some(Checkpointed(d, accounts[..|steps|], inputs.importedAt))
                 && (r.Success? ==> FetchKeys(run.fetches) == StepKeys(steps))
                 && (forall i, j :: 0 <= i < j < |run.fetches| ==> run.fetches[i].Key() != run.fetches[j].Key())
                 && (forall i :: 0 <= i < |run.fetches| ==> run.fetches[i].endDate == run.endDate)
  {
    var syncingData := Dict.OrEmpty(store.actualSync);
    if |syncingData| == 0 {
      return Failure(NoSyncingData), null, [];
    }
    var accountsToSync := SelectAccounts(syncingData, flags.account);
    var endDate := inputs.formatDay(inputs.now);
    run := new ImportRun(endDate, plaid);
    r, steps := SyncAll(store, run, syncingData, accountsToSync, flags, inputs);
    NoRepeatedCalls(endDate, plaid, run.transactionsPerToken, run.origin, run.fetches);
  }

  // ---------------------------------------------------------------------
  // ls and setup: linked and unlinked accounts

  /** A link between a Plaid account id and an Actual account id. */
  datatype LinkIds = LinkIds(plaid: string, actual: string)

  /** `Object.entries(actualData).map(([actualId, { plaidAccount }]) => ...)`. */
  function LinkedToActual(actualData: Dict.Dict<Conf.SyncEntry>): (links: seq<LinkIds>)
    ensures |links| == |actualData|
    ensures forall i :: 0 <= i < |actualData| ==>
              links[i] == LinkIds(actualData[i].1.plaidAccount.accountId, actualData[i].0)
  {
    seq(|actualData|, i requires 0 <= i < |actualData| => LinkIds(actualData[i].1.plaidAccount.accountId, actualData[i].0))
  }

  function PlaidIds(links: seq<LinkIds>): set<string>
  {
    set l | l in links :: l.plaid
  }

  function ActualIds(links: seq<LinkIds>): set<string>
  {
    set l | l in links :: l.actual
  }

  /** `links.forEach(ids => delete plaidData[ids.plaid])`: removes exactly
      the Plaid accounts already linked to Actual and keeps every other
      entry, in order. */
  method RemoveLinked(plaidData: Dict.Dict<Conf.PlaidLink>, links: seq<LinkIds>) returns (r: Dict.Dict<Conf.PlaidLink>)
    requires Dict.Valid(plaidData)
    ensures Dict.Valid(r) && Seqs.SubsequenceOf(r, plaidData)
    ensures forall k :: Dict.Get(r, k) == if k in PlaidIds(links) then None else Dict.Get(plaidData, k)
  {
    r := plaidData;
    Seqs.SubsequenceRefl(plaidData);
    for i := 0 to |links|
      invariant Dict.Valid(r) && Seqs.SubsequenceOf(r, plaidData)
      invariant forall k :: Dict.Get(r, k) == if k in PlaidIds(links[..i]) then None else Dict.Get(plaidData, k)
    {
      assert PlaidIds(links[..i + 1]) == PlaidIds(links[..i]) + {links[i].plaid} by {
        assert links[..i + 1] == links[..i] + [links[i]];
      }
      var next := Dict.Remove(r, links[i].plaid);
      Seqs.SubsequenceTrans(next, r, plaidData);
      r := next;
    }
    assert links[..|links|] == links;
  }

  /** Every account linked to Plaid is already linked to an Actual account. */
  ghost predicate AllLinked(plaidData: Dict.Dict<Conf.PlaidLink>, links: seq<LinkIds>)
  {
    forall k :: k in Dict.Keys(plaidData) ==> k in PlaidIds(links)
  }

  /** Removing the linked accounts leaves nothing exactly when all of them
      are linked. */
  lemma RemovedAllIffAllLinked(plaidData: Dict.Dict<Conf.PlaidLink>, links: seq<LinkIds>, r: Dict.Dict<Conf.PlaidLink>)
    requires forall k :: Dict.Get(r, k) == if k in PlaidIds(links) then None else Dict.Get(plaidData, k)
    ensures r == [] <==> AllLinked(plaidData, links)
  {
    if r != [] {
      assert Dict.Get(r, r[0].0).Some?;
    }
    if r == [] {
      forall k | k in Dict.Keys(plaidData)
        ensures k in PlaidIds(links)
      {
        assert Dict.Get(r, k).None?;
      }
    }
  }

  /** What `ls` lists. */
  datatype Listing =
    | NothingLinked
    | Listed(linked: Dict.Dict<Conf.SyncEntry>, unlinked: Dict.Dict<Conf.PlaidLink>)

  /** `printSyncedAccounts()`: the linked accounts, and the Plaid accounts
      not linked to any Actual account. Without `actualSync` there is
      nothing to list; without `plaidAccounts` the listing throws. */
  method PrintSyncedAccounts(store: Conf.Store) returns (r: Result<Listing, CliError>)
    requires store.Valid()
    ensures store.actualSync.None? ==> r == Success(NothingLinked)
    ensures store.actualSync.Some? && store.plaidAccounts.None? ==> r == Failure(TypeError)
    ensures store.actualSync.Some? && store.plaidAccounts.Some? ==>
              && r.Success? && r.value.Listed? && r.value.linked == store.actualSync.value
              && Seqs.SubsequenceOf(r.value.unlinked, store.plaidAccounts.value)
              && forall k :: Dict.Get(r.value.unlinked, k)
                             == if k in PlaidIds(LinkedToActual(store.actualSync.value)) then None
                                else Dict.Get(store.plaidAccounts.value, k)
  {
    var actualData := store.actualSync;
    var plaidData := store.plaidAccounts;
    if actualData.None? {
      return Success(NothingLinked);
    }
    if plaidData.None? {
      return Failure(TypeError);
    }
    var linkedToActual := LinkedToActual(actualData.value);
    var unlinked := RemoveLinked(plaidData.value, linkedToActual);
    return Success(Listed(actualData.value, unlinked));
  }

  /** What `setup` offers from the Plaid accounts `plaidAccounts`: the
      linked ones are removed; if none remain, or the user asks to re-link
      (`relink`), the result of linking again (`linkedAgain`, what the store
      then holds; `None` when linking was abandoned) replaces them, with the
      linked ones removed once more. No Plaid account already linked to
      Actual is ever offered. */
  ghost predicate SetupOffers(
    plaidAccounts: Dict.Dict<Conf.PlaidLink>, links: seq<LinkIds>, relink: bool,
    linkedAgain: Option<Dict.Dict<Conf.PlaidLink>>, r: Result<Dict.Dict<Conf.PlaidLink>, CliError>)
    requires Dict.Valid(plaidAccounts)
    requires linkedAgain.Some? ==> Dict.Valid(linkedAgain.value)
  {
    && (r.Success? ==> Dict.Valid(r.value) && forall k :: k in PlaidIds(links) ==> Dict.Get(r.value, k) == None)
    && (!relink && !AllLinked(plaidAccounts, links) ==>
          && r.Success?
          && Seqs.SubsequenceOf(r.value, plaidAccounts)
          && forall k :: Dict.Get(r.value, k) == if k in PlaidIds(links) then None else Dict.Get(plaidAccounts, k))
    && ((relink || AllLinked(plaidAccounts, links)) && linkedAgain.None? ==> r == Failure(NoPlaidAccountsLinked))
    && ((relink || AllLinked(plaidAccounts, links)) && linkedAgain.Some? ==>
          && r.Success?
          && Seqs.SubsequenceOf(r.value, linkedAgain.value)
          && forall k :: Dict.Get(r.value, k) == if k in PlaidIds(links) then None else Dict.Get(linkedAgain.value, k))
  }

  /** The part of `setup` that chooses the Plaid accounts to offer, on a
      `plaidAccounts` dictionary that exists. */
  method OfferUnlinked(
    plaidAccounts: Dict.Dict<Conf.PlaidLink>, linkedToActual: seq<LinkIds>, relink: bool,
    linkedAgain: Option<Dict.Dict<Conf.PlaidLink>>)
    returns (r: Result<Dict.Dict<Conf.PlaidLink>, CliError>)
    requires Dict.Valid(plaidAccounts)
    requires linkedAgain.Some? ==> Dict.Valid(linkedAgain.value)
    ensures SetupOffers(plaidAccounts, linkedToActual, relink, linkedAgain, r)
  {
    var remaining := RemoveLinked(plaidAccounts, linkedToActual);
    RemovedAllIffAllLinked(plaidAccounts, linkedToActual, remaining);
    var kept := true;
    if |remaining| == 0 || relink {
      if linkedAgain.None? {
        return Failure(NoPlaidAccountsLinked);
      }
      remaining := linkedAgain.value;
      kept := false;
    }
    var offered := RemoveLinked(remaining, linkedToActual);
    if kept {
      RemoveLinkedTwice(plaidAccounts, remaining, offered, linkedToActual);
    }
    return Success(offered);
  }

  /** `setup` up to the accounts it offers, as written: `plaidAccounts` is
      dereferenced before anything checks that it exists, so a store that
      has never held Plaid accounts (the first `setup` of a user) throws a
      `TypeError` instead of starting the linking flow. */
  method SetupPlaidAccounts(store: Conf.Store, relink: bool, linkedAgain: Option<Dict.Dict<Conf.PlaidLink>>)
    returns (r: Result<Dict.Dict<Conf.PlaidLink>, CliError>)
    requires store.Valid()
    requires linkedAgain.Some? ==> Dict.Valid(linkedAgain.value)
    ensures store.plaidAccounts.None? <==> r == Failure(TypeError)
    ensures store.plaidAccounts.Some? ==>
              SetupOffers(store.plaidAccounts.value, LinkedToActual(Dict.OrEmpty(store.actualSync)), relink, linkedAgain, r)
  {
    var plaidAccounts := store.plaidAccounts;
    if plaidAccounts.None? {
      return Failure(TypeError);
    }
    var linkedToActual := LinkedToActual(Dict.OrEmpty(store.actualSync));
    r := OfferUnlinked(plaidAccounts.value, linkedToActual, relink, linkedAgain);
  }

  /** `setup` up to the accounts it offers, with a missing `plaidAccounts`
      read as an empty dictionary: a first `setup` goes straight to linking
      and offers what was linked. */
  method SetupPlaidAccountsOrLink(store: Conf.Store, relink: bool, linkedAgain: Option<Dict.Dict<Conf.PlaidLink>>)
    returns (r: Result<Dict.Dict<Conf.PlaidLink>, CliError>)
    requires store.Valid()
    requires linkedAgain.Some? ==> Dict.Valid(linkedAgain.value)
    ensures r != Failure(TypeError)
    ensures SetupOffers(Dict.OrEmpty(store.plaidAccounts), LinkedToActual(Dict.OrEmpty(store.actualSync)), relink, linkedAgain, r)
    ensures store.plaidAccounts.None? && linkedAgain.Some? ==>
              && r.Success?
              && forall k :: Dict.Get(r.value, k)
                             == if k in PlaidIds(LinkedToActual(Dict.OrEmpty(store.actualSync))) then None
                                else Dict.Get(linkedAgain.value, k)
  {
    var plaidAccounts := Dict.OrEmpty(store.plaidAccounts);
    var linkedToActual := LinkedToActual(Dict.OrEmpty(store.actualSync));
    r := OfferUnlinked(plaidAccounts, linkedToActual, relink, linkedAgain);
  }

  /** Removing the same links a second time changes nothing. */
  lemma RemoveLinkedTwice(
    d: Dict.Dict<Conf.PlaidLink>, once: Dict.Dict<Conf.PlaidLink>, twice: Dict.Dict<Conf.PlaidLink>, links: seq<LinkIds>)
    requires Dict.Valid(d) && Dict.Valid(once) && Seqs.SubsequenceOf(once, d)
    requires forall k :: Dict.Get(once, k) == if k in PlaidIds(links) then None else Dict.Get(d, k)
    requires Seqs.SubsequenceOf(twice, once)
    requires forall k :: Dict.Get(twice, k) == if k in PlaidIds(links) then None else Dict.Get(once, k)
    ensures Seqs.SubsequenceOf(twice, d)
    ensures forall k :: Dict.Get(twice, k) == if k in PlaidIds(links) then None else Dict.Get(d, k)
  {
    Seqs.SubsequenceTrans(twice, once, d);
  }

  /** An Actual account as `listAccounts` returns it. */
  datatype ActualAccount = ActualAccount(id: string, name: string, kind: string)

  /** A checkbox choice `{ name, value }`. */
  datatype Choice = Choice(name: string, value: string)

  function AccountChoices(accounts: seq<ActualAccount>): (cs: seq<Choice>)
    ensures |cs| == |accounts| && forall i :: 0 <= i < |accounts| ==> cs[i] == Choice(accounts[i].name, accounts[i].id)
  {
    seq(|accounts|, i requires 0 <= i < |accounts| => Choice(accounts[i].name, accounts[i].id))
  }

  /** The Actual accounts `setup` offers: exactly those not yet linked, in
      the order Actual lists them. */
  function SetupChoices(accounts: seq<ActualAccount>, links: seq<LinkIds>): (r: seq<Choice>)
    ensures Seqs.SubsequenceOf(r, AccountChoices(accounts))
    ensures forall c :: c in r <==> c in AccountChoices(accounts) && c.value !in ActualIds(links)
    ensures forall c :: multiset(r)[c] == if c.value !in ActualIds(links) then multiset(AccountChoices(accounts))[c] else 0
  {
    Seqs.Filter(AccountChoices(accounts), (c: Choice) => c.value !in ActualIds(links))
  }

  /** The `actualSync` entry `setup` writes for an Actual account and the
      Plaid account chosen for it. It has no `lastImport`. */
  function NewSyncEntry(account: ActualAccount, link: Conf.PlaidLink): (e: Conf.SyncEntry)
    ensures e.actualAccountId == account.id && e.actualName == account.name && e.actualType == account.kind
    ensures e.plaidToken == link.plaidToken && e.plaidAccount == link.account
    ensures e.plaidItemId == link.plaidItemId && e.plaidBankName == link.plaidBankName
    ensures e.lastImport == None
  {
    Conf.SyncEntry(
      actualName := account.name,
      actualType := account.kind,
      actualAccountId := account.id,
      plaidItemId := link.plaidItemId,
      plaidToken := link.plaidToken,
      plaidAccount := link.account,
      plaidBankName := link.plaidBankName,
      lastImport := None)
  }

  /** A freshly linked account has no checkpoint: its next import without
      `--since` starts from the ledger's last transaction, and it fetches
      with the chosen Plaid account's token. */
  lemma LinkedAccountStartsFromLedger(account: ActualAccount, link: Conf.PlaidLink, ledgerLast: Timestamp)
    ensures StartSourceOf(None, NewSyncEntry(account, link).lastImport) == LedgerLastTransaction
    ensures StartTimestamp(None, NewSyncEntry(account, link).lastImport, ledgerLast) == ledgerLast
  {
  }

  /** `actualSync` after the picks were written in order. */
  function LinkAll(d: Option<Dict.Dict<Conf.SyncEntry>>, picks: seq<(ActualAccount, Conf.PlaidLink)>)
    : (r: Option<Dict.Dict<Conf.SyncEntry>>)
    requires d.Some? ==> Dict.Valid(d.value)
    ensures r.Some? ==> Dict.Valid(r.value)
    ensures picks != [] ==> r.Some?
    ensures picks == [] ==> r == d
    decreases |picks|
  {
    if picks == [] then d
    else
      var n := |picks| - 1;
      Some(Conf.WithEntry(LinkAll(d, picks[..n]), picks[n].0.id, NewSyncEntry(picks[n].0, picks[n].1)))
  }

  /** A chosen account not chosen again later holds the entry written for
      its pick. */
  lemma {:induction false} LinkAllWritten(
    d: Option<Dict.Dict<Conf.SyncEntry>>, picks: seq<(ActualAccount, Conf.PlaidLink)>, i: nat)
    requires d.Some? ==> Dict.Valid(d.value)
    requires i < |picks| && forall j :: i < j < |picks| ==> picks[j].0.id != picks[i].0.id
    ensures LinkAll(d, picks).Some?
    ensures Dict.Get(LinkAll(d, picks).value, picks[i].0.id) == Some(NewSyncEntry(picks[i].0, picks[i].1))
    decreases |picks|
  {
    if i < |picks| - 1 {
      var init := picks[..|picks| - 1];
      var id := picks[i].0.id;
      assert init[i] == picks[i];
      forall j | i < j < |init|
        ensures init[j].0.id != id
      {
        assert init[j] == picks[j];
      }
      LinkAllWritten(d, init, i);
      LinkAllLastElsewhere(d, picks, id);
    } else {
      LinkAllLast(d, picks);
    }
  }

  /** The last pick holds the entry written for it. */
  lemma LinkAllLast(d: Option<Dict.Dict<Conf.SyncEntry>>, picks: seq<(ActualAccount, Conf.PlaidLink)>)
    requires d.Some? ==> Dict.Valid(d.value)
    requires picks != []
    ensures var n := |picks| - 1;
            LinkAll(d, picks).Some? && Dict.Get(LinkAll(d, picks).value, picks[n].0.id) == Some(NewSyncEntry(picks[n].0, picks[n].1))
  {
  }

  /** The last pick leaves every other account's entry as it was. */
  lemma LinkAllLastElsewhere(d: Option<Dict.Dict<Conf.SyncEntry>>, picks: seq<(ActualAccount, Conf.PlaidLink)>, k: string)
    requires d.Some? ==> Dict.Valid(d.value)
    requires picks != [] && picks[|picks| - 1].0.id != k
    ensures var prev := LinkAll(d, picks[..|picks| - 1]);
            Dict.Get(LinkAll(d, picks).value, k) == if prev.Some? then Dict.Get(prev.value, k) else None
  {
  }

  /** An Actual account not among the picks keeps its entry, or stays
      unlinked. */
  lemma {:induction false} LinkAllUntouched(
    d: Option<Dict.Dict<Conf.SyncEntry>>, picks: seq<(ActualAccount, Conf.PlaidLink)>, k: string)
    requires d.Some? ==> Dict.Valid(d.value)
    requires forall j :: 0 <= j < |picks| ==> picks[j].0.id != k
    ensures (if LinkAll(d, picks).Some? then Dict.Get(LinkAll(d, picks).value, k) else None)
            == (if d.Some? then Dict.Get(d.value, k) else None)
    decreases |picks|
  {
    if picks != [] {
      var n := |picks| - 1;
      var init := picks[..n];
      forall j | 0 <= j < |init|
        ensures init[j].0.id != k
      {
        assert init[j] == picks[j];
      }
      LinkAllUntouched(d, init, k);
    }
  }

  /** The loop of `setup` over the chosen Actual accounts: each is linked to
      the Plaid account picked for it. */
  method LinkAccounts(store: Conf.Store, picks: seq<(ActualAccount, Conf.PlaidLink)>)
    requires store.Valid()
    modifies store
    ensures store.Valid()
    ensures store.actualSync == LinkAll(old(store.actualSync), picks)
    ensures store.user == old(store.user) && store.plaidAccounts == old(store.plaidAccounts)
  {
    for i := 0 to |picks|
      invariant store.Valid()
      invariant store.actualSync == LinkAll(old(store.actualSync), picks[..i])
      invariant store.user == old(store.user) && store.plaidAccounts == old(store.plaidAccounts)
    {
      var (actualAcct, plaidAccount) := picks[i];
      assert picks[..i + 1][..i] == picks[..i];
      store.SetEntry(actualAcct.id, NewSyncEntry(actualAcct, plaidAccount));
    }
    assert picks[..|picks|] == picks;
  }
}
