# actualplaid: the Plaid-to-Actual import, modelled in Dafny

actualplaid is a command-line tool. It copies bank transactions that Plaid
reports into the Actual budgeting ledger. The user links Actual accounts to
Plaid accounts once (`setup`) and can list the links (`ls`). Each `import` run
then does the following for every linked account, in order:

- work out the day to start from;
- fetch the transactions from Plaid through a cache scoped to the run;
- keep only that account's transactions;
- wait so that each account takes at least two seconds;
- hand the mapped batch to Actual;
- store a `lastImport` checkpoint.

The settings come from environment variables, which are checked on start-up.
Each user has their own configuration store.

This project models the following:

- **`cli.js`**:
  - the `import` loop with its `cachedTransaction` memo cache;
  - the bookkeeping of `ls` and `setup`: removing the Plaid accounts that are
    already linked, offering only the Actual accounts not yet linked, and
    writing the new `actualSync` entries.
- **`actual.js`**: `transactionMapper` and `importPlaidTransactions`.
- **`config.js`**: the defaults, the comma splitting, the validation in
  `getAppConfigFromEnv`, and `getConf`.

How the model is laid out:

- **Modules.** `Wrappers` (Option, Result), `Js` (the truthiness of a string
  or `undefined`, and the `||` default it drives) and `Seqs` (order-preserving
  filter, subsequences) are shared helpers. `Dict` models a JavaScript object as an
  ordered list of (key, value) pairs with distinct keys, so that
  `Object.entries` order and `delete` can be stated. `Conf` is the persisted
  store. `Config`, `Actual` and `Cli` model the three source files.
- **Imperative code becomes classes and loops.**
  - The configuration store is the class `Conf.Store`.
  - The run's cache is the class `Cli.ImportRun`. It owns the
    `transactionsPerToken` map, and ghost fields record every upstream call.
  - The per-account loop (`Cli.SyncAll`), the removal of linked accounts
    (`Cli.RemoveLinked`) and the linking loop of `setup` (`Cli.LinkAccounts`)
    are methods with loops.
  - `Cli.SyncAll` and `Cli.LinkAccounts` are proved against the specification
    functions `Cli.Checkpointed`, `Cli.StepsFollow` and `Cli.LinkAll`.
    `Cli.RemoveLinked` is specified key by key: what each key looks up to
    after the removal.
- **Outside systems are parameters.** Plaid's `getTransactions` is the
  function `Cli.PlaidClient`. The ledger's last transaction date, the date
  formatter, the clock and the measured fetch times are the fields of
  `Cli.RunInputs`. The answers of the interactive prompts are method
  parameters.

## Model

| member | source | states |
|---|---|---|
| Actual.TransactionMapper | actual.js:54-62 | The account id is the one given. Date, `notes` (raw `name`) and `imported_id` (`transaction_id`) are copied. The amount divided by -100 gives back the Plaid amount. `payee_name` is `merchant_name` when that is truthy, otherwise `name`. `imported_payee` always equals `payee_name`. |
| Actual.AmountSignInverted | actual.js:57 | A positive Plaid amount (money out) becomes negative and zero stays zero. The amount is exactly -100 times the source, with no rounding. |
| Actual.UnmapRecovers | actual.js:54-62 | The id, date, amount and raw description of a Plaid transaction can all be read back from the mapped record. |
| Actual.MapTransactions | actual.js:66-67 | `.map(transactionMapper(accountId))` keeps the length and maps position by position. |
| Actual.ImportPlaidTransactions | actual.js:65-72 | The request covers the whole batch under one account id, mapped one to one and in order. Its import keys are exactly the Plaid transaction ids, in order. |
| Js.Or | actual.js:58-59 | `o \|\| fallback` on a string or `undefined`: the value when it is truthy (defined and non-empty), otherwise the fallback; the result is empty only when the fallback is. |
| Config.FromEnv | config.js:5-20 | The settings read at load time: port, environment name and both lists are always truthy, and each list has at least one part. The client id and the two server settings are empty exactly when their variable is unset. Each Plaid secret is `undefined` exactly when its variable is absent. |
| Config.Split | config.js:17-20 | `split(",")` always yields at least one part. |
| Config.SplitCount | config.js:17-20 | `split(",")` yields one part more than the string has commas, so an empty string gives one empty part. |
| Config.Entries | config.js:24-33 | The configuration object has eight entries, keyed in the order the object literal declares them, the keys distinct. |
| Config.EnvOr | config.js:5-16 | `process.env[name] \|\| fallback`: the variable when it is set and non-empty, otherwise the fallback. |
| Config.SplitPartsOmitSeparator | config.js:17-20 | No part of `split(",")` contains a comma. |
| Config.JoinSplit | config.js:17-20 | Joining the parts of `split(sep)` with `sep` gives back the input, so splitting loses nothing. |
| Config.SplitWithoutSeparator | config.js:17-20 | A string without the separator splits into itself alone. |
| Config.Defaults | config.js:8-20 | `PLAID_ENV` defaults to "sandbox" and `APP_PORT` to the number 3000. `PLAID_PRODUCTS` defaults to ["transactions"] and `PLAID_COUNTRY_CODES` to ["EN"]; when set, each is the variable split on commas. |
| Config.FirstFalsy | config.js:36-40 | Returns no position exactly when every entry is truthy. Otherwise it returns the first falsy entry: every entry before it is truthy. |
| Config.FirstFalsyAt | config.js:36-40 | A falsy entry with only truthy entries before it is the one that fails validation. |
| Config.FindFalsy | config.js:36-40 | The `forEach` over the entries, as a loop, stops at exactly the entry `FirstFalsy` names. |
| Config.GetAppConfigFromEnv | config.js:23-43 | Succeeds exactly when every entry of the configuration object is truthy, and then returns the configuration. Otherwise the error names the key of the first falsy entry in declaration order. |
| Config.EntriesOutcome | config.js:24-40 | For a configuration whose port and environment name are truthy, the first failure can only be the client id, the server URL or the server password, checked in that order. |
| Config.ValidationOutcome | config.js:5-40 | Only `PLAID_CLIENT_ID`, `ACTUAL_SERVER_URL` and `ACTUAL_SERVER_PASSWORD` can fail, in that order, and the error names that variable. `PLAID_SECRETS` is an object and passes even with both secrets unset. |
| Config.ConfKey | config.js:48 | The store key is the user name, then `_`, then `PLAID_ENV`, read back position by position. |
| Config.ConfKeyInjective | config.js:48 | When no environment name contains `_`, the store key determines both the user and the Plaid environment: two users, or one user in two environments, never share a store. |
| Config.GetConf | config.js:46-55 | Fails exactly when validation fails, with the validator's error naming the first falsy key. Otherwise it opens a new store named `<user>_<PLAID_ENV>` with the stored dictionaries and sets its `user` to that key. |
| Conf.Store.constructor | config.js:50-52 | A store opened under a name holds what was persisted under that name. |
| Conf.Store.SetUser | config.js:53 | `set("user", key)` changes `user` and nothing else. |
| Conf.WithLastImport | cli.js:192 | Writing `actualSync.<id>.lastImport` changes only that entry's `lastImport`. Every other field and every other entry stays, and the keys stay the same. |
| Conf.Store.SetLastImport | cli.js:192 | The store's `actualSync` becomes `WithLastImport` of the old one, and nothing else changes. |
| Conf.WithEntry | cli.js:280-288 | Writing `actualSync.<id>` links that id to the entry and leaves the other ids as they were. It creates the dictionary if there was none. |
| Conf.Store.SetEntry | cli.js:280 | The store's `actualSync` becomes `WithEntry` of the old one, and nothing else changes. |
| Dict.Remove | cli.js:55-57 | `delete d[k]` removes the entry for `k` and keeps every other entry, in order. |
| Cli.ConfUser | cli.js:132 | The user name passed to `getConf` is the `--user` flag when it is truthy, otherwise "default". |
| Cli.OpenConfig | cli.js:132 | The command opens the store named by `ConfUser` and the Plaid environment. The store holds the `actualSync` and `plaidAccounts` persisted under that name and records the name as its user. It fails exactly when `PLAID_CLIENT_ID`, `ACTUAL_SERVER_URL` or `ACTUAL_SERVER_PASSWORD` is unset, and the error names the first of them, in that order, that is unset. |
| Dict.OrEmpty | cli.js:137 | `dict \|\| {}`: a missing `actualSync` (or `plaidAccounts`, in the corrected setup) reads as empty. A stored one, even with no entries, is read as it is. The result is empty exactly when there is nothing stored or the stored dictionary is empty. |
| Cli.SelectAccounts | cli.js:141-144 | Without a truthy `--account` flag every linked entry is processed. Otherwise exactly the entries whose Actual name equals the flag are, in stored order, each with its stored entry. |
| Cli.StartSourceOf | cli.js:165-170 | The start comes from `--since` when it is truthy, else from the stored `lastImport` when that is truthy, else from the ledger, in that priority. |
| Cli.StartTimestamp | cli.js:165-172 | The start moment is the value of the source `StartSourceOf` picked. The ledger is consulted only when both other sources are falsy. |
| Cli.CacheKey | cli.js:151 | The cache key is the token, then `-`, then the start day, each readable back. |
| Cli.CacheKeyInjective | cli.js:151 | A formatted day has a fixed width, so a key names one token and one day. |
| Cli.CacheHitAnswers | cli.js:150-162 | A cache hit returns what Plaid answers for this token, this day and the run's end date. |
| Cli.FailedMissKeepsInvariant | cli.js:152-158 | A miss whose call Plaid rejects is logged and caches nothing, and the cache invariant still holds. |
| Cli.CachedMissKeepsInvariant | cli.js:152-160 | A miss whose call succeeds is logged and cached under its key, and the cache invariant still holds. |
| Cli.HitKeepsKeysAgree | cli.js:150-162 | An account whose key is cached adds no upstream call. |
| Cli.MissKeepsKeysAgree | cli.js:152-160 | An account whose key is missing adds exactly one successful call, cached under its key. |
| Cli.ImportRun.constructor | cli.js:146-148 | A run starts with an empty cache and no calls. It fixes its end date and its Plaid client. |
| Cli.ImportRun.CachedTransaction | cli.js:150-162 | The answer is always Plaid's for (token, day, the run's end date). On a hit it is the stored response, with no call and the cache unchanged. On a miss exactly one call is logged, and only a successful answer is cached. |
| Cli.NoRepeatedCalls | cli.js:150-162 | When at most the last call was rejected, no (token, start day) key was fetched twice in the run. |
| Cli.TransactionsForAccount | cli.js:178-181 | The batch passed on holds exactly the response's transactions for this Plaid account id, in response order, each as often as in the response. |
| Cli.PacingDelay | cli.js:184-188 | There is no wait exactly when the fetch took 2000 ms or more. Otherwise the wait tops the fetch up to exactly 2000 ms. |
| Cli.ImportRun.SyncAccount | cli.js:164-193 | For one account: the start day by priority, the cached fetch, the filter, the wait and the mapped import request, as `StepFollows` states. Then the checkpoint is written for this account only. A rejected fetch returns Plaid's error, writes no checkpoint and leaves only the last call rejected. |
| Cli.Checkpointed | cli.js:192 | Checkpointing processed accounts keeps the dictionary valid and its set of keys unchanged. |
| Cli.CheckpointedNext | cli.js:164-192 | Processing one more account adds exactly that account's checkpoint on top of the earlier ones. |
| Cli.CheckpointedUntouched | cli.js:192 | Accounts the run did not process keep their entries unchanged. |
| Cli.CheckpointedWritten | cli.js:192 | A processed account's entry differs from before only in `lastImport`, which is the moment its checkpoint was written. |
| Cli.NextRunResumesFromCheckpoint | cli.js:165-192 | After a checkpoint, the next run without `--since` starts from it and not from the ledger. |
| Cli.SyncAll | cli.js:164-193 | Processes the selected accounts in order, each as `StepFollows` says. The store holds the checkpoints of exactly the accounts processed so far. A completed loop processed every account. A rejected fetch stops the loop at that account with Plaid's error. |
| Cli.Import | cli.js:137-199 | Without syncing data it fails before any fetch and changes nothing. Otherwise the run's end date is the formatted start moment and every call uses it. The accounts are processed as `SyncAll` states, and no (token, start day) key is fetched twice. On success the keys fetched are exactly the keys of the accounts processed. |
| Cli.LinkedToActual | cli.js:51-53 | One link per `actualSync` entry, in order, pairing its Plaid account id with its Actual id. |
| Cli.RemoveLinked | cli.js:55-57 | Deleting the linked Plaid ids removes exactly the linked ones and keeps every other entry unchanged and in order. |
| Cli.RemovedAllIffAllLinked | cli.js:203-211 | Nothing remains after the removal exactly when every Plaid account is already linked. |
| Cli.PrintSyncedAccounts | cli.js:31-67 | `ls` with no `actualSync` lists nothing. With `actualSync` but no `plaidAccounts` it throws. Otherwise it lists the linked entries and the Plaid accounts that are not linked. |
| Cli.OfferUnlinked | cli.js:206-241 | Offers the unlinked Plaid accounts when some remain and no re-link was asked for. Otherwise it offers the newly linked ones minus the linked, or fails when linking was abandoned. A linked Plaid account is never offered. |
| Cli.SetupPlaidAccounts | cli.js:201-241 | As written: a store without `plaidAccounts` throws a `TypeError`, and no other store does. Otherwise the result is what `OfferUnlinked` offers. |
| Cli.SetupPlaidAccountsOrLink | cli.js:201-241 | Corrected: a missing `plaidAccounts` counts as empty. Setup never throws a `TypeError`, and a first setup offers what was just linked, minus the linked accounts. |
| Cli.RemoveLinkedTwice | cli.js:239-241 | Removing the linked accounts again after they were already removed changes nothing. |
| Cli.AccountChoices | cli.js:258 | One checkbox choice per Actual account, in order, named by the account name with its id as value. |
| Cli.SetupChoices | cli.js:258 | Exactly the Actual accounts not yet linked are offered, in the order Actual lists them and each as often as Actual lists it. |
| Cli.NewSyncEntry | cli.js:280-288 | The new entry takes the Actual name, type and id, and the Plaid item id, token, account and bank name. It has no `lastImport`. |
| Cli.LinkedAccountStartsFromLedger | cli.js:280-288 | A newly linked account's first import without `--since` starts from the ledger's last transaction. |
| Cli.LinkAll | cli.js:261-289 | Writing the picks keeps `actualSync` valid. It creates `actualSync` when there is a pick and leaves it as it was when there is none. |
| Cli.LinkAllWritten | cli.js:261-289 | An Actual account picked, and not picked again later, holds the entry built from its pick. |
| Cli.LinkAllUntouched | cli.js:261-289 | An Actual account not picked keeps its entry, or stays unlinked. |
| Cli.LinkAccounts | cli.js:261-289 | The linking loop leaves `actualSync` equal to `LinkAll` of the picks and changes nothing else in the store. |

## Findings

| source | as written | input that shows it | evidently intended | confidence | as-written member | corrected member |
|---|---|---|---|---|---|---|
| cli.js:201-214 | `setup` deletes from `plaidAccounts` and calls `Object.keys` on it without checking that it exists | a store that has never held Plaid accounts, which is every user's first `setup`: `delete undefined[id]` or `Object.keys(undefined)` throws a `TypeError` | a missing dictionary counts as empty, so setup goes to the linking flow it starts for an empty one and offers what was linked | high, not executed | Cli.SetupPlaidAccounts | Cli.SetupPlaidAccountsOrLink |

## Left out

- The Fastify server and its routes, the Plaid link-token exchange and the Plaid client set up at module load: HTTP and credentials, not logic.
- Interactive prompts (`inquirer`, `opn`) and `startLinkingPlaid`. Their answers are parameters: `relink`, `linkedAgain` and the picks. A cancelled or empty linking is folded into `linkedAgain == None`, which surfaces as `NoPlaidAccountsLinked`. The "Plaid Linking cancelled" error is not a separate case.
- Console output and `console.table`, the `config` command and the CLI argument parsing: presentation only. `ls` is modelled up to what it lists.
- The `process.exit()` at cli.js:298 is not modelled. The last account's `importPlaidTransactions` (cli.js:191) is not awaited and suspends at actual.js:69. `finalize` (cli.js:196) is not awaited either and suspends at actual.js:81. The exit therefore ends the process with both still pending. The last account's import and the final sync and shutdown can be abandoned while its checkpoint (cli.js:192) is already written. The model records the import request and the checkpoint as if the import completed.
- Real time and `dateFns.format`. Timestamps are opaque strings and a formatted day is a 10-character string. The formatter, the clock, each fetch's duration and each checkpoint's time are inputs. `setTimeout` is modelled only as the computed wait `sleepMs`.
- Cli.StartTimestamp: a `--since` or stored value that `new Date` cannot parse makes `dateFns.format` throw a `RangeError`. The model's formatter is total.
- `getLastTransactionDate` (actual.js:40-51) is the oracle `RunInputs.ledgerLast`, which stands for the date it is meant to return. As written, it does not await the API calls at actual.js:41 and :47, although the same file awaits that API everywhere else (actual.js:14, 19, 69, 81). So reading `account.transactions.length` at actual.js:48 throws a `TypeError` on every call. The ledger branch of `Cli.StartTimestamp` therefore models the intended behaviour, and so does `Cli.LinkedAccountStartsFromLedger`, the first import of a newly linked account without `--since`. In the code as written, that branch throws.
- `initialize`, `listAccounts` and `finalize`: thin wrappers over the Actual API. `listAccounts` is the `accounts` parameter of `SetupChoices`. Cli.Import assumes `initialize` succeeds. In the source, a failing `initialize` (cli.js:140) throws "Actual Budget Error" (actual.js:20-21) and aborts `import` before any fetch and before any checkpoint.
- `importTransactions` itself, and what Actual does with the batch. The call is not awaited in the source, so the model records the request and writes the checkpoint regardless of the import's outcome. Async interleaving is not modelled, and the loop is sequential.
- Actual.TransactionMapper: amounts are exact reals. The double-precision rounding of `-amount * 100` is not captured.
- Cli.ImportRun.CachedTransaction: Plaid is modelled as a function of (token, start day, end day). The model therefore assumes Plaid gives the same answer to the same request within one run. That is why `Cli.CacheHitAnswers` can say a hit equals Plaid's answer. The source guarantees only that a hit returns the stored response of the first call. The contract's hit clause states that guarantee separately.
- Cli.ImportRun.CachedTransaction: the source tests the cached value for truthiness. The model tests whether the key is present, which is the same because a Plaid response is always an object.
- The persistence of the `conf` store on disk, and dotenv. The store's initial contents are the `disk` parameter of `GetConf`. Dotted paths are modelled only for the keys the tool writes. An Actual id that itself contains a `.` would nest differently, and that is not modelled.
- JavaScript puts integer-like object keys first in `Object.entries`. `Dict` keeps insertion order for every key.
- Cli.LinkAccounts: the picks arrive as (Actual account, Plaid account) pairs. The source finds both by id with `.find`, and the `TypeError` when such a lookup finds nothing is not modelled.
- Nothing checks `ACTUAL_BUDGET_ID` or any variable other than the eight configuration entries, because config.js reads no other.
- These are not modelled, because cli.js and actual.js do not do them: bank-specific description parsing; rounding to whole minor units; a `cleared` or pending field; skipping an account whose start day equals the end day; advancing the ledger's last date by one day; and balance reconciliation. `check` is advertised at index.js:16 but has no branch in cli.js.
- The checkpoint is the time of the write (`new Date()`, cli.js:192), not the run's end date. It is written without waiting for the import.
