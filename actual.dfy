/** The mapping from Plaid transactions to Actual transactions (actual.js).
    Amounts are exact reals: `-amount * 100` is taken without the rounding
    of JavaScript's doubles. */
module Actual {
  import opened Wrappers
  import Js

  /** A transaction as Plaid reports it (`account_id`, `transaction_id`,
      `merchant_name`, ...). `merchantName` may be missing or empty. */
  datatype PlaidTransaction = PlaidTransaction(
    accountId: string,
    transactionId: string,
    date: string,
    amount: real,
    merchantName: Option<string>,
    name: string)

  /** A transaction as handed to Actual's `importTransactions`
      (`payee_name`, `imported_payee`, `imported_id`, ...). */
  datatype ActualTransaction = ActualTransaction(
    account: string,
    date: string,
    amount: real,
    payeeName: string,
    importedPayee: string,
    notes: string,
    importedId: string)

  /** One call of `importTransactions(accountId, transactions)`. */
  datatype ImportRequest = ImportRequest(accountId: string, transactions: seq<ActualTransaction>)

  /** `transactionMapper(accountId)(t)`. */
  function TransactionMapper(accountId: string, t: PlaidTransaction): (r: ActualTransaction)
    ensures r.account == accountId && r.date == t.date
    ensures r.importedId == t.transactionId && r.notes == t.name
    ensures r.amount / -100.0 == t.amount
    ensures r.importedPayee == r.payeeName
    ensures r.payeeName == if Js.Truthy(t.merchantName) then t.merchantName.value else t.name
  {
    var payee := Js.Or(t.merchantName, t.name);
    ActualTransaction(
      account := accountId,
      date := t.date,
      amount := -t.amount * 100.0,
      payeeName := payee,
      importedPayee := payee,
      notes := t.name,
      importedId := t.transactionId)
  }

  /** Plaid reports money leaving the account as positive; Actual records it
      as negative, in hundredths. */
  lemma AmountSignInverted(accountId: string, t: PlaidTransaction)
    ensures t.amount > 0.0 <==> TransactionMapper(accountId, t).amount < 0.0
    ensures t.amount == 0.0 <==> TransactionMapper(accountId, t).amount == 0.0
    ensures TransactionMapper(accountId, t).amount == -100.0 * t.amount
  {
  }

  /** `transactions.map(transactionMapper(accountId))`. */
  function MapTransactions(accountId: string, ts: seq<PlaidTransaction>): (r: seq<ActualTransaction>)
    ensures |r| == |ts|
    ensures forall i :: 0 <= i < |ts| ==> r[i] == TransactionMapper(accountId, ts[i])
  {
    if ts == [] then [] else [TransactionMapper(accountId, ts[0])] + MapTransactions(accountId, ts[1..])
  }

  /** The import keys of a batch, in order. */
  function ImportedIds(rs: seq<ActualTransaction>): (ids: seq<string>)
    ensures |ids| == |rs| && forall i :: 0 <= i < |rs| ==> ids[i] == rs[i].importedId
  {
    seq(|rs|, i requires 0 <= i < |rs| => rs[i].importedId)
  }

  /** The Plaid transaction ids of a batch, in order. */
  function TransactionIds(ts: seq<PlaidTransaction>): (ids: seq<string>)
    ensures |ids| == |ts| && forall i :: 0 <= i < |ts| ==> ids[i] == ts[i].transactionId
  {
    seq(|ts|, i requires 0 <= i < |ts| => ts[i].transactionId)
  }

  /** The request `importPlaidTransactions(actual, accountId, transactions)`
      sends: the whole batch, mapped one to one and in order, under one
      account. Its import keys are exactly the Plaid transaction ids, so a
      batch without repeated ids yields no repeated import keys. */
  function ImportPlaidTransactions(accountId: string, ts: seq<PlaidTransaction>): (r: ImportRequest)
    ensures r.accountId == accountId && |r.transactions| == |ts|
    ensures forall i :: 0 <= i < |ts| ==> r.transactions[i] == TransactionMapper(accountId, ts[i])
    ensures forall i :: 0 <= i < |ts| ==> r.transactions[i].account == accountId
    ensures ImportedIds(r.transactions) == TransactionIds(ts)
  {
    ImportRequest(accountId, MapTransactions(accountId, ts))
  }

  /** What of a Plaid transaction survives the mapping: its id, date,
      amount and raw description can be read back from the Actual record. */
  function Unmap(r: ActualTransaction): (string, string, real, string)
  {
    (r.importedId, r.date, r.amount / -100.0, r.notes)
  }

  lemma UnmapRecovers(accountId: string, t: PlaidTransaction)
    ensures Unmap(TransactionMapper(accountId, t)) == (t.transactionId, t.date, t.amount, t.name)
  {
  }
}
