/** packages/shared-mocks-lib/src/adapter/accounts_balances_adapter_mock.ts: the double-entry ledger. */
module Ledgers {
  import opened Common
  import opened Model
  import opened Converters
  import opened MatrixTables

  datatype LedgerAccount = LedgerAccount(
    id: nat,
    ownerId: string,
    currencyCode: string,
    postedDebit: int,
    postedCredit: int)

  datatype JournalEntry = JournalEntry(
    id: string,
    ownerId: nat,
    currencyCode: string,
    amount: string,
    debitedAccountId: nat,
    creditedAccountId: nat)

  datatype Ledger = Ledger(accounts: seq<LedgerAccount>, journal: seq<JournalEntry>)

  function CreateAccount(l: Ledger, id: nat, ownerId: string, currencyCode: string): Ledger
  {
    l.(accounts := l.accounts + [LedgerAccount(id, ownerId, currencyCode, 0, 0)])
  }

  /** An entry against an account debits it, or else credits it: never both. */
  function PostTo(a: LedgerAccount, debited: nat, credited: nat, amount: int): LedgerAccount
  {
    if a.id == debited then a.(postedDebit := a.postedDebit + amount)
    else if a.id == credited then a.(postedCredit := a.postedCredit + amount)
    else a
  }

  function PostAll(accounts: seq<LedgerAccount>, debited: nat, credited: nat, amount: int): (r: seq<LedgerAccount>)
    ensures |r| == |accounts|
    ensures forall i :: 0 <= i < |accounts| ==> r[i] == PostTo(accounts[i], debited, credited, amount)
  {
    seq(|accounts|, i requires 0 <= i < |accounts| => PostTo(accounts[i], debited, credited, amount))
  }

  /** One entry; None where the amount cannot be read. */
  function PostEntry(l: Ledger, e: JournalEntry, currencies: Currencies): Option<Ledger>
  {
    match StringToBigint(e.amount, Decimals(currencies, e.currencyCode))
    case Err(_) => None
    case Ok(amount) =>
      Some(Ledger(PostAll(l.accounts, e.debitedAccountId, e.creditedAccountId, amount), l.journal + [e]))
  }

  /** The first account with this id. */
  function FindAccount(accounts: seq<LedgerAccount>, id: nat): (r: Option<LedgerAccount>)
    ensures r.Some? ==> r.value in accounts && r.value.id == id
    ensures r.None? ==> forall a :: a in accounts ==> a.id != id
  {
    if accounts == [] then None
    else if accounts[0].id == id then Some(accounts[0])
    else FindAccount(accounts[1..], id)
  }
}
