/** Account balances fetched in one call and put back account by account. */
module Refreshing {
  import opened Common
  import opened Model
  import opened Converters
  import opened MatrixTables
  import opened Ledgers
  import opened LedgerObjects
  import opened Recalculation

  predicate Found(l: Ledger, a: BatchAccount)
  {
    FindAccount(l.accounts, a.accountExtId).Some?
  }

  function Refreshed(a: BatchAccount, l: Ledger, currencies: Currencies): BatchAccount
    requires Found(l, a)
  {
    var acc := FindAccount(l.accounts, a.accountExtId).value;
    var d := Decimals(currencies, acc.currencyCode);
    a.(debitBalance := Printed(acc.postedDebit, d), creditBalance := Printed(acc.postedCredit, d))
  }

  lemma {:induction false} RefreshPointwise(accounts: seq<BatchAccount>, l: Ledger, currencies: Currencies)
    ensures RefreshAccounts(accounts, l, currencies).Some?
            <==> forall i :: 0 <= i < |accounts| ==> Found(l, accounts[i])
    ensures RefreshAccounts(accounts, l, currencies).Some? ==>
              var r := RefreshAccounts(accounts, l, currencies).value;
              |r| == |accounts| && forall i :: 0 <= i < |accounts| ==>
                      Found(l, accounts[i]) && r[i] == Refreshed(accounts[i], l, currencies)
  {
    hide Printed, Decimals;
    if accounts != [] {
      var rest := accounts[1..];
      RefreshPointwise(rest, l, currencies);
      assert forall i :: 0 < i < |accounts| ==> accounts[i] == rest[i - 1];
    }
  }

  /** The account shows what is posted on the account of the ledger under its id. */
  ghost predicate ShowsPosted(a: BatchAccount, l: Ledger, currencies: Currencies)
  {
    exists acc :: acc in l.accounts && acc.id == a.accountExtId
                  && a.debitBalance == Printed(acc.postedDebit, Decimals(currencies, acc.currencyCode))
                  && a.creditBalance == Printed(acc.postedCredit, Decimals(currencies, acc.currencyCode))
  }

  /** After a transfer was journalled every account of its batch shows what is posted. */
  lemma JournalledShowsPosted(k: Books, b: Batch, t: Transfer, currencies: Currencies)
    ensures var j := JournalTransfer(k, b, t, currencies);
            j.ok ==> forall i :: 0 <= i < |j.batch.accounts| ==>
                       ShowsPosted(j.batch.accounts[i], j.books.ledger, currencies)
  {
    hide RefreshAccounts, OpenAccount, PostEntry, Printed, Decimals, ShowsPosted;
    var j := JournalTransfer(k, b, t, currencies);
    var payer := OpenAccount(k, b, t.payerFspId);
    var payee := OpenAccount(payer.books, payer.batch, t.payeeFspId);
    RefreshPointwise(payee.batch.accounts, j.books.ledger, currencies);
    if j.ok {
      forall i | 0 <= i < |j.batch.accounts| ensures ShowsPosted(j.batch.accounts[i], j.books.ledger, currencies) {
        RefreshedShows(payee.batch.accounts[i], j.books.ledger, currencies);
      }
    }
  }

  lemma RefreshedShows(a: BatchAccount, l: Ledger, currencies: Currencies)
    requires Found(l, a)
    ensures ShowsPosted(Refreshed(a, l, currencies), l, currencies)
  {
    hide Printed, Decimals;
    assert FindAccount(l.accounts, a.accountExtId).value in l.accounts;
  }

  predicate AllFound(l: Ledger, b: Batch)
  {
    forall i :: 0 <= i < |b.accounts| ==> Found(l, b.accounts[i])
  }

  lemma {:induction false} RefreshBatchesPointwise(bs: seq<Batch>, l: Ledger, currencies: Currencies)
    ensures RefreshBatches(bs, l, currencies).Some? <==> forall i :: 0 <= i < |bs| ==> AllFound(l, bs[i])
    ensures RefreshBatches(bs, l, currencies).Some? ==>
              var r := RefreshBatches(bs, l, currencies).value;
              |r| == |bs| && forall i :: 0 <= i < |bs| ==> RefreshBatch(bs[i], l, currencies) == Some(r[i])
  {
    hide Found, RefreshAccounts;
    if bs != [] {
      var rest := bs[1..];
      RefreshPointwise(bs[0].accounts, l, currencies);
      RefreshBatchesPointwise(rest, l, currencies);
      assert forall i :: 0 < i < |bs| ==> bs[i] == rest[i - 1];
    }
  }

  // ----- the ids that are looked up

  function IdsOf(accounts: seq<BatchAccount>): (r: seq<nat>)
    ensures |r| == |accounts| && forall i :: 0 <= i < |accounts| ==> r[i] == accounts[i].accountExtId
  {
    seq(|accounts|, i requires 0 <= i < |accounts| => accounts[i].accountExtId)
  }

  /** One statement for every id that has an account; as many as ids exactly when all have one. */
  lemma {:induction false} StatementsAre(accounts: seq<LedgerAccount>, ids: seq<nat>, currencies: Currencies)
    ensures |Statements(accounts, ids, currencies)| <= |ids|
    ensures |Statements(accounts, ids, currencies)| == |ids| <==> forall i :: 0 <= i < |ids| ==>
            FindAccount(accounts, ids[i]).Some?
    ensures forall s :: s in Statements(accounts, ids, currencies) ==>
              FindAccount(accounts, s.id).Some? && s == Convert(FindAccount(accounts, s.id).value, currencies)
    ensures forall i :: 0 <= i < |ids| && FindAccount(accounts, ids[i]).Some? ==>
              Convert(FindAccount(accounts, ids[i]).value, currencies) in Statements(accounts, ids, currencies)
  {
    hide FindAccount, Printed, Decimals;
    if ids != [] {
      var last := |ids| - 1;
      StatementsAre(accounts, ids[..last], currencies);
      assert forall i :: 0 <= i < last ==> ids[i] == ids[..last][i];
    }
  }

  /** The first statement with an id. */
  method FindStatement(statements: seq<Statement>, id: nat) returns (r: Option<Statement>)
    ensures r.Some? ==> r.value in statements && r.value.id == id
    ensures r.None? ==> forall s :: s in statements ==> s.id != id
  {
    for i := 0 to |statements|
      invariant forall j :: 0 <= j < i ==> statements[j].id != id
    {
      if statements[i].id == id {
        return Some(statements[i]);
      }
    }
    return None;
  }

  /** Puts the fetched balances into the accounts of one batch. */
  method PutBalances(b: Batch, statements: seq<Statement>, ghost l: Ledger, ghost currencies: Currencies)
    returns (r: Batch)
    requires AllFound(l, b)
    requires forall s :: s in statements ==>
            FindAccount(l.accounts, s.id).Some? && s == Convert(FindAccount(l.accounts, s.id).value, currencies)
    requires forall i :: 0 <= i < |b.accounts| ==>
               Convert(FindAccount(l.accounts, b.accounts[i].accountExtId).value, currencies) in statements
    ensures RefreshBatch(b, l, currencies) == Some(r)
  {
    hide FindAccount, Printed, Decimals, RefreshAccounts;
    RefreshPointwise(b.accounts, l, currencies);
    var accounts := b.accounts;
    for i := 0 to |b.accounts|
      invariant |accounts| == |b.accounts|
      invariant forall j :: 0 <= j < i ==> accounts[j] == Refreshed(b.accounts[j], l, currencies)
      invariant forall j :: i <= j < |accounts| ==> accounts[j] == b.accounts[j]
    {
      var statement := FindStatement(statements, accounts[i].accountExtId);
      if statement.Some? {
        accounts := accounts[i := accounts[i].(creditBalance := statement.value.postedCreditBalance,
                                               debitBalance := statement.value.postedDebitBalance)];
      }
    }
    r := b.(accounts := accounts);
    assert accounts == RefreshAccounts(b.accounts, l, currencies).value;
  }

  /** `_updateBatchAccountBalances` */
  method UpdateBatchAccountBalances(adapter: AccountsBalancesAdapter, batches: seq<Batch>)
    returns (ok: bool, r: seq<Batch>)
    ensures RefreshBatches(batches, adapter.View(), adapter.currencies) == if ok then Some(r) else None
  {
    hide FindAccount, Printed, Decimals, RefreshAccounts, RefreshBatch, AllFound;
    ghost var l, currencies := adapter.View(), adapter.currencies;
    RefreshBatchesPointwise(batches, l, currencies);
    var ids: seq<nat> := [];
    for i := 0 to |batches|
      invariant ids == AllIds(batches[..i])
    {
      assert batches[..i + 1][..i] == batches[..i];
      ids := ids + IdsOf(batches[i].accounts);
    }
    assert batches[..|batches|] == batches;
    var statements := adapter.GetAccounts(ids);
    StatementsAre(l.accounts, ids, currencies);
    AllIdsFound(batches, l);
    if |statements| != |ids| {
      return false, [];
    }
    ok, r := true, batches;
    for i := 0 to |batches|
      invariant |r| == |batches|
      invariant forall j :: 0 <= j < i ==> RefreshBatch(batches[j], l, currencies) == Some(r[j])
      invariant forall j :: i <= j < |batches| ==> r[j] == batches[j]
    {
      IdsAmong(batches, i);
      var b := PutBalances(batches[i], statements, l, currencies);
      r := r[i := b];
    }
    assert r == RefreshBatches(batches, l, currencies).value;
  }

  function AllIds(batches: seq<Batch>): seq<nat>
  {
    if batches == [] then [] else AllIds(batches[..|batches| - 1]) + IdsOf(batches[|batches| - 1].accounts)
  }

  lemma {:induction false} IdsAmong(batches: seq<Batch>, i: nat)
    requires i < |batches|
    ensures forall j :: 0 <= j < |batches[i].accounts| ==> batches[i].accounts[j].accountExtId in AllIds(batches)
  {
    var n := |batches| - 1;
    if i == n {
      assert forall j :: 0 <= j < |batches[i].accounts| ==>
              IdsOf(batches[i].accounts)[j] == batches[i].accounts[j].accountExtId;
    } else {
      IdsAmong(batches[..n], i);
    }
  }

  /** All ids are found exactly when all accounts of all batches are. */
  lemma {:induction false} AllIdsFound(batches: seq<Batch>, l: Ledger)
    ensures (forall i :: 0 <= i < |AllIds(batches)| ==> FindAccount(l.accounts, AllIds(batches)[i]).Some?)
            <==> forall i :: 0 <= i < |batches| ==> AllFound(l, batches[i])
  {
    hide FindAccount;
    if batches != [] {
      var n := |batches| - 1;
      var front, b := AllIds(batches[..n]), batches[n];
      AllIdsFound(batches[..n], l);
      assert forall i :: 0 <= i < n ==> batches[..n][i] == batches[i];
      assert AllIds(batches) == front + IdsOf(b.accounts);
      assert AllFound(l, b)
             <==> forall i :: 0 <= i < |b.accounts| ==> FindAccount(l.accounts, IdsOf(b.accounts)[i]).Some?;
      AppendedAll(front, IdsOf(b.accounts), l);
    }
  }

  lemma AppendedAll(a: seq<nat>, b: seq<nat>, l: Ledger)
    ensures (forall i :: 0 <= i < |a + b| ==> FindAccount(l.accounts, (a + b)[i]).Some?)
            <==> (forall i :: 0 <= i < |a| ==> FindAccount(l.accounts, a[i]).Some?)
                 && (forall i :: 0 <= i < |b| ==> FindAccount(l.accounts, b[i]).Some?)
  {
    hide FindAccount;
    if forall i :: 0 <= i < |a + b| ==> FindAccount(l.accounts, (a + b)[i]).Some? {
      forall i | 0 <= i < |a| ensures FindAccount(l.accounts, a[i]).Some? {
        assert (a + b)[i] == a[i];
      }
      forall i | 0 <= i < |b| ensures FindAccount(l.accounts, b[i]).Some? {
        assert (a + b)[|a| + i] == b[i];
      }
    }
  }
}
