/** packages/domain-lib/src/types/matrix.ts: the matrix a command works on. */
module MatrixObjects {
  import opened Common
  import opened Model
  import opened Converters
  import opened MatrixTables
  import opened Commands

  /** Adds to the row with this key, or pushes a new one; not ok where a stored balance cannot be read. */
  method Accumulate(rows: seq<Row>, key: Key, debit: int, credit: int, decimals: nat) returns (ok: bool, r: seq<Row>)
    ensures ok <==> AddToRows(rows, key, debit, credit, decimals).Some?
    ensures ok ==> AddToRows(rows, key, debit, credit, decimals) == Some(r)
  {
    hide StringToBigint, Printed;
    ok, r := true, rows;
    for i := 0 to |rows|
      invariant forall j :: 0 <= j < i ==> rows[j].key != key
      invariant r == rows && ok
    {
      if rows[i].key == key {
        FirstIs(rows, key, i);
        var d, c := StringToBigint(rows[i].debitBalance, decimals), StringToBigint(rows[i].creditBalance, decimals);
        if d.Err? || c.Err? {
          return false, rows;
        }
        var newDebit := BigintToString(d.value + debit, decimals);
        var newCredit := BigintToString(c.value + credit, decimals);
        return true, rows[i := Row(key, newDebit, newCredit)];
      }
    }
    var newDebit := BigintToString(debit, decimals);
    var newCredit := BigintToString(credit, decimals);
    r := rows + [Row(key, newDebit, newCredit)];
  }

  lemma FirstIs(rows: seq<Row>, key: Key, i: nat)
    requires i < |rows| && rows[i].key == key && forall j :: 0 <= j < i ==> rows[j].key != key
    ensures FindRow(rows, key) == Some(i)
  {
    if i > 0 {
      FirstIs(rows[1..], key, i - 1);
    }
  }

  lemma OneRowLess(kept: seq<MatrixBatch>, rows: seq<MatrixBatch>, i: nat, id: string)
    requires i < |rows|
    ensures kept + RemoveRow(rows[i..], id)
         == (if rows[i].id == id then kept else kept + [rows[i]]) + RemoveRow(rows[i + 1..], id)
  {
    var rest := RemoveRow(rows[i + 1..], id);
    assert rows[i..][0] == rows[i] && rows[i..][1..] == rows[i + 1..];
    assert kept + ([rows[i]] + rest) == kept + [rows[i]] + rest;
    assert [] + rest == rest;
  }

  class SettlementMatrix {
    var id: MatrixId
    var kind: MatrixType
    var state: MatrixState
    var batches: seq<MatrixBatch>
    var balancesByParticipant: seq<Row>
    var balancesByCurrency: seq<Row>
    var balancesByStateAndCurrency: seq<Row>

    function Balances(): Tables
      reads this
    {
      Tables(balancesByParticipant, balancesByCurrency, balancesByStateAndCurrency)
    }

    function View(): Matrix
      reads this
    {
      Matrix(id, kind, state, batches, Balances())
    }

    constructor (dto: Matrix)
      ensures View() == dto
    {
      id, kind, state, batches := dto.id, dto.kind, dto.state, dto.batches;
      balancesByParticipant := dto.tables.byParticipant;
      balancesByCurrency := dto.tables.byCurrency;
      balancesByStateAndCurrency := dto.tables.byStateAndCurrency;
    }

    /** Books a transfer on its payer and its payee in all three tables. */
    method AddBalance(t: Transfer, currencyCode: string, decimals: nat, booked: BatchState) returns (ok: bool)
      modifies this
      ensures View() == old(View()).(tables := Balances())
      ensures ok <==> MatrixTables.AddBalance(old(Balances()), t, currencyCode, decimals, booked).Some?
      ensures ok ==> MatrixTables.AddBalance(old(Balances()), t, currencyCode, decimals, booked) == Some(Balances())
    {
      hide StringToBigint, Printed, AddToRows;
      var participantIds := [t.payerFspId, t.payeeFspId];
      ghost var start := Balances();
      for n := 0 to |participantIds|
        invariant id == old(id) && kind == old(kind) && state == old(state) && batches == old(batches)
        invariant n == 0 ==> Balances() == start
        invariant n >= 1 ==> StringToBigint(t.amount, decimals).Ok?
        invariant n >= 1 ==> var amount := StringToBigint(t.amount, decimals).value;
          AddSides(start, t.payerFspId, amount, if t.payerFspId == t.payeeFspId then amount else 0, currencyCode,
                   decimals, booked).Some?
        invariant n == 1 ==> var amount := StringToBigint(t.amount, decimals).value;
          AddSides(start, t.payerFspId, amount, if t.payerFspId == t.payeeFspId then amount else 0, currencyCode,
                   decimals, booked)
            == Some(Balances())
        invariant n == 2 ==> MatrixTables.AddBalance(start, t, currencyCode, decimals, booked) == Some(Balances())
      {
        var participantId := participantIds[n];
        var amount := StringToBigint(t.amount, decimals);
        if amount.Err? {
          return false;
        }
        var debit := if participantId == t.payerFspId then amount.value else 0;
        var credit := if participantId == t.payeeFspId then amount.value else 0;
        ok := AddSide(participantId, debit, credit, currencyCode, decimals, booked);
        if !ok {
          return false;
        }
      }
      ok := true;
    }

    /** One turn of the loop: the same amounts in each of the three tables. */
    method AddSide(participantId: string, debit: int, credit: int, currencyCode: string, decimals: nat,
                   booked: BatchState)
      returns (ok: bool)
      modifies this
      ensures View() == old(View()).(tables := Balances())
      ensures ok <==> AddSides(old(Balances()), participantId, debit, credit, currencyCode, decimals, booked).Some?
      ensures ok ==>
                AddSides(old(Balances()), participantId, debit, credit, currencyCode, decimals, booked)
                    == Some(Balances())
    {
      hide AddToRows;
      var rows: seq<Row>;
      ok, rows := Accumulate(balancesByParticipant, ByParticipant(participantId, booked, currencyCode), debit, credit,
          decimals);
      if !ok {
        return;
      }
      balancesByParticipant := rows;
      ok, rows := Accumulate(balancesByCurrency, ByCurrency(currencyCode), debit, credit, decimals);
      if !ok {
        return;
      }
      balancesByCurrency := rows;
      ok, rows := Accumulate(balancesByStateAndCurrency, ByState(booked, currencyCode), debit, credit, decimals);
      if !ok {
        return;
      }
      balancesByStateAndCurrency := rows;
    }

    method AddBatch(b: Batch, debitBalance: string, creditBalance: string)
      modifies this
      ensures View() == old(View()).(batches := old(batches) + [MatrixBatch(b.id, b.batchName, b.currencyCode,
          debitBalance, creditBalance, b.state)])
    {
      batches := batches + [MatrixBatch(b.id, b.batchName, b.currencyCode, debitBalance, creditBalance, b.state)];
    }

    method RemoveBatchById(batchId: string)
      modifies this
      ensures View() == old(View()).(batches := RemoveRow(old(batches), batchId))
    {
      var rows, kept := batches, [];
      for i := 0 to |rows|
        invariant kept + RemoveRow(rows[i..], batchId) == RemoveRow(rows, batchId)
        invariant unchanged(this)
      {
        OneRowLess(kept, rows, i, batchId);
        if rows[i].id != batchId {
          kept := kept + [rows[i]];
        }
      }
      batches := kept;
    }

    method RemoveBatch(b: Batch)
      modifies this
      ensures View() == old(View()).(batches := RemoveRow(old(batches), b.id))
    {
      RemoveBatchById(b.id);
    }

    method Clear()
      modifies this
      ensures View() == old(View()).(batches := [], tables := NoBalances)
    {
      batches := [];
      balancesByParticipant := [];
      balancesByCurrency := [];
      balancesByStateAndCurrency := [];
    }
  }
}

/** packages/shared-mocks-lib/src/adapter/accounts_balances_adapter_mock.ts: the ledger as an object. */
module LedgerObjects {
  import opened Common
  import opened Model
  import opened Converters
  import opened MatrixTables
  import opened Ledgers

  /** An account as the adapter reports it. */
  datatype Statement = Statement(id: nat, postedDebitBalance: string, postedCreditBalance: string)

  function Convert(a: LedgerAccount, currencies: Currencies): Statement
  {
    var d := Decimals(currencies, a.currencyCode);
    Statement(a.id, Printed(a.postedDebit, d), Printed(a.postedCredit, d))
  }

  /** The accounts with these ids that exist, in the order of the ids. */
  function Statements(accounts: seq<LedgerAccount>, ids: seq<nat>, currencies: Currencies): seq<Statement>
  {
    if ids == [] then []
    else
      var last := |ids| - 1;
      var rest := Statements(accounts, ids[..last], currencies);
      match FindAccount(accounts, ids[last])
      case None => rest
      case Some(a) => rest + [Convert(a, currencies)]
  }

  /** The entries posted in order up to the first whose amount cannot be read. */
  function PostEntries(l: Ledger, es: seq<JournalEntry>, currencies: Currencies): (Ledger, bool)
    decreases |es|
  {
    if es == [] then (l, true)
    else
      match PostEntry(l, es[0], currencies)
      case None => (l, false)
      case Some(m) => PostEntries(m, es[1..], currencies)
  }

  class AccountsBalancesAdapter {
    const currencies: Currencies
    var abAccounts: seq<LedgerAccount>
    var abJournals: seq<JournalEntry>

    function View(): Ledger
      reads this
    {
      Ledger(abAccounts, abJournals)
    }

    constructor (currencies: Currencies)
      ensures View() == Ledger([], []) && this.currencies == currencies
    {
      this.currencies := currencies;
      abAccounts := [];
      abJournals := [];
    }

    method CreateAccount(requestedId: nat, ownerId: string, currencyCode: string) returns (id: nat)
      modifies this
      ensures View() == Ledgers.CreateAccount(old(View()), requestedId, ownerId, currencyCode) && id == requestedId
    {
      abAccounts := abAccounts + [LedgerAccount(requestedId, ownerId, currencyCode, 0, 0)];
      id := requestedId;
    }

    method GetAccount(accountId: nat) returns (r: Option<Statement>)
      ensures r == match FindAccount(View().accounts, accountId)
                   case None => None
                   case Some(a) => Some(Convert(a, currencies))
    {
      for i := 0 to |abAccounts|
        invariant forall j :: 0 <= j < i ==> abAccounts[j].id != accountId
      {
        if abAccounts[i].id == accountId {
          FirstAccount(abAccounts, accountId, i);
          var d := Decimals(currencies, abAccounts[i].currencyCode);
          var debit := BigintToString(abAccounts[i].postedDebit, d);
          var credit := BigintToString(abAccounts[i].postedCredit, d);
          return Some(Statement(accountId, debit, credit));
        }
      }
      return None;
    }

    method GetAccounts(accountIds: seq<nat>) returns (r: seq<Statement>)
      ensures r == Statements(View().accounts, accountIds, currencies)
    {
      r := [];
      for i := 0 to |accountIds|
        invariant r == Statements(abAccounts, accountIds[..i], currencies)
      {
        var lookup := GetAccount(accountIds[i]);
        assert accountIds[..i + 1][..i] == accountIds[..i];
        if lookup.Some? {
          r := r + [lookup.value];
        }
      }
      assert accountIds[..|accountIds|] == accountIds;
    }

    /** Posts the entries one after the other, each on every account it names. */
    method CreateJournalEntries(entries: seq<JournalEntry>) returns (ok: bool)
      modifies this
      ensures (View(), ok) == PostEntries(old(View()), entries, currencies)
    {
      for n := 0 to |entries|
        invariant PostEntries(View(), entries[n..], currencies) == PostEntries(old(View()), entries, currencies)
      {
        assert entries[n..][0] == entries[n] && entries[n..][1..] == entries[n + 1..];
        var entry := entries[n];
        var amount := StringToBigint(entry.amount, Decimals(currencies, entry.currencyCode));
        if amount.Err? {
          return false;
        }
        UpdateBalances(entry, amount.value);
        abJournals := abJournals + [entry];
      }
      ok := true;
    }

    /** The loop over the accounts for one entry. */
    method UpdateBalances(entry: JournalEntry, amount: int)
      modifies this
      ensures abAccounts == PostAll(old(abAccounts), entry.debitedAccountId, entry.creditedAccountId, amount)
      ensures abJournals == old(abJournals)
    {
      for i := 0 to |abAccounts|
        invariant |abAccounts| == |old(abAccounts)| && abJournals == old(abJournals)
        invariant forall j :: 0 <= j < i ==>
          abAccounts[j] == PostTo(old(abAccounts)[j], entry.debitedAccountId, entry.creditedAccountId, amount)
        invariant forall j :: i <= j < |abAccounts| ==> abAccounts[j] == old(abAccounts)[j]
      {
        var acc := abAccounts[i];
        if acc.id == entry.debitedAccountId {
          abAccounts := abAccounts[i := acc.(postedDebit := acc.postedDebit + amount)];
        } else if acc.id == entry.creditedAccountId {
          abAccounts := abAccounts[i := acc.(postedCredit := acc.postedCredit + amount)];
        }
      }
    }
  }

  lemma FirstAccount(accounts: seq<LedgerAccount>, id: nat, i: nat)
    requires i < |accounts| && accounts[i].id == id && forall j :: 0 <= j < i ==> accounts[j].id != id
    ensures FindAccount(accounts, id) == Some(accounts[i])
  {
    if i > 0 {
      FirstAccount(accounts[1..], id, i - 1);
    }
  }
}

/** packages/domain-lib/src/types/batch.ts: a batch as an object. */
module BatchObjects {
  import opened Common
  import opened Model
  import opened Recalculation

  class SettlementBatch {
    const header: Batch
    var accounts: seq<BatchAccount>

    function View(): Batch
      reads this
    {
      header.(accounts := accounts)
    }

    constructor (dto: Batch)
      ensures View() == dto && header == dto
    {
      header, accounts := dto, dto.accounts;
    }

    method AddAccount(accountExtId: nat, participantId: string, currencyCode: string)
      modifies this
      ensures var account := BatchAccount(accountExtId, participantId, currencyCode, "0", "0");
              View() == old(View()).(accounts := old(accounts) + [account])
    {
      accounts := accounts + [BatchAccount(accountExtId, participantId, currencyCode, "0", "0")];
    }

    method GetAccount(participantId: string, currencyCode: string) returns (r: Option<BatchAccount>)
      ensures r == FindBatchAccount(accounts, participantId, currencyCode)
    {
      for i := 0 to |accounts|
        invariant FindBatchAccount(accounts[i..], participantId, currencyCode)
            == FindBatchAccount(accounts, participantId, currencyCode)
      {
        assert accounts[i..][0] == accounts[i] && accounts[i..][1..] == accounts[i + 1..];
        if accounts[i].participantId == participantId && accounts[i].currencyCode == currencyCode {
          return Some(accounts[i]);
        }
      }
      return None;
    }
  }
}
