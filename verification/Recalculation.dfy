/** packages/domain-lib/src/aggregate.ts: `_recalculateMatrix` as a function of the stored records. */
module Recalculation {
  import opened Common
  import opened Model
  import opened Converters
  import opened MatrixTables
  import opened Repositories
  import opened Ledgers

  /** What a recalculation can change. `nextId` is the supply of fresh random ids. */
  datatype Books = Books(
    batches: Repo<string, Batch>,
    transfers: Repo<string, Transfer>,
    ledger: Ledger,
    nextId: nat)

  // ----- batch accounts

  function FindBatchAccount(accounts: seq<BatchAccount>, participantId: string, currencyCode: string)
    : (r: Option<BatchAccount>)
    ensures r.Some? ==>
              r.value in accounts && r.value.participantId == participantId && r.value.currencyCode == currencyCode
  {
    if accounts == [] then None
    else
      var a := accounts[0];
      if a.participantId == participantId && a.currencyCode == currencyCode then Some(a)
      else FindBatchAccount(accounts[1..], participantId, currencyCode)
  }

  datatype Opened = Opened(books: Books, batch: Batch, accountId: nat, added: bool)

  /** The batch account of a participant, created in the ledger and added to the batch when missing. */
  function OpenAccount(k: Books, b: Batch, participantId: string): Opened
  {
    match FindBatchAccount(b.accounts, participantId, b.currencyCode)
    case Some(a) => Opened(k, b, a.accountExtId, false)
    case None =>
      var id := k.nextId;
      Opened(k.(ledger := CreateAccount(k.ledger, id, participantId, b.currencyCode), nextId := id + 1),
             b.(accounts := b.accounts + [BatchAccount(id, participantId, b.currencyCode, "0", "0")]),
             id, true)
  }

  /** `_updateBatchAccountBalances` for one batch; None where an account is missing in the ledger. */
  function RefreshAccounts(accounts: seq<BatchAccount>, l: Ledger, currencies: Currencies): Option<seq<BatchAccount>>
  {
    if accounts == [] then Some([])
    else
      var a := accounts[0];
      match FindAccount(l.accounts, a.accountExtId)
      case None => None
      case Some(acc) =>
        match RefreshAccounts(accounts[1..], l, currencies)
        case None => None
        case Some(rest) =>
          var d := Decimals(currencies, acc.currencyCode);
          Some([a.(debitBalance := Printed(acc.postedDebit, d), creditBalance := Printed(acc.postedCredit, d))] + rest)
  }

  function RefreshBatch(b: Batch, l: Ledger, currencies: Currencies): Option<Batch>
  {
    match RefreshAccounts(b.accounts, l, currencies)
    case None => None
    case Some(accounts) => Some(b.(accounts := accounts))
  }

  function RefreshBatches(batches: seq<Batch>, l: Ledger, currencies: Currencies): Option<seq<Batch>>
  {
    if batches == [] then Some([])
    else
      match RefreshBatch(batches[0], l, currencies)
      case None => None
      case Some(b) =>
        match RefreshBatches(batches[1..], l, currencies)
        case None => None
        case Some(rest) => Some([b] + rest)
  }

  // ----- one transfer

  datatype Journalled = Journalled(books: Books, batch: Batch, added: bool, ok: bool)

  function EntryFor(b: Batch, t: Transfer, debited: nat, credited: nat): JournalEntry
  {
    JournalEntry(t.transferId, b.batchUUID, b.currencyCode, t.amount, debited, credited)
  }

  /** Journals a transfer that has no journal entry yet. */
  function JournalTransfer(k: Books, b: Batch, t: Transfer, currencies: Currencies): Journalled
  {
    var payer := OpenAccount(k, b, t.payerFspId);
    var payee := OpenAccount(payer.books, payer.batch, t.payeeFspId);
    var added := payer.added || payee.added;
    match PostEntry(payee.books.ledger, EntryFor(b, t, payer.accountId, payee.accountId), currencies)
    case None => Journalled(payee.books, payee.batch, added, false)
    case Some(l) =>
      var t1 := Transfer(t.transferId, t.transferTimestamp, t.payerFspId, t.payeeFspId, t.currencyCode, t.amount,
                         b.id, b.batchName, Some(t.transferId));
      var k1 := payee.books.(ledger := l, transfers := Put(k.transfers, t.transferId, t1));
      match RefreshBatch(payee.batch, l, currencies)
      case None => Journalled(k1, payee.batch, added, false)
      case Some(b1) => Journalled(k1, b1, added, true)
  }

  /** The journalling part of one turn of the loop. */
  function JournalIfNeeded(k: Books, b: Batch, t: Transfer, currencies: Currencies): Journalled
  {
    if t.journalEntryId.None? then JournalTransfer(k, b, t, currencies) else Journalled(k, b, false, true)
  }

  /** When settling, only batches this matrix has locked are counted. */
  predicate Included(b: Batch, mid: MatrixId, settling: bool)
  {
    settling ==> b.ownerMatrixId == Some(mid) && b.state == AWAITING_SETTLEMENT
  }

  function Booked(b: Batch, settling: bool): BatchState
  {
    if settling then SETTLED else b.state
  }

  /** Running state of the loop over the transfers of one batch. */
  datatype Tally = Tally(books: Books, batch: Batch, tables: Tables, debit: int, credit: int, ok: bool)

  function TallyTransfer(w: Tally, t: Transfer, mid: MatrixId, settling: bool, currencies: Currencies): Tally
  {
    var j := JournalIfNeeded(w.books, w.batch, t, currencies);
    if !j.ok then w.(books := j.books, batch := j.batch, ok := false)
    else if !Included(j.batch, mid, settling) then w.(books := j.books, batch := j.batch)
    else
      var d := Decimals(currencies, j.batch.currencyCode);
      match AddBalance(w.tables, t, j.batch.currencyCode, d, Booked(j.batch, settling))
      case None => w.(books := j.books, batch := j.batch, ok := false)
      case Some(tables) =>
        var k := if j.added then j.books.(batches := Put(j.books.batches, j.batch.id, j.batch)) else j.books;
        match StringToBigint(t.amount, d)
        case Err(_) => Tally(k, j.batch, tables, w.debit, w.credit, false)
        case Ok(amount) => Tally(k, j.batch, tables, w.debit + amount, w.credit + amount, true)
  }

  function TallyTransfers(w: Tally, ts: seq<Transfer>, mid: MatrixId, settling: bool, currencies: Currencies): Tally
    decreases |ts|
  {
    if ts == [] || !w.ok then w
    else TallyTransfers(TallyTransfer(w, ts[0], mid, settling, currencies), ts[1..], mid, settling, currencies)
  }

  // ----- all batches

  function IdsInBatch(docs: map<string, Transfer>, batchId: string): set<string>
  {
    set x | x in docs && docs[x].batchId == batchId
  }

  function TransfersOf(k: Books, batchId: string): seq<Transfer>
  {
    Select(k.transfers, IdsInBatch(k.transfers.docs, batchId))
  }

  datatype Progress = Progress(books: Books, rows: seq<MatrixBatch>, tables: Tables, ok: bool)

  function BatchRow(b: Batch, debit: int, credit: int, decimals: nat): MatrixBatch
  {
    MatrixBatch(b.id, b.batchName, b.currencyCode, Printed(debit, decimals), Printed(credit, decimals), b.state)
  }

  function RecalculateBatch(p: Progress, b: Batch, mid: MatrixId, settling: bool, currencies: Currencies): Progress
  {
    if b.currencyCode !in currencies then p.(ok := false)
    else
      var w := TallyTransfers(Tally(p.books, b, p.tables, 0, 0, true), TransfersOf(p.books, b.id), mid, settling,
                              currencies);
      if !w.ok then Progress(w.books, p.rows, w.tables, false)
      else
        var row := BatchRow(w.batch, w.debit, w.credit, currencies[b.currencyCode]);
        Progress(w.books, p.rows + [row], w.tables, true)
  }

  function RecalculateBatches(p: Progress, bs: seq<Batch>, mid: MatrixId, settling: bool, currencies: Currencies)
    : Progress
    decreases |bs|
  {
    if bs == [] || !p.ok then p
    else RecalculateBatches(RecalculateBatch(p, bs[0], mid, settling, currencies), bs[1..], mid, settling, currencies)
  }

  /** The criteria of a dynamic matrix that do not depend on the state of a batch; empty ones match everything. */
  predicate MatchesFixed(b: Batch, m: MatrixType)
    requires m.DYNAMIC?
  {
    && m.dateFrom <= b.timestamp <= m.dateTo
    && (m.settlementModel == "" || m.settlementModel == b.settlementModel)
    && (m.currencyCodes == [] || b.currencyCode in m.currencyCodes)
  }

  predicate MatchesStatus(st: BatchState, m: MatrixType)
    requires m.DYNAMIC?
  {
    m.batchStatuses == [] || StateName(st) in m.batchStatuses
  }

  /** Does a batch meet the criteria of a dynamic matrix? */
  predicate MatchesCriteria(b: Batch, m: MatrixType)
    requires m.DYNAMIC?
  {
    MatchesFixed(b, m) && MatchesStatus(b.state, m)
  }

  function RowIds(rows: seq<MatrixBatch>): set<string>
  {
    set i | 0 <= i < |rows| :: rows[i].id
  }

  lemma RowIdsAppend(rows: seq<MatrixBatch>, row: MatrixBatch)
    ensures RowIds(rows + [row]) == RowIds(rows) + {row.id}
  {
    var more := rows + [row];
    assert more[|rows|].id == row.id;
    forall x | x in RowIds(rows) ensures x in RowIds(more) {
      var i :| 0 <= i < |rows| && rows[i].id == x;
      assert more[i].id == x;
    }
  }

  /** The ids a recalculation looks up: the listed batches, or all that meet the criteria. */
  function SelectedIds(docs: map<string, Batch>, m: Matrix): set<string>
  {
    match m.kind
    case STATIC => set id | id in docs && id in RowIds(m.batches)
    case DYNAMIC(_, _, _, _, _) => set id | id in docs && MatchesCriteria(docs[id], m.kind)
  }

  function SelectedBatches(k: Books, m: Matrix): seq<Batch>
  {
    Select(k.batches, SelectedIds(k.batches.docs, m))
  }

  datatype Recalculated = Recalculated(books: Books, matrix: Option<Matrix>)

  /** `_recalculateMatrix`; None where it throws, with what was stored until then. */
  function Recalculate(k: Books, m: Matrix, settling: bool, currencies: Currencies): Recalculated
  {
    match RefreshBatches(SelectedBatches(k, m), k.ledger, currencies)
    case None => Recalculated(k, None)
    case Some(bs) =>
      var p := RecalculateBatches(Progress(k, [], NoBalances, true), bs, m.id, settling, currencies);
      Recalculated(p.books, if p.ok then Some(m.(batches := p.rows, tables := p.tables)) else None)
  }
}
