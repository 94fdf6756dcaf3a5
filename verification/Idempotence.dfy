/** Repeating a recalculation, and what it leaves of the list of a matrix. */
module Idempotence {
  import opened Common
  import opened Sums
  import opened Model
  import opened Converters
  import opened MatrixTables
  import opened Totals
  import opened Conservation
  import opened Repositories
  import opened Ledgers
  import opened Recalculation
  import opened BookKeeping
  import opened Exactness
  import opened Accumulation
  import opened Completion
  import opened Commands
  import opened Effects

  // ----- nothing left to journal

  ghost predicate AllEntered(ts: seq<Transfer>)
  {
    forall i :: 0 <= i < |ts| ==> ts[i].journalEntryId.Some?
  }

  lemma {:induction false} TallyTransfersQuiet(w: Tally, ts: seq<Transfer>, mid: MatrixId, settling: bool,
      currencies: Currencies)
    requires AllEntered(ts)
    ensures TallyTransfers(w, ts, mid, settling, currencies).books == w.books
    decreases |ts|
  {
    hide AddBalance, StringToBigint, JournalTransfer;
    if ts != [] && w.ok {
      var u := TallyTransfer(w, ts[0], mid, settling, currencies);
      TallyTransfersQuiet(u, ts[1..], mid, settling, currencies);
    }
  }

  lemma BatchQuiet(k: Books, b: Batch, currencies: Currencies)
    requires BooksOk(k, currencies) && BatchJournalled(k, b.id)
    ensures AllEntered(TransfersOf(k, b.id))
  {
    hide BooksOk, TransfersOf;
    TransfersPending(k, b, currencies);
    var ts := TransfersOf(k, b.id);
    forall i | 0 <= i < |ts| ensures ts[i].journalEntryId.Some? {
      assert Pending(k, ts[i], b);
    }
  }

  lemma {:induction false} RecalculateBatchesQuiet(p: Progress, bs: seq<Batch>, mid: MatrixId, settling: bool,
      currencies: Currencies)
    requires BooksOk(p.books, currencies) && forall i :: 0 <= i < |bs| ==> BatchJournalled(p.books, bs[i].id)
    ensures RecalculateBatches(p, bs, mid, settling, currencies).books == p.books
    decreases |bs|
  {
    hide BooksOk, TallyTransfers, TransfersOf, BatchJournalled;
    if bs != [] && p.ok {
      var b := bs[0];
      BatchQuiet(p.books, b, currencies);
      TallyTransfersQuiet(Tally(p.books, b, p.tables, 0, 0, true), TransfersOf(p.books, b.id), mid, settling,
                          currencies);
      RecalculateBatchesQuiet(RecalculateBatch(p, b, mid, settling, currencies), bs[1..], mid, settling, currencies);
    }
  }

  /** When every transfer of the selected batches is journalled, a recalculation changes nothing that is stored:
      no account, no journal entry, no transfer, no batch. */
  lemma QuietRecalculation(k: Books, m: Matrix, settling: bool, currencies: Currencies)
    requires BooksOk(k, currencies)
    requires forall id :: id in SelectedIds(k.batches.docs, m) ==> BatchJournalled(k, id)
    ensures Recalculate(k, m, settling, currencies).books == k
  {
    hide BooksOk, SelectedBatches, SelectedIds, RecalculateBatches, BatchJournalled, Listed;
    var keys := SelectionListed(k, m, currencies);
    var bs := SelectedBatches(k, m);
    RefreshBatchesOk(k, bs, currencies);
    var rs := RefreshBatches(bs, k.ledger, currencies).value;
    forall i | 0 <= i < |rs| ensures BatchJournalled(k, rs[i].id) {
      assert keys[i] in keys && rs[i].id == keys[i];
    }
    RecalculateBatchesQuiet(Progress(k, [], NoBalances, true), rs, m.id, settling, currencies);
  }

  // ----- once more

  /** A recalculated matrix selects the same batches again. */
  lemma SelectsAgain(a: map<string, Batch>, b: map<string, Batch>, m: Matrix, m1: Matrix)
    requires SameBatches(a, b) && m1.kind == m.kind && Fresh(m1.batches, SelectedIds(a, m), b)
    ensures SelectedIds(b, m1) == SelectedIds(a, m)
  {
    hide RowIds, StateName;
    forall id | id in a ensures SameBatch(a[id], b[id]) {}
  }

  lemma CountsAgain(k: Books, l: Books, m: Matrix, m1: Matrix, settling: bool, currencies: Currencies)
    requires SameCore(k, l) && m1.id == m.id && SelectedIds(l.batches.docs, m1) == SelectedIds(k.batches.docs, m)
    ensures RecalculatedFacts(l, m1, settling, currencies) == RecalculatedFacts(k, m, settling, currencies)
  {
    hide SelectedIds, CountedFacts;
    forall id | id in k.batches.docs ensures SameBatch(k.batches.docs[id], l.batches.docs[id]) {}
    assert CountedIds(l, m1, settling) == CountedIds(k, m, settling);
    SameCoreFacts(k, l, CountedIds(k, m, settling), settling, currencies);
  }

  lemma RowAgain(k: Books, l: Books, id: string, mid: MatrixId, settling: bool, currencies: Currencies)
    requires SameCore(k, l) && id in k.batches.docs
    ensures id in l.batches.docs
    ensures RowOf(l, l.batches.docs[id], mid, settling, currencies)
            == RowOf(k, k.batches.docs[id], mid, settling, currencies)
  {
    hide BatchTotal, Printed, Decimals;
    assert SameBatch(k.batches.docs[id], l.batches.docs[id]);
    SameRow(k, l, k.batches.docs[id], mid, settling, currencies);
  }

  ghost predicate SameRows(a: seq<MatrixBatch>, b: seq<MatrixBatch>)
  {
    forall row :: row in a <==> row in b
  }

  /** The second list has the same rows as the first. */
  lemma RowsAgain(k: Books, l: Books, rows: seq<MatrixBatch>, again: seq<MatrixBatch>, mid: MatrixId, settling: bool,
      currencies: Currencies)
    requires SameCore(k, l) && RowIds(rows) == RowIds(again)
    requires forall i :: 0 <= i < |rows| ==>
               rows[i].id in k.batches.docs
               && rows[i] == RowOf(k, k.batches.docs[rows[i].id], mid, settling, currencies)
    requires forall i :: 0 <= i < |again| ==>
               again[i].id in l.batches.docs
               && again[i] == RowOf(l, l.batches.docs[again[i].id], mid, settling, currencies)
    ensures SameRows(rows, again)
  {
    hide RowOf, SameCore;
    forall row | row in rows ensures row in again {
      var i :| 0 <= i < |rows| && rows[i] == row;
      assert row.id in RowIds(again);
      var j :| 0 <= j < |again| && again[j].id == row.id;
      RowAgain(k, l, row.id, mid, settling, currencies);
    }
    forall row | row in again ensures row in rows {
      var j :| 0 <= j < |again| && again[j] == row;
      assert row.id in RowIds(rows);
      var i :| 0 <= i < |rows| && rows[i].id == row.id;
      RowAgain(k, l, row.id, mid, settling, currencies);
    }
  }

  /** A recalculation that completes can be repeated: the books are as they were, and when the second one completes
      it gives the same rows and the same three tables. Journalling may have changed the order of the stores, so it
      completes exactly when each amount fits in the new order: whenever the totals are in bounds, and whenever
      nobody pays themselves. */
  lemma RecalculationIsIdempotent(k: Books, m: Matrix, settling: bool, currencies: Currencies)
    requires BooksOk(k, currencies) && Recalculate(k, m, settling, currencies).matrix.Some?
    ensures var once := Recalculate(k, m, settling, currencies);
            var twice := Recalculate(once.books, once.matrix.value, settling, currencies);
            && twice.books == once.books
            && (twice.matrix.Some? <==>
                  EachFits(map[], RecalculationBookings(once.books, once.matrix.value, settling), currencies))
            && (AllInBound(RecalculatedFacts(k, m, settling, currencies), currencies) ==> twice.matrix.Some?)
            && (NobodyPaysThemselves(RecalculatedFacts(k, m, settling, currencies)) ==> twice.matrix.Some?)
            && (twice.matrix.Some? ==>
                  && SameTables(once.matrix.value.tables, twice.matrix.value.tables)
                  && RowIds(once.matrix.value.batches) == RowIds(twice.matrix.value.batches)
                  && SameRows(once.matrix.value.batches, twice.matrix.value.batches))
  {
    hide BooksOk, SelectedIds, Recalculate, RecalculatedFacts, TablesShow, AllInBound, NobodyPaysThemselves, RowOf,
         BatchJournalled, SameCore, SameTables, SameRows, EachFits, RecalculationBookings;
    var once := Recalculate(k, m, settling, currencies);
    var l, m1 := once.books, once.matrix.value;
    RecalculateKeeps(k, m, settling, currencies);
    RecalculateExact(k, m, settling, currencies);
    OnceMore(k, l, m, m1, settling, currencies);
    QuietRecalculation(l, m1, settling, currencies);
    RecalculateExact(l, m1, settling, currencies);
    RecalculateCompletesExactly(l, m1, settling, currencies);
    var twice := Recalculate(l, m1, settling, currencies);
    if twice.matrix.Some? {
      RowsAgain(k, l, m1.batches, twice.matrix.value.batches, m.id, settling, currencies);
      TablesDependOnFactsOnly(m1.tables, twice.matrix.value.tables, RecalculatedFacts(k, m, settling, currencies),
                              currencies);
    }
  }

  lemma OnceMore(k: Books, l: Books, m: Matrix, m1: Matrix, settling: bool, currencies: Currencies)
    requires SameCore(k, l) && m1.id == m.id && m1.kind == m.kind
        && Fresh(m1.batches, SelectedIds(k.batches.docs, m), l.batches.docs)
    ensures SelectedIds(l.batches.docs, m1) == SelectedIds(k.batches.docs, m)
    ensures RecalculatedFacts(l, m1, settling, currencies) == RecalculatedFacts(k, m, settling, currencies)
  {
    hide Fresh, SelectedIds, RecalculatedFacts, SameBatches;
    assert SameBatches(k.batches.docs, l.batches.docs);
    SelectsAgain(k.batches.docs, l.batches.docs, m, m1);
    CountsAgain(k, l, m, m1, settling, currencies);
  }

  // ----- membership

  /** A completed recalculation of a STATIC matrix lists exactly the batches it listed before. */
  lemma StaticKeepsItsBatches(k: Books, m: Matrix, settling: bool, currencies: Currencies)
    requires BooksOk(k, currencies) && m.kind == STATIC && Recalculate(k, m, settling, currencies).matrix.Some?
    requires forall i :: 0 <= i < |m.batches| ==> m.batches[i].id in k.batches.docs
    ensures RowIds(Recalculate(k, m, settling, currencies).matrix.value.batches) == RowIds(m.batches)
  {
    hide BooksOk, Recalculate, SameCore;
    RecalculateKeeps(k, m, settling, currencies);
    assert SelectedIds(k.batches.docs, m) == RowIds(m.batches);
  }

  /** The same, command after command: recalculating an IDLE matrix again right after a recalculation that
      completed leaves the books as they are. */
  lemma RepeatedCommand(w: World, id: MatrixId, currencies: Currencies)
    requires StoreOk(w, currencies) && RecalculateMatrix(w, id, currencies).outcome == Done
    ensures id in w.matrices.docs
    ensures var v := RecalculateMatrix(w, id, currencies).world;
            var u := RecalculateMatrix(v, id, currencies);
            var facts := RecalculatedFacts(w.books, w.matrices.docs[id], false, currencies);
            && id in v.matrices.docs && v.matrices.docs[id].state == IDLE
            && u.world.books == v.books
            && (u.outcome == Done <==>
                  EachFits(map[], RecalculationBookings(v.books, v.matrices.docs[id], false), currencies))
            && (AllInBound(facts, currencies) ==> u.outcome == Done)
            && (NobodyPaysThemselves(facts) ==> u.outcome == Done)
            && (u.outcome == Done ==>
                  && id in u.world.matrices.docs && u.world.matrices.docs[id].state == IDLE
                  && SameTables(v.matrices.docs[id].tables, u.world.matrices.docs[id].tables)
                  && SameRows(v.matrices.docs[id].batches, u.world.matrices.docs[id].batches))
  {
    hide BooksOk, Recalculate, SameTables, SameRows, NobodyPaysThemselves, RecalculatedFacts, Fresh;
    StoredMatrixOk(w, id, currencies);
    var m := w.matrices.docs[id];
    var busy := m.(state := BUSY);
    RecalculateKeeps(w.books, busy, false, currencies);
    RecalculationIsIdempotent(w.books, busy, false, currencies);
    StateIgnored(w.books, m, false, currencies);
    var once := Recalculate(w.books, busy, false, currencies);
    RecalculateKeeps(once.books, once.matrix.value, false, currencies);
    assert once.matrix.value.(state := IDLE).(state := BUSY) == once.matrix.value;
  }

  lemma StateIgnored(k: Books, m: Matrix, settling: bool, currencies: Currencies)
    ensures RecalculatedFacts(k, m.(state := BUSY), settling, currencies)
            == RecalculatedFacts(k, m, settling, currencies)
  {
    SelectionIgnoresState(k.batches.docs, m, BUSY);
    hide SelectedIds;
  }
}
