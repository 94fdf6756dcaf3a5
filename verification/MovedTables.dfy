/** The tables of a matrix after its batches moved: they keep the states from before the move. */
module MovedTables {
  import opened Common
  import opened Sums
  import opened Model
  import opened Converters
  import opened MatrixTables
  import opened Totals
  import opened Repositories
  import opened Recalculation
  import opened BookKeeping
  import opened Exactness
  import opened Reconciliation
  import opened Commands
  import opened Effects
  import opened BatchSequences
  import opened Protocol

  /** The facts under the states that their batches have now. */
  function Restated(facts: Facts, batchOf: map<string, string>, docs: map<string, Batch>): Facts
  {
    map x | x in facts ::
      if x in batchOf && batchOf[x] in docs then facts[x].(booked := docs[batchOf[x]].state) else facts[x]
  }

  // ----- one table for two sets of facts

  /** The same transfers, some of them moved from other states into this one. */
  ghost predicate MovedInto(a: Facts, b: Facts, st: BatchState)
  {
    a.Keys == b.Keys && forall x :: x in a ==> b[x] == a[x] || (a[x].booked != st && b[x] == a[x].(booked := st))
  }

  /** Moving a transfer into a state raises the total of that state. */
  lemma TargetGrows(a: Facts, b: Facts, st: BatchState, x: string, currencies: Currencies)
    requires MovedInto(a, b, st) && GoodFacts(a, currencies) && x in a && a[x] != b[x]
    ensures var key := ByState(st, a[x].currencyCode); SidesOf(a, key).debit < SidesOf(b, key).debit
  {
    CountedPositive(a, currencies);
    hide GoodFacts;
    var key := ByState(st, a[x].currencyCode);
    var m, n := Debits(a, key), Debits(b, key);
    forall y | y in n ensures 0 < n[y] {
      assert Counted(b[y]) == Counted(a[y]);
    }
    MapSumRemove(n, x);
    MapSumSubset(m, n - {x});
  }

  /** A table of the totals per state fits both only if no transfer moved. */
  lemma OneTableOneState(rows: seq<Row>, a: Facts, b: Facts, st: BatchState, currencies: Currencies)
    requires MovedInto(a, b, st) && GoodFacts(a, currencies)
    requires RowsShow(rows, TotalsOf(a, StateKeys(a)), currencies)
    ensures RowsShow(rows, TotalsOf(b, StateKeys(b)), currencies) <==> a == b
  {
    hide GoodFacts, SidesOf, Printed, Decimals;
    if RowsShow(rows, TotalsOf(b, StateKeys(b)), currencies) && a != b {
      var x :| x in a && a[x] != b[x];
      var key := ByState(st, a[x].currencyCode);
      assert key in StateKeys(b);
      assert key in RowKeys(rows);
      var i :| 0 <= i < |rows| && rows[i].key == key;
      assert RowShows(rows[i], TotalsOf(a, StateKeys(a)), currencies);
      assert RowShows(rows[i], TotalsOf(b, StateKeys(b)), currencies);
      PrintedApart(SidesOf(a, key).debit, SidesOf(b, key).debit, Decimals(currencies, key.currencyCode));
      TargetGrows(a, b, st, x, currencies);
    }
  }

  // ----- moving

  /** The state a command moves batches to. */
  function Target(mv: Move): BatchState
  {
    match mv
    case Dispute => DISPUTED
    case Lock => AWAITING_SETTLEMENT
    case Unlock => CLOSED
    case Close => CLOSED
    case Settle => SETTLED
  }

  lemma MovedToTarget(mv: Move, mid: MatrixId, b: Batch)
    ensures Moved(mv, mid, b).Some? ==> b.state != Target(mv) && Moved(mv, mid, b).value.state == Target(mv)
  {
  }

  /** The states after a move: moved batches are in the target state, all others as before. */
  lemma StatesAfter(a: map<string, Batch>, b: map<string, Batch>, ids: set<string>, mv: Move, mid: MatrixId, id: string)
    requires BatchesMoved(a, b, ids, mv, mid) && id in a
    ensures id in b
    ensures id in MovedIds(a, ids, mv, mid) ==> a[id].state != Target(mv) && b[id].state == Target(mv)
    ensures id !in MovedIds(a, ids, mv, mid) ==> b[id].state == a[id].state
  {
    MovedToTarget(mv, mid, a[id]);
    hide Moved;
    assert SameBatch(if id in ids then MovedOrSame(mv, mid, a[id]) else a[id], b[id]);
  }

  /** No batch that moves has a transfer. */
  predicate NothingInside(w: World, id: MatrixId, mv: Move)
    requires id in w.matrices.docs
  {
    forall x :: x in w.books.transfers.docs ==>
      w.books.transfers.docs[x].batchId !in MovedIds(w.books.batches.docs, MoveTargets(w, id, mv), mv, id)
  }

  /** Every transfer of a selected batch is a fact under the state its batch had. */
  lemma FactBefore(k: Books, m: Matrix, x: string, currencies: Currencies)
    requires x in k.transfers.docs && k.transfers.docs[x].batchId in k.batches.docs
    ensures var facts, id := RecalculatedFacts(k, m, false, currencies), k.transfers.docs[x].batchId;
            && (x in facts <==> id in SelectedIds(k.batches.docs, m))
            && (x in facts ==> facts[x].booked == k.batches.docs[id].state)
  {
    hide SelectedIds, Amount;
  }

  lemma FactMoved(w: World, docs: map<string, Batch>, id: MatrixId, mv: Move, x: string, currencies: Currencies)
    requires id in w.matrices.docs && mv != Settle
    requires x in RecalculatedFacts(w.books, w.matrices.docs[id], false, currencies)
    requires BatchesMoved(w.books.batches.docs, docs, MoveTargets(w, id, mv), mv, id)
    ensures var facts := RecalculatedFacts(w.books, w.matrices.docs[id], false, currencies);
            var now := Restated(facts, BatchOf(w.books), docs);
            var moved := MovedIds(w.books.batches.docs, MoveTargets(w, id, mv), mv, id);
            var inside := w.books.transfers.docs[x].batchId in moved;
            && now[x] == (if inside then facts[x].(booked := Target(mv)) else facts[x])
            && (inside ==> facts[x].booked != Target(mv))
  {
    var k, batchId := w.books, w.books.transfers.docs[x].batchId;
    FactBefore(k, w.matrices.docs[id], x, currencies);
    hide CountedFacts, MovedIds, BatchesMoved, MoveTargets, Target;
    StatesAfter(k.batches.docs, docs, MoveTargets(w, id, mv), mv, id, batchId);
  }

  lemma FactsMoved(w: World, docs: map<string, Batch>, id: MatrixId, mv: Move, currencies: Currencies)
    requires id in w.matrices.docs && mv != Settle
    requires BatchesMoved(w.books.batches.docs, docs, MoveTargets(w, id, mv), mv, id)
    ensures var facts := RecalculatedFacts(w.books, w.matrices.docs[id], false, currencies);
            var now := Restated(facts, BatchOf(w.books), docs);
            MovedInto(facts, now, Target(mv)) && (facts == now <==> NothingInside(w, id, mv))
  {
    hide CountedFacts, BatchesMoved, SelectedIds, Moved, Restated, BatchOf, Target;
    var k, facts := w.books, RecalculatedFacts(w.books, w.matrices.docs[id], false, currencies);
    var now := Restated(facts, BatchOf(k), docs);
    RestatedKeys(facts, BatchOf(k), docs);
    FactsStored(k, w.matrices.docs[id], currencies);
    forall x | x in facts
      ensures var inside := k.transfers.docs[x].batchId in MovedIds(k.batches.docs, MoveTargets(w, id, mv), mv, id);
              && now[x] == (if inside then facts[x].(booked := Target(mv)) else facts[x])
              && (inside ==> facts[x].booked != Target(mv))
    {
      FactMoved(w, docs, id, mv, x, currencies);
    }
    forall x | x in k.transfers.docs
        && k.transfers.docs[x].batchId in MovedIds(k.batches.docs, MoveTargets(w, id, mv), mv, id)
      ensures x in facts
    {
      FactBefore(k, w.matrices.docs[id], x, currencies);
    }
  }

  lemma RestatedKeys(facts: Facts, batchOf: map<string, string>, docs: map<string, Batch>)
    ensures Restated(facts, batchOf, docs).Keys == facts.Keys
  {
  }

  lemma FactsStored(k: Books, m: Matrix, currencies: Currencies)
    ensures RecalculatedFacts(k, m, false, currencies).Keys <= k.transfers.docs.Keys
  {
  }

  lemma SettledAlready(w: World, docs: map<string, Batch>, id: MatrixId, currencies: Currencies)
    requires id in w.matrices.docs && w.matrices.docs[id].id == id
    requires BatchesMoved(w.books.batches.docs, docs, MoveTargets(w, id, Settle), Settle, id)
    ensures var facts := RecalculatedFacts(w.books, w.matrices.docs[id], true, currencies);
            Restated(facts, BatchOf(w.books), docs) == facts
  {
    hide RecalculatedFacts, BatchesMoved, MoveTargets, MovedIds, Restated, BatchOf;
    var k := w.books;
    var facts := RecalculatedFacts(k, w.matrices.docs[id], true, currencies);
    RestatedKeys(facts, BatchOf(k), docs);
    forall x | x in facts ensures Restated(facts, BatchOf(k), docs)[x] == facts[x] {
      CountedAwaits(w, id, x, currencies);
      StatesAfter(k.batches.docs, docs, MoveTargets(w, id, Settle), Settle, id, k.transfers.docs[x].batchId);
      RestatedAt(k, facts, docs, x);
    }
  }

  /** A transfer counted in a settlement lies in a batch that the settlement moves, and is booked as settled. */
  lemma CountedAwaits(w: World, id: MatrixId, x: string, currencies: Currencies)
    requires id in w.matrices.docs && w.matrices.docs[id].id == id
    requires x in RecalculatedFacts(w.books, w.matrices.docs[id], true, currencies)
    ensures x in w.books.transfers.docs && w.books.transfers.docs[x].batchId in w.books.batches.docs
    ensures RecalculatedFacts(w.books, w.matrices.docs[id], true, currencies)[x].booked == SETTLED
    ensures w.books.transfers.docs[x].batchId in MovedIds(w.books.batches.docs, MoveTargets(w, id, Settle), Settle, id)
  {
    hide SelectedIds, Amount;
  }

  lemma RestatedAt(k: Books, facts: Facts, docs: map<string, Batch>, x: string)
    requires x in facts && x in k.transfers.docs && k.transfers.docs[x].batchId in docs
    ensures x in Restated(facts, BatchOf(k), docs)
    ensures Restated(facts, BatchOf(k), docs)[x] == facts[x].(booked := docs[k.transfers.docs[x].batchId].state)
  {
  }

  lemma MoveKeepsTables(w: World, id: MatrixId, mv: Move, currencies: Currencies)
    requires WorldOk(w, currencies) && MoveMatrix(w, id, mv, currencies).outcome == Done
    ensures id in w.matrices.docs && id in MoveMatrix(w, id, mv, currencies).world.matrices.docs
    ensures TablesShow(MoveMatrix(w, id, mv, currencies).world.matrices.docs[id].tables,
                       RecalculatedFacts(w.books, w.matrices.docs[id], mv.Settle?, currencies), currencies)
  {
    hide BooksOk, SequencesOk, OwnersOk, ValidRepo, EntriesOk, LocksOk, Recalculate, Sweep, RowsToMove, CurrenciesKnown,
         Items, TablesShow, CountedFacts, SelectedIds;
    StoredIsStorable(w, id, currencies);
    var m := w.matrices.docs[id];
    RecalculateExact(w.books, m.(state := BUSY), mv.Settle?, currencies);
    RecalculateKeeps(w.books, m.(state := BUSY), mv.Settle?, currencies);
    SelectionIgnoresState(w.books.batches.docs, m, BUSY);
  }

  /** The tables of a matrix after a move show the transfers under the states from before it, its list the states
      from after it. The two agree exactly when no batch that moved has a transfer; after a settlement always. */
  lemma TablesLagBehind(w: World, id: MatrixId, mv: Move, currencies: Currencies)
    requires WorldOk(w, currencies) && MoveMatrix(w, id, mv, currencies).outcome == Done
    ensures var v := MoveMatrix(w, id, mv, currencies).world;
            && id in w.matrices.docs && id in v.matrices.docs
            && var facts := RecalculatedFacts(w.books, w.matrices.docs[id], mv.Settle?, currencies);
               var now := Restated(facts, BatchOf(w.books), v.books.batches.docs);
               && TablesShow(v.matrices.docs[id].tables, facts, currencies)
               && (RowsShow(v.matrices.docs[id].tables.byStateAndCurrency, TotalsOf(now, StateKeys(now)), currencies)
                   <==> mv == Settle || NothingInside(w, id, mv))
  {
    hide BooksOk, SequencesOk, OwnersOk, ValidRepo, EntriesOk, LocksOk, MoveMatrix, StoreOk, Fresh, MovedIds,
         SameTransfers, SameCore, Includes, RecalculatedFacts, Restated, BatchOf, BatchesMoved, MoveTargets, RowsShow,
         TotalsOf, StateKeys, GoodFacts, NothingInside, MovedInto;
    MoveKeepsTables(w, id, mv, currencies);
    WorldStoreOk(w, currencies);
    var mark := MoveMatrixEffect(w, id, mv, currencies);
    var v := MoveMatrix(w, id, mv, currencies).world;
    var facts := RecalculatedFacts(w.books, w.matrices.docs[id], mv.Settle?, currencies);
    if mv == Settle {
      StoredMatrixOk(w, id, currencies);
      SettledAlready(w, v.books.batches.docs, id, currencies);
    } else {
      FactsMoved(w, v.books.batches.docs, id, mv, currencies);
      FactsGood(w.books, w.matrices.docs[id], false, currencies);
      OneTableOneState(v.matrices.docs[id].tables.byStateAndCurrency, facts,
                       Restated(facts, BatchOf(w.books), v.books.batches.docs), Target(mv), currencies);
    }
  }
}
