/** The balances that are stored: in every reachable state the tables and the list of every matrix add up. */
module Balances {
  import opened Common
  import opened Sums
  import opened Model
  import opened Digits
  import opened Converters
  import opened MatrixTables
  import opened Totals
  import opened Conservation
  import opened Repositories
  import opened Ledgers
  import opened Recalculation
  import opened BookKeeping
  import opened Exactness
  import opened Reconciliation
  import opened Commands
  import opened Effects
  import opened BatchSequences
  import opened Protocol
  import opened Safety
  import opened Events
  import opened Accumulation
  import opened MatrixSafety

  ghost predicate Balanced(m: Matrix, currencies: Currencies)
  {
    exists facts: Facts, batchOf: map<string, string> :: Backed(m.batches, m.tables, facts, batchOf, currencies)
  }

  // ----- what it means

  /** What can be read back from a stored matrix. The balance of the currency either is out of bounds, so that it
      cannot be read, or all three tables add up to one total on both sides, and the list to an amount that is no
      larger, and no smaller than half of it: a payment to oneself counts twice in the tables. */
  ghost predicate AddsUp(m: Matrix, code: string, currencies: Currencies)
  {
    SumRows(m.tables.byCurrency, code, currencies).Some? ==>
      exists total: int, amount: int ::
        && 0 <= amount <= total <= 2 * amount
        && SumRows(m.tables.byCurrency, code, currencies) == Some(Sides(total, total))
        && SumRows(m.tables.byStateAndCurrency, code, currencies) == Some(Sides(total, total))
        && SumRows(m.tables.byParticipant, code, currencies) == Some(Sides(total, total))
        && SumBatches(m.batches, code, currencies) == Some(Sides(amount, amount))
  }

  /** A currency whose total is out of bounds has a row that cannot be read. */
  lemma {:induction false} Unreadable(rows: seq<Row>, code: string, i: nat, currencies: Currencies)
    requires i < |rows| && rows[i].key.currencyCode == code
    requires StringToBigint(rows[i].debitBalance, Decimals(currencies, code)).Err?
    ensures SumRows(rows, code, currencies) == None
  {
    hide StringToBigint, Decimals;
    if i > 0 {
      Unreadable(rows[1..], code, i - 1, currencies);
    }
  }

  lemma SomeTotal(facts: Facts, code: string, currencies: Currencies)
    requires CurrencyTotal(facts, code) >= Bound(Decimals(currencies, code))
    ensures ByCurrency(code) in CurrencyKeys(facts)
  {
    if ByCurrency(code) !in CurrencyKeys(facts) {
      assert Debits(facts, ByCurrency(code)) == map[];
      PowPositive(10, MAX_INTEGER_DIGITS + Decimals(currencies, code));
    }
  }

  lemma TooLarge(rows: seq<Row>, facts: Facts, code: string, currencies: Currencies)
    requires RowsShow(rows, TotalsOf(facts, CurrencyKeys(facts)), currencies)
    requires CurrencyTotal(facts, code) >= Bound(Decimals(currencies, code))
    ensures SumRows(rows, code, currencies) == None
  {
    hide StringToBigint, Decimals, Printed, SumRows, Bound, Balance, SidesOf;
    var key := ByCurrency(code);
    SomeTotal(facts, code, currencies);
    assert key in RowKeys(rows);
    var i :| 0 <= i < |rows| && rows[i].key == key;
    assert RowShows(rows[i], TotalsOf(facts, CurrencyKeys(facts)), currencies);
    SameTotal(facts, code);
    ReadBalance(SidesOf(facts, key).debit, Decimals(currencies, code));
    Unreadable(rows, code, i, currencies);
  }

  lemma AtMostTwice(facts: Facts, code: string, currencies: Currencies)
    requires GoodFacts(facts, currencies)
    ensures CurrencyTotal(facts, code) <= 2 * MapSum(AmountsOf(facts, code))
  {
    CountedPositive(facts, currencies);
    hide GoodFacts;
    var amounts, counted := AmountsOf(facts, code), Debits(facts, ByCurrency(code));
    var twice := map x | x in amounts :: 2 * amounts[x];
    Doubled(amounts, twice);
    PointwiseSum(counted, twice);
  }

  lemma {:induction false} Doubled<K>(m: map<K, int>, n: map<K, int>)
    requires m.Keys == n.Keys && forall k :: k in m ==> n[k] == 2 * m[k]
    ensures MapSum(n) == 2 * MapSum(m)
    decreases |m|
  {
    if m == map[] {
      assert n == map[];
    } else {
      var k :| k in m;
      MapSumRemove(m, k);
      MapSumRemove(n, k);
      Doubled(m - {k}, n - {k});
    }
  }

  lemma AmountsNotNegative(facts: Facts, code: string, currencies: Currencies)
    requires GoodFacts(facts, currencies)
    ensures MapSum(AmountsOf(facts, code)) >= 0
  {
    CountedPositive(facts, currencies);
    hide GoodFacts;
    MapSumNonNegative(AmountsOf(facts, code));
  }

  lemma BackedAddsUp(m: Matrix, facts: Facts, batchOf: map<string, string>, code: string, currencies: Currencies)
    requires Backed(m.batches, m.tables, facts, batchOf, currencies)
    ensures AddsUp(m, code, currencies)
  {
    hide RowBacked, GoodFacts, SumRows, SumBatches, CurrencyTotal, Bound, Decimals, AmountsOf, FactsListed,
         DistinctRows, RowsShow, NoSelfTransfer;
    if CurrencyTotal(facts, code) < Bound(Decimals(currencies, code)) {
      BackedSums(m.batches, m.tables, facts, batchOf, code, currencies);
      TotalIsSumOfAmounts(facts, code, currencies);
      AmountsNotNegative(facts, code, currencies);
      AtMostTwice(facts, code, currencies);
    } else {
      TooLarge(m.tables.byCurrency, facts, code, currencies);
    }
  }

  // ----- moving

  /** The rows differ in the shown states only. */
  ghost predicate OnlyStates(a: seq<MatrixBatch>, b: seq<MatrixBatch>)
  {
    |a| == |b| && forall i :: 0 <= i < |a| ==> b[i] == a[i].(state := b[i].state)
  }

  lemma {:induction false} SweepChangesStates(s: Swept, rows: seq<MatrixBatch>, mv: Move, mid: MatrixId)
    requires s.ok
    ensures Sweep(s, rows, mv, mid).ok ==> OnlyStates(s.rows + rows, Sweep(s, rows, mv, mid).rows)
    decreases |rows|
  {
    hide Moved;
    if rows == [] {
      assert s.rows + rows == s.rows;
    } else {
      var u, rest := SweepRow(s, rows[0], mv, mid), rows[1..];
      if u.ok {
        SweepChangesStates(u, rest, mv, mid);
        var t := Sweep(u, rest, mv, mid);
        if t.ok {
          assert OnlyStates(s.rows + rows, u.rows + rest);
          forall i | 0 <= i < |t.rows| ensures t.rows[i] == (s.rows + rows)[i].(state := t.rows[i].state) {
            assert t.rows[i] == (u.rows + rest)[i].(state := t.rows[i].state);
          }
        }
      }
    }
  }

  lemma OnlyStatesBacked(a: seq<MatrixBatch>, b: seq<MatrixBatch>, tb: Tables, facts: Facts,
                         batchOf: map<string, string>, currencies: Currencies)
    requires Backed(a, tb, facts, batchOf, currencies) && OnlyStates(a, b)
    ensures Backed(b, tb, facts, batchOf, currencies)
  {
    hide TablesShow, GoodFacts, AmountsFor, Printed, Decimals;
    forall x | x in facts ensures x in batchOf && HasRow(b, batchOf[x], facts[x].currencyCode) {
      assert HasRow(a, batchOf[x], facts[x].currencyCode);
      var i :| 0 <= i < |a| && a[i].id == batchOf[x] && a[i].currencyCode == facts[x].currencyCode;
      assert b[i].id == a[i].id;
    }
    forall i | 0 <= i < |b| ensures RowBacked(b[i], facts, batchOf, currencies) {
      assert RowBacked(a[i], facts, batchOf, currencies);
    }
  }

  /** The counted batches of a settlement are all awaiting settlement. */
  ghost predicate CountedStay(a: seq<MatrixBatch>, b: seq<MatrixBatch>, facts: Facts, batchOf: map<string, string>)
  {
    forall i, x :: 0 <= i < |a| && x in facts && x in batchOf && batchOf[x] == a[i].id ==> a[i] in b
  }

  lemma FewerRowsBacked(a: seq<MatrixBatch>, b: seq<MatrixBatch>, tb: Tables, facts: Facts,
                        batchOf: map<string, string>, currencies: Currencies)
    requires Backed(a, tb, facts, batchOf, currencies) && DistinctRows(b) && (forall x :: x in b ==> x in a)
    requires CountedStay(a, b, facts, batchOf)
    ensures Backed(b, tb, facts, batchOf, currencies)
  {
    hide TablesShow, GoodFacts, RowBacked;
    forall x | x in facts ensures x in batchOf && HasRow(b, batchOf[x], facts[x].currencyCode) {
      assert HasRow(a, batchOf[x], facts[x].currencyCode);
      var i :| 0 <= i < |a| && a[i].id == batchOf[x] && a[i].currencyCode == facts[x].currencyCode;
      assert a[i] in b;
      var j :| 0 <= j < |b| && b[j] == a[i];
      assert b[j].id == batchOf[x];
    }
    forall i | 0 <= i < |b| ensures RowBacked(b[i], facts, batchOf, currencies) {
      assert b[i] in a;
    }
  }

  lemma SettledStay(k: Books, m: Matrix, rows: seq<MatrixBatch>, currencies: Currencies)
    requires RowsOfBatches(rows, k, m, true, currencies) && DistinctRows(rows)
    ensures CountedStay(rows, DropNotAwaiting(rows, rows), RecalculatedFacts(k, m, true, currencies), BatchOf(k))
  {
    hide SelectedIds, RowTotal, Printed, FactOf;
    DropLeavesAwaiting(rows);
  }

  lemma RowsToMoveBacked(k: Books, m: Matrix, mv: Move, currencies: Currencies)
    requires BooksOk(k, currencies) && Recalculate(k, m, mv.Settle?, currencies).matrix.Some?
    ensures var n := Recalculate(k, m, mv.Settle?, currencies).matrix.value;
            Backed(RowsToMove(n.batches, mv), n.tables, RecalculatedFacts(k, m, mv.Settle?, currencies), BatchOf(k),
                   currencies)
  {
    hide BooksOk, Recalculate, RecalculatedFacts, BatchOf, Backed, RowsOfBatches, RowIds, SelectedIds, DistinctRows,
         CountedStay;
    var n := Recalculate(k, m, mv.Settle?, currencies).matrix.value;
    RecalculatedBacked(k, m, mv.Settle?, currencies);
    if mv.Settle? {
      RecalculatedRows(k, m, true, currencies);
      DropLeavesAwaiting(n.batches);
      SettledStay(k, m, n.batches, currencies);
      FewerRowsBacked(n.batches, DropNotAwaiting(n.batches, n.batches), n.tables,
                      RecalculatedFacts(k, m, true, currencies), BatchOf(k), currencies);
    }
  }

  // ----- steps

  ghost predicate AllBalanced(ms: Repo<MatrixId, Matrix>, currencies: Currencies)
  {
    forall id :: id in ms.docs ==> Balanced(ms.docs[id], currencies)
  }

  lemma PutBalanced(ms: Repo<MatrixId, Matrix>, id: MatrixId, m: Matrix, currencies: Currencies)
    requires AllBalanced(ms, currencies) && Balanced(m, currencies)
    ensures AllBalanced(Put(ms, id, m), currencies)
  {
    hide Balanced;
  }

  lemma OtherState(m: Matrix, st: MatrixState, currencies: Currencies)
    requires Balanced(m, currencies)
    ensures Balanced(m.(state := st), currencies)
  {
    hide Backed;
    var facts: Facts, batchOf: map<string, string> :| Backed(m.batches, m.tables, facts, batchOf, currencies);
    assert Backed(m.(state := st).batches, m.(state := st).tables, facts, batchOf, currencies);
  }

  lemma RecalculatedBalanced(k: Books, m: Matrix, currencies: Currencies)
    requires BooksOk(k, currencies) && Recalculate(k, m, false, currencies).matrix.Some?
    ensures Balanced(Recalculate(k, m, false, currencies).matrix.value, currencies)
  {
    hide BooksOk, Recalculate, Backed, RecalculatedFacts, BatchOf;
    RecalculatedBacked(k, m, false, currencies);
  }

  /** A moving command leaves a matrix whose list and tables still show the same transfers. */
  lemma MovedBalanced(k: Books, m: Matrix, batches: Repo<string, Batch>, mv: Move, currencies: Currencies)
    requires BooksOk(k, currencies) && Recalculate(k, m, mv.Settle?, currencies).matrix.Some?
    ensures var n := Recalculate(k, m, mv.Settle?, currencies).matrix.value;
            var s := Sweep(Swept(batches, [], [], true), RowsToMove(n.batches, mv), mv, n.id);
            s.ok ==> Balanced(n.(batches := s.rows, state := To(mv)), currencies)
  {
    hide BooksOk, Recalculate, Backed, RecalculatedFacts, BatchOf, Sweep, RowsToMove, OnlyStates;
    var n := Recalculate(k, m, mv.Settle?, currencies).matrix.value;
    var todo := RowsToMove(n.batches, mv);
    var s := Sweep(Swept(batches, [], [], true), todo, mv, n.id);
    var facts := RecalculatedFacts(k, m, mv.Settle?, currencies);
    RowsToMoveBacked(k, m, mv, currencies);
    SweepChangesStates(Swept(batches, [], [], true), todo, mv, n.id);
    assert [] + todo == todo;
    if s.ok {
      OnlyStatesBacked(todo, s.rows, n.tables, facts, BatchOf(k), currencies);
      var moved := n.(batches := s.rows, state := To(mv));
      assert Backed(moved.batches, moved.tables, facts, BatchOf(k), currencies);
    }
  }

  lemma MoveBalanced(w: World, id: MatrixId, mv: Move, currencies: Currencies)
    requires WorldOk(w, currencies) && AllBalanced(w.matrices, currencies)
    ensures AllBalanced(MoveMatrix(w, id, mv, currencies).world.matrices, currencies)
  {
    hide BooksOk, SequencesOk, OwnersOk, ValidRepo, EntriesOk, LocksOk, Recalculate, Sweep, RowsToMove, Balanced,
         AllBalanced, Put, CurrenciesKnown, Items;
    if id in w.matrices.docs && w.matrices.docs[id].state == From(mv) {
      var m := w.matrices.docs[id];
      assert Balanced(m, currencies) by { StoredBalanced(w.matrices, id, currencies); }
      OtherState(m, BUSY, currencies);
      PutBalanced(w.matrices, m.id, m.(state := BUSY), currencies);
      var r := Recalculate(w.books, m.(state := BUSY), mv.Settle?, currencies);
      if r.matrix.Some? {
        var n := r.matrix.value;
        var s := Sweep(Swept(r.books.batches, [], [], true), RowsToMove(n.batches, mv), mv, n.id);
        MovedBalanced(w.books, m.(state := BUSY), r.books.batches, mv, currencies);
        if s.ok {
          PutBalanced(Put(w.matrices, m.id, m.(state := BUSY)), n.id, n.(batches := s.rows, state := To(mv)),
                      currencies);
        }
      }
    }
  }

  lemma StoredBalanced(ms: Repo<MatrixId, Matrix>, id: MatrixId, currencies: Currencies)
    requires AllBalanced(ms, currencies) && id in ms.docs
    ensures Balanced(ms.docs[id], currencies)
  {
  }

  lemma NothingPrinted(decimals: nat)
    ensures Printed(0, decimals) == "0"
  {
  }

  /** A new matrix shows no transfers. */
  lemma ZeroBalanced(m: Matrix, currencies: Currencies)
    requires ZeroBalances(m)
    ensures Balanced(m, currencies)
  {
    var none: Facts, batchOf: map<string, string> := map[], map[];
    NothingYet(currencies);
    hide TablesShow, Decimals, Printed;
    forall i | 0 <= i < |m.batches| ensures RowBacked(m.batches[i], none, batchOf, currencies) {
      assert AmountsFor(none, batchOf, m.batches[i].id) == map[];
      NothingPrinted(Decimals(currencies, m.batches[i].currencyCode));
    }
    assert Backed(m.batches, m.tables, none, batchOf, currencies);
  }

  lemma RecalculatingBalanced(w: World, v: World, start: World, stored: Matrix, working: Matrix, currencies: Currencies)
    requires RunsAs(w, v, start, stored, working, currencies) && AllBalanced(w.matrices, currencies)
    ensures AllBalanced(v.matrices, currencies)
  {
    hide BooksOk, SequencesOk, OwnersOk, ValidRepo, EntriesOk, LocksOk, Recalculate, Balanced, AllBalanced, Put,
         ZeroBalances;
    if stored.id in w.matrices.docs {
      StoredBalanced(w.matrices, stored.id, currencies);
    } else {
      ZeroBalanced(stored, currencies);
    }
    OtherState(stored, BUSY, currencies);
    PutBalanced(w.matrices, stored.id, stored.(state := BUSY), currencies);
    var r := Recalculate(start.books, working.(state := BUSY), false, currencies);
    if r.matrix.Some? {
      RecalculatedBalanced(start.books, working.(state := BUSY), currencies);
      OtherState(r.matrix.value, IDLE, currencies);
      PutBalanced(Put(w.matrices, stored.id, stored.(state := BUSY)), r.matrix.value.id, r.matrix.value.(state := IDLE),
                  currencies);
    }
  }

  lemma MarkBalanced(w: World, origin: MatrixId, ids: seq<string>, currencies: Currencies)
    requires WorldOk(w, currencies) && AllBalanced(w.matrices, currencies)
    ensures AllBalanced(MarkOutOfSync(w.matrices, ids, origin), currencies)
  {
    hide BooksOk, SequencesOk, OwnersOk, ValidRepo, EntriesOk, LocksOk, MarkOutOfSync, Includes, RowIds, Balanced;
    MatricesKeyed(w, currencies);
    MarkOutOfSyncExact(w.matrices, ids, origin);
    var r := MarkOutOfSync(w.matrices, ids, origin);
    forall id | id in r.docs ensures Balanced(r.docs[id], currencies) {
      OtherState(w.matrices.docs[id], OUT_OF_SYNC, currencies);
    }
  }

  /** Every step keeps the balance of every stored matrix. */
  lemma StepBalanced(w: World, s: Step, currencies: Currencies)
    requires WorldOk(w, currencies) && CurrenciesOk(currencies) && AllBalanced(w.matrices, currencies)
    ensures AllBalanced(Next(w, s, currencies).matrices, currencies)
  {
    hide WorldOk, MoveMatrix, RecalculateAndStore, MarkOutOfSync, CreateStaticMatrix, CreateDynamicMatrix,
         Commands.RecalculateMatrix, AddBatches, RemoveBatches, Validate, AddTransfer, CurrenciesOk, RunsAs,
         AllBalanced;
    match s
    case Deliver(mark) => MarkBalanced(w, mark.originMatrixId, mark.batchIds, currencies);
    case Handle(c) =>
      if Recalculates(c) {
        var start, stored, working := RecalculatingCommand(w, c, currencies);
        RecalculatingBalanced(w, Next(w, s, currencies), start, stored, working, currencies);
      } else if c.MoveMatrixCmd? {
        MoveBalanced(w, c.matrixId, c.move, currencies);
      } else if c.MarkMatrixOutOfSyncCmd? {
        MarkBalanced(w, c.originMatrixId, c.batchIds, currencies);
      }
  }

  lemma {:induction false} RunBalanced(ws: seq<World>, steps: seq<Step>, currencies: Currencies, i: nat)
    requires IsRun(ws, steps, currencies) && CurrenciesOk(currencies) && i < |ws|
    ensures AllBalanced(ws[i].matrices, currencies)
  {
    hide WorldOk, Next, CurrenciesOk, Balanced;
    if i > 0 {
      RunBalanced(ws, steps, currencies, i - 1);
      RunOk(ws, steps, currencies, i - 1);
      StepBalanced(ws[i - 1], steps[i - 1], currencies);
    }
  }

  /** In every reachable state every stored matrix, whatever its state, adds up in every currency. */
  lemma StoredMatricesAddUp(ws: seq<World>, steps: seq<Step>, currencies: Currencies, i: nat, mid: MatrixId,
                            code: string)
    requires IsRun(ws, steps, currencies) && CurrenciesOk(currencies) && i < |ws| && mid in ws[i].matrices.docs
    ensures AddsUp(ws[i].matrices.docs[mid], code, currencies)
  {
    hide IsRun, CurrenciesOk, AddsUp, Backed;
    RunBalanced(ws, steps, currencies, i);
    var m := ws[i].matrices.docs[mid];
    assert Balanced(m, currencies);
    var facts: Facts, batchOf: map<string, string> :| Backed(m.batches, m.tables, facts, batchOf, currencies);
    BackedAddsUp(m, facts, batchOf, code, currencies);
  }
}
