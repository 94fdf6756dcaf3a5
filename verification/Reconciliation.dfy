/** Adding up a recalculated matrix: its three tables, its list of batches and the transfers it counts, all read
    back from the stored strings. */
module Reconciliation {
  import opened Common
  import opened Sums
  import opened Model
  import opened Converters
  import opened MatrixTables
  import opened Totals
  import opened Conservation
  import opened Repositories
  import opened Ledgers
  import opened Recalculation
  import opened BookKeeping
  import opened Exactness
  import opened Effects

  /** Adds two strings, read as amounts of a currency, to a sum; None where one cannot be read. */
  function ReadBoth(debit: string, credit: string, code: string, rest: Option<Sides>, currencies: Currencies)
    : Option<Sides>
  {
    match (StringToBigint(debit, Decimals(currencies, code)), StringToBigint(credit, Decimals(currencies, code)), rest)
    case (Ok(d), Ok(c), Some(s)) => Some(Sides(d + s.debit, c + s.credit))
    case _ => None
  }

  /** The rows of one currency in a balance table, added up. */
  function SumRows(rows: seq<Row>, code: string, currencies: Currencies): Option<Sides>
  {
    if rows == [] then Some(Sides(0, 0))
    else
      var rest := SumRows(rows[1..], code, currencies);
      if rows[0].key.currencyCode != code then rest
      else ReadBoth(rows[0].debitBalance, rows[0].creditBalance, code, rest, currencies)
  }

  /** The batches of one currency in the list of a matrix, added up. */
  function SumBatches(rows: seq<MatrixBatch>, code: string, currencies: Currencies): Option<Sides>
  {
    if rows == [] then Some(Sides(0, 0))
    else
      var rest := SumBatches(rows[1..], code, currencies);
      if rows[0].currencyCode != code then rest
      else ReadBoth(rows[0].batchDebitBalance, rows[0].batchCreditBalance, code, rest, currencies)
  }

  // ----- the tables

  lemma KeysHead(rows: seq<Row>)
    requires rows != [] && OneRowPerKey(rows)
    ensures RowKeys(rows) == {rows[0].key} + RowKeys(rows[1..]) && rows[0].key !in RowKeys(rows[1..])
            && OneRowPerKey(rows[1..])
  {
    var rest := rows[1..];
    assert forall i :: 0 <= i < |rest| ==> rest[i] == rows[i + 1];
    forall k | k in RowKeys(rest) ensures k in RowKeys(rows) {
      var i :| 0 <= i < |rest| && rest[i].key == k;
      assert rows[i + 1].key == k;
    }
    assert rows[0].key in RowKeys(rows);
  }

  lemma KeysGrow(facts: Facts, keys: set<Key>, key: Key, code: string)
    requires key !in keys
    ensures var n := if key.currencyCode == code then SidesOf(facts, key) else Sides(0, 0);
            && MapSum(DebitsOfRows(facts, {key} + keys, code)) == MapSum(DebitsOfRows(facts, keys, code)) + n.debit
            && MapSum(CreditsOfRows(facts, {key} + keys, code)) == MapSum(CreditsOfRows(facts, keys, code)) + n.credit
  {
    hide SidesOf;
    var d, c := DebitsOfRows(facts, keys, code), CreditsOfRows(facts, keys, code);
    if key.currencyCode == code {
      assert DebitsOfRows(facts, {key} + keys, code) == d[key := SidesOf(facts, key).debit];
      assert CreditsOfRows(facts, {key} + keys, code) == c[key := SidesOf(facts, key).credit];
      MapSumInsert(d, key, SidesOf(facts, key).debit);
      MapSumInsert(c, key, SidesOf(facts, key).credit);
    } else {
      assert DebitsOfRows(facts, {key} + keys, code) == d;
      assert CreditsOfRows(facts, {key} + keys, code) == c;
    }
  }

  lemma NoKeys(facts: Facts, code: string)
    ensures MapSum(DebitsOfRows(facts, {}, code)) == 0 && MapSum(CreditsOfRows(facts, {}, code)) == 0
  {
    assert DebitsOfRows(facts, {}, code) == map[] && CreditsOfRows(facts, {}, code) == map[];
  }

  lemma {:induction false} SumRowsExact(rows: seq<Row>, facts: Facts, code: string, currencies: Currencies)
    requires OneRowPerKey(rows) && RowsReadBackIn(rows, facts, code, currencies)
    ensures SumRows(rows, code, currencies) == Some(Sides(MapSum(DebitsOfRows(facts, RowKeys(rows), code)),
                                                          MapSum(CreditsOfRows(facts, RowKeys(rows), code))))
  {
    hide StringToBigint, SidesOf, DebitsOfRows, CreditsOfRows, Decimals;
    if rows == [] {
      assert RowKeys(rows) == {};
      NoKeys(facts, code);
    } else {
      KeysHead(rows);
      assert rows[0] in rows && forall r :: r in rows[1..] ==> r in rows;
      SumRowsExact(rows[1..], facts, code, currencies);
      KeysGrow(facts, RowKeys(rows[1..]), rows[0].key, code);
    }
  }

  lemma ReadTable(rows: seq<Row>, facts: Facts, keys: set<Key>, code: string, currencies: Currencies)
    requires RowsShow(rows, TotalsOf(facts, keys), currencies) && GoodFacts(facts, currencies)
    requires CurrencyTotal(facts, code) < Bound(Decimals(currencies, code))
    ensures SumRows(rows, code, currencies)
        == Some(Sides(MapSum(DebitsOfRows(facts, keys, code)), MapSum(CreditsOfRows(facts, keys, code))))
  {
    hide GoodFacts, SumRows, RowShows, DebitsOfRows, CreditsOfRows, RowsReadBackIn, SidesOf, CurrencyTotal, Bound,
         Decimals;
    ReadBackIn(rows, facts, keys, code, currencies);
    assert RowKeys(rows) == keys;
    SumRowsExact(rows, facts, code, currencies);
  }

  lemma CurrencyRow(facts: Facts, code: string)
    ensures MapSum(DebitsOfRows(facts, CurrencyKeys(facts), code)) == SidesOf(facts, ByCurrency(code)).debit
    ensures MapSum(CreditsOfRows(facts, CurrencyKeys(facts), code)) == SidesOf(facts, ByCurrency(code)).credit
  {
    hide SidesOf;
    var key := ByCurrency(code);
    var d, c := DebitsOfRows(facts, CurrencyKeys(facts), code), CreditsOfRows(facts, CurrencyKeys(facts), code);
    var none: map<Key, int> := map[];
    if key in CurrencyKeys(facts) {
      assert d == none[key := SidesOf(facts, key).debit];
      assert c == none[key := SidesOf(facts, key).credit];
      MapSumInsert(none, key, SidesOf(facts, key).debit);
      MapSumInsert(none, key, SidesOf(facts, key).credit);
    } else {
      assert d == none && c == none;
      Untouched(facts, key);
    }
  }

  lemma ReadTables(tb: Tables, facts: Facts, code: string, currencies: Currencies)
    requires TablesShow(tb, facts, currencies) && GoodFacts(facts, currencies)
    requires CurrencyTotal(facts, code) < Bound(Decimals(currencies, code))
    ensures var total := CurrencyTotal(facts, code);
            && SumRows(tb.byParticipant, code, currencies) == Some(Sides(total, total))
            && SumRows(tb.byCurrency, code, currencies) == Some(Sides(total, total))
            && SumRows(tb.byStateAndCurrency, code, currencies) == Some(Sides(total, total))
  {
    ReadTable(tb.byParticipant, facts, ParticipantKeys(facts), code, currencies);
    ReadTable(tb.byCurrency, facts, CurrencyKeys(facts), code, currencies);
    ReadTable(tb.byStateAndCurrency, facts, StateKeys(facts), code, currencies);
    hide RowsShow, GoodFacts, SumRows, ParticipantKeys, StateKeys;
    TablesConserve(facts, code);
    CurrencyRow(facts, code);
  }

  // ----- tables and a list of the same transfers

  /** The amounts of the facts of one batch. */
  function AmountsFor(facts: Facts, batchOf: map<string, string>, id: string): map<string, int>
  {
    map x | x in facts && x in batchOf && batchOf[x] == id :: facts[x].amount
  }

  /** The row shows the sum of its facts on both sides. */
  ghost predicate RowBacked(row: MatrixBatch, facts: Facts, batchOf: map<string, string>, currencies: Currencies)
  {
    var shown := Printed(MapSum(AmountsFor(facts, batchOf, row.id)), Decimals(currencies, row.currencyCode));
    row.batchDebitBalance == shown && row.batchCreditBalance == shown
  }

  /** Every fact belongs to a listed batch of its currency. */
  ghost predicate FactsListed(rows: seq<MatrixBatch>, facts: Facts, batchOf: map<string, string>)
  {
    forall x :: x in facts ==> x in batchOf && HasRow(rows, batchOf[x], facts[x].currencyCode)
  }

  ghost predicate HasRow(rows: seq<MatrixBatch>, id: string, code: string)
  {
    exists i :: 0 <= i < |rows| && rows[i].id == id && rows[i].currencyCode == code
  }

  /** Tables and list show the same transfers. */
  ghost predicate Backed(rows: seq<MatrixBatch>, tb: Tables, facts: Facts, batchOf: map<string, string>,
                         currencies: Currencies)
  {
    && TablesShow(tb, facts, currencies) && GoodFacts(facts, currencies) && DistinctRows(rows)
    && FactsListed(rows, facts, batchOf)
    && forall i :: 0 <= i < |rows| ==> RowBacked(rows[i], facts, batchOf, currencies)
  }

  // ----- the list of batches

  /** This amount can be printed and read back. */
  ghost predicate Readback(v: int, decimals: nat)
  {
    Balance(v, decimals) && v < Bound(decimals)
  }

  lemma ReadTotal(v: int, code: string, rest: Option<Sides>, currencies: Currencies)
    requires Readback(v, Decimals(currencies, code)) && rest.Some?
    ensures var s := Printed(v, Decimals(currencies, code));
            ReadBoth(s, s, code, rest, currencies) == Some(Sides(v + rest.value.debit, v + rest.value.credit))
  {
    hide Printed, StringToBigint, Decimals, Balance;
    ReadBalance(v, Decimals(currencies, code));
  }

  /** Some of the amounts of a currency add up to a number that can be printed and read back. */
  lemma SomeAmounts(facts: Facts, part: map<string, int>, code: string, currencies: Currencies)
    requires GoodFacts(facts, currencies) && CurrencyTotal(facts, code) < Bound(Decimals(currencies, code))
    requires forall x :: x in part ==> x in AmountsOf(facts, code) && AmountsOf(facts, code)[x] == part[x]
    ensures Readback(MapSum(part), Decimals(currencies, code))
  {
    hide Decimals, Bound, CurrencyTotal, Unit;
    var d, amounts := Decimals(currencies, code), AmountsOf(facts, code);
    ZeroBalance(d);
    TotalIsSumOfAmounts(facts, code, currencies);
    forall x | x in amounts ensures 0 < amounts[x] && amounts[x] % Unit(d) == 0 {
      assert GoodFact(facts[x], currencies);
    }
    hide AmountsOf, GoodFacts;
    MapSumSubset(part, amounts);
    MapSumNonNegative(part);
    MapSumDivisible(part, Unit(d));
  }

  function RowIdsIn(rows: seq<MatrixBatch>, code: string): set<string>
  {
    set i | 0 <= i < |rows| && rows[i].currencyCode == code :: rows[i].id
  }

  ghost function TotalsIn(ids: set<string>, facts: Facts, batchOf: map<string, string>): map<string, int>
  {
    map id | id in ids :: MapSum(AmountsFor(facts, batchOf, id))
  }

  /** The amounts of a listed batch of this currency are among the amounts of the currency. */
  ghost predicate AmountsIn(ids: set<string>, facts: Facts, batchOf: map<string, string>, code: string)
  {
    forall id, x :: id in ids && x in AmountsFor(facts, batchOf, id) ==> facts[x].currencyCode == code
  }

  lemma FirstBacked(rows: seq<MatrixBatch>, facts: Facts, batchOf: map<string, string>, currencies: Currencies)
    requires rows != [] && DistinctRows(rows) && forall i :: 0 <= i < |rows| ==>
               RowBacked(rows[i], facts, batchOf, currencies)
    ensures DistinctRows(rows[1..]) && RowBacked(rows[0], facts, batchOf, currencies)
    ensures forall i :: 0 <= i < |rows[1..]| ==> RowBacked(rows[1..][i], facts, batchOf, currencies)
    ensures RowIdsIn(rows, rows[0].currencyCode) == {rows[0].id} + RowIdsIn(rows[1..], rows[0].currencyCode)
    ensures forall code :: code != rows[0].currencyCode ==> RowIdsIn(rows, code) == RowIdsIn(rows[1..], code)
    ensures rows[0].id !in RowIdsIn(rows[1..], rows[0].currencyCode)
  {
    hide RowBacked;
    var rest := rows[1..];
    assert forall i :: 0 <= i < |rest| ==> rest[i] == rows[i + 1];
    forall code, id ensures id in RowIdsIn(rows, code) <==>
                              (id == rows[0].id && code == rows[0].currencyCode) || id in RowIdsIn(rest, code)
    {
      if id in RowIdsIn(rest, code) {
        var i :| 0 <= i < |rest| && rest[i].id == id && rest[i].currencyCode == code;
        assert rows[i + 1].id == id;
      }
      if id == rows[0].id && code == rows[0].currencyCode {
        assert rows[0].id == id;
      }
    }
  }

  lemma RowIsPrinted(row: MatrixBatch, facts: Facts, batchOf: map<string, string>, currencies: Currencies)
    requires RowBacked(row, facts, batchOf, currencies)
    ensures var shown := Printed(MapSum(AmountsFor(facts, batchOf, row.id)), Decimals(currencies, row.currencyCode));
            row.batchDebitBalance == shown && row.batchCreditBalance == shown
  {
  }

  lemma NothingListed(rows: seq<MatrixBatch>, facts: Facts, batchOf: map<string, string>, code: string)
    requires rows == []
    ensures MapSum(TotalsIn(RowIdsIn(rows, code), facts, batchOf)) == 0
  {
    assert TotalsIn(RowIdsIn(rows, code), facts, batchOf) == map[];
  }

  lemma FewerAmounts(rows: seq<MatrixBatch>, facts: Facts, batchOf: map<string, string>, code: string)
    requires rows != [] && AmountsIn(RowIdsIn(rows, code), facts, batchOf, code)
    ensures AmountsIn(RowIdsIn(rows[1..], code), facts, batchOf, code)
  {
    hide AmountsFor;
    var rest := rows[1..];
    forall id | id in RowIdsIn(rest, code) ensures id in RowIdsIn(rows, code) {
      var i :| 0 <= i < |rest| && rest[i].currencyCode == code && rest[i].id == id;
      assert rows[i + 1].id == id;
    }
  }

  lemma OneRowRead(row: MatrixBatch, facts: Facts, batchOf: map<string, string>, ids: set<string>, code: string,
                   currencies: Currencies)
    requires AmountsIn(ids, facts, batchOf, code) && row.id in ids
    requires GoodFacts(facts, currencies) && CurrencyTotal(facts, code) < Bound(Decimals(currencies, code))
    ensures Readback(MapSum(AmountsFor(facts, batchOf, row.id)), Decimals(currencies, code))
  {
    hide GoodFacts, CurrencyTotal, Bound, Decimals, Readback;
    SomeAmounts(facts, AmountsFor(facts, batchOf, row.id), code, currencies);
  }

  lemma OneMoreTotal(ids: set<string>, id: string, facts: Facts, batchOf: map<string, string>)
    requires id !in ids
    ensures MapSum(TotalsIn({id} + ids, facts, batchOf))
            == MapSum(TotalsIn(ids, facts, batchOf)) + MapSum(AmountsFor(facts, batchOf, id))
  {
    hide AmountsFor;
    var t := TotalsIn(ids, facts, batchOf);
    assert TotalsIn({id} + ids, facts, batchOf) == t[id := MapSum(AmountsFor(facts, batchOf, id))];
    MapSumInsert(t, id, MapSum(AmountsFor(facts, batchOf, id)));
  }

  lemma {:induction false} SumBacked(rows: seq<MatrixBatch>, facts: Facts, batchOf: map<string, string>, code: string,
                                     currencies: Currencies)
    requires DistinctRows(rows) && forall i :: 0 <= i < |rows| ==> RowBacked(rows[i], facts, batchOf, currencies)
    requires GoodFacts(facts, currencies) && CurrencyTotal(facts, code) < Bound(Decimals(currencies, code))
    requires AmountsIn(RowIdsIn(rows, code), facts, batchOf, code)
    ensures var total := MapSum(TotalsIn(RowIdsIn(rows, code), facts, batchOf));
            SumBatches(rows, code, currencies) == Some(Sides(total, total))
  {
    hide StringToBigint, Decimals, RowBacked, ReadBoth, Printed, Readback, RowIdsIn, DistinctRows, TotalsIn, GoodFacts,
         CurrencyTotal, Bound, AmountsIn;
    if rows == [] {
      NothingListed(rows, facts, batchOf, code);
    } else {
      var row, rest := rows[0], rows[1..];
      FirstBacked(rows, facts, batchOf, currencies);
      FewerAmounts(rows, facts, batchOf, code);
      SumBacked(rest, facts, batchOf, code, currencies);
      if row.currencyCode == code {
        var total := MapSum(AmountsFor(facts, batchOf, row.id));
        OneRowRead(row, facts, batchOf, RowIdsIn(rows, code), code, currencies);
        ReadTotal(total, code, SumBatches(rest, code, currencies), currencies);
        OneMoreTotal(RowIdsIn(rest, code), row.id, facts, batchOf);
        RowIsPrinted(row, facts, batchOf, currencies);
      }
    }
  }

  /** The facts of a listed batch have its currency. */
  lemma OneCurrency(rows: seq<MatrixBatch>, facts: Facts, batchOf: map<string, string>)
    requires DistinctRows(rows) && FactsListed(rows, facts, batchOf)
    ensures forall x, i :: x in facts && x in batchOf && 0 <= i < |rows| && rows[i].id == batchOf[x] ==>
              facts[x].currencyCode == rows[i].currencyCode
  {
    forall x, i | x in facts && x in batchOf && 0 <= i < |rows| && rows[i].id == batchOf[x]
      ensures facts[x].currencyCode == rows[i].currencyCode
    {
      assert HasRow(rows, batchOf[x], facts[x].currencyCode);
      var j :| 0 <= j < |rows| && rows[j].id == batchOf[x] && rows[j].currencyCode == facts[x].currencyCode;
      assert i == j;
    }
  }

  /** The listed totals of a currency are the amounts of the currency. */
  lemma ListedIsAmounts(rows: seq<MatrixBatch>, facts: Facts, batchOf: map<string, string>, code: string)
    requires DistinctRows(rows) && FactsListed(rows, facts, batchOf)
    ensures AmountsIn(RowIdsIn(rows, code), facts, batchOf, code)
    ensures MapSum(TotalsIn(RowIdsIn(rows, code), facts, batchOf)) == MapSum(AmountsOf(facts, code))
  {
    var ids, amounts := RowIdsIn(rows, code), AmountsOf(facts, code);
    OneCurrency(rows, facts, batchOf);
    forall id | id in ids ensures AmountsFor(facts, batchOf, id) == Fibre(amounts, batchOf, id) {
      var i :| 0 <= i < |rows| && rows[i].currencyCode == code && rows[i].id == id;
    }
    hide AmountsFor, DistinctRows;
    assert GroupSums(amounts, batchOf, ids) == TotalsIn(ids, facts, batchOf);
    forall x | x in amounts ensures x in batchOf && batchOf[x] in ids {
      assert HasRow(rows, batchOf[x], code);
    }
    GroupSumsTotal(amounts, batchOf, ids);
  }

  /** What tables and list add up to in a currency whose total is in bounds. */
  lemma BackedSums(rows: seq<MatrixBatch>, tb: Tables, facts: Facts, batchOf: map<string, string>, code: string,
                   currencies: Currencies)
    requires Backed(rows, tb, facts, batchOf, currencies)
    requires CurrencyTotal(facts, code) < Bound(Decimals(currencies, code))
    ensures var total, amount := CurrencyTotal(facts, code), MapSum(AmountsOf(facts, code));
            && SumRows(tb.byCurrency, code, currencies) == Some(Sides(total, total))
            && SumRows(tb.byStateAndCurrency, code, currencies) == Some(Sides(total, total))
            && SumRows(tb.byParticipant, code, currencies) == Some(Sides(total, total))
            && SumBatches(rows, code, currencies) == Some(Sides(amount, amount))
  {
    hide RowBacked, GoodFacts, SumRows, SumBatches, CurrencyTotal, Bound, Decimals, AmountsOf, RowIdsIn, TotalsIn,
         FactsListed, DistinctRows, RowsShow;
    ReadTables(tb, facts, code, currencies);
    ListedIsAmounts(rows, facts, batchOf, code);
    SumBacked(rows, facts, batchOf, code, currencies);
  }

  // ----- a recalculation

  function BatchOf(k: Books): map<string, string>
  {
    map x | x in k.transfers.docs :: k.transfers.docs[x].batchId
  }

  ghost predicate RowsOfBatches(rows: seq<MatrixBatch>, k: Books, m: Matrix, settling: bool, currencies: Currencies)
  {
    && (forall i, j :: 0 <= i < j < |rows| ==> rows[i].id != rows[j].id)
    && forall i :: 0 <= i < |rows| ==>
         rows[i].id in k.batches.docs && k.batches.docs[rows[i].id].id == rows[i].id
         && rows[i] == RowOf(k, k.batches.docs[rows[i].id], m.id, settling, currencies)
  }

  lemma ListedFacts(k: Books, m: Matrix, settling: bool, rows: seq<MatrixBatch>, currencies: Currencies)
    requires RowIds(rows) == SelectedIds(k.batches.docs, m) && RowsOfBatches(rows, k, m, settling, currencies)
    ensures FactsListed(rows, RecalculatedFacts(k, m, settling, currencies), BatchOf(k))
  {
    hide SelectedIds, RowTotal, Included, Amount, Booked, Printed;
    var facts := RecalculatedFacts(k, m, settling, currencies);
    forall x | x in facts ensures x in BatchOf(k) && HasRow(rows, BatchOf(k)[x], facts[x].currencyCode) {
      var id := k.transfers.docs[x].batchId;
      assert id in RowIds(rows);
      var i :| 0 <= i < |rows| && rows[i].id == id;
      assert rows[i].currencyCode == facts[x].currencyCode;
    }
  }

  /** The amounts of a selected batch add up to the total in its row. */
  lemma AmountsAreTotal(k: Books, m: Matrix, settling: bool, id: string, currencies: Currencies)
    requires id in SelectedIds(k.batches.docs, m) && id in k.batches.docs && k.batches.docs[id].id == id
    ensures MapSum(AmountsFor(RecalculatedFacts(k, m, settling, currencies), BatchOf(k), id))
            == RowTotal(k, k.batches.docs[id], m.id, settling, currencies)
  {
    hide SelectedIds, Amount, Booked;
    var amounts := AmountsFor(RecalculatedFacts(k, m, settling, currencies), BatchOf(k), id);
    if Included(k.batches.docs[id], m.id, settling) {
      assert amounts == AmountsInBatch(k, id, currencies);
    } else {
      assert amounts == map[];
    }
  }

  lemma RowsBacked(k: Books, m: Matrix, settling: bool, rows: seq<MatrixBatch>, currencies: Currencies)
    requires RowIds(rows) == SelectedIds(k.batches.docs, m) && RowsOfBatches(rows, k, m, settling, currencies)
    ensures forall i :: 0 <= i < |rows| ==>
              RowBacked(rows[i], RecalculatedFacts(k, m, settling, currencies), BatchOf(k), currencies)
  {
    hide SelectedIds, RowTotal, Included, RecalculatedFacts, BatchOf, AmountsFor, Printed, Decimals;
    forall i | 0 <= i < |rows|
      ensures RowBacked(rows[i], RecalculatedFacts(k, m, settling, currencies), BatchOf(k), currencies)
    {
      assert rows[i].id in RowIds(rows);
      AmountsAreTotal(k, m, settling, rows[i].id, currencies);
    }
  }

  lemma RecalculatedRows(k: Books, m: Matrix, settling: bool, currencies: Currencies)
    requires BooksOk(k, currencies) && Recalculate(k, m, settling, currencies).matrix.Some?
    ensures var rows := Recalculate(k, m, settling, currencies).matrix.value.batches;
            DistinctRows(rows) && RowIds(rows) == SelectedIds(k.batches.docs, m)
            && RowsOfBatches(rows, k, m, settling, currencies)
  {
    hide BooksOk, Recalculate, SelectedIds, RowOf, TablesShow, RecalculatedFacts, SameCore, BatchJournalled, RowIds;
    RecalculateKeeps(k, m, settling, currencies);
    RecalculateExact(k, m, settling, currencies);
    BooksKeyed(k, currencies);
  }

  lemma FactsGood(k: Books, m: Matrix, settling: bool, currencies: Currencies)
    requires BooksOk(k, currencies)
    ensures GoodFacts(RecalculatedFacts(k, m, settling, currencies), currencies)
  {
    hide BooksOk, CountedIds, CountedFacts;
    CountedGood(k, CountedIds(k, m, settling), settling, currencies);
  }

  /** A recalculation that completes leaves tables and a list of the same transfers. */
  lemma RecalculatedBacked(k: Books, m: Matrix, settling: bool, currencies: Currencies)
    requires BooksOk(k, currencies) && Recalculate(k, m, settling, currencies).matrix.Some?
    ensures var n := Recalculate(k, m, settling, currencies).matrix.value;
            Backed(n.batches, n.tables, RecalculatedFacts(k, m, settling, currencies), BatchOf(k), currencies)
  {
    hide BooksOk, Recalculate, SelectedIds, RowOf, TablesShow, CountedFacts, RowIds, DistinctRows, RowsOfBatches,
         FactsListed, RowBacked, GoodFacts, BatchOf;
    var rows := Recalculate(k, m, settling, currencies).matrix.value.batches;
    RecalculatedRows(k, m, settling, currencies);
    RecalculateExact(k, m, settling, currencies);
    FactsGood(k, m, settling, currencies);
    ListedFacts(k, m, settling, rows, currencies);
    RowsBacked(k, m, settling, rows, currencies);
  }

  lemma BoundIn(facts: Facts, code: string, currencies: Currencies)
    requires AllInBound(facts, currencies)
    ensures CurrencyTotal(facts, code) < Bound(Decimals(currencies, code))
  {
  }

  lemma TablesKeyed(tb: Tables, facts: Facts, currencies: Currencies)
    requires TablesShow(tb, facts, currencies)
    ensures OneRowPerKey(tb.byCurrency) && OneRowPerKey(tb.byStateAndCurrency) && OneRowPerKey(tb.byParticipant)
  {
  }

  /** Conservation through a recalculation. When every currency total has at most 18 integer digits, it completes,
      and what can be read back from the stored strings adds up: per currency, the debits and the credits of each
      of the three tables are one number, the batches listed add up to the amounts of the counted transfers, and
      both numbers are equal exactly when nobody of that currency pays themselves. */
  lemma RecalculationConserves(k: Books, m: Matrix, settling: bool, code: string, currencies: Currencies)
    requires BooksOk(k, currencies) && AllInBound(RecalculatedFacts(k, m, settling, currencies), currencies)
    ensures var r, facts := Recalculate(k, m, settling, currencies), RecalculatedFacts(k, m, settling, currencies);
            && r.matrix.Some?
            && var tb, total := r.matrix.value.tables, CurrencyTotal(facts, code);
               var amount := MapSum(AmountsOf(facts, code));
               && SumRows(tb.byCurrency, code, currencies) == Some(Sides(total, total))
               && SumRows(tb.byStateAndCurrency, code, currencies) == Some(Sides(total, total))
               && SumRows(tb.byParticipant, code, currencies) == Some(Sides(total, total))
               && OneRowPerKey(tb.byCurrency) && OneRowPerKey(tb.byStateAndCurrency) && OneRowPerKey(tb.byParticipant)
               && SumBatches(r.matrix.value.batches, code, currencies) == Some(Sides(amount, amount))
               && (total == amount <==> NoSelfTransfer(facts, code))
  {
    hide BooksOk, Recalculate, RecalculatedFacts, AllInBound, GoodFacts, SumRows, SumBatches, CurrencyTotal, AmountsOf,
         NoSelfTransfer, BatchOf, NobodyPaysThemselves, TablesShow, RowOf, SelectedIds, Bound, Decimals, RowBacked,
         FactsListed, DistinctRows;
    var r, facts := Recalculate(k, m, settling, currencies), RecalculatedFacts(k, m, settling, currencies);
    RecalculateExact(k, m, settling, currencies);
    RecalculatedBacked(k, m, settling, currencies);
    BoundIn(facts, code, currencies);
    BackedSums(r.matrix.value.batches, r.matrix.value.tables, facts, BatchOf(k), code, currencies);
    TotalIsSumOfAmounts(facts, code, currencies);
    TablesKeyed(r.matrix.value.tables, facts, currencies);
  }
}
