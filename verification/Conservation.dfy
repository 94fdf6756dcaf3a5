/** Consequences of what the tables mean: conservation between them, order independence, reading them back. */
module Conservation {
  import opened Common
  import opened Sums
  import opened Model
  import opened Converters
  import opened MatrixTables
  import opened Totals

  ghost function DebitsOfRows(facts: Facts, keys: set<Key>, code: string): map<Key, int>
  {
    map k | k in keys && k.currencyCode == code :: SidesOf(facts, k).debit
  }

  ghost function CreditsOfRows(facts: Facts, keys: set<Key>, code: string): map<Key, int>
  {
    map k | k in keys && k.currencyCode == code :: SidesOf(facts, k).credit
  }

  function OfCurrency(keys: set<Key>, code: string): set<Key>
  {
    set k | k in keys && k.currencyCode == code
  }

  /** Any grouping of the facts of a currency into keys sums up to the total of the currency. */
  lemma GroupedDebits(facts: Facts, keys: set<Key>, group: map<string, Key>, code: string)
    requires forall x :: x in facts ==> x in group && group[x] in keys
    requires forall x, k :: x in facts && k in keys ==> (DebitTouches(k, facts[x]) <==> k == group[x])
    requires forall x :: x in facts ==> group[x].currencyCode == facts[x].currencyCode
    ensures MapSum(DebitsOfRows(facts, keys, code)) == CurrencyTotal(facts, code)
  {
    hide Counted;
    var m, groups := Debits(facts, ByCurrency(code)), OfCurrency(keys, code);
    forall k | k in groups ensures Fibre(m, group, k) == Debits(facts, k) {}
    assert GroupSums(m, group, groups) == DebitsOfRows(facts, keys, code);
    GroupSumsTotal(m, group, groups);
  }

  lemma GroupedCredits(facts: Facts, keys: set<Key>, group: map<string, Key>, code: string)
    requires forall x :: x in facts ==> x in group && group[x] in keys
    requires forall x, k :: x in facts && k in keys ==> (CreditTouches(k, facts[x]) <==> k == group[x])
    requires forall x :: x in facts ==> group[x].currencyCode == facts[x].currencyCode
    ensures MapSum(CreditsOfRows(facts, keys, code)) == CurrencyTotal(facts, code)
  {
    hide Counted;
    var m, groups := Credits(facts, ByCurrency(code)), OfCurrency(keys, code);
    assert m == Debits(facts, ByCurrency(code));
    forall k | k in groups ensures Fibre(m, group, k) == Credits(facts, k) {}
    assert GroupSums(m, group, groups) == CreditsOfRows(facts, keys, code);
    GroupSumsTotal(m, group, groups);
  }

  /** Per currency: the debits of the currency row, of all state rows and of all participant rows are one
      number, and so are the credits. */
  lemma TablesConserve(facts: Facts, code: string)
    ensures MapSum(DebitsOfRows(facts, StateKeys(facts), code)) == CurrencyTotal(facts, code)
    ensures MapSum(CreditsOfRows(facts, StateKeys(facts), code)) == CurrencyTotal(facts, code)
    ensures MapSum(DebitsOfRows(facts, ParticipantKeys(facts), code)) == CurrencyTotal(facts, code)
    ensures MapSum(CreditsOfRows(facts, ParticipantKeys(facts), code)) == CurrencyTotal(facts, code)
    ensures SidesOf(facts, ByCurrency(code)) == Sides(CurrencyTotal(facts, code), CurrencyTotal(facts, code))
  {
    hide Counted;
    assert Debits(facts, ByCurrency(code)) == Credits(facts, ByCurrency(code));
    OnlyParticipants(facts);
    var states := map x | x in facts :: ByState(facts[x].booked, facts[x].currencyCode);
    var payers := map x | x in facts :: ByParticipant(facts[x].payer, facts[x].booked, facts[x].currencyCode);
    var payees := map x | x in facts :: ByParticipant(facts[x].payee, facts[x].booked, facts[x].currencyCode);
    GroupedDebits(facts, StateKeys(facts), states, code);
    GroupedCredits(facts, StateKeys(facts), states, code);
    GroupedDebits(facts, ParticipantKeys(facts), payers, code);
    GroupedCredits(facts, ParticipantKeys(facts), payees, code);
  }

  function AmountsOf(facts: Facts, code: string): map<string, int>
  {
    map x | x in facts && facts[x].currencyCode == code :: facts[x].amount
  }

  ghost predicate NoSelfTransfer(facts: Facts, code: string)
  {
    forall x :: x in facts && facts[x].currencyCode == code ==> facts[x].payer != facts[x].payee
  }

  /** The currency total is the sum of the amounts exactly when nobody of that currency pays themselves. */
  lemma TotalIsSumOfAmounts(facts: Facts, code: string, currencies: Currencies)
    requires GoodFacts(facts, currencies)
    ensures CurrencyTotal(facts, code) == MapSum(AmountsOf(facts, code)) <==> NoSelfTransfer(facts, code)
    ensures CurrencyTotal(facts, code) >= MapSum(AmountsOf(facts, code))
  {
    CountedPositive(facts, currencies);
    hide GoodFacts;
    var counted, amounts := Debits(facts, ByCurrency(code)), AmountsOf(facts, code);
    PointwiseSum(amounts, counted);
    if NoSelfTransfer(facts, code) {
      assert counted == amounts;
    } else {
      var x :| x in facts && facts[x].currencyCode == code && facts[x].payer == facts[x].payee;
      MapSumRemove(amounts, x);
      MapSumRemove(counted, x);
      PointwiseSum(amounts - {x}, counted - {x});
    }
  }

  lemma {:induction false} PointwiseSum<K>(m: map<K, int>, n: map<K, int>)
    requires m.Keys == n.Keys && forall k :: k in m ==> m[k] <= n[k]
    ensures MapSum(m) <= MapSum(n)
    decreases |m|
  {
    if m == map[] {
      assert n == map[];
    } else {
      var k :| k in m;
      MapSumRemove(m, k);
      MapSumRemove(n, k);
      PointwiseSum(m - {k}, n - {k});
    }
  }

  /** The tables as sets of rows depend only on the facts, not on the order they were added in. */
  lemma TablesDependOnFactsOnly(a: Tables, b: Tables, facts: Facts, currencies: Currencies)
    requires TablesShow(a, facts, currencies) && TablesShow(b, facts, currencies)
    ensures SameTables(a, b)
  {
    hide TotalsOf, ParticipantKeys, CurrencyKeys, StateKeys;
    SameRowsShown(a.byParticipant, b.byParticipant, TotalsOf(facts, ParticipantKeys(facts)), currencies);
    SameRowsShown(a.byCurrency, b.byCurrency, TotalsOf(facts, CurrencyKeys(facts)), currencies);
    SameRowsShown(a.byStateAndCurrency, b.byStateAndCurrency, TotalsOf(facts, StateKeys(facts)), currencies);
  }

  ghost predicate SameTables(a: Tables, b: Tables)
  {
    && |a.byParticipant| == |b.byParticipant| && (forall r :: r in a.byParticipant <==> r in b.byParticipant)
    && |a.byCurrency| == |b.byCurrency| && (forall r :: r in a.byCurrency <==> r in b.byCurrency)
    && |a.byStateAndCurrency| == |b.byStateAndCurrency|
    && (forall r :: r in a.byStateAndCurrency <==> r in b.byStateAndCurrency)
  }

  lemma RowsIncluded(a: seq<Row>, b: seq<Row>, totals: map<Key, Sides>, currencies: Currencies)
    requires RowsShow(a, totals, currencies) && RowsShow(b, totals, currencies)
    ensures forall r :: r in a ==> r in b
  {
    forall r | r in a ensures r in b {
      var i :| 0 <= i < |a| && a[i] == r;
      assert RowShows(a[i], totals, currencies);
      assert r.key in RowKeys(b);
      var j :| 0 <= j < |b| && b[j].key == r.key;
      assert RowShows(b[j], totals, currencies);
    }
  }

  lemma {:induction false} RowCount(rows: seq<Row>)
    requires OneRowPerKey(rows)
    ensures |RowKeys(rows)| == |rows|
  {
    if rows == [] {
      assert RowKeys(rows) == {};
    } else {
      var n := |rows| - 1;
      assert rows == rows[..n] + [rows[n]];
      RowCount(rows[..n]);
      AppendRow(rows[..n], rows[n]);
    }
  }

  lemma SameRowsShown(a: seq<Row>, b: seq<Row>, totals: map<Key, Sides>, currencies: Currencies)
    requires RowsShow(a, totals, currencies) && RowsShow(b, totals, currencies)
    ensures |a| == |b| && forall r :: r in a <==> r in b
  {
    RowsIncluded(a, b, totals, currencies);
    RowsIncluded(b, a, totals, currencies);
    RowCount(a);
    RowCount(b);
  }

  /** Every row of every table can be read back, and holds the sums over the facts it stands for. */
  ghost predicate RowsReadBack(rows: seq<Row>, facts: Facts, currencies: Currencies)
  {
    forall r :: r in rows ==>
      var d := Decimals(currencies, r.key.currencyCode);
      && StringToBigint(r.debitBalance, d) == Ok(SidesOf(facts, r.key).debit)
      && StringToBigint(r.creditBalance, d) == Ok(SidesOf(facts, r.key).credit)
  }

  /** The same for the rows of one currency, whose total is in bounds. */
  ghost predicate RowsReadBackIn(rows: seq<Row>, facts: Facts, code: string, currencies: Currencies)
  {
    forall r :: r in rows && r.key.currencyCode == code ==>
      var d := Decimals(currencies, code);
      && StringToBigint(r.debitBalance, d) == Ok(SidesOf(facts, r.key).debit)
      && StringToBigint(r.creditBalance, d) == Ok(SidesOf(facts, r.key).credit)
  }

  lemma ReadBackIn(rows: seq<Row>, facts: Facts, keys: set<Key>, code: string, currencies: Currencies)
    requires RowsShow(rows, TotalsOf(facts, keys), currencies) && GoodFacts(facts, currencies)
    requires CurrencyTotal(facts, code) < Bound(Decimals(currencies, code))
    ensures RowsReadBackIn(rows, facts, code, currencies)
  {
    hide Printed, StringToBigint, Balance, Bound, Decimals, SidesOf, GoodFacts, CurrencyTotal;
    forall r | r in rows && r.key.currencyCode == code
      ensures var d := Decimals(currencies, code);
              && StringToBigint(r.debitBalance, d) == Ok(SidesOf(facts, r.key).debit)
              && StringToBigint(r.creditBalance, d) == Ok(SidesOf(facts, r.key).credit)
    {
      var i :| 0 <= i < |rows| && rows[i] == r;
      assert RowShows(rows[i], TotalsOf(facts, keys), currencies);
      CurrencyDominates(facts, r.key, currencies);
      ReadBalance(SidesOf(facts, r.key).debit, Decimals(currencies, code));
      ReadBalance(SidesOf(facts, r.key).credit, Decimals(currencies, code));
    }
  }

  lemma ReadBack(rows: seq<Row>, facts: Facts, keys: set<Key>, currencies: Currencies)
    requires RowsShow(rows, TotalsOf(facts, keys), currencies) && GoodFacts(facts, currencies)
    requires forall code :: CurrencyTotal(facts, code) < Bound(Decimals(currencies, code))
    ensures RowsReadBack(rows, facts, currencies)
  {
    hide Printed, StringToBigint, Balance, Bound, Decimals, SidesOf, GoodFacts, CurrencyTotal;
    forall r | r in rows
      ensures var d := Decimals(currencies, r.key.currencyCode);
              && StringToBigint(r.debitBalance, d) == Ok(SidesOf(facts, r.key).debit)
              && StringToBigint(r.creditBalance, d) == Ok(SidesOf(facts, r.key).credit)
    {
      var i :| 0 <= i < |rows| && rows[i] == r;
      assert RowShows(rows[i], TotalsOf(facts, keys), currencies);
      CurrencyDominates(facts, r.key, currencies);
      ReadBalance(SidesOf(facts, r.key).debit, Decimals(currencies, r.key.currencyCode));
      ReadBalance(SidesOf(facts, r.key).credit, Decimals(currencies, r.key.currencyCode));
    }
  }
}
