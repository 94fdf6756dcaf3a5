/** packages/domain-lib/src/types/matrix.ts: the three balance tables and `addBalance`. */
module MatrixTables {
  import opened Common
  import opened Sums
  import opened Model
  import opened Converters

  /** Index of the first row with this key (`find`). */
  function FindRow(rows: seq<Row>, key: Key): (r: Option<nat>)
    ensures r.Some? ==> r.value < |rows| && rows[r.value].key == key
    ensures r.None? ==> forall i :: 0 <= i < |rows| ==> rows[i].key != key
  {
    if rows == [] then None
    else if rows[0].key == key then Some(0)
    else
      var rest := FindRow(rows[1..], key);
      assert forall i :: 0 < i < |rows| ==> rows[i] == rows[1..][i - 1];
      if rest.Some? then Some(rest.value + 1) else None
  }

  /** Adds to the row with this key, or appends one; fails when a stored balance cannot be read. */
  function AddToRows(rows: seq<Row>, key: Key, debit: int, credit: int, decimals: nat): Option<seq<Row>>
  {
    match FindRow(rows, key)
    case None => Some(rows + [Row(key, Printed(debit, decimals), Printed(credit, decimals))])
    case Some(i) =>
      var d, c := StringToBigint(rows[i].debitBalance, decimals), StringToBigint(rows[i].creditBalance, decimals);
      if d.Err? || c.Err? then None
      else Some(rows[i := Row(key, Printed(d.value + debit, decimals), Printed(c.value + credit, decimals))])
  }

  /** The rows keep their places: the one with the key is changed where it is, or a new one comes last. */
  lemma RowsKeepPlaces(rows: seq<Row>, key: Key, debit: int, credit: int, decimals: nat)
    ensures AddToRows(rows, key, debit, credit, decimals).Some? ==>
              var more := AddToRows(rows, key, debit, credit, decimals).value;
              && (forall i :: 0 <= i < |rows| ==> i < |more| && more[i].key == rows[i].key)
              && (forall i :: 0 <= i < |rows| && rows[i].key != key ==> more[i] == rows[i])
              && if exists i :: 0 <= i < |rows| && rows[i].key == key then |more| == |rows|
                 else |more| == |rows| + 1 && more[|rows|].key == key
  {
    hide Printed, StringToBigint;
  }

  /** One turn of the loop over payer and payee. */
  function AddSides(tb: Tables, participant: string, debit: int, credit: int,
                    currencyCode: string, decimals: nat, state: BatchState): Option<Tables>
  {
    match AddToRows(tb.byParticipant, ByParticipant(participant, state, currencyCode), debit, credit, decimals)
    case None => None
    case Some(p) =>
      match AddToRows(tb.byCurrency, ByCurrency(currencyCode), debit, credit, decimals)
      case None => None
      case Some(c) =>
        match AddToRows(tb.byStateAndCurrency, ByState(state, currencyCode), debit, credit, decimals)
        case None => None
        case Some(s) => Some(Tables(p, c, s))
  }

  function AddAmount(tb: Tables, payer: string, payee: string, amount: int,
                     currencyCode: string, decimals: nat, state: BatchState): Option<Tables>
  {
    match AddSides(tb, payer, amount, if payer == payee then amount else 0, currencyCode, decimals, state)
    case None => None
    case Some(tb1) => AddSides(tb1, payee, if payee == payer then amount else 0, amount, currencyCode, decimals, state)
  }

  /** What `addBalance` makes of the tables; None where it throws. */
  function AddBalance(tb: Tables, t: Transfer, currencyCode: string, decimals: nat, state: BatchState): Option<Tables>
  {
    match StringToBigint(t.amount, decimals)
    case Err(_) => None
    case Ok(amount) => AddAmount(tb, t.payerFspId, t.payeeFspId, amount, currencyCode, decimals, state)
  }

  // ----- the same tables over integers

  datatype Sides = Sides(debit: int, credit: int)

  function At(totals: map<Key, Sides>, key: Key): Sides
  {
    if key in totals then totals[key] else Sides(0, 0)
  }

  function Plus(totals: map<Key, Sides>, key: Key, debit: int, credit: int): map<Key, Sides>
  {
    totals[key := Sides(At(totals, key).debit + debit, At(totals, key).credit + credit)]
  }

  function Decimals(currencies: Currencies, code: string): nat
  {
    if code in currencies then currencies[code] else 0
  }

  /** A balance that a table can hold: what is printed for it can be read until it grows too large. */
  ghost predicate Balance(v: int, decimals: nat)
  {
    0 <= v && Unit(decimals) > 0 && v % Unit(decimals) == 0
  }

  ghost predicate RowShows(row: Row, totals: map<Key, Sides>, currencies: Currencies)
  {
    var d := Decimals(currencies, row.key.currencyCode);
    && row.key in totals
    && Balance(totals[row.key].debit, d) && row.debitBalance == Printed(totals[row.key].debit, d)
    && Balance(totals[row.key].credit, d) && row.creditBalance == Printed(totals[row.key].credit, d)
  }

  function RowKeys(rows: seq<Row>): set<Key>
  {
    set i | 0 <= i < |rows| :: rows[i].key
  }

  ghost predicate OneRowPerKey(rows: seq<Row>)
  {
    forall i, j :: 0 <= i < j < |rows| ==> rows[i].key != rows[j].key
  }

  /** The rows hold exactly these totals, each key once. */
  ghost predicate RowsShow(rows: seq<Row>, totals: map<Key, Sides>, currencies: Currencies)
  {
    && OneRowPerKey(rows)
    && RowKeys(rows) == totals.Keys
    && forall i :: 0 <= i < |rows| ==> RowShows(rows[i], totals, currencies)
  }

  predicate InBound(s: Sides, decimals: nat)
  {
    s.debit < Bound(decimals) && s.credit < Bound(decimals)
  }

  lemma ReadBalance(v: int, decimals: nat)
    requires Balance(v, decimals)
    ensures v < Bound(decimals) ==> StringToBigint(Printed(v, decimals), decimals) == Ok(v)
    ensures v >= Bound(decimals) ==> StringToBigint(Printed(v, decimals), decimals).Err?
  {
    PrintThenRead(v, decimals);
  }

  lemma BalancePlus(v: int, w: int, decimals: nat)
    requires Balance(v, decimals) && Balance(w, decimals)
    ensures Balance(v + w, decimals)
  {
    DivisibleSum(v, w, Unit(decimals));
  }

  lemma ZeroBalance(decimals: nat)
    ensures Balance(0, decimals)
  {
    ReadZero(decimals);
  }

  lemma AppendRow(rows: seq<Row>, row: Row)
    ensures RowKeys(rows + [row]) == RowKeys(rows) + {row.key}
  {
    var more := rows + [row];
    forall k | k in RowKeys(rows) + {row.key} ensures k in RowKeys(more) {
      if k == row.key {
        assert more[|rows|].key == k;
      } else {
        var i :| 0 <= i < |rows| && rows[i].key == k;
        assert more[i].key == k;
      }
    }
  }

  lemma ReplaceRow(rows: seq<Row>, i: nat, row: Row)
    requires i < |rows| && rows[i].key == row.key
    ensures RowKeys(rows[i := row]) == RowKeys(rows)
  {
    var more := rows[i := row];
    forall k | k in RowKeys(rows) ensures k in RowKeys(more) {
      var j :| 0 <= j < |rows| && rows[j].key == k;
      assert more[j].key == k;
    }
  }

  lemma AppendShows(rows: seq<Row>, totals: map<Key, Sides>, row: Row, after: map<Key, Sides>, currencies: Currencies)
    requires RowsShow(rows, totals, currencies) && row.key !in totals
    requires after == totals[row.key := At(after, row.key)] && RowShows(row, after, currencies)
    ensures RowsShow(rows + [row], after, currencies)
  {
    hide Printed, Balance, Decimals;
    AppendRow(rows, row);
    forall i | 0 <= i < |rows| ensures rows[i].key != row.key && RowShows(rows[i], after, currencies) {
      assert rows[i].key in RowKeys(rows);
      assert RowShows(rows[i], totals, currencies);
    }
  }

  lemma ReplaceShows(rows: seq<Row>, i: nat, totals: map<Key, Sides>, row: Row, after: map<Key, Sides>,
                     currencies: Currencies)
    requires RowsShow(rows, totals, currencies) && i < |rows| && rows[i].key == row.key
    requires after == totals[row.key := At(after, row.key)] && RowShows(row, after, currencies)
    ensures RowsShow(rows[i := row], after, currencies)
  {
    hide Printed, Balance, Decimals;
    ReplaceRow(rows, i, row);
    forall j | 0 <= j < |rows| && j != i ensures RowShows(rows[j], after, currencies) {
      assert RowShows(rows[j], totals, currencies);
    }
  }

  /** Adding to the rows is adding to the totals, and fails exactly when the old balance is out of bounds. */
  lemma AddToRowsShows(rows: seq<Row>, totals: map<Key, Sides>, key: Key, debit: int, credit: int,
                       currencies: Currencies)
    requires RowsShow(rows, totals, currencies)
    requires Balance(debit, Decimals(currencies, key.currencyCode))
             && Balance(credit, Decimals(currencies, key.currencyCode))
    ensures var d := Decimals(currencies, key.currencyCode);
            var r := AddToRows(rows, key, debit, credit, d);
            && (r.Some? <==> (key in totals ==> InBound(totals[key], d)))
            && (r.Some? ==> RowsShow(r.value, Plus(totals, key, debit, credit), currencies))
  {
    hide StringToBigint, Printed, Balance, Bound, Unit, Decimals, FindRow;
    var d := Decimals(currencies, key.currencyCode);
    var after := Plus(totals, key, debit, credit);
    match FindRow(rows, key)
    case None =>
      assert key !in RowKeys(rows);
      AppendShows(rows, totals, Row(key, Printed(debit, d), Printed(credit, d)), after, currencies);
    case Some(i) =>
      assert RowShows(rows[i], totals, currencies);
      var prior := totals[key];
      ReadBalance(prior.debit, d);
      ReadBalance(prior.credit, d);
      if InBound(prior, d) {
        BalancePlus(prior.debit, debit, d);
        BalancePlus(prior.credit, credit, d);
        ReplaceShows(rows, i, totals, Row(key, Printed(prior.debit + debit, d), Printed(prior.credit + credit, d)),
            after, currencies);
      }
  }
}
