/** Adding any list of transfers to the balance tables, in any order. */
module Accumulation {
  import opened Common
  import opened Sums
  import opened Model
  import opened Converters
  import opened MatrixTables
  import opened Totals
  import opened Conservation
  import opened Exactness

  /** One call of `addBalance`. */
  datatype Booking = Booking(transfer: Transfer, currencyCode: string, booked: BatchState)

  function AddBalances(tb: Tables, bookings: seq<Booking>, currencies: Currencies): Option<Tables>
    decreases |bookings|
  {
    if bookings == [] then Some(tb)
    else
      var b := bookings[0];
      match AddBalance(tb, b.transfer, b.currencyCode, Decimals(currencies, b.currencyCode), b.booked)
      case None => None
      case Some(more) => AddBalances(more, bookings[1..], currencies)
  }

  function BookedFact(b: Booking, currencies: Currencies): Fact
  {
    var amount := match StringToBigint(b.transfer.amount, Decimals(currencies, b.currencyCode))
                  case Ok(v) => v
                  case Err(_) => 0;
    Fact(b.transfer.payerFspId, b.transfer.payeeFspId, b.currencyCode, b.booked, amount)
  }

  /** The facts of a list of bookings. */
  function FactsOf(seen: Facts, bookings: seq<Booking>, currencies: Currencies): Facts
    decreases |bookings|
  {
    if bookings == [] then seen
    else
      var x, f := bookings[0].transfer.transferId, BookedFact(bookings[0], currencies);
      FactsOf(seen[x := f], bookings[1..], currencies)
  }

  /** Transfers with distinct new ids and positive amounts that can be read. */
  ghost predicate Bookable(seen: Facts, bookings: seq<Booking>, currencies: Currencies)
  {
    && (forall i, j :: 0 <= i < j < |bookings| ==> bookings[i].transfer.transferId != bookings[j].transfer.transferId)
    && (forall i :: 0 <= i < |bookings| ==>
            bookings[i].transfer.transferId !in seen && BookedFact(bookings[i], currencies).amount > 0)
  }

  lemma BookableTail(seen: Facts, bookings: seq<Booking>, currencies: Currencies)
    requires Bookable(seen, bookings, currencies) && bookings != []
    ensures var b := bookings[0];
            && b.transfer.transferId !in seen
            && Bookable(seen[b.transfer.transferId := BookedFact(b, currencies)], bookings[1..], currencies)
            && GoodFact(BookedFact(b, currencies), currencies)
            && StringToBigint(b.transfer.amount, Decimals(currencies, b.currencyCode))
               == Ok(BookedFact(b, currencies).amount)
  {
    hide StringToBigint, Readable;
    var b, rest := bookings[0], bookings[1..];
    ReadPositive(b.transfer.amount, Decimals(currencies, b.currencyCode));
    assert forall i :: 0 <= i < |rest| ==> rest[i] == bookings[i + 1];
  }

  ghost predicate Has(bookings: seq<Booking>, x: string)
  {
    exists i :: 0 <= i < |bookings| && bookings[i].transfer.transferId == x
  }

  lemma HasTail(bookings: seq<Booking>, x: string)
    requires bookings != []
    ensures Has(bookings, x) <==> x == bookings[0].transfer.transferId || Has(bookings[1..], x)
  {
    var rest := bookings[1..];
    if Has(bookings, x) {
      var i :| 0 <= i < |bookings| && bookings[i].transfer.transferId == x;
      assert i > 0 ==> rest[i - 1].transfer.transferId == x;
    }
    if Has(rest, x) {
      var i :| 0 <= i < |rest| && rest[i].transfer.transferId == x;
      assert bookings[i + 1].transfer.transferId == x;
    }
  }

  lemma {:induction false} FactsOfKeys(seen: Facts, bookings: seq<Booking>, currencies: Currencies, x: string)
    ensures x in FactsOf(seen, bookings, currencies) <==> x in seen || Has(bookings, x)
    decreases |bookings|
  {
    hide BookedFact, Has;
    if bookings != [] {
      FactsOfKeys(seen[bookings[0].transfer.transferId := BookedFact(bookings[0], currencies)], bookings[1..],
                  currencies, x);
      HasTail(bookings, x);
    } else {
      assert !Has(bookings, x) by { HasNothing(x); }
    }
  }

  lemma HasNothing(x: string)
    ensures !Has([], x)
  {
  }

  lemma {:induction false} FactsOfHold(seen: Facts, bookings: seq<Booking>, currencies: Currencies)
    requires Bookable(seen, bookings, currencies) && GoodFacts(seen, currencies)
    ensures Within(seen, FactsOf(seen, bookings, currencies))
            && GoodFacts(FactsOf(seen, bookings, currencies), currencies)
    ensures forall i :: 0 <= i < |bookings| ==>
              var all := FactsOf(seen, bookings, currencies);
              bookings[i].transfer.transferId in all
                  && all[bookings[i].transfer.transferId] == BookedFact(bookings[i], currencies)
    decreases |bookings|
  {
    hide BookedFact, GoodFact, GoodFacts, Bookable;
    if bookings != [] {
      var b, rest := bookings[0], bookings[1..];
      var more := seen[b.transfer.transferId := BookedFact(b, currencies)];
      BookableTail(seen, bookings, currencies);
      GoodFactsWith(seen, b.transfer.transferId, BookedFact(b, currencies), currencies);
      FactsOfHold(more, rest, currencies);
      assert more[b.transfer.transferId] == BookedFact(b, currencies);
      assert forall i :: 0 < i < |bookings| ==> bookings[i] == rest[i - 1];
    }
  }

  /** At each turn the total of the currency so far and the amount stay below 10^(18 + decimals). */
  ghost predicate EachFits(seen: Facts, bookings: seq<Booking>, currencies: Currencies)
    decreases |bookings|
  {
    bookings == [] ||
    var x, f := bookings[0].transfer.transferId, BookedFact(bookings[0], currencies);
    && CurrencyTotal(seen, f.currencyCode) + f.amount < Bound(Decimals(currencies, f.currencyCode))
    && EachFits(seen[x := f], bookings[1..], currencies)
  }

  /** Folding `addBalance` over any list of readable positive transfers: it throws nowhere exactly when each turn
      fits, and then the tables hold exactly the integer sums. Each turn fits when all currency totals have at most
      18 integer digits in the end and, nobody paying themselves, only then. */
  lemma {:induction false} AccumulationExact(tb: Tables, seen: Facts, bookings: seq<Booking>, currencies: Currencies)
    requires TablesShow(tb, seen, currencies) && GoodFacts(seen, currencies) && Bookable(seen, bookings, currencies)
    ensures var r, all := AddBalances(tb, bookings, currencies), FactsOf(seen, bookings, currencies);
            && (r.Some? <==> EachFits(seen, bookings, currencies))
            && (r.Some? ==> TablesShow(r.value, all, currencies))
            && (AllInBound(all, currencies) ==> r.Some?)
            && (r.Some? && AllInBound(seen, currencies) && NobodyPaysThemselves(all) ==> AllInBound(all, currencies))
    decreases |bookings|
  {
    hide TablesShow, GoodFacts, GoodFact, AllInBound, CurrencyTotal, Bound, BookedFact, Decimals, NobodyPaysThemselves,
         StringToBigint, Bookable, AddAmount, Within;
    if bookings != [] {
      var b := bookings[0];
      var x, f := b.transfer.transferId, BookedFact(b, currencies);
      var more, all := seen[x := f], FactsOf(seen, bookings, currencies);
      BookableTail(seen, bookings, currencies);
      GoodFactsWith(seen, x, f, currencies);
      FactsOfHold(more, bookings[1..], currencies);
      FactParts(b, currencies);
      AddAmountExact(tb, seen, x, f, currencies);
      FirstTurn(seen, x, f, all, currencies);
      var one := AddAmount(tb, f.payer, f.payee, f.amount, f.currencyCode, Decimals(currencies, f.currencyCode),
                           f.booked);
      assert one == AddBalance(tb, b.transfer, b.currencyCode, Decimals(currencies, b.currencyCode), b.booked);
      if one.Some? {
        AccumulationExact(one.value, more, bookings[1..], currencies);
      }
    }
  }

  lemma FactParts(b: Booking, currencies: Currencies)
    ensures var f := BookedFact(b, currencies);
            f.payer == b.transfer.payerFspId && f.payee == b.transfer.payeeFspId && f.currencyCode == b.currencyCode
                && f.booked == b.booked
  {
  }

  /** The order does not matter: any two lists of the same bookings give the same tables. */
  lemma OrderDoesNotMatter(a: seq<Booking>, b: seq<Booking>, currencies: Currencies)
    requires multiset(a) == multiset(b) && Bookable(map[], a, currencies) && Bookable(map[], b, currencies)
    requires AddBalances(NoBalances, a, currencies).Some? && AddBalances(NoBalances, b, currencies).Some?
    ensures SameTables(AddBalances(NoBalances, a, currencies).value, AddBalances(NoBalances, b, currencies).value)
  {
    hide TablesShow, AddBalances, FactsOf, SameTables;
    NothingYet(currencies);
    AccumulationExact(NoBalances, map[], a, currencies);
    AccumulationExact(NoBalances, map[], b, currencies);
    SameFactsAnyOrder(a, b, currencies);
    TablesDependOnFactsOnly(AddBalances(NoBalances, a, currencies).value, AddBalances(NoBalances, b, currencies).value,
                            FactsOf(map[], a, currencies), currencies);
  }

  lemma NothingYet(currencies: Currencies)
    ensures TablesShow(NoBalances, map[], currencies)
  {
    var none: Facts := map[];
    assert ParticipantKeys(none) == {} && CurrencyKeys(none) == {} && StateKeys(none) == {};
  }

  lemma SameFactsAnyOrder(a: seq<Booking>, b: seq<Booking>, currencies: Currencies)
    requires multiset(a) == multiset(b) && Bookable(map[], a, currencies) && Bookable(map[], b, currencies)
    ensures FactsOf(map[], a, currencies) == FactsOf(map[], b, currencies)
  {
    hide FactsOf, BookedFact;
    FactsOfHold(map[], a, currencies);
    FactsOfHold(map[], b, currencies);
    var x, y := FactsOf(map[], a, currencies), FactsOf(map[], b, currencies);
    forall k ensures (k in x <==> Has(a, k)) && (k in y <==> Has(b, k)) {
      FactsOfKeys(map[], a, currencies, k);
      FactsOfKeys(map[], b, currencies, k);
    }
    FactsAmong(a, b, x, y, currencies);
    FactsAmong(b, a, y, x, currencies);
    assert x == y;
  }

  lemma FactsAmong(a: seq<Booking>, b: seq<Booking>, x: Facts, y: Facts, currencies: Currencies)
    requires multiset(a) == multiset(b)
    requires forall k :: k in x ==> Has(a, k)
    requires forall i :: 0 <= i < |a| ==>
            a[i].transfer.transferId in x && x[a[i].transfer.transferId] == BookedFact(a[i], currencies)
    requires forall i :: 0 <= i < |b| ==>
            b[i].transfer.transferId in y && y[b[i].transfer.transferId] == BookedFact(b[i], currencies)
    ensures forall k :: k in x ==> k in y && y[k] == x[k]
  {
    hide BookedFact;
    forall k | k in x ensures k in y && y[k] == x[k] {
      var i :| 0 <= i < |a| && a[i].transfer.transferId == k;
      assert a[i] in multiset(b);
      var j :| 0 <= j < |b| && b[j] == a[i];
    }
  }
}
