/** What a completed recalculation computes: its tables and totals are the sums over the transfers of the
    batches it counts. */
module Exactness {
  import opened Common
  import opened Sums
  import opened Model
  import opened Digits
  import opened Converters
  import opened MatrixTables
  import opened Totals
  import opened Conservation
  import opened Repositories
  import opened Ledgers
  import opened Recalculation
  import opened BookKeeping

  function FactOf(b: Batch, t: Transfer, settling: bool, currencies: Currencies): Fact
  {
    Fact(t.payerFspId, t.payeeFspId, b.currencyCode, Booked(b, settling), Amount(t, currencies))
  }

  lemma ReadPositive(s: string, decimals: nat)
    ensures StringToBigint(s, decimals).Ok? && StringToBigint(s, decimals).value > 0 ==>
              Readable(StringToBigint(s, decimals).value, decimals)
  {
    if StringToBigint(s, decimals).Ok? && StringToBigint(s, decimals).value > 0 {
      assert s[0] != '-';
      ReadThenPrint(s, decimals);
    }
  }

  /** A stored transfer is a fact with a positive amount the tables can hold. */
  lemma StoredFactGood(k: Books, b: Batch, t: Transfer, settling: bool, currencies: Currencies)
    requires BooksOk(k, currencies) && Pending(k, t, b)
    requires b.id in k.batches.docs && SameBatch(k.batches.docs[b.id], b)
    ensures GoodFact(FactOf(b, t, settling, currencies), currencies)
    ensures StringToBigint(t.amount, Decimals(currencies, b.currencyCode)) == Ok(Amount(t, currencies))
  {
    PendingOk(k, b, t, currencies);
    ReadPositive(t.amount, Decimals(currencies, b.currencyCode));
  }

  /** One turn of the loop adds the fact of the transfer, unless its batch is not counted. */
  lemma TallyTransferExact(w: Tally, t: Transfer, facts: Facts, mid: MatrixId, settling: bool, currencies: Currencies)
    requires TallyOk(w, currencies) && w.ok && Pending(w.books, t, w.batch)
    requires TablesShow(w.tables, facts, currencies) && GoodFacts(facts, currencies) && t.transferId !in facts
    ensures var v := TallyTransfer(w, t, mid, settling, currencies);
            var f := FactOf(w.batch, t, settling, currencies);
            && (!Included(w.batch, mid, settling) ==>
                    v.ok && v.tables == w.tables && v.debit == w.debit && v.credit == w.credit)
            && (Included(w.batch, mid, settling) ==>
                  && GoodFact(f, currencies)
                  && (v.ok <==>
                      CurrencyTotal(facts, f.currencyCode) + f.amount < Bound(Decimals(currencies, f.currencyCode)))
                  && (v.ok ==> TablesShow(v.tables, facts[t.transferId := f], currencies)
                               && v.debit == w.debit + f.amount && v.credit == w.credit + f.amount))
  {
    hide JournalIfNeeded, BooksOk, TablesShow, GoodFacts, GoodFact, CurrencyTotal, Bound, AddAmount, StringToBigint,
         SameCore, AccountsOk, Decimals;
    JournalIfNeededOk(w, t, currencies);
    StoredFactGood(w.books, w.batch, t, settling, currencies);
    AddAmountExact(w.tables, facts, t.transferId, FactOf(w.batch, t, settling, currencies), currencies);
  }

  function SeenAll(seen: Facts, ts: seq<Transfer>, b: Batch, settling: bool, currencies: Currencies): Facts
    decreases |ts|
  {
    if ts == [] then seen
    else SeenAll(seen[ts[0].transferId := FactOf(b, ts[0], settling, currencies)], ts[1..], b, settling, currencies)
  }

  ghost predicate NoneSeen(facts: Facts, ts: seq<Transfer>)
  {
    forall i :: 0 <= i < |ts| ==> ts[i].transferId !in facts
  }

  ghost predicate AllInBound(facts: Facts, currencies: Currencies)
  {
    forall code :: CurrencyTotal(facts, code) < Bound(Decimals(currencies, code))
  }

  ghost predicate NobodyPaysThemselves(facts: Facts)
  {
    forall x :: x in facts ==> facts[x].payer != facts[x].payee
  }

  ghost predicate Within(a: Facts, b: Facts)
  {
    forall x :: x in a ==> x in b && b[x] == a[x]
  }

  lemma {:induction false} SeenAllWithin(seen: Facts, ts: seq<Transfer>, b: Batch, settling: bool,
                                         currencies: Currencies)
    requires NoneSeen(seen, ts) && forall i, j :: 0 <= i < j < |ts| ==> ts[i].transferId != ts[j].transferId
    ensures Within(seen, SeenAll(seen, ts, b, settling, currencies))
    ensures forall i :: 0 <= i < |ts| ==>
              var all := SeenAll(seen, ts, b, settling, currencies);
              ts[i].transferId in all && all[ts[i].transferId] == FactOf(b, ts[i], settling, currencies)
    ensures forall x :: x in SeenAll(seen, ts, b, settling, currencies) ==> x in seen || Lists(ts, x)
    decreases |ts|
  {
    hide FactOf;
    if ts != [] {
      var x, rest := ts[0].transferId, ts[1..];
      var more := seen[x := FactOf(b, ts[0], settling, currencies)];
      assert forall i :: 0 <= i < |rest| ==> rest[i] == ts[i + 1];
      SeenAllWithin(more, rest, b, settling, currencies);
      assert more[x] == FactOf(b, ts[0], settling, currencies);
      forall y | y in SeenAll(seen, ts, b, settling, currencies) ensures y in seen || Lists(ts, y) {
        if y == x {
          assert ts[0].transferId == y;
        } else if y !in seen {
          var i :| 0 <= i < |rest| && rest[i].transferId == y;
          assert ts[i + 1].transferId == y;
        }
      }
    }
  }

  /** Fewer facts, smaller totals. */
  lemma TotalsMonotone(a: Facts, b: Facts, currencies: Currencies)
    requires Within(a, b) && GoodFacts(b, currencies)
    ensures forall code :: CurrencyTotal(a, code) <= CurrencyTotal(b, code)
  {
    CountedPositive(b, currencies);
    hide Counted, GoodFacts;
    forall code ensures CurrencyTotal(a, code) <= CurrencyTotal(b, code) {
      MapSumSubset(Debits(a, ByCurrency(code)), Debits(b, ByCurrency(code)));
    }
  }

  /** Adding a fact to the total of its currency. */
  lemma TotalWith(facts: Facts, x: string, f: Fact, code: string)
    requires x !in facts
    ensures CurrencyTotal(facts[x := f], code)
            == CurrencyTotal(facts, code) + (if code == f.currencyCode then Counted(f) else 0)
  {
    OneMore(facts, x, f, ByCurrency(code));
  }

  /** The conditions under which adding one fact and staying in bounds go together. */
  lemma BoundStep(facts: Facts, x: string, f: Fact, currencies: Currencies)
    requires x !in facts && GoodFact(f, currencies)
    ensures AllInBound(facts[x := f], currencies) ==>
              CurrencyTotal(facts, f.currencyCode) + f.amount < Bound(Decimals(currencies, f.currencyCode))
    ensures AllInBound(facts, currencies) && f.payer != f.payee
            && CurrencyTotal(facts, f.currencyCode) + f.amount < Bound(Decimals(currencies, f.currencyCode)) ==>
              AllInBound(facts[x := f], currencies)
  {
    hide CurrencyTotal, Bound, Decimals, Readable;
    forall code ensures CurrencyTotal(facts[x := f], code)
                        == CurrencyTotal(facts, code) + (if code == f.currencyCode then Counted(f) else 0)
    {
      TotalWith(facts, x, f, code);
    }
  }

  lemma GoodFactsWith(facts: Facts, x: string, f: Fact, currencies: Currencies)
    requires GoodFacts(facts, currencies) && GoodFact(f, currencies)
    ensures GoodFacts(facts[x := f], currencies)
  {
  }

  /** All facts gathered from stored transfers are good ones. */
  lemma {:induction false} SeenAllGood(k: Books, ts: seq<Transfer>, facts: Facts, b: Batch, settling: bool,
      currencies: Currencies)
    requires BooksOk(k, currencies) && b.id in k.batches.docs && SameBatch(k.batches.docs[b.id], b)
    requires GoodFacts(facts, currencies) && forall i :: 0 <= i < |ts| ==> Pending(k, ts[i], b)
    ensures GoodFacts(SeenAll(facts, ts, b, settling, currencies), currencies)
    decreases |ts|
  {
    hide BooksOk, FactOf, GoodFact;
    if ts != [] {
      var f, rest := FactOf(b, ts[0], settling, currencies), ts[1..];
      assert Pending(k, ts[0], b);
      StoredFactGood(k, b, ts[0], settling, currencies);
      GoodFactsWith(facts, ts[0].transferId, f, currencies);
      assert forall i :: 0 <= i < |rest| ==> rest[i] == ts[i + 1];
      SeenAllGood(k, rest, facts[ts[0].transferId := f], b, settling, currencies);
    }
  }

  function ListAmount(ts: seq<Transfer>, currencies: Currencies): int
  {
    if ts == [] then 0 else Amount(ts[0], currencies) + ListAmount(ts[1..], currencies)
  }

  /** The first fact decides whether the loop gets past its first turn. */
  lemma FirstTurn(facts: Facts, x: string, f: Fact, all: Facts, currencies: Currencies)
    requires x !in facts && GoodFact(f, currencies) && GoodFacts(all, currencies) && Within(facts[x := f], all)
    ensures AllInBound(all, currencies) ==>
              CurrencyTotal(facts, f.currencyCode) + f.amount < Bound(Decimals(currencies, f.currencyCode))
    ensures AllInBound(facts, currencies) && NobodyPaysThemselves(all) ==>
              (CurrencyTotal(facts, f.currencyCode) + f.amount < Bound(Decimals(currencies, f.currencyCode)) ==>
                 AllInBound(facts[x := f], currencies))
  {
    hide CurrencyTotal, Bound, Decimals, GoodFacts, GoodFact;
    BoundStep(facts, x, f, currencies);
    TotalsMonotone(facts[x := f], all, currencies);
    if NobodyPaysThemselves(all) {
      assert facts[x := f][x] == f && all[x] == f;
    }
  }

  /** The loop over the transfers of a counted batch: the tables gain exactly their facts. It completes when all
      currency totals stay in bounds, and, nobody paying themselves, only then. */
  lemma {:induction false} TallyTransfersExact(w: Tally, ts: seq<Transfer>, facts: Facts, mid: MatrixId, settling: bool,
      currencies: Currencies)
    requires TallyOk(w, currencies) && w.ok && AllPending(w.books, ts, w.batch) && Included(w.batch, mid, settling)
    requires TablesShow(w.tables, facts, currencies) && GoodFacts(facts, currencies) && NoneSeen(facts, ts)
    ensures var v := TallyTransfers(w, ts, mid, settling, currencies);
            var all := SeenAll(facts, ts, w.batch, settling, currencies);
            && (v.ok ==> TablesShow(v.tables, all, currencies) && v.debit == w.debit + ListAmount(ts, currencies)
                         && v.credit == w.credit + ListAmount(ts, currencies))
            && (AllInBound(all, currencies) ==> v.ok)
            && (v.ok && AllInBound(facts, currencies) && NobodyPaysThemselves(all) ==> AllInBound(all, currencies))
    decreases |ts|
  {
    if ts != [] {
      var t, rest := ts[0], ts[1..];
      var f := FactOf(w.batch, t, settling, currencies);
      var u := TallyTransfer(w, t, mid, settling, currencies);
      var more := facts[t.transferId := f];
      TurnKeeps(w, ts, facts, mid, settling, currencies);
      hide TallyTransfer, TallyOk, TablesShow, GoodFacts, GoodFact, AllInBound, CurrencyTotal, Bound, NoneSeen,
           AllPending, SameCore, FactOf, Decimals, NobodyPaysThemselves, Amount, Included;
      FirstTurn(facts, t.transferId, f, SeenAll(facts, ts, w.batch, settling, currencies), currencies);
      if u.ok {
        TallyTransfersExact(u, rest, more, mid, settling, currencies);
        SameFacts(more, rest, w.batch, u.batch, settling, currencies);
      }
    }
  }

  /** What one turn hands over to the rest of the loop. */
  lemma TurnKeeps(w: Tally, ts: seq<Transfer>, facts: Facts, mid: MatrixId, settling: bool, currencies: Currencies)
    requires TallyOk(w, currencies) && w.ok && AllPending(w.books, ts, w.batch) && Included(w.batch, mid, settling)
             && ts != []
    requires TablesShow(w.tables, facts, currencies) && GoodFacts(facts, currencies) && NoneSeen(facts, ts)
    ensures var t, f := ts[0], FactOf(w.batch, ts[0], settling, currencies);
            var u, more := TallyTransfer(w, t, mid, settling, currencies), facts[t.transferId := f];
            && TallyOk(u, currencies) && SameBatch(w.batch, u.batch) && Included(u.batch, mid, settling)
            && AllPending(u.books, ts[1..], u.batch) && NoneSeen(more, ts[1..]) && GoodFacts(more, currencies)
                && GoodFact(f, currencies)
            && t.transferId !in facts && f.amount == Amount(t, currencies)
            && GoodFacts(SeenAll(facts, ts, w.batch, settling, currencies), currencies)
            && Within(more, SeenAll(facts, ts, w.batch, settling, currencies))
            && (u.ok <==> CurrencyTotal(facts, f.currencyCode) + f.amount < Bound(Decimals(currencies, f.currencyCode)))
            && (u.ok ==> TablesShow(u.tables, more, currencies) && u.debit == w.debit + f.amount
                         && u.credit == w.credit + f.amount)
  {
    TurnPending(w, ts, facts, settling, currencies);
    hide TallyTransfer, TallyOk, BooksOk, TablesShow, GoodFacts, GoodFact, CurrencyTotal, Bound, Decimals, SameCore,
         Amount, SeenAll, Within, AllPending, NoneSeen, Pending;
    TallyTransferKeeps(w, ts[0], mid, settling, currencies);
    TallyTransferExact(w, ts[0], facts, mid, settling, currencies);
    var u := TallyTransfer(w, ts[0], mid, settling, currencies);
    RestPending(w.books, ts, w.batch, u.books, u.batch);
  }

  lemma TurnPending(w: Tally, ts: seq<Transfer>, facts: Facts, settling: bool, currencies: Currencies)
    requires TallyOk(w, currencies) && AllPending(w.books, ts, w.batch) && ts != []
    requires GoodFacts(facts, currencies) && NoneSeen(facts, ts)
    ensures var t, f := ts[0], FactOf(w.batch, ts[0], settling, currencies);
            var more := facts[t.transferId := f];
            && Pending(w.books, t, w.batch) && t.transferId !in facts && GoodFact(f, currencies)
            && NoneSeen(more, ts[1..]) && GoodFacts(more, currencies)
            && GoodFacts(SeenAll(facts, ts, w.batch, settling, currencies), currencies)
            && Within(more, SeenAll(facts, ts, w.batch, settling, currencies))
  {
    hide BooksOk, GoodFact, FactOf, AccountsOk;
    var t, f, rest := ts[0], FactOf(w.batch, ts[0], settling, currencies), ts[1..];
    assert Pending(w.books, t, w.batch);
    assert forall i :: 0 <= i < |rest| ==> rest[i] == ts[i + 1];
    StoredFactGood(w.books, w.batch, t, settling, currencies);
    GoodFactsWith(facts, t.transferId, f, currencies);
    SeenAllGood(w.books, ts, facts, w.batch, settling, currencies);
    SeenAllWithin(facts[t.transferId := f], rest, w.batch, settling, currencies);
  }

  /** A batch that is not counted leaves the tables and totals alone. */
  lemma {:induction false} TallyTransfersSkipped(w: Tally, ts: seq<Transfer>, mid: MatrixId, settling: bool,
      currencies: Currencies)
    requires TallyOk(w, currencies) && w.ok && AllPending(w.books, ts, w.batch) && !Included(w.batch, mid, settling)
    ensures var v := TallyTransfers(w, ts, mid, settling, currencies);
            v.ok && v.tables == w.tables && v.debit == w.debit && v.credit == w.credit
    decreases |ts|
  {
    if ts != [] {
      var t, rest := ts[0], ts[1..];
      assert Pending(w.books, t, w.batch);
      TallyTransferKeeps(w, t, mid, settling, currencies);
      JournalIfNeededOk(w, t, currencies);
      var u := TallyTransfer(w, t, mid, settling, currencies);
      RestPending(w.books, ts, w.batch, u.books, u.batch);
      hide JournalIfNeeded, TallyOk, AllPending, AddBalance, StringToBigint, SameCore;
      TallyTransfersSkipped(u, rest, mid, settling, currencies);
    }
  }

  lemma {:induction false} SameFacts(seen: Facts, ts: seq<Transfer>, b: Batch, c: Batch, settling: bool,
                                     currencies: Currencies)
    requires SameBatch(b, c)
    ensures SeenAll(seen, ts, b, settling, currencies) == SeenAll(seen, ts, c, settling, currencies)
    decreases |ts|
  {
    if ts != [] {
      SameFacts(seen[ts[0].transferId := FactOf(b, ts[0], settling, currencies)], ts[1..], b, c, settling, currencies);
    }
  }

  // ----- one batch

  function CountedFacts(k: Books, ids: set<string>, settling: bool, currencies: Currencies): Facts
  {
    map x | x in k.transfers.docs && k.transfers.docs[x].batchId in ids
        && k.transfers.docs[x].batchId in k.batches.docs ::
      FactOf(k.batches.docs[k.transfers.docs[x].batchId], k.transfers.docs[x], settling, currencies)
  }

  function AmountsInBatch(k: Books, batchId: string, currencies: Currencies): map<string, int>
  {
    map x | x in k.transfers.docs && k.transfers.docs[x].batchId == batchId :: Amount(k.transfers.docs[x], currencies)
  }

  ghost function BatchTotal(k: Books, batchId: string, currencies: Currencies): int
  {
    MapSum(AmountsInBatch(k, batchId, currencies))
  }

  /** Journalling transfers and adding accounts does not change the facts or totals. */
  lemma SameCoreFacts(k: Books, l: Books, ids: set<string>, settling: bool, currencies: Currencies)
    requires SameCore(k, l)
    ensures CountedFacts(k, ids, settling, currencies) == CountedFacts(l, ids, settling, currencies)
    ensures forall id :: AmountsInBatch(k, id, currencies) == AmountsInBatch(l, id, currencies)
  {
    hide StringToBigint, LedgerGrows, Decimals;
    forall x | x in k.transfers.docs
      ensures SameTransfer(k.transfers.docs[x], l.transfers.docs[x])
      ensures Amount(k.transfers.docs[x], currencies) == Amount(l.transfers.docs[x], currencies) {}
    forall id | id in k.batches.docs ensures SameBatch(k.batches.docs[id], l.batches.docs[id]) {}
    forall id ensures AmountsInBatch(k, id, currencies) == AmountsInBatch(l, id, currencies) {}
  }

  function AmountMap(ts: seq<Transfer>, currencies: Currencies): map<string, int>
  {
    if ts == [] then map[] else AmountMap(ts[1..], currencies)[ts[0].transferId := Amount(ts[0], currencies)]
  }

  lemma {:induction false} AmountMapHolds(ts: seq<Transfer>, currencies: Currencies)
    requires forall i, j :: 0 <= i < j < |ts| ==> ts[i].transferId != ts[j].transferId
    ensures forall x :: x in AmountMap(ts, currencies) ==> Lists(ts, x)
    ensures forall i :: 0 <= i < |ts| ==> ts[i].transferId in AmountMap(ts, currencies)
                                          && AmountMap(ts, currencies)[ts[i].transferId] == Amount(ts[i], currencies)
  {
    hide Amount;
    if ts != [] {
      var rest := ts[1..];
      assert forall i :: 0 <= i < |rest| ==> rest[i] == ts[i + 1];
      AmountMapHolds(rest, currencies);
      forall x | x in AmountMap(ts, currencies) ensures Lists(ts, x) {
        ListsMore(ts, x);
      }
      forall i | 0 < i < |ts| ensures ts[i].transferId in AmountMap(rest, currencies)
                                      && AmountMap(rest, currencies)[ts[i].transferId] == Amount(ts[i], currencies)
      {
        assert ts[i] == rest[i - 1];
      }
    }
  }

  lemma ListsMore(ts: seq<Transfer>, x: string)
    requires ts != []
    ensures x == ts[0].transferId || Lists(ts[1..], x) ==> Lists(ts, x)
  {
    var rest := ts[1..];
    if x == ts[0].transferId {
    } else if Lists(rest, x) {
      var i :| 0 <= i < |rest| && rest[i].transferId == x;
      assert ts[i + 1].transferId == x;
    }
  }

  lemma {:induction false} AmountMapSum(ts: seq<Transfer>, currencies: Currencies)
    requires forall i, j :: 0 <= i < j < |ts| ==> ts[i].transferId != ts[j].transferId
    ensures ListAmount(ts, currencies) == MapSum(AmountMap(ts, currencies))
  {
    hide Amount;
    if ts != [] {
      var rest := ts[1..];
      assert forall i :: 0 <= i < |rest| ==> rest[i] == ts[i + 1];
      AmountMapSum(rest, currencies);
      AmountMapHolds(rest, currencies);
      MapSumInsert(AmountMap(rest, currencies), ts[0].transferId, Amount(ts[0], currencies));
    }
  }

  /** The listed transfers of a batch add up to the batch total. */
  lemma ListedTotal(k: Books, b: Batch, currencies: Currencies)
    requires BooksOk(k, currencies)
    ensures ListAmount(TransfersOf(k, b.id), currencies) == BatchTotal(k, b.id, currencies)
  {
    hide BooksOk, TransfersOf, Amount;
    var ts := TransfersOf(k, b.id);
    TransfersPending(k, b, currencies);
    AmountMapSum(ts, currencies);
    AmountMapHolds(ts, currencies);
    forall x | x in AmountMap(ts, currencies)
      ensures x in k.transfers.docs && k.transfers.docs[x].batchId == b.id
      ensures AmountMap(ts, currencies)[x] == Amount(k.transfers.docs[x], currencies)
    {
      var i :| 0 <= i < |ts| && ts[i].transferId == x;
      assert Pending(k, ts[i], b);
    }
    assert AmountMap(ts, currencies) == AmountsInBatch(k, b.id, currencies);
  }

  /** The facts of the batches counted before plus those of this batch. */
  lemma CountedWith(k: Books, b: Batch, ids: set<string>, settling: bool, currencies: Currencies)
    requires BooksOk(k, currencies) && Listed(k, b) && b.id !in ids
    ensures NoneSeen(CountedFacts(k, ids, settling, currencies), TransfersOf(k, b.id))
    ensures SeenAll(CountedFacts(k, ids, settling, currencies), TransfersOf(k, b.id), b, settling, currencies)
            == CountedFacts(k, ids + {b.id}, settling, currencies)
  {
    hide BooksOk, TransfersOf, Amount, AccountsOk;
    var ts, facts := TransfersOf(k, b.id), CountedFacts(k, ids, settling, currencies);
    TransfersPending(k, b, currencies);
    forall i | 0 <= i < |ts| ensures ts[i].transferId !in facts {
      assert Pending(k, ts[i], b);
    }
    SeenAllWithin(facts, ts, b, settling, currencies);
    var all, more := SeenAll(facts, ts, b, settling, currencies), CountedFacts(k, ids + {b.id}, settling, currencies);
    forall x | x in all ensures x in more && all[x] == more[x] {
      if x !in facts {
        var i :| 0 <= i < |ts| && ts[i].transferId == x;
        assert Pending(k, ts[i], b);
      }
    }
    forall x | x in more ensures x in all {
      if x !in facts {
        assert Lists(ts, x);
        var i :| 0 <= i < |ts| && ts[i].transferId == x;
        assert ts[i].transferId in all;
      }
    }
  }

  lemma CountedGood(k: Books, ids: set<string>, settling: bool, currencies: Currencies)
    requires BooksOk(k, currencies)
    ensures GoodFacts(CountedFacts(k, ids, settling, currencies), currencies)
  {
    var facts := CountedFacts(k, ids, settling, currencies);
    forall x | x in facts ensures GoodFact(facts[x], currencies) {
      var t := k.transfers.docs[x];
      StoredUnderItsId(k, x, currencies);
      StoredBatchListed(k, t.batchId, currencies);
      hide BooksOk, GoodFact;
      StoredFactGood(k, k.batches.docs[t.batchId], t, settling, currencies);
    }
  }

  function With(ids: set<string>, b: Batch, mid: MatrixId, settling: bool): set<string>
  {
    if Included(b, mid, settling) then ids + {b.id} else ids
  }

  ghost function RowTotal(k: Books, b: Batch, mid: MatrixId, settling: bool, currencies: Currencies): int
  {
    if Included(b, mid, settling) then BatchTotal(k, b.id, currencies) else 0
  }

  /** One batch of the recalculation: its facts enter the tables if it is counted, and its row shows its total. */
  lemma RecalculateBatchExact(p: Progress, b: Batch, ids: set<string>, mid: MatrixId, settling: bool,
                              currencies: Currencies)
    requires BooksOk(p.books, currencies) && Listed(p.books, b) && p.ok && b.id !in ids
    requires TablesShow(p.tables, CountedFacts(p.books, ids, settling, currencies), currencies)
    ensures var q := RecalculateBatch(p, b, mid, settling, currencies);
            var facts := CountedFacts(p.books, ids, settling, currencies);
            var all := CountedFacts(p.books, With(ids, b, mid, settling), settling, currencies);
            var total := RowTotal(p.books, b, mid, settling, currencies);
            && (q.ok ==> TablesShow(q.tables, all, currencies)
                         && q.rows == p.rows + [BatchRow(b, total, total, Decimals(currencies, b.currencyCode))])
            && (AllInBound(all, currencies) ==> q.ok)
            && (q.ok && AllInBound(facts, currencies) && NobodyPaysThemselves(all) ==> AllInBound(all, currencies))
  {
    hide BooksOk, Listed, TransfersOf, TablesShow, CountedFacts, AllInBound, NobodyPaysThemselves, TallyTransfers,
         Printed, BatchTotal, TallyOk;
    CurrencyKnown(p.books, b, currencies);
    var ts, w := TransfersOf(p.books, b.id), Tally(p.books, b, p.tables, 0, 0, true);
    var v := TallyTransfers(w, ts, mid, settling, currencies);
    TallyBatch(p.books, b, p.tables, mid, settling, currencies);
    if Included(b, mid, settling) {
      CountedTally(p.books, b, p.tables, ids, mid, settling, currencies);
    } else {
      SkippedTally(p.books, b, p.tables, mid, settling, currencies);
    }
  }

  lemma TallyBatch(k: Books, b: Batch, tables: Tables, mid: MatrixId, settling: bool, currencies: Currencies)
    requires BooksOk(k, currencies) && Listed(k, b)
    ensures var w := Tally(k, b, tables, 0, 0, true);
            TallyOk(w, currencies)
            && SameBatch(b, TallyTransfers(w, TransfersOf(k, b.id), mid, settling, currencies).batch)
  {
    hide BooksOk, TransfersOf, AccountsOk, SameCore;
    TransfersPending(k, b, currencies);
    TallyTransfersKeep(Tally(k, b, tables, 0, 0, true), TransfersOf(k, b.id), mid, settling, currencies);
  }

  lemma CountedTally(k: Books, b: Batch, tables: Tables, ids: set<string>, mid: MatrixId, settling: bool,
      currencies: Currencies)
    requires BooksOk(k, currencies) && Listed(k, b) && b.id !in ids && Included(b, mid, settling)
    requires TablesShow(tables, CountedFacts(k, ids, settling, currencies), currencies)
    ensures var v := TallyTransfers(Tally(k, b, tables, 0, 0, true), TransfersOf(k, b.id), mid, settling, currencies);
            var facts := CountedFacts(k, ids, settling, currencies);
            var all := CountedFacts(k, ids + {b.id}, settling, currencies);
            && (v.ok ==> TablesShow(v.tables, all, currencies)
                         && v.debit == v.credit == BatchTotal(k, b.id, currencies))
            && (AllInBound(all, currencies) ==> v.ok)
            && (v.ok && AllInBound(facts, currencies) && NobodyPaysThemselves(all) ==> AllInBound(all, currencies))
  {
    TallyBatch(k, b, tables, mid, settling, currencies);
    hide BooksOk, Listed, TransfersOf, TablesShow, CountedFacts, AllInBound, NobodyPaysThemselves, AllPending, TallyOk,
         TallyTransfers, SeenAll, GoodFacts, BatchTotal, ListAmount;
    TransfersPending(k, b, currencies);
    CountedGood(k, ids, settling, currencies);
    CountedWith(k, b, ids, settling, currencies);
    TallyTransfersExact(Tally(k, b, tables, 0, 0, true), TransfersOf(k, b.id),
                        CountedFacts(k, ids, settling, currencies), mid, settling, currencies);
    ListedTotal(k, b, currencies);
  }

  lemma SkippedTally(k: Books, b: Batch, tables: Tables, mid: MatrixId, settling: bool, currencies: Currencies)
    requires BooksOk(k, currencies) && Listed(k, b) && !Included(b, mid, settling)
    ensures var v := TallyTransfers(Tally(k, b, tables, 0, 0, true), TransfersOf(k, b.id), mid, settling, currencies);
            v.ok && v.tables == tables && v.debit == v.credit == 0
  {
    TallyBatch(k, b, tables, mid, settling, currencies);
    hide BooksOk, Listed, TransfersOf, AllPending, TallyOk, TallyTransfers;
    TransfersPending(k, b, currencies);
    TallyTransfersSkipped(Tally(k, b, tables, 0, 0, true), TransfersOf(k, b.id), mid, settling, currencies);
  }

  // ----- the whole recalculation

  function WithAll(ids: set<string>, bs: seq<Batch>, mid: MatrixId, settling: bool): set<string>
    decreases |bs|
  {
    if bs == [] then ids else WithAll(With(ids, bs[0], mid, settling), bs[1..], mid, settling)
  }

  /** The row a recalculation writes for a batch, from the books as they were. */
  ghost function RowOf(k: Books, b: Batch, mid: MatrixId, settling: bool, currencies: Currencies): MatrixBatch
  {
    var total := RowTotal(k, b, mid, settling, currencies);
    BatchRow(b, total, total, Decimals(currencies, b.currencyCode))
  }

  ghost function RowsOf(k: Books, bs: seq<Batch>, mid: MatrixId, settling: bool,
      currencies: Currencies): (rows: seq<MatrixBatch>)
    ensures |rows| == |bs|
    ensures forall i :: 0 <= i < |bs| ==> rows[i] == RowOf(k, bs[i], mid, settling, currencies)
  {
    seq(|bs|, i requires 0 <= i < |bs| => RowOf(k, bs[i], mid, settling, currencies))
  }

  ghost predicate Distinct(bs: seq<Batch>, ids: set<string>)
  {
    && (forall i :: 0 <= i < |bs| ==> bs[i].id !in ids)
    && (forall i, j :: 0 <= i < j < |bs| ==> bs[i].id != bs[j].id)
  }

  lemma DistinctTail(bs: seq<Batch>, ids: set<string>, mid: MatrixId, settling: bool)
    requires Distinct(bs, ids) && bs != []
    ensures Distinct(bs[1..], With(ids, bs[0], mid, settling)) && bs[0].id !in ids
  {
    var rest := bs[1..];
    assert forall i :: 0 <= i < |rest| ==> rest[i] == bs[i + 1];
  }

  lemma SameRow(k: Books, l: Books, b: Batch, mid: MatrixId, settling: bool, currencies: Currencies)
    requires SameCore(k, l)
    ensures RowOf(k, b, mid, settling, currencies) == RowOf(l, b, mid, settling, currencies)
  {
    SameCoreFacts(k, l, {}, settling, currencies);
  }

  lemma WithinWider(k: Books, ids: set<string>, more: set<string>, settling: bool, currencies: Currencies)
    requires ids <= more
    ensures Within(CountedFacts(k, ids, settling, currencies), CountedFacts(k, more, settling, currencies))
  {
    hide FactOf;
  }

  lemma {:induction false} WithAllWider(ids: set<string>, bs: seq<Batch>, mid: MatrixId, settling: bool)
    ensures ids <= WithAll(ids, bs, mid, settling)
    ensures forall id :: id in WithAll(ids, bs, mid, settling) <==>
              id in ids || exists i :: 0 <= i < |bs| && bs[i].id == id && Included(bs[i], mid, settling)
    decreases |bs|
  {
    hide Included;
    if bs != [] {
      var rest := bs[1..];
      WithAllWider(With(ids, bs[0], mid, settling), rest, mid, settling);
      forall id | exists i :: 0 <= i < |bs| && bs[i].id == id && Included(bs[i], mid, settling)
        ensures id in WithAll(ids, bs, mid, settling)
      {
        var i :| 0 <= i < |bs| && bs[i].id == id && Included(bs[i], mid, settling);
        if i > 0 {
          assert rest[i - 1] == bs[i];
        }
      }
    }
  }

  /** In-bounds totals pass from the final facts to those of every prefix of the loop. */
  lemma InBoundEarlier(k: Books, ids: set<string>, more: set<string>, settling: bool, currencies: Currencies)
    requires BooksOk(k, currencies) && ids <= more
    ensures AllInBound(CountedFacts(k, more, settling, currencies), currencies) ==>
              AllInBound(CountedFacts(k, ids, settling, currencies), currencies)
    ensures NobodyPaysThemselves(CountedFacts(k, more, settling, currencies)) ==>
              NobodyPaysThemselves(CountedFacts(k, ids, settling, currencies))
  {
    hide BooksOk, CountedFacts, GoodFacts, CurrencyTotal, Bound, Decimals;
    CountedGood(k, more, settling, currencies);
    WithinWider(k, ids, more, settling, currencies);
    TotalsMonotone(CountedFacts(k, ids, settling, currencies), CountedFacts(k, more, settling, currencies), currencies);
  }

  lemma {:induction false} RecalculateBatchesExact(p: Progress, bs: seq<Batch>, k: Books, ids: set<string>,
                                                   mid: MatrixId, settling: bool, currencies: Currencies)
    requires BooksOk(k, currencies) && BooksOk(p.books, currencies) && SameCore(k, p.books)
    requires p.ok && AllListed(p.books, bs) && Distinct(bs, ids)
    requires TablesShow(p.tables, CountedFacts(k, ids, settling, currencies), currencies)
    ensures var q := RecalculateBatches(p, bs, mid, settling, currencies);
            var facts := CountedFacts(k, ids, settling, currencies);
            var all := CountedFacts(k, WithAll(ids, bs, mid, settling), settling, currencies);
            && (q.ok ==> TablesShow(q.tables, all, currencies)
                         && q.rows == p.rows + RowsOf(k, bs, mid, settling, currencies))
            && (AllInBound(all, currencies) ==> q.ok)
            && (q.ok && AllInBound(facts, currencies) && NobodyPaysThemselves(all) ==> AllInBound(all, currencies))
    decreases |bs|
  {
    hide BooksOk, Listed, TablesShow, CountedFacts, AllInBound, NobodyPaysThemselves, RecalculateBatch, SameCore, With,
         Distinct, RowOf, AllListed;
    if bs == [] {
      assert p.rows + RowsOf(k, bs, mid, settling, currencies) == p.rows;
    } else {
      var b, rest := bs[0], bs[1..];
      var ids1, u := With(ids, b, mid, settling), RecalculateBatch(p, b, mid, settling, currencies);
      FirstListed(p.books, bs);
      DistinctTail(bs, ids, mid, settling);
      OneBatchExact(p, b, k, ids, mid, settling, currencies);
      WithAllWider(ids1, rest, mid, settling);
      InBoundEarlier(k, ids1, WithAll(ids1, rest, mid, settling), settling, currencies);
      if u.ok {
        AllListedTail(p.books, bs);
        AllListedStays(p.books, u.books, rest);
        RecalculateBatchesExact(u, rest, k, ids1, mid, settling, currencies);
        RowsOfStep(p.rows, k, bs, mid, settling, currencies);
      }
    }
  }

  lemma RowsOfStep(rows: seq<MatrixBatch>, k: Books, bs: seq<Batch>, mid: MatrixId, settling: bool,
                   currencies: Currencies)
    requires bs != []
    ensures rows + RowsOf(k, bs, mid, settling, currencies)
            == rows + [RowOf(k, bs[0], mid, settling, currencies)] + RowsOf(k, bs[1..], mid, settling, currencies)
  {
  }

  lemma FirstListed(k: Books, bs: seq<Batch>)
    requires AllListed(k, bs) && bs != []
    ensures Listed(k, bs[0])
  {
  }

  /** One batch of the loop, in terms of the books before the loop. */
  lemma OneBatchExact(p: Progress, b: Batch, k: Books, ids: set<string>, mid: MatrixId, settling: bool,
                      currencies: Currencies)
    requires BooksOk(p.books, currencies) && SameCore(k, p.books) && p.ok && Listed(p.books, b) && b.id !in ids
    requires TablesShow(p.tables, CountedFacts(k, ids, settling, currencies), currencies)
    ensures var u := RecalculateBatch(p, b, mid, settling, currencies);
            var facts := CountedFacts(k, ids, settling, currencies);
            var all := CountedFacts(k, With(ids, b, mid, settling), settling, currencies);
            && BooksOk(u.books, currencies) && SameCore(p.books, u.books) && SameCore(k, u.books)
            && (u.ok ==> TablesShow(u.tables, all, currencies)
                         && u.rows == p.rows + [RowOf(k, b, mid, settling, currencies)])
            && (AllInBound(all, currencies) ==> u.ok)
            && (u.ok && AllInBound(facts, currencies) && NobodyPaysThemselves(all) ==> AllInBound(all, currencies))
  {
    hide BooksOk, Listed, TablesShow, CountedFacts, AllInBound, NobodyPaysThemselves, RecalculateBatch, SameCore, With,
         RowTotal, BatchRow;
    SameCoreFacts(k, p.books, ids, settling, currencies);
    SameCoreFacts(k, p.books, With(ids, b, mid, settling), settling, currencies);
    RecalculateBatchExact(p, b, ids, mid, settling, currencies);
    RecalculateBatchKeeps(p, b, mid, settling, currencies);
    SameCoreTransitive(k, p.books, RecalculateBatch(p, b, mid, settling, currencies).books);
    SameRow(k, p.books, b, mid, settling, currencies);
  }

  /** The batches a recalculation counts. */
  function CountedIds(k: Books, m: Matrix, settling: bool): set<string>
  {
    set id | id in SelectedIds(k.batches.docs, m) && id in k.batches.docs
        && Included(k.batches.docs[id], m.id, settling)
  }

  /** The facts of a recalculation: the transfers of the batches it counts, as stored. */
  function RecalculatedFacts(k: Books, m: Matrix, settling: bool, currencies: Currencies): Facts
  {
    CountedFacts(k, CountedIds(k, m, settling), settling, currencies)
  }

  lemma NoFacts(k: Books, settling: bool, currencies: Currencies)
    ensures TablesShow(NoBalances, CountedFacts(k, {}, settling, currencies), currencies)
    ensures AllInBound(CountedFacts(k, {}, settling, currencies), currencies)
  {
    assert CountedFacts(k, {}, settling, currencies) == map[];
    var none: Facts := map[];
    assert ParticipantKeys(none) == {} && CurrencyKeys(none) == {} && StateKeys(none) == {};
    forall code ensures CurrencyTotal(none, code) < Bound(Decimals(currencies, code)) {
      assert Debits(none, ByCurrency(code)) == map[];
      PowPositive(10, MAX_INTEGER_DIGITS + Decimals(currencies, code));
    }
  }

  /** What a completed recalculation computes. The three tables hold, once per key, the sums over exactly the
      transfers of the counted batches; every selected batch has a row, which shows the sum of its transfers on
      both sides (zero when it is not counted). It completes when all currency totals have at most 18 integer
      digits and, nobody paying themselves, only then. */
  lemma RecalculateExact(k: Books, m: Matrix, settling: bool, currencies: Currencies)
    requires BooksOk(k, currencies)
    ensures var r := Recalculate(k, m, settling, currencies);
            var facts := RecalculatedFacts(k, m, settling, currencies);
            && (r.matrix.Some? ==>
                  && TablesShow(r.matrix.value.tables, facts, currencies)
                  && RowIds(r.matrix.value.batches) == SelectedIds(k.batches.docs, m)
                  && forall i :: 0 <= i < |r.matrix.value.batches| ==>
                       var row := r.matrix.value.batches[i];
                       row.id in k.batches.docs && row == RowOf(k, k.batches.docs[row.id], m.id, settling, currencies))
            && (AllInBound(facts, currencies) ==> r.matrix.Some?)
            && (r.matrix.Some? && NobodyPaysThemselves(facts) ==> AllInBound(facts, currencies))
  {
    hide BooksOk, SelectedBatches, SelectedIds, RecalculateBatches, TablesShow, RecalculatedFacts, AllInBound,
         Selection, NobodyPaysThemselves, RowOf, AllListed, RefreshBatches, RowIds;
    var keys, rs := SelectionOf(k, m, currencies);
    LoopExact(k, m, settling, rs, keys, currencies);
    SelectionRows(k, m, rs, keys, settling, currencies);
    FreshIds(k, m, settling, currencies);
  }

  /** The refreshed batches the loop runs over. */
  lemma SelectionOf(k: Books, m: Matrix, currencies: Currencies) returns (keys: seq<string>, rs: seq<Batch>)
    requires BooksOk(k, currencies)
    ensures RefreshBatches(SelectedBatches(k, m), k.ledger, currencies) == Some(rs)
    ensures AllListed(k, rs) && Selection(k, m, rs, keys)
            && keys == Pick(k.batches.order, SelectedIds(k.batches.docs, m))
  {
    hide BooksOk, SelectedBatches, SelectedIds, Listed;
    keys := SelectionListed(k, m, currencies);
    RefreshBatchesOk(k, SelectedBatches(k, m), currencies);
    rs := RefreshBatches(SelectedBatches(k, m), k.ledger, currencies).value;
  }

  lemma LoopExact(k: Books, m: Matrix, settling: bool, rs: seq<Batch>, keys: seq<string>, currencies: Currencies)
    requires BooksOk(k, currencies) && AllListed(k, rs) && Selection(k, m, rs, keys)
    ensures var p := RecalculateBatches(Progress(k, [], NoBalances, true), rs, m.id, settling, currencies);
            var facts := RecalculatedFacts(k, m, settling, currencies);
            && (p.ok ==> TablesShow(p.tables, facts, currencies) && p.rows == RowsOf(k, rs, m.id, settling, currencies))
            && (AllInBound(facts, currencies) ==> p.ok)
            && (p.ok && NobodyPaysThemselves(facts) ==> AllInBound(facts, currencies))
  {
    hide BooksOk, SelectedIds, RecalculateBatches, TablesShow, CountedFacts, AllInBound, NobodyPaysThemselves, RowOf,
         AllListed, Distinct, WithAll, SameCore;
    NoFacts(k, settling, currencies);
    SameCoreSelf(k);
    SelectionCounted(k, m, rs, keys, settling);
    RecalculateBatchesExact(Progress(k, [], NoBalances, true), rs, k, {}, m.id, settling, currencies);
    assert [] + RowsOf(k, rs, m.id, settling, currencies) == RowsOf(k, rs, m.id, settling, currencies);
  }

  lemma FreshIds(k: Books, m: Matrix, settling: bool, currencies: Currencies)
    requires BooksOk(k, currencies)
    ensures var r := Recalculate(k, m, settling, currencies);
            r.matrix.Some? ==> RowIds(r.matrix.value.batches) == SelectedIds(k.batches.docs, m)
  {
    hide Recalculate, BooksOk, SelectedIds;
    RecalculateKeeps(k, m, settling, currencies);
  }

  lemma SameCoreSelf(k: Books)
    ensures SameCore(k, k)
  {
  }

  ghost predicate Selection(k: Books, m: Matrix, rs: seq<Batch>, keys: seq<string>)
  {
    && |rs| == |keys| && NoDuplicates(keys) && (forall id :: id in keys <==> id in SelectedIds(k.batches.docs, m))
    && forall i :: 0 <= i < |keys| ==>
            keys[i] in k.batches.docs && SameBatch(k.batches.docs[keys[i]], rs[i]) && rs[i].id == keys[i]
  }

  lemma SelectionCounted(k: Books, m: Matrix, rs: seq<Batch>, keys: seq<string>, settling: bool)
    requires Selection(k, m, rs, keys)
    ensures Distinct(rs, {})
    ensures WithAll({}, rs, m.id, settling) == CountedIds(k, m, settling)
  {
    hide SelectedIds;
    WithAllWider({}, rs, m.id, settling);
    var all := WithAll({}, rs, m.id, settling);
    forall id | id in all ensures id in CountedIds(k, m, settling) {
      var i :| 0 <= i < |rs| && rs[i].id == id && Included(rs[i], m.id, settling);
      assert keys[i] in keys;
    }
    forall id | id in CountedIds(k, m, settling) ensures id in all {
      assert id in keys;
      var i :| 0 <= i < |keys| && keys[i] == id;
      assert Included(rs[i], m.id, settling);
    }
  }

  lemma SelectionRows(k: Books, m: Matrix, rs: seq<Batch>, keys: seq<string>, settling: bool, currencies: Currencies)
    requires Selection(k, m, rs, keys)
    ensures forall i :: 0 <= i < |rs| ==>
              var row := RowsOf(k, rs, m.id, settling, currencies)[i];
              row.id in k.batches.docs && row == RowOf(k, k.batches.docs[row.id], m.id, settling, currencies)
  {
    hide SelectedIds, BatchTotal, Printed, Decimals;
    forall i | 0 <= i < |rs|
      ensures RowOf(k, rs[i], m.id, settling, currencies)
              == RowOf(k, k.batches.docs[keys[i]], m.id, settling, currencies) {}
  }
}
