/** When a recalculation completes: exactly when, in the order of the stores, each amount still fits. */
module Completion {
  import opened Common
  import opened Model
  import opened Converters
  import opened MatrixTables
  import opened Totals
  import opened Repositories
  import opened Ledgers
  import opened Recalculation
  import opened BookKeeping
  import opened Exactness
  import opened Accumulation
  import opened Commands
  import opened Effects

  // ----- the bookings of a recalculation, from the books before it

  function Bookings(b: Batch, ts: seq<Transfer>, settling: bool): seq<Booking>
  {
    if ts == [] then [] else [Booking(ts[0], b.currencyCode, Booked(b, settling))] + Bookings(b, ts[1..], settling)
  }

  function BatchesBookings(k: Books, bs: seq<Batch>, mid: MatrixId, settling: bool): seq<Booking>
  {
    if bs == [] then []
    else
      (if Included(bs[0], mid, settling) then Bookings(bs[0], TransfersOf(k, bs[0].id), settling) else [])
      + BatchesBookings(k, bs[1..], mid, settling)
  }

  /** The calls of `addBalance` a recalculation would make, batch by batch in the order of the stores. */
  function RecalculationBookings(k: Books, m: Matrix, settling: bool): seq<Booking>
  {
    BatchesBookings(k, SelectedBatches(k, m), m.id, settling)
  }

  // ----- journalling one batch leaves the lists of the others alone

  lemma {:induction false} PickOther<K(!new)>(order: seq<K>, x: K, wanted: set<K>)
    requires x !in wanted
    ensures Pick(Without(order, x) + [x], wanted) == Pick(order, wanted)
  {
    if order == [] {
      assert Pick([x], wanted) == Pick([x][1..], wanted);
    } else {
      PickOther(order[1..], x, wanted);
      var kept := Without(order, x) + [x];
      if order[0] == x {
        assert kept == Without(order[1..], x) + [x];
      } else {
        assert kept[0] == order[0] && kept[1..] == Without(order[1..], x) + [x];
      }
    }
  }

  lemma {:induction false} RecordsOther<K(!new), V>(docs: map<K, V>, keys: seq<K>, x: K, v: V)
    requires x !in keys
    ensures Records(docs[x := v], keys) == Records(docs, keys)
  {
    if keys != [] {
      assert keys == [keys[0]] + keys[1..];
      RecordsOther(docs, keys[1..], x, v);
    }
  }

  /** Storing a transfer of one batch again does not change the list of another. */
  lemma ListKept(k: Books, l: Books, x: string, t: Transfer, id: string)
    requires l.transfers == Put(k.transfers, x, t) && t.batchId != id
    requires x in k.transfers.docs ==> k.transfers.docs[x].batchId != id
    ensures TransfersOf(l, id) == TransfersOf(k, id)
  {
    var wanted := IdsInBatch(k.transfers.docs, id);
    assert IdsInBatch(l.transfers.docs, id) == wanted;
    PickOther(k.transfers.order, x, wanted);
    PickMembers(k.transfers.order, wanted);
    RecordsOther(k.transfers.docs, Pick(k.transfers.order, wanted), x, t);
  }

  ghost predicate OthersKept(k: Books, l: Books, batchId: string)
  {
    forall id :: id != batchId ==> TransfersOf(l, id) == TransfersOf(k, id)
  }

  lemma TallyTransferLists(w: Tally, t: Transfer, mid: MatrixId, settling: bool, currencies: Currencies)
    requires TallyOk(w, currencies) && w.ok && Pending(w.books, t, w.batch)
    ensures OthersKept(w.books, TallyTransfer(w, t, mid, settling, currencies).books, w.batch.id)
  {
    hide BooksOk, AccountsOk, AddBalance, StringToBigint, Decimals, JournalTransfer, TransfersOf, SameCore, Put;
    if t.journalEntryId.None? {
      JournalOk(w.books, w.batch, t, currencies);
      var j := JournalTransfer(w.books, w.batch, t, currencies);
      forall id | id != w.batch.id ensures TransfersOf(j.books, id) == TransfersOf(w.books, id) {
        ListKept(w.books, j.books, t.transferId, Filled(t), id);
      }
    }
    var v := TallyTransfer(w, t, mid, settling, currencies);
    forall id
      ensures TransfersOf(v.books, id) == TransfersOf(JournalIfNeeded(w.books, w.batch, t, currencies).books, id)
    {
      SameTransfersSameLists(v.books, JournalIfNeeded(w.books, w.batch, t, currencies).books, id);
    }
  }

  lemma SameTransfersSameLists(k: Books, l: Books, id: string)
    requires k.transfers == l.transfers
    ensures TransfersOf(k, id) == TransfersOf(l, id)
  {
  }

  lemma {:induction false} TallyTransfersLists(w: Tally, ts: seq<Transfer>, mid: MatrixId, settling: bool,
                                               currencies: Currencies)
    requires TallyOk(w, currencies) && w.ok && AllPending(w.books, ts, w.batch)
    ensures OthersKept(w.books, TallyTransfers(w, ts, mid, settling, currencies).books, w.batch.id)
    decreases |ts|
  {
    hide TallyTransfer, TallyOk, SameCore, TransfersOf;
    if ts != [] {
      assert Pending(w.books, ts[0], w.batch);
      TallyTransferKeeps(w, ts[0], mid, settling, currencies);
      TallyTransferLists(w, ts[0], mid, settling, currencies);
      var u := TallyTransfer(w, ts[0], mid, settling, currencies);
      if u.ok {
        RestPending(w.books, ts, w.batch, u.books, u.batch);
        TallyTransfersLists(u, ts[1..], mid, settling, currencies);
      }
    }
  }

  lemma RecalculateBatchLists(p: Progress, b: Batch, mid: MatrixId, settling: bool, currencies: Currencies)
    requires BooksOk(p.books, currencies) && Listed(p.books, b)
    ensures OthersKept(p.books, RecalculateBatch(p, b, mid, settling, currencies).books, b.id)
  {
    hide BooksOk, AllPending, TransfersOf, AccountsOk, TallyTransfers;
    TransfersPending(p.books, b, currencies);
    TallyTransfersLists(Tally(p.books, b, p.tables, 0, 0, true), TransfersOf(p.books, b.id), mid, settling, currencies);
  }

  // ----- the loops complete exactly when each amount fits

  lemma {:induction false} FitsAppend(seen: Facts, a: seq<Booking>, b: seq<Booking>, currencies: Currencies)
    ensures EachFits(seen, a + b, currencies) <==>
              EachFits(seen, a, currencies) && EachFits(FactsOf(seen, a, currencies), b, currencies)
    decreases |a|
  {
    hide BookedFact, CurrencyTotal, Bound, Decimals;
    if a == [] {
      assert a + b == b;
    } else {
      assert (a + b)[0] == a[0] && (a + b)[1..] == a[1..] + b;
      FitsAppend(seen[a[0].transfer.transferId := BookedFact(a[0], currencies)], a[1..], b, currencies);
    }
  }

  lemma BookedIsFact(k: Books, b: Batch, t: Transfer, settling: bool, currencies: Currencies)
    requires BooksOk(k, currencies) && Pending(k, t, b)
    requires b.id in k.batches.docs && SameBatch(k.batches.docs[b.id], b)
    ensures BookedFact(Booking(t, b.currencyCode, Booked(b, settling)), currencies)
            == FactOf(b, t, settling, currencies)
  {
    hide BooksOk, StringToBigint, Decimals, Amount;
    StoredFactGood(k, b, t, settling, currencies);
  }

  lemma {:induction false} FactsOfBookings(k: Books, b: Batch, ts: seq<Transfer>, seen: Facts, settling: bool,
                                           currencies: Currencies)
    requires BooksOk(k, currencies) && b.id in k.batches.docs && SameBatch(k.batches.docs[b.id], b)
    requires forall i :: 0 <= i < |ts| ==> Pending(k, ts[i], b)
    ensures FactsOf(seen, Bookings(b, ts, settling), currencies) == SeenAll(seen, ts, b, settling, currencies)
    decreases |ts|
  {
    hide BooksOk, BookedFact, FactOf;
    if ts != [] {
      var rest := ts[1..];
      assert Pending(k, ts[0], b);
      BookedIsFact(k, b, ts[0], settling, currencies);
      assert forall i :: 0 <= i < |rest| ==> rest[i] == ts[i + 1];
      assert Bookings(b, ts, settling)[1..] == Bookings(b, rest, settling);
      FactsOfBookings(k, b, rest, seen[ts[0].transferId := FactOf(b, ts[0], settling, currencies)], settling,
                      currencies);
    }
  }

  lemma {:induction false} SameBookings(b: Batch, c: Batch, ts: seq<Transfer>, settling: bool)
    requires SameBatch(b, c)
    ensures Bookings(b, ts, settling) == Bookings(c, ts, settling)
  {
    if ts != [] {
      SameBookings(b, c, ts[1..], settling);
    }
  }

  /** The loop over the transfers of a counted batch. */
  lemma {:induction false} TallyTransfersFit(w: Tally, ts: seq<Transfer>, facts: Facts, mid: MatrixId, settling: bool,
                                             currencies: Currencies)
    requires TallyOk(w, currencies) && w.ok && AllPending(w.books, ts, w.batch) && Included(w.batch, mid, settling)
    requires TablesShow(w.tables, facts, currencies) && GoodFacts(facts, currencies) && NoneSeen(facts, ts)
    ensures TallyTransfers(w, ts, mid, settling, currencies).ok <==>
              EachFits(facts, Bookings(w.batch, ts, settling), currencies)
    decreases |ts|
  {
    hide TallyTransfer, TallyOk, TablesShow, GoodFacts, GoodFact, CurrencyTotal, Bound, NoneSeen, AllPending, SameCore,
         FactOf, Decimals, Amount, Included, BookedFact, SeenAll, Within, SameBatch;
    if ts != [] {
      var t, rest := ts[0], ts[1..];
      var f, u := FactOf(w.batch, t, settling, currencies), TallyTransfer(w, t, mid, settling, currencies);
      TurnKeeps(w, ts, facts, mid, settling, currencies);
      FirstIsFact(w, ts, settling, currencies);
      assert Bookings(w.batch, ts, settling)[1..] == Bookings(w.batch, rest, settling);
      if u.ok {
        TallyTransfersFit(u, rest, facts[t.transferId := f], mid, settling, currencies);
        SameBookings(w.batch, u.batch, rest, settling);
      }
    }
  }

  lemma FirstIsFact(w: Tally, ts: seq<Transfer>, settling: bool, currencies: Currencies)
    requires TallyOk(w, currencies) && AllPending(w.books, ts, w.batch) && ts != []
    ensures BookedFact(Booking(ts[0], w.batch.currencyCode, Booked(w.batch, settling)), currencies)
            == FactOf(w.batch, ts[0], settling, currencies)
    ensures FactOf(w.batch, ts[0], settling, currencies).currencyCode == w.batch.currencyCode
  {
    hide BooksOk, AccountsOk, BookedFact, Amount;
    assert Pending(w.books, ts[0], w.batch);
    BookedIsFact(w.books, w.batch, ts[0], settling, currencies);
  }

  function BatchBookings(k: Books, b: Batch, mid: MatrixId, settling: bool): seq<Booking>
  {
    if Included(b, mid, settling) then Bookings(b, TransfersOf(k, b.id), settling) else []
  }

  /** One batch of the recalculation. */
  lemma RecalculateBatchFits(p: Progress, b: Batch, ids: set<string>, mid: MatrixId, settling: bool,
                             currencies: Currencies)
    requires BooksOk(p.books, currencies) && Listed(p.books, b) && p.ok && b.id !in ids
    requires TablesShow(p.tables, CountedFacts(p.books, ids, settling, currencies), currencies)
    ensures var facts := CountedFacts(p.books, ids, settling, currencies);
            var more := BatchBookings(p.books, b, mid, settling);
            && (RecalculateBatch(p, b, mid, settling, currencies).ok <==> EachFits(facts, more, currencies))
            && FactsOf(facts, more, currencies)
               == CountedFacts(p.books, With(ids, b, mid, settling), settling, currencies)
  {
    hide BooksOk, Listed, TransfersOf, TablesShow, CountedFacts, TallyTransfers, Bookings, TallyOk, GoodFacts,
         AllPending, SeenAll;
    CurrencyKnown(p.books, b, currencies);
    TallyBatch(p.books, b, p.tables, mid, settling, currencies);
    TransfersPending(p.books, b, currencies);
    var facts, ts := CountedFacts(p.books, ids, settling, currencies), TransfersOf(p.books, b.id);
    if Included(b, mid, settling) {
      CountedGood(p.books, ids, settling, currencies);
      CountedWith(p.books, b, ids, settling, currencies);
      TallyTransfersFit(Tally(p.books, b, p.tables, 0, 0, true), ts, facts, mid, settling, currencies);
      ListedBookings(p.books, b, ts, facts, settling, currencies);
    } else {
      SkippedTally(p.books, b, p.tables, mid, settling, currencies);
    }
  }

  lemma ListedBookings(k: Books, b: Batch, ts: seq<Transfer>, facts: Facts, settling: bool, currencies: Currencies)
    requires BooksOk(k, currencies) && Listed(k, b) && AllPending(k, ts, b)
    ensures FactsOf(facts, Bookings(b, ts, settling), currencies) == SeenAll(facts, ts, b, settling, currencies)
  {
    hide BooksOk, AccountsOk, Bookings, SeenAll;
    FactsOfBookings(k, b, ts, facts, settling, currencies);
  }

  /** The batches still to come list what they listed before the loop. */
  ghost predicate StillListed(k: Books, l: Books, bs: seq<Batch>)
  {
    forall i :: 0 <= i < |bs| ==> TransfersOf(l, bs[i].id) == TransfersOf(k, bs[i].id)
  }

  lemma RestStillListed(k: Books, l: Books, n: Books, bs: seq<Batch>, ids: set<string>)
    requires StillListed(k, l, bs) && bs != [] && OthersKept(l, n, bs[0].id) && Distinct(bs, ids)
    ensures StillListed(k, n, bs[1..]) && TransfersOf(l, bs[0].id) == TransfersOf(k, bs[0].id)
  {
    hide TransfersOf;
    var rest := bs[1..];
    forall i | 0 <= i < |rest| ensures TransfersOf(n, rest[i].id) == TransfersOf(k, rest[i].id) {
      assert rest[i] == bs[i + 1];
    }
  }

  lemma {:induction false} RecalculateBatchesFit(p: Progress, bs: seq<Batch>, k: Books, ids: set<string>, mid: MatrixId,
                                                 settling: bool, currencies: Currencies)
    requires BooksOk(k, currencies) && BooksOk(p.books, currencies) && SameCore(k, p.books)
    requires p.ok && AllListed(p.books, bs) && Distinct(bs, ids) && StillListed(k, p.books, bs)
    requires TablesShow(p.tables, CountedFacts(k, ids, settling, currencies), currencies)
    ensures RecalculateBatches(p, bs, mid, settling, currencies).ok <==>
              EachFits(CountedFacts(k, ids, settling, currencies), BatchesBookings(k, bs, mid, settling), currencies)
    decreases |bs|
  {
    hide BooksOk, Listed, TablesShow, CountedFacts, RecalculateBatch, SameCore, With, Distinct, AllListed, TransfersOf,
         Bookings, StillListed, OthersKept, AllInBound, NobodyPaysThemselves, RowOf, Included;
    if bs != [] {
      var b, rest := bs[0], bs[1..];
      var ids1, u := With(ids, b, mid, settling), RecalculateBatch(p, b, mid, settling, currencies);
      FirstListed(p.books, bs);
      DistinctTail(bs, ids, mid, settling);
      OneBatchExact(p, b, k, ids, mid, settling, currencies);
      RecalculateBatchLists(p, b, mid, settling, currencies);
      RestStillListed(k, p.books, u.books, bs, ids);
      SameCoreFacts(k, p.books, ids, settling, currencies);
      SameCoreFacts(k, p.books, ids1, settling, currencies);
      RecalculateBatchFits(p, b, ids, mid, settling, currencies);
      var first := BatchBookings(p.books, b, mid, settling);
      FitsAppend(CountedFacts(k, ids, settling, currencies), first, BatchesBookings(k, rest, mid, settling),
                 currencies);
      if u.ok {
        AllListedTail(p.books, bs);
        AllListedStays(p.books, u.books, rest);
        RecalculateBatchesFit(u, rest, k, ids1, mid, settling, currencies);
      }
    }
  }

  lemma {:induction false} SameBatchesBookings(k: Books, bs: seq<Batch>, rs: seq<Batch>, mid: MatrixId, settling: bool)
    requires |bs| == |rs| && forall i :: 0 <= i < |bs| ==> SameBatch(bs[i], rs[i])
    ensures BatchesBookings(k, bs, mid, settling) == BatchesBookings(k, rs, mid, settling)
  {
    hide TransfersOf;
    if bs != [] {
      assert SameBatch(bs[0], rs[0]);
      assert forall i :: 0 <= i < |bs[1..]| ==> bs[1..][i] == bs[i + 1] && rs[1..][i] == rs[i + 1];
      SameBookings(bs[0], rs[0], TransfersOf(k, bs[0].id), settling);
      SameBatchesBookings(k, bs[1..], rs[1..], mid, settling);
    }
  }

  /** A recalculation completes exactly when each amount it books fits: taking the counted transfers in the order of
      the stores, the total of the currency so far and the amount stay below 10^(18 + decimals). That is so whenever
      the final totals are below that bound and, nobody paying themselves, only then. */
  lemma RecalculateCompletesExactly(k: Books, m: Matrix, settling: bool, currencies: Currencies)
    requires BooksOk(k, currencies)
    ensures var facts := RecalculatedFacts(k, m, settling, currencies);
            var fits := EachFits(map[], RecalculationBookings(k, m, settling), currencies);
            && (Recalculate(k, m, settling, currencies).matrix.Some? <==> fits)
            && (AllInBound(facts, currencies) ==> fits)
            && (fits && NobodyPaysThemselves(facts) ==> AllInBound(facts, currencies))
  {
    hide BooksOk, Recalculate, RecalculatedFacts, AllInBound, NobodyPaysThemselves, EachFits, RecalculationBookings,
         TablesShow, RowOf, SelectedIds, RowIds;
    LoopFits(k, m, settling, currencies);
    RecalculateExact(k, m, settling, currencies);
  }

  lemma LoopFits(k: Books, m: Matrix, settling: bool, currencies: Currencies)
    requires BooksOk(k, currencies)
    ensures Recalculate(k, m, settling, currencies).matrix.Some? <==>
              EachFits(map[], RecalculationBookings(k, m, settling), currencies)
  {
    hide BooksOk, SelectedBatches, SelectedIds, RecalculateBatches, TablesShow, CountedFacts, AllInBound, AllListed,
         Distinct, SameCore, BatchesBookings, Listed, Selection, WithAll, StillListed, RefreshBatches, TransfersOf;
    var bs := SelectedBatches(k, m);
    var keys, rs := SelectionOf(k, m, currencies);
    var listed := SelectionListed(k, m, currencies);
    RefreshBatchesOk(k, bs, currencies);
    SameBatchesBookings(k, bs, rs, m.id, settling);
    NoFacts(k, settling, currencies);
    SameCoreSelf(k);
    SelectionCounted(k, m, rs, keys, settling);
    assert StillListed(k, k, rs) by { AllStillListed(k, rs); }
    RecalculateBatchesFit(Progress(k, [], NoBalances, true), rs, k, {}, m.id, settling, currencies);
    assert CountedFacts(k, {}, settling, currencies) == map[] by { NoneCounted(k, settling, currencies); }
  }

  lemma AllStillListed(k: Books, bs: seq<Batch>)
    ensures StillListed(k, k, bs)
  {
  }

  lemma NoneCounted(k: Books, settling: bool, currencies: Currencies)
    ensures CountedFacts(k, {}, settling, currencies) == map[]
  {
  }

  // ----- commands

  lemma BookingsIgnoreState(k: Books, m: Matrix, st: MatrixState, settling: bool)
    ensures RecalculationBookings(k, m.(state := st), settling) == RecalculationBookings(k, m, settling)
  {
    hide BatchesBookings, Select;
    SelectionIgnoresState(k.batches.docs, m, st);
  }

  /** A command that moves batches completes exactly on a matrix in the right state each of whose amounts fits. */
  lemma MoveCompletes(w: World, id: MatrixId, mv: Move, currencies: Currencies)
    requires StoreOk(w, currencies)
    ensures MoveMatrix(w, id, mv, currencies).outcome == Done <==>
              && id in w.matrices.docs && w.matrices.docs[id].state == From(mv)
              && EachFits(map[], RecalculationBookings(w.books, w.matrices.docs[id], mv.Settle?), currencies)
  {
    hide RecalculatedFacts, AllInBound, NobodyPaysThemselves, BooksOk, Recalculate, SelectedIds, RowsToMove, Fresh,
         Sweep, BatchesMoved, MovedIds, MoveTargets, CurrenciesKnown, MatrixOk, ValidRepo, Items, SameCore,
         RecalculationBookings, EachFits;
    if id in w.matrices.docs && w.matrices.docs[id].state == From(mv) {
      var m := w.matrices.docs[id];
      MoveRecalculates(w, id, mv, currencies);
      RecalculateCompletesExactly(w.books, m.(state := BUSY), mv.Settle?, currencies);
      BookingsIgnoreState(w.books, m, BUSY, mv.Settle?);
    }
  }

  /** Creating, recalculating and editing: what comes after the checks completes exactly when each amount fits. */
  lemma RecalculateAndStoreCompletes(w: World, stored: Matrix, working: Matrix, final: MatrixState,
                                     currencies: Currencies)
    requires BooksOk(w.books, currencies)
    ensures RecalculateAndStore(w, stored, working, final, currencies).outcome == Done <==>
              EachFits(map[], RecalculationBookings(w.books, working, false), currencies)
  {
    hide BooksOk, Recalculate, RecalculationBookings, EachFits, RecalculatedFacts, AllInBound, NobodyPaysThemselves;
    RecalculateCompletesExactly(w.books, working.(state := BUSY), false, currencies);
    BookingsIgnoreState(w.books, working, BUSY, false);
  }
}
