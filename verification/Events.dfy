/** What a settled event holds, which batches it stands for, and that no amount is settled twice. */
module Events {
  import opened Common
  import opened Sums
  import opened Model
  import opened Converters
  import opened MatrixTables
  import opened Totals
  import opened Conservation
  import opened Repositories
  import opened Ledgers
  import opened Recalculation
  import opened BookKeeping
  import opened Exactness
  import opened Commands
  import opened Effects
  import opened BatchSequences
  import opened Protocol
  import opened Safety
  import opened Settlement

  // ----- the items of an event

  function ItemKey(item: ParticipantItem): Key
  {
    ByParticipant(item.participantId, SETTLED, item.currencyCode)
  }

  function ItemKeys(items: seq<ParticipantItem>): set<Key>
  {
    set i | 0 <= i < |items| :: ItemKey(items[i])
  }

  /** One item per participant and currency of the facts, holding the sums of what they paid and received. */
  ghost predicate EventShows(evt: SettledEvt, id: MatrixId, facts: Facts, currencies: Currencies)
  {
    && evt.settlementMatrixId == id
    && (forall i, j :: 0 <= i < j < |evt.participantList| ==>
            ItemKey(evt.participantList[i]) != ItemKey(evt.participantList[j]))
    && ItemKeys(evt.participantList) == ParticipantKeys(facts)
    && forall i :: 0 <= i < |evt.participantList| ==>
         var item := evt.participantList[i];
         var d := Decimals(currencies, item.currencyCode);
         && item.settledDebitBalance == Printed(SidesOf(facts, ItemKey(item)).debit, d)
         && item.settledCreditBalance == Printed(SidesOf(facts, ItemKey(item)).credit, d)
  }

  predicate SettledRow(r: Row)
  {
    r.key.ByParticipant? && r.key.state == SETTLED
  }

  function ItemOf(r: Row): ParticipantItem
    requires SettledRow(r)
  {
    ParticipantItem(r.key.participantId, r.key.currencyCode, r.debitBalance, r.creditBalance)
  }

  lemma {:induction false} ItemsAre(rows: seq<Row>)
    requires forall i :: 0 <= i < |rows| ==> SettledRow(rows[i])
    ensures |Items(rows)| == |rows|
    ensures forall i :: 0 <= i < |rows| ==> Items(rows)[i] == ItemOf(rows[i])
  {
    if rows != [] {
      var rest := rows[1..];
      assert forall i :: 0 <= i < |rest| ==> rest[i] == rows[i + 1];
      ItemsAre(rest);
      assert rows[0].key.ByParticipant?;
    }
  }

  lemma ShownRowsSettled(rows: seq<Row>, facts: Facts, currencies: Currencies)
    requires RowsShow(rows, TotalsOf(facts, ParticipantKeys(facts)), currencies)
    requires forall x :: x in facts ==> facts[x].booked == SETTLED
    ensures forall i :: 0 <= i < |rows| ==> SettledRow(rows[i])
    ensures RowKeys(rows) == ParticipantKeys(facts)
  {
    hide RowShows, SidesOf;
    forall i | 0 <= i < |rows| ensures SettledRow(rows[i]) {
      assert rows[i].key in RowKeys(rows);
    }
  }

  lemma ItemsOfRows(rows: seq<Row>)
    requires forall i :: 0 <= i < |rows| ==> SettledRow(rows[i])
    ensures |Items(rows)| == |rows|
    ensures forall i :: 0 <= i < |rows| ==> Items(rows)[i] == ItemOf(rows[i]) && ItemKey(Items(rows)[i]) == rows[i].key
    ensures ItemKeys(Items(rows)) == RowKeys(rows)
  {
    ItemsAre(rows);
    hide Items;
    var items := Items(rows);
    forall i | 0 <= i < |rows| ensures ItemKey(items[i]) == rows[i].key {}
    forall k | k in RowKeys(rows) ensures k in ItemKeys(items) {
      var i :| 0 <= i < |rows| && rows[i].key == k;
      assert ItemKey(items[i]) == k;
    }
    forall k | k in ItemKeys(items) ensures k in RowKeys(rows) {
      var i :| 0 <= i < |items| && ItemKey(items[i]) == k;
      assert rows[i].key == k;
    }
  }

  lemma ItemsShow(rows: seq<Row>, id: MatrixId, facts: Facts, currencies: Currencies)
    requires RowsShow(rows, TotalsOf(facts, ParticipantKeys(facts)), currencies)
    requires forall x :: x in facts ==> facts[x].booked == SETTLED
    ensures EventShows(SettledEvt(id, Items(rows)), id, facts, currencies)
  {
    hide Printed, Balance, SidesOf, Items, Decimals, ParticipantKeys, ItemKey, ItemKeys, RowKeys, OneRowPerKey;
    ShownRowsSettled(rows, facts, currencies);
    ItemsOfRows(rows);
    RowsApart(rows);
    forall i | 0 <= i < |rows| ensures RowShows(rows[i], TotalsOf(facts, ParticipantKeys(facts)), currencies) {}
  }

  lemma RowsApart(rows: seq<Row>)
    requires OneRowPerKey(rows)
    ensures forall i, j :: 0 <= i < j < |rows| ==> rows[i].key != rows[j].key
  {
  }

  // ----- one settlement

  /** The batches a settlement of this matrix counts: selected, awaiting settlement, and locked by the matrix. */
  function PaidIds(w: World, id: MatrixId): set<string>
    requires id in w.matrices.docs
  {
    CountedIds(w.books, w.matrices.docs[id], true)
  }

  function SettledFacts(w: World, id: MatrixId, currencies: Currencies): Facts
    requires id in w.matrices.docs
  {
    RecalculatedFacts(w.books, w.matrices.docs[id], true, currencies)
  }

  lemma BusyCounts(k: Books, m: Matrix, settling: bool, currencies: Currencies)
    ensures RecalculatedFacts(k, m.(state := BUSY), settling, currencies)
            == RecalculatedFacts(k, m, settling, currencies)
    ensures CountedIds(k, m.(state := BUSY), settling) == CountedIds(k, m, settling)
  {
    SelectionIgnoresState(k.batches.docs, m, BUSY);
    hide SelectedIds;
  }

  lemma SettledFactsBooked(w: World, id: MatrixId, currencies: Currencies)
    requires id in w.matrices.docs
    ensures forall x :: x in SettledFacts(w, id, currencies) ==> SettledFacts(w, id, currencies)[x].booked == SETTLED
  {
    hide SelectedIds, Amount;
  }

  /** A settlement that completes sends one event, whose items hold per participant and currency exactly the sums
      over the transfers of the counted batches; per currency the debits of all items equal their credits. */
  lemma SettleExact(w: World, id: MatrixId, currencies: Currencies)
    requires WorldOk(w, currencies) && MoveMatrix(w, id, Settle, currencies).outcome == Done
    ensures id in w.matrices.docs
    ensures var v, facts := MoveMatrix(w, id, Settle, currencies).world, SettledFacts(w, id, currencies);
            && |v.events| == |w.events| + 1 && v.events[..|w.events|] == w.events
            && EventShows(v.events[|w.events|], id, facts, currencies)
            && forall code :: MapSum(DebitsOfRows(facts, ParticipantKeys(facts), code))
                           == MapSum(CreditsOfRows(facts, ParticipantKeys(facts), code))
                           == CurrencyTotal(facts, code)
  {
    hide BooksOk, SequencesOk, OwnersOk, ValidRepo, EntriesOk, LocksOk, Recalculate, Sweep, EventShows, Items,
         RecalculatedFacts, CurrencyTotal, DebitsOfRows, CreditsOfRows, ParticipantKeys, CurrenciesKnown, RowsToMove;
    WorldStoreOk(w, currencies);
    var m := w.matrices.docs[id];
    StoredMatrixOk(w, id, currencies);
    var busy, facts := m.(state := BUSY), SettledFacts(w, id, currencies);
    RecalculateExact(w.books, busy, true, currencies);
    MoveRecalculates(w, id, Settle, currencies);
    BusyCounts(w.books, m, true, currencies);
    SettledFactsBooked(w, id, currencies);
    var m1 := Recalculate(w.books, busy, true, currencies).matrix.value;
    ItemsShow(m1.tables.byParticipant, id, facts, currencies);
    forall code ensures MapSum(DebitsOfRows(facts, ParticipantKeys(facts), code))
                     == MapSum(CreditsOfRows(facts, ParticipantKeys(facts), code)) == CurrencyTotal(facts, code)
    {
      TablesConserve(facts, code);
    }
  }

  function SettledNow(w: World, v: World): set<string>
  {
    set x | x in w.books.batches.docs && x in v.books.batches.docs && StateAt(w, x) != SETTLED
        && StateAt(v, x) == SETTLED
  }

  /** The batches a settlement turns SETTLED are the selected ones that await settlement. They are the batches it
      pays out exactly when none of them is locked by another matrix. */
  lemma SettledAreTargets(w: World, id: MatrixId, currencies: Currencies)
    requires WorldOk(w, currencies) && MoveMatrix(w, id, Settle, currencies).outcome == Done
    ensures id in w.matrices.docs
    ensures var v := MoveMatrix(w, id, Settle, currencies).world;
            && SettledNow(w, v) == MoveTargets(w, id, Settle) && PaidIds(w, id) <= SettledNow(w, v)
            && (SettledNow(w, v) == PaidIds(w, id) <==>
                  forall x :: x in MoveTargets(w, id, Settle) && x in w.books.batches.docs ==>
                    w.books.batches.docs[x].ownerMatrixId == Some(id))
  {
    hide BooksOk, SequencesOk, OwnersOk, ValidRepo, EntriesOk, LocksOk, MoveMatrix, StoreOk, SelectedIds, SameTransfers,
         Fresh, MovedIds;
    WorldStoreOk(w, currencies);
    var mark := MoveMatrixEffect(w, id, Settle, currencies);
    StoredMatrixOk(w, id, currencies);
    var v := MoveMatrix(w, id, Settle, currencies).world;
    var a, b, targets := w.books.batches.docs, v.books.batches.docs, MoveTargets(w, id, Settle);
    forall x | x in a ensures x in SettledNow(w, v) <==> x in targets {
      assert SameBatch(if x in targets then MovedOrSame(Settle, id, a[x]) else a[x], b[x]);
    }
    assert SettledNow(w, v) == targets;
    assert forall x :: x in PaidIds(w, id) <==> x in targets && a[x].ownerMatrixId == Some(id);
  }

  /** Only a settlement that completes sends an event. */
  lemma EventsOfMove(w: World, id: MatrixId, mv: Move, currencies: Currencies)
    requires WorldOk(w, currencies)
    requires mv != Settle || MoveMatrix(w, id, mv, currencies).outcome != Done
    ensures MoveMatrix(w, id, mv, currencies).world.events == w.events
  {
    hide WorldOk, Recalculate, Sweep, Items, CurrenciesKnown, RowsToMove;
  }

  // ----- nothing is settled twice

  /** The step is a settlement that completes and pays out this batch. */
  ghost predicate Pays(w: World, s: Step, x: string, currencies: Currencies)
  {
    && s.Handle? && s.command.MoveMatrixCmd? && s.command.move == Settle && s.command.matrixId in w.matrices.docs
    && Execute(w, s.command, currencies).outcome == Done && x in PaidIds(w, s.command.matrixId)
  }

  lemma PaidIsSettled(w: World, s: Step, x: string, currencies: Currencies)
    requires WorldOk(w, currencies) && Pays(w, s, x, currencies)
    ensures x in w.books.batches.docs && StateAt(w, x) == AWAITING_SETTLEMENT
        && w.books.batches.docs[x].ownerMatrixId == Some(s.command.matrixId)
    ensures x in Next(w, s, currencies).books.batches.docs && StateAt(Next(w, s, currencies), x) == SETTLED
  {
    hide BooksOk, SequencesOk, OwnersOk, ValidRepo, EntriesOk, LocksOk, MoveMatrix, SelectedIds;
    SettledAreTargets(w, s.command.matrixId, currencies);
    WorldStoreOk(w, currencies);
    StoredMatrixOk(w, s.command.matrixId, currencies);
    assert x in SettledNow(w, Next(w, s, currencies));
  }

  /** Over every run, the amounts of a batch enter at most one settled event. */
  lemma BatchesPaidOnce(ws: seq<World>, steps: seq<Step>, currencies: Currencies, i: nat, j: nat, x: string)
    requires IsRun(ws, steps, currencies) && CurrenciesOk(currencies) && i < |steps| && j < |steps|
    requires Pays(ws[i], steps[i], x, currencies) && Pays(ws[j], steps[j], x, currencies)
    ensures i == j
  {
    hide WorldOk, Next, CurrenciesOk, Pays;
    RunOk(ws, steps, currencies, i);
    RunOk(ws, steps, currencies, j);
    PaidIsSettled(ws[i], steps[i], x, currencies);
    PaidIsSettled(ws[j], steps[j], x, currencies);
    if i < j {
      BatchStays(ws, steps, currencies, i + 1, j, x);
    } else if j < i {
      BatchStays(ws, steps, currencies, j + 1, i, x);
    }
  }

  /** With distinct transfer ids a transfer stays in its batch. */
  lemma {:induction false} TransferStays(ws: seq<World>, steps: seq<Step>, currencies: Currencies, i: nat, j: nat,
                                         t: string)
    requires IsRun(ws, steps, currencies) && CurrenciesOk(currencies) && NoReplays(ws, steps) && i <= j < |ws|
    requires t in ws[i].books.transfers.docs
    ensures t in ws[j].books.transfers.docs
            && SameTransfer(ws[i].books.transfers.docs[t], ws[j].books.transfers.docs[t])
    decreases j - i
  {
    hide WorldOk, Next, CurrenciesOk;
    if i < j {
      TransferStays(ws, steps, currencies, i, j - 1, t);
      RunOk(ws, steps, currencies, j - 1);
      OtherTransfersStay(ws[j - 1], steps[j - 1], t, currencies);
    }
  }

  lemma OtherTransfersStay(w: World, s: Step, t: string, currencies: Currencies)
    requires WorldOk(w, currencies) && CurrenciesOk(currencies) && !Replays(w, s) && t in w.books.transfers.docs
    ensures t in Next(w, s, currencies).books.transfers.docs
    ensures SameTransfer(w.books.transfers.docs[t], Next(w, s, currencies).books.transfers.docs[t])
  {
    hide WorldOk, CurrenciesOk, ProcessTransfer;
    StepOnTransfers(w, s, currencies);
    if StoresTransfer(w, s, currencies) {
      StoredExactlyWhenDone(w, s.command.transfer, s.command.now, currencies);
      StoredTransfers(w, s.command.transfer, s.command.now, t, currencies);
    }
  }

  lemma StoredTransfers(w: World, p: TransferPayload, now: int, t: string, currencies: Currencies)
    requires WorldOk(w, currencies) && CurrenciesOk(currencies)
             && ProcessTransfer(w, p, now, currencies).outcome == Done
    requires t in w.books.transfers.docs && t != p.transferId
    ensures var v := ProcessTransfer(w, p, now, currencies).world;
            t in v.books.transfers.docs && v.books.transfers.docs[t] == w.books.transfers.docs[t]
  {
    hide BooksOk, SequencesOk, OwnersOk, ValidRepo, EntriesOk, LocksOk, AddTransfer, CurrenciesOk, Validate;
    var b := AddTransferExact(w.books, p, w.configs[p.settlementModel], now, currencies);
  }

  ghost predicate PaysTransfer(w: World, s: Step, t: string, currencies: Currencies)
  {
    t in w.books.transfers.docs && Pays(w, s, w.books.transfers.docs[t].batchId, currencies)
  }

  /** With distinct transfer ids, the amount of a transfer enters at most one settled event. */
  lemma TransfersPaidOnce(ws: seq<World>, steps: seq<Step>, currencies: Currencies, i: nat, j: nat, t: string)
    requires IsRun(ws, steps, currencies) && CurrenciesOk(currencies) && NoReplays(ws, steps) && i <= j < |steps|
    requires PaysTransfer(ws[i], steps[i], t, currencies) && PaysTransfer(ws[j], steps[j], t, currencies)
    ensures i == j
  {
    hide WorldOk, Next, CurrenciesOk, Pays, IsRun, NoReplays;
    assert |ws| == |steps| + 1 by { RunLength(ws, steps, currencies); }
    TransferStays(ws, steps, currencies, i, j, t);
    BatchesPaidOnce(ws, steps, currencies, i, j, ws[i].books.transfers.docs[t].batchId);
  }

  lemma RunLength(ws: seq<World>, steps: seq<Step>, currencies: Currencies)
    requires IsRun(ws, steps, currencies)
    ensures |ws| == |steps| + 1
  {
  }

  // ----- a batch settled by a matrix that did not lock it

  /** The step is a settlement that completes and selects this batch, which another matrix has locked. */
  ghost predicate SettlesForeign(w: World, s: Step, x: string, currencies: Currencies)
  {
    && s.Handle? && s.command.MoveMatrixCmd? && s.command.move == Settle && s.command.matrixId in w.matrices.docs
    && Execute(w, s.command, currencies).outcome == Done && x in MoveTargets(w, s.command.matrixId, Settle)
    && x in w.books.batches.docs && w.books.batches.docs[x].ownerMatrixId != Some(s.command.matrixId)
  }

  lemma ForeignIsSettled(w: World, s: Step, x: string, currencies: Currencies)
    requires WorldOk(w, currencies) && SettlesForeign(w, s, x, currencies)
    ensures StateAt(w, x) == AWAITING_SETTLEMENT && !Pays(w, s, x, currencies)
    ensures x in Next(w, s, currencies).books.batches.docs && StateAt(Next(w, s, currencies), x) == SETTLED
  {
    hide BooksOk, SequencesOk, OwnersOk, ValidRepo, EntriesOk, LocksOk, MoveMatrix, SelectedIds;
    SettledAreTargets(w, s.command.matrixId, currencies);
    assert x in SettledNow(w, Next(w, s, currencies));
    if Pays(w, s, x, currencies) {
      PaidIsSettled(w, s, x, currencies);
    }
  }

  /** A completed settlement turns batches that another matrix has locked SETTLED as well, and their amounts never
      enter any event of the run, neither before nor after. */
  lemma ForeignBatchNeverPaid(ws: seq<World>, steps: seq<Step>, currencies: Currencies, i: nat, k: nat, x: string)
    requires IsRun(ws, steps, currencies) && CurrenciesOk(currencies) && i < |steps| && k < |steps|
    requires SettlesForeign(ws[i], steps[i], x, currencies)
    ensures x in ws[i + 1].books.batches.docs && StateAt(ws[i + 1], x) == SETTLED
    ensures !Pays(ws[k], steps[k], x, currencies)
  {
    hide WorldOk, CurrenciesOk, Next, Pays;
    RunOk(ws, steps, currencies, i);
    RunOk(ws, steps, currencies, k);
    ForeignIsSettled(ws[i], steps[i], x, currencies);
    if Pays(ws[k], steps[k], x, currencies) {
      PaidIsSettled(ws[k], steps[k], x, currencies);
      if k < i {
        BatchStays(ws, steps, currencies, k + 1, i, x);
      } else if k > i {
        BatchStays(ws, steps, currencies, i + 1, k, x);
      }
    }
  }
}
