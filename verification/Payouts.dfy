/** What the balances of matrices and the items of settled events are in terms of the stored transfers. */
module Payouts {
  import opened Common
  import opened Sums
  import opened Model
  import opened Converters
  import opened MatrixTables
  import opened Totals
  import opened Conservation
  import opened Repositories
  import opened Ledgers
  import opened Recalculation
  import opened BookKeeping
  import opened Exactness
  import opened Commands
  import opened Effects
  import opened BatchSequences
  import opened Protocol
  import opened Events
  import opened Safety
  import opened Requests

  /** The batches whose transfers count: the selected ones, when settling those the matrix has locked. */
  ghost predicate Counts(k: Books, m: Matrix, settling: bool, batchId: string)
  {
    && batchId in SelectedIds(k.batches.docs, m) && batchId in k.batches.docs
    && (settling ==> k.batches.docs[batchId].state == AWAITING_SETTLEMENT
                     && k.batches.docs[batchId].ownerMatrixId == Some(m.id))
  }

  /** The amount of a transfer in the smallest unit of its currency; a payment to oneself counts twice. */
  function Weight(t: Transfer, currencies: Currencies): int
    requires t.currencyCode in currencies && StringToBigint(t.amount, currencies[t.currencyCode]).Ok?
  {
    var amount := StringToBigint(t.amount, currencies[t.currencyCode]).value;
    if t.payerFspId == t.payeeFspId then amount + amount else amount
  }

  /** The transfers whose amounts can be read, which is all that are stored. */
  ghost predicate Legible(t: Transfer, currencies: Currencies)
  {
    t.currencyCode in currencies && StringToBigint(t.amount, currencies[t.currencyCode]).Ok?
  }

  lemma StoredLegible(k: Books, x: string, currencies: Currencies)
    requires BooksOk(k, currencies) && x in k.transfers.docs
    ensures var t := k.transfers.docs[x];
            && Legible(t, currencies)
            && Amount(t, currencies) == StringToBigint(t.amount, currencies[t.currencyCode]).value
            && t.transferId == x && t.batchId in k.batches.docs
            && k.batches.docs[t.batchId].currencyCode == t.currencyCode
  {
    hide StringToBigint;
    var t := k.transfers.docs[x];
    assert TransferOk(t, x, k.batches.docs, currencies);
    assert BatchOk(k.batches.docs[t.batchId], t.batchId, k.ledger, currencies);
  }

  /** The facts of a recalculation, transfer by transfer: exactly those of the batches that count, as stored. */
  lemma FactsAre(k: Books, m: Matrix, settling: bool, x: string, currencies: Currencies)
    requires BooksOk(k, currencies)
    ensures var facts := RecalculatedFacts(k, m, settling, currencies);
            && (x in facts <==> x in k.transfers.docs && Counts(k, m, settling, k.transfers.docs[x].batchId))
            && (x in facts ==>
                  var t, f := k.transfers.docs[x], facts[x];
                  && Legible(t, currencies) && t.batchId in k.batches.docs
                  && f.payer == t.payerFspId && f.payee == t.payeeFspId && f.currencyCode == t.currencyCode
                  && f.booked == (if settling then SETTLED else k.batches.docs[t.batchId].state)
                  && f.amount == StringToBigint(t.amount, currencies[t.currencyCode]).value
                  && Counted(f) == Weight(t, currencies))
  {
    hide SelectedIds, StringToBigint, BooksOk, Amount;
    if x in k.transfers.docs {
      StoredLegible(k, x, currencies);
    }
  }

  // ----- what a participant paid and received

  /** The state a transfer is booked under. */
  ghost function BookedUnder(k: Books, settling: bool, batchId: string): BatchState
    requires batchId in k.batches.docs
  {
    if settling then SETTLED else k.batches.docs[batchId].state
  }

  /** Is this a counted transfer in this currency, booked under this state? */
  ghost predicate Booked(k: Books, m: Matrix, settling: bool, x: string, st: BatchState, code: string,
                         currencies: Currencies)
  {
    && x in k.transfers.docs && Legible(k.transfers.docs[x], currencies)
    && var t := k.transfers.docs[x];
       && Counts(k, m, settling, t.batchId) && t.currencyCode == code && BookedUnder(k, settling, t.batchId) == st
  }

  /** What was paid into this state of the currency. */
  ghost function InState(k: Books, m: Matrix, settling: bool, st: BatchState, code: string, currencies: Currencies)
    : map<string, int>
  {
    map x | x in k.transfers.docs && Booked(k, m, settling, x, st, code, currencies) ::
      Weight(k.transfers.docs[x], currencies)
  }

  ghost predicate BookedInAny(k: Books, m: Matrix, settling: bool, x: string, code: string, currencies: Currencies)
  {
    exists st: BatchState :: Booked(k, m, settling, x, st, code, currencies)
  }

  /** What was paid in the currency. */
  ghost function InCurrency(k: Books, m: Matrix, settling: bool, code: string, currencies: Currencies): map<string, int>
  {
    map x | x in k.transfers.docs && BookedInAny(k, m, settling, x, code, currencies) ::
      Weight(k.transfers.docs[x], currencies)
  }

  ghost function PaidBy(k: Books, m: Matrix, settling: bool, who: string, st: BatchState, code: string,
                        currencies: Currencies): map<string, int>
  {
    map x | x in k.transfers.docs && Booked(k, m, settling, x, st, code, currencies)
            && k.transfers.docs[x].payerFspId == who :: Weight(k.transfers.docs[x], currencies)
  }

  ghost function ReceivedBy(k: Books, m: Matrix, settling: bool, who: string, st: BatchState, code: string,
                            currencies: Currencies): map<string, int>
  {
    map x | x in k.transfers.docs && Booked(k, m, settling, x, st, code, currencies)
            && k.transfers.docs[x].payeeFspId == who :: Weight(k.transfers.docs[x], currencies)
  }

  /** One transfer on both sides of the equation. */
  lemma OneTransfer(k: Books, m: Matrix, settling: bool, x: string, st: BatchState, code: string,
                    currencies: Currencies)
    requires BooksOk(k, currencies)
    ensures var facts := RecalculatedFacts(k, m, settling, currencies);
            && (Booked(k, m, settling, x, st, code, currencies) <==>
                  x in facts && facts[x].currencyCode == code && facts[x].booked == st)
            && (Booked(k, m, settling, x, st, code, currencies) ==>
                  && x in k.transfers.docs && Legible(k.transfers.docs[x], currencies)
                  && facts[x].payer == k.transfers.docs[x].payerFspId
                  && facts[x].payee == k.transfers.docs[x].payeeFspId
                  && Counted(facts[x]) == Weight(k.transfers.docs[x], currencies))
  {
    hide BooksOk, RecalculatedFacts, Counts, Weight, Legible, Counted;
    FactsAre(k, m, settling, x, currencies);
    if x in k.transfers.docs {
      StoredLegible(k, x, currencies);
    }
  }

  lemma DebitsAre(k: Books, m: Matrix, settling: bool, who: string, st: BatchState, code: string,
                  currencies: Currencies)
    requires BooksOk(k, currencies)
    ensures Debits(RecalculatedFacts(k, m, settling, currencies), ByParticipant(who, st, code))
            == PaidBy(k, m, settling, who, st, code, currencies)
  {
    hide BooksOk, RecalculatedFacts, Counted, Weight, Booked;
    var key := ByParticipant(who, st, code);
    var facts, mine := RecalculatedFacts(k, m, settling, currencies), PaidBy(k, m, settling, who, st, code, currencies);
    forall x | x in Debits(facts, key) ensures x in mine && mine[x] == Debits(facts, key)[x] {
      OneTransfer(k, m, settling, x, st, code, currencies);
    }
    forall x | x in mine ensures x in Debits(facts, key) {
      OneTransfer(k, m, settling, x, st, code, currencies);
    }
  }

  lemma CreditsAre(k: Books, m: Matrix, settling: bool, who: string, st: BatchState, code: string,
                   currencies: Currencies)
    requires BooksOk(k, currencies)
    ensures Credits(RecalculatedFacts(k, m, settling, currencies), ByParticipant(who, st, code))
            == ReceivedBy(k, m, settling, who, st, code, currencies)
  {
    hide BooksOk, RecalculatedFacts, Counted, Weight, Booked;
    var key := ByParticipant(who, st, code);
    var facts, mine := RecalculatedFacts(k, m, settling, currencies),
        ReceivedBy(k, m, settling, who, st, code, currencies);
    forall x | x in Credits(facts, key) ensures x in mine && mine[x] == Credits(facts, key)[x] {
      OneTransfer(k, m, settling, x, st, code, currencies);
    }
    forall x | x in mine ensures x in Credits(facts, key) {
      OneTransfer(k, m, settling, x, st, code, currencies);
    }
  }

  lemma KeyTouched(facts: Facts, key: Key)
    requires key.ByParticipant?
    ensures key in ParticipantKeys(facts) <==> Debits(facts, key) != map[] || Credits(facts, key) != map[]
  {
    if key in ParticipantKeys(facts) {
      var x :| x in facts && (key == ByParticipant(facts[x].payer, facts[x].booked, facts[x].currencyCode)
                              || key == ByParticipant(facts[x].payee, facts[x].booked, facts[x].currencyCode));
      assert x in Debits(facts, key) || x in Credits(facts, key);
    } else {
      assert forall x :: x in facts ==> !DebitTouches(key, facts[x]) && !CreditTouches(key, facts[x]);
      assert Debits(facts, key) == map[] && Credits(facts, key) == map[];
    }
  }

  lemma StateSidesAre(k: Books, m: Matrix, settling: bool, st: BatchState, code: string, currencies: Currencies)
    requires BooksOk(k, currencies)
    ensures var facts := RecalculatedFacts(k, m, settling, currencies);
            Debits(facts, ByState(st, code)) == Credits(facts, ByState(st, code))
            == InState(k, m, settling, st, code, currencies)
  {
    hide BooksOk, RecalculatedFacts, Counted, Weight, Booked;
    var key := ByState(st, code);
    var facts, all := RecalculatedFacts(k, m, settling, currencies), InState(k, m, settling, st, code, currencies);
    forall x | x in Debits(facts, key) ensures x in all && all[x] == Debits(facts, key)[x] {
      OneTransfer(k, m, settling, x, st, code, currencies);
    }
    forall x | x in all ensures x in Debits(facts, key) {
      OneTransfer(k, m, settling, x, st, code, currencies);
    }
    assert Debits(facts, key) == Credits(facts, key);
  }

  lemma CurrencySidesAre(k: Books, m: Matrix, settling: bool, code: string, currencies: Currencies)
    requires BooksOk(k, currencies)
    ensures var facts := RecalculatedFacts(k, m, settling, currencies);
            Debits(facts, ByCurrency(code)) == Credits(facts, ByCurrency(code))
            == InCurrency(k, m, settling, code, currencies)
  {
    hide BooksOk, RecalculatedFacts, Counted, Weight, Booked;
    var key := ByCurrency(code);
    var facts, all := RecalculatedFacts(k, m, settling, currencies), InCurrency(k, m, settling, code, currencies);
    forall x | x in Debits(facts, key) ensures x in all && all[x] == Debits(facts, key)[x] {
      OneTransfer(k, m, settling, x, facts[x].booked, code, currencies);
      assert BookedInAny(k, m, settling, x, code, currencies);
    }
    forall x | x in all ensures x in Debits(facts, key) {
      var st :| Booked(k, m, settling, x, st, code, currencies);
      OneTransfer(k, m, settling, x, st, code, currencies);
    }
    assert Debits(facts, key) == Credits(facts, key);
  }

  // ----- a recalculation that completes

  /** The two strings show these sums. */
  ghost predicate Shows(debit: string, credit: string, paid: map<string, int>, received: map<string, int>, code: string,
                        currencies: Currencies)
  {
    && code in currencies
    && debit == Printed(MapSum(paid), currencies[code]) && credit == Printed(MapSum(received), currencies[code])
  }

  /** One row of a table. */
  ghost predicate RowPays(k: Books, m: Matrix, settling: bool, row: Row, currencies: Currencies)
  {
    match row.key
    case ByParticipant(who, st, code) =>
      Shows(row.debitBalance, row.creditBalance, PaidBy(k, m, settling, who, st, code, currencies),
            ReceivedBy(k, m, settling, who, st, code, currencies), code, currencies)
    case ByState(st, code) =>
      var all := InState(k, m, settling, st, code, currencies);
      Shows(row.debitBalance, row.creditBalance, all, all, code, currencies)
    case ByCurrency(code) =>
      var all := InCurrency(k, m, settling, code, currencies);
      Shows(row.debitBalance, row.creditBalance, all, all, code, currencies)
  }

  lemma FactCurrencies(k: Books, m: Matrix, settling: bool, currencies: Currencies)
    requires BooksOk(k, currencies)
    ensures forall x :: x in RecalculatedFacts(k, m, settling, currencies) ==>
              RecalculatedFacts(k, m, settling, currencies)[x].currencyCode in currencies
  {
    FactsInCurrencies(k, m, settling, currencies);
  }

  lemma OneRowPays(k: Books, m: Matrix, settling: bool, rows: seq<Row>, keys: set<Key>, i: nat, currencies: Currencies)
    requires BooksOk(k, currencies) && i < |rows|
    requires var facts := RecalculatedFacts(k, m, settling, currencies);
             && keys in {ParticipantKeys(facts), CurrencyKeys(facts), StateKeys(facts)}
             && RowsShow(rows, TotalsOf(facts, keys), currencies)
    ensures RowPays(k, m, settling, rows[i], currencies)
  {
    hide BooksOk, RecalculatedFacts, Printed, Balance, PaidBy, ReceivedBy, InState, InCurrency, Debits, Credits;
    var facts := RecalculatedFacts(k, m, settling, currencies);
    FactCurrencies(k, m, settling, currencies);
    assert rows[i].key in RowKeys(rows);
    assert RowShows(rows[i], TotalsOf(facts, keys), currencies);
    match rows[i].key
    case ByParticipant(who, st, code) =>
      DebitsAre(k, m, settling, who, st, code, currencies);
      CreditsAre(k, m, settling, who, st, code, currencies);
    case ByState(st, code) => StateSidesAre(k, m, settling, st, code, currencies);
    case ByCurrency(code) => CurrencySidesAre(k, m, settling, code, currencies);
  }

  ghost predicate RowsPay(k: Books, m: Matrix, settling: bool, rows: seq<Row>, currencies: Currencies)
  {
    forall i :: 0 <= i < |rows| ==> RowPays(k, m, settling, rows[i], currencies)
  }

  /** Every row of the three tables shows what the counted transfers say, and the participant table has a row exactly
      for those who paid or received something. */
  lemma TablesPay(k: Books, m: Matrix, settling: bool, currencies: Currencies)
    requires BooksOk(k, currencies) && Recalculate(k, m, settling, currencies).matrix.Some?
    ensures var tb := Recalculate(k, m, settling, currencies).matrix.value.tables;
            && RowsPay(k, m, settling, tb.byParticipant, currencies)
            && RowsPay(k, m, settling, tb.byCurrency, currencies)
            && RowsPay(k, m, settling, tb.byStateAndCurrency, currencies)
            && OneRowPerKey(tb.byParticipant) && OneRowPerKey(tb.byCurrency) && OneRowPerKey(tb.byStateAndCurrency)
            && forall who, st, code ::
                 ByParticipant(who, st, code) in RowKeys(tb.byParticipant) <==>
                   PaidBy(k, m, settling, who, st, code, currencies) != map[]
                   || ReceivedBy(k, m, settling, who, st, code, currencies) != map[]
  {
    hide BooksOk, Recalculate, RecalculatedFacts, AllInBound, NobodyPaysThemselves, RowOf, SelectedIds, PaidBy,
         ReceivedBy, ParticipantKeys, CurrencyKeys, StateKeys, TotalsOf, RowPays;
    var facts := RecalculatedFacts(k, m, settling, currencies);
    var tb := Recalculate(k, m, settling, currencies).matrix.value.tables;
    RecalculateExact(k, m, settling, currencies);
    TableRowsPay(k, m, settling, tb.byParticipant, ParticipantKeys(facts), currencies);
    TableRowsPay(k, m, settling, tb.byCurrency, CurrencyKeys(facts), currencies);
    TableRowsPay(k, m, settling, tb.byStateAndCurrency, StateKeys(facts), currencies);
    forall who, st, code
      ensures ByParticipant(who, st, code) in RowKeys(tb.byParticipant) <==>
                PaidBy(k, m, settling, who, st, code, currencies) != map[]
                || ReceivedBy(k, m, settling, who, st, code, currencies) != map[]
    {
      KeysOfTotals(facts, ParticipantKeys(facts));
      KeyTouched(facts, ByParticipant(who, st, code));
      DebitsAre(k, m, settling, who, st, code, currencies);
      CreditsAre(k, m, settling, who, st, code, currencies);
    }
  }

  lemma KeysOfTotals(facts: Facts, keys: set<Key>)
    ensures TotalsOf(facts, keys).Keys == keys
  {
  }

  lemma TableRowsPay(k: Books, m: Matrix, settling: bool, rows: seq<Row>, keys: set<Key>, currencies: Currencies)
    requires BooksOk(k, currencies)
    requires var facts := RecalculatedFacts(k, m, settling, currencies);
             && keys in {ParticipantKeys(facts), CurrencyKeys(facts), StateKeys(facts)}
             && RowsShow(rows, TotalsOf(facts, keys), currencies)
    ensures RowsPay(k, m, settling, rows, currencies) && OneRowPerKey(rows)
  {
    hide BooksOk, RecalculatedFacts, RowPays;
    forall i | 0 <= i < |rows| ensures RowPays(k, m, settling, rows[i], currencies) {
      OneRowPays(k, m, settling, rows, keys, i, currencies);
    }
  }

  // ----- the list

  ghost function AmountsInside(k: Books, batchId: string, currencies: Currencies): map<string, int>
  {
    map x | x in k.transfers.docs && k.transfers.docs[x].batchId == batchId
        && Legible(k.transfers.docs[x], currencies) ::
      StringToBigint(k.transfers.docs[x].amount, currencies[k.transfers.docs[x].currencyCode]).value
  }

  /** What the list shows of a batch: the sum of its transfers, or zero when it does not count. */
  ghost function ShownTotal(k: Books, m: Matrix, settling: bool, batchId: string, currencies: Currencies): int
  {
    if Counts(k, m, settling, batchId) then MapSum(AmountsInside(k, batchId, currencies)) else 0
  }

  /** The row shows id, name, currency and state of a stored batch, and its total on both sides. */
  ghost predicate RowLists(k: Books, m: Matrix, settling: bool, row: MatrixBatch, currencies: Currencies)
  {
    && row.id in k.batches.docs
    && var b := k.batches.docs[row.id];
       && b.id == row.id && row.name == b.batchName && row.currencyCode == b.currencyCode && row.state == b.state
       && b.currencyCode in currencies
       && row.batchDebitBalance == Printed(ShownTotal(k, m, settling, row.id, currencies), currencies[b.currencyCode])
       && row.batchCreditBalance == row.batchDebitBalance
  }

  lemma ListPays(k: Books, m: Matrix, settling: bool, i: nat, currencies: Currencies)
    requires BooksOk(k, currencies) && Recalculate(k, m, settling, currencies).matrix.Some?
    requires i < |Recalculate(k, m, settling, currencies).matrix.value.batches|
    ensures RowLists(k, m, settling, Recalculate(k, m, settling, currencies).matrix.value.batches[i], currencies)
  {
    hide BooksOk, Recalculate, RecalculatedFacts, AllInBound, NobodyPaysThemselves, SelectedIds, Printed, TablesShow,
         StringToBigint, Amount, AmountsInside;
    RecalculateExact(k, m, settling, currencies);
    BooksKeyed(k, currencies);
    var row := Recalculate(k, m, settling, currencies).matrix.value.batches[i];
    assert row.id in RowIds(Recalculate(k, m, settling, currencies).matrix.value.batches);
    var b := k.batches.docs[row.id];
    assert row == RowOf(k, b, m.id, settling, currencies);
    StoredBatchListed(k, row.id, currencies);
    CurrencyKnown(k, b, currencies);
    InsideIs(k, row.id, currencies);
  }

  lemma InsideIs(k: Books, batchId: string, currencies: Currencies)
    requires BooksOk(k, currencies)
    ensures AmountsInside(k, batchId, currencies) == AmountsInBatch(k, batchId, currencies)
  {
    hide BooksOk, StringToBigint, Amount, Legible;
    var a, b := AmountsInside(k, batchId, currencies), AmountsInBatch(k, batchId, currencies);
    forall x | x in b ensures x in a && a[x] == b[x] {
      StoredLegible(k, x, currencies);
    }
  }

  /** The list is in the order of the stores: the selected ids as they come there. */
  lemma ListInOrder(k: Books, m: Matrix, settling: bool, currencies: Currencies)
    requires BooksOk(k, currencies) && Recalculate(k, m, settling, currencies).matrix.Some?
    ensures var rows := Recalculate(k, m, settling, currencies).matrix.value.batches;
            var ids := Pick(k.batches.order, SelectedIds(k.batches.docs, m));
            |rows| == |ids| && forall i :: 0 <= i < |ids| ==> rows[i].id == ids[i]
  {
    hide BooksOk, SelectedBatches, SelectedIds, RecalculateBatches, TablesShow, RecalculatedFacts, AllInBound,
         NobodyPaysThemselves, AllListed, RefreshBatches, RowTotal, Pick;
    var keys, rs := SelectionOf(k, m, currencies);
    LoopExact(k, m, settling, rs, keys, currencies);
  }

  // ----- a settlement that completes

  /** The event of a settlement has one item for each participant and currency with something paid or received by the
      transfers of the batches that await settlement and belong to the matrix, showing the sums of the amounts paid on
      the debit and of those received on the credit side. */
  lemma EventPays(w: World, id: MatrixId, currencies: Currencies)
    requires WorldOk(w, currencies) && Execute(w, MoveMatrixCmd(id, Settle), currencies).outcome == Done
    ensures id in w.matrices.docs
    ensures var v := Execute(w, MoveMatrixCmd(id, Settle), currencies).world;
            && |v.events| == |w.events| + 1 && v.events[..|w.events|] == w.events
            && var evt, k, m := v.events[|w.events|], w.books, w.matrices.docs[id];
               && evt.settlementMatrixId == id
               && (forall i, j :: 0 <= i < j < |evt.participantList| ==>
                     evt.participantList[i].participantId != evt.participantList[j].participantId
                     || evt.participantList[i].currencyCode != evt.participantList[j].currencyCode)
               && (forall i :: 0 <= i < |evt.participantList| ==>
                     var item := evt.participantList[i];
                     Shows(item.settledDebitBalance, item.settledCreditBalance,
                           PaidBy(k, m, true, item.participantId, SETTLED, item.currencyCode, currencies),
                           ReceivedBy(k, m, true, item.participantId, SETTLED, item.currencyCode, currencies),
                           item.currencyCode, currencies))
               && forall who, code ::
                    PaidBy(k, m, true, who, SETTLED, code, currencies) != map[]
                    || ReceivedBy(k, m, true, who, SETTLED, code, currencies) != map[] ==>
                      exists i :: 0 <= i < |evt.participantList| && evt.participantList[i].participantId == who
                                  && evt.participantList[i].currencyCode == code
  {
    hide WorldOk, MoveMatrix, PaidBy, ReceivedBy, Printed, RecalculatedFacts, CurrencyTotal, DebitsOfRows,
         CreditsOfRows;
    SettleExact(w, id, currencies);
    WorldStoreOk(w, currencies);
    var evt := MoveMatrix(w, id, Settle, currencies).world.events[|w.events|];
    ShownItems(w.books, w.matrices.docs[id], evt, id, currencies);
  }

  lemma ShownItems(k: Books, m: Matrix, evt: SettledEvt, id: MatrixId, currencies: Currencies)
    requires BooksOk(k, currencies) && EventShows(evt, id, RecalculatedFacts(k, m, true, currencies), currencies)
    ensures forall i, j :: 0 <= i < j < |evt.participantList| ==>
              evt.participantList[i].participantId != evt.participantList[j].participantId
              || evt.participantList[i].currencyCode != evt.participantList[j].currencyCode
    ensures forall i :: 0 <= i < |evt.participantList| ==>
              var item := evt.participantList[i];
              Shows(item.settledDebitBalance, item.settledCreditBalance,
                    PaidBy(k, m, true, item.participantId, SETTLED, item.currencyCode, currencies),
                    ReceivedBy(k, m, true, item.participantId, SETTLED, item.currencyCode, currencies),
                    item.currencyCode, currencies)
    ensures forall who, code ::
              PaidBy(k, m, true, who, SETTLED, code, currencies) != map[]
              || ReceivedBy(k, m, true, who, SETTLED, code, currencies) != map[] ==>
                exists i :: 0 <= i < |evt.participantList| && evt.participantList[i].participantId == who
                            && evt.participantList[i].currencyCode == code
  {
    hide BooksOk, RecalculatedFacts, PaidBy, ReceivedBy, Printed, Debits, Credits, ParticipantKeys;
    var facts, items := RecalculatedFacts(k, m, true, currencies), evt.participantList;
    FactCurrencies(k, m, true, currencies);
    forall i | 0 <= i < |items|
      ensures Shows(items[i].settledDebitBalance, items[i].settledCreditBalance,
                    PaidBy(k, m, true, items[i].participantId, SETTLED, items[i].currencyCode, currencies),
                    ReceivedBy(k, m, true, items[i].participantId, SETTLED, items[i].currencyCode, currencies),
                    items[i].currencyCode, currencies)
    {
      assert ItemKey(items[i]) in ItemKeys(items);
      ParticipantCurrency(facts, ItemKey(items[i]), currencies);
      DebitsAre(k, m, true, items[i].participantId, SETTLED, items[i].currencyCode, currencies);
      CreditsAre(k, m, true, items[i].participantId, SETTLED, items[i].currencyCode, currencies);
    }
    forall who, code | PaidBy(k, m, true, who, SETTLED, code, currencies) != map[]
                       || ReceivedBy(k, m, true, who, SETTLED, code, currencies) != map[]
      ensures exists i :: 0 <= i < |items| && items[i].participantId == who && items[i].currencyCode == code
    {
      KeyTouched(facts, ByParticipant(who, SETTLED, code));
      DebitsAre(k, m, true, who, SETTLED, code, currencies);
      CreditsAre(k, m, true, who, SETTLED, code, currencies);
      assert ByParticipant(who, SETTLED, code) in ItemKeys(items);
    }
  }

  lemma ParticipantCurrency(facts: Facts, key: Key, currencies: Currencies)
    requires key in ParticipantKeys(facts) && forall x :: x in facts ==> facts[x].currencyCode in currencies
    ensures key.currencyCode in currencies
  {
  }

  // ----- the stored matrix after a command

  /** The tables of this matrix show what the transfers of the books say, and its list shows their batches. */
  ghost predicate Pays(k: Books, m: Matrix, tb: Tables, settling: bool, currencies: Currencies)
  {
    && RowsPay(k, m, settling, tb.byParticipant, currencies) && RowsPay(k, m, settling, tb.byCurrency, currencies)
    && RowsPay(k, m, settling, tb.byStateAndCurrency, currencies)
    && OneRowPerKey(tb.byParticipant) && OneRowPerKey(tb.byCurrency) && OneRowPerKey(tb.byStateAndCurrency)
    && forall who, st, code ::
         ByParticipant(who, st, code) in RowKeys(tb.byParticipant) <==>
           PaidBy(k, m, settling, who, st, code, currencies) != map[]
           || ReceivedBy(k, m, settling, who, st, code, currencies) != map[]
  }

  ghost predicate Lists(k: Books, m: Matrix, rows: seq<MatrixBatch>, settling: bool, currencies: Currencies)
  {
    forall i :: 0 <= i < |rows| ==> RowLists(k, m, settling, rows[i], currencies)
  }

  lemma RecalculatedPays(k: Books, m: Matrix, settling: bool, currencies: Currencies)
    requires BooksOk(k, currencies) && Recalculate(k, m, settling, currencies).matrix.Some?
    ensures var n := Recalculate(k, m, settling, currencies).matrix.value;
            Pays(k, m, n.tables, settling, currencies) && Lists(k, m, n.batches, settling, currencies)
  {
    hide BooksOk, Recalculate, RowsPay, PaidBy, ReceivedBy, RowLists;
    TablesPay(k, m, settling, currencies);
    var rows := Recalculate(k, m, settling, currencies).matrix.value.batches;
    forall i | 0 <= i < |rows| ensures RowLists(k, m, settling, rows[i], currencies) {
      ListPays(k, m, settling, i, currencies);
    }
  }

  /** Selecting the same batches under the same id from the same records. */
  ghost predicate SameView(k: Books, m: Matrix, l: Books, n: Matrix)
  {
    && k.batches == l.batches && k.transfers == l.transfers && m.id == n.id
    && SelectedIds(k.batches.docs, m) == SelectedIds(l.batches.docs, n)
  }

  lemma SameBooked(k: Books, m: Matrix, l: Books, n: Matrix, settling: bool, currencies: Currencies)
    requires SameView(k, m, l, n)
    ensures forall x :: Counts(k, m, settling, x) <==> Counts(l, n, settling, x)
    ensures forall x, st, code ::
              Booked(k, m, settling, x, st, code, currencies) <==> Booked(l, n, settling, x, st, code, currencies)
  {
    hide SelectedIds, Legible;
  }

  lemma SameViewSame(k: Books, m: Matrix, l: Books, n: Matrix, settling: bool, currencies: Currencies)
    requires SameView(k, m, l, n)
    ensures forall x :: Counts(k, m, settling, x) <==> Counts(l, n, settling, x)
    ensures forall who, st, code ::
              PaidBy(k, m, settling, who, st, code, currencies) == PaidBy(l, n, settling, who, st, code, currencies)
    ensures forall who, st, code ::
              ReceivedBy(k, m, settling, who, st, code, currencies)
                  == ReceivedBy(l, n, settling, who, st, code, currencies)
    ensures forall st, code ::
              InState(k, m, settling, st, code, currencies) == InState(l, n, settling, st, code, currencies)
    ensures forall code :: InCurrency(k, m, settling, code, currencies) == InCurrency(l, n, settling, code, currencies)
    ensures forall x :: AmountsInside(k, x, currencies) == AmountsInside(l, x, currencies)
  {
    hide SelectedIds, Counts, Booked, Weight, Legible;
    SameBooked(k, m, l, n, settling, currencies);
    forall x, code
      ensures BookedInAny(k, m, settling, x, code, currencies) <==> BookedInAny(l, n, settling, x, code, currencies) {}
  }

  lemma SameViewPays(k: Books, m: Matrix, l: Books, n: Matrix, tb: Tables, rows: seq<MatrixBatch>, settling: bool,
                     currencies: Currencies)
    requires SameView(k, m, l, n)
    requires Pays(k, m, tb, settling, currencies) && Lists(k, m, rows, settling, currencies)
    ensures Pays(l, n, tb, settling, currencies) && Lists(l, n, rows, settling, currencies)
  {
    hide PaidBy, ReceivedBy, InState, InCurrency, Counts, AmountsInside, Shows, SelectedIds, Printed;
    SameViewSame(k, m, l, n, settling, currencies);
    SameRowPays(k, m, l, n, tb.byParticipant, settling, currencies);
    SameRowPays(k, m, l, n, tb.byCurrency, settling, currencies);
    SameRowPays(k, m, l, n, tb.byStateAndCurrency, settling, currencies);
  }

  lemma SameRowPays(k: Books, m: Matrix, l: Books, n: Matrix, rows: seq<Row>, settling: bool, currencies: Currencies)
    requires SameView(k, m, l, n) && RowsPay(k, m, settling, rows, currencies)
    ensures RowsPay(l, n, settling, rows, currencies)
  {
    hide PaidBy, ReceivedBy, InState, InCurrency, Shows, SelectedIds;
    SameViewSame(k, m, l, n, settling, currencies);
    forall i | 0 <= i < |rows| ensures RowPays(l, n, settling, rows[i], currencies) {
      assert RowPays(k, m, settling, rows[i], currencies);
    }
  }

  /** The matrix that a creating, recalculating or editing command is about. */
  function About(w: World, c: Command): MatrixId
    requires Recalculates(c)
  {
    match c
    case CreateStaticMatrixCmd(newId, _) => IdFor(w, newId)
    case CreateDynamicMatrixCmd(newId, _, _, _, _, _) => IdFor(w, newId)
    case RecalculateMatrixCmd(id) => id
    case AddBatchesToMatrixCmd(id, _) => id
    case RemoveBatchesFromMatrixCmd(id, _) => id
  }

  lemma RestoredPays(w: World, stored: Matrix, working: Matrix, currencies: Currencies)
    requires BooksOk(w.books, currencies) && ValidRepo(w.matrices)
    requires stored.id == working.id && stored.kind == working.kind
    requires RecalculateAndStore(w, stored, working, IDLE, currencies).outcome == Done
    ensures var v := RecalculateAndStore(w, stored, working, IDLE, currencies).world;
            && stored.id in v.matrices.docs
            && var n := v.matrices.docs[stored.id];
               Pays(w.books, n, n.tables, false, currencies) && Lists(w.books, n, n.batches, false, currencies)
  {
    hide BooksOk, ValidRepo, SelectedIds, Recalculate, Pays, Lists, SameBatches, SameTransfers, LedgerGrows, RowIds,
         BatchJournalled;
    var busy := working.(state := BUSY);
    RecalculatedPays(w.books, busy, false, currencies);
    RecalculateKeeps(w.books, busy, false, currencies);
    var n := Recalculate(w.books, busy, false, currencies).matrix.value.(state := IDLE);
    SelectsAgainNow(w.books.batches.docs, Recalculate(w.books, busy, false, currencies).books.batches.docs, busy, n);
    SameViewPays(w.books, busy, w.books, n, n.tables, n.batches, false, currencies);
  }

  lemma SelectsAgainNow(a: map<string, Batch>, b: map<string, Batch>, m: Matrix, n: Matrix)
    requires SameBatches(a, b) && n.kind == m.kind && Fresh(n.batches, SelectedIds(a, m), b)
    ensures SelectedIds(a, n) == SelectedIds(a, m)
  {
    hide RowIds, StateName;
  }

  lemma StartPays(w: World, start: World, n: Matrix, currencies: Currencies)
    requires start == w.(books := w.books.(nextId := start.books.nextId))
    requires Pays(start.books, n, n.tables, false, currencies) && Lists(start.books, n, n.batches, false, currencies)
    ensures Pays(w.books, n, n.tables, false, currencies) && Lists(w.books, n, n.batches, false, currencies)
  {
    hide Pays, Lists, SelectedIds;
    SameViewPays(start.books, n, w.books, n, n.tables, n.batches, false, currencies);
  }

  /** After a creating, recalculating or editing command that completes, the stored matrix shows in its tables what the
      transfers of the batches it lists say, and in its list those batches with their totals. */
  lemma CommandPays(w: World, c: Command, currencies: Currencies)
    requires WorldOk(w, currencies) && Recalculates(c) && Execute(w, c, currencies).outcome == Done
    ensures var v, mid := Execute(w, c, currencies).world, About(w, c);
            && mid in v.matrices.docs
            && var n := v.matrices.docs[mid];
               Pays(w.books, n, n.tables, false, currencies) && Lists(w.books, n, n.batches, false, currencies)
  {
    hide BooksOk, SequencesOk, OwnersOk, EntriesOk, LocksOk, ValidRepo, RecalculateAndStore, AddRows, RemoveRows,
         BatchesByIds, ZeroRows, Pays, Lists, DrawId, Storable;
    match c
    case CreateStaticMatrixCmd(newId, ids) =>
      UnusedWhenDrawn(w, newId, currencies);
      DrawIdKeeps(w, newId, currencies);
      var m := Matrix(IdFor(w, newId), STATIC, BUSY, ZeroRows(BatchesByIds(w.books, ids)), NoBalances);
      RestoredPays(DrawId(w, newId), m, m, currencies);
      Drawn(w, newId);
      StartPays(w, DrawId(w, newId), Execute(w, c, currencies).world.matrices.docs[m.id], currencies);
    case CreateDynamicMatrixCmd(newId, from, to, codes, model, statuses) =>
      UnusedWhenDrawn(w, newId, currencies);
      DrawIdKeeps(w, newId, currencies);
      var m := Matrix(IdFor(w, newId), DYNAMIC(from, to, codes, model, statuses), BUSY, [], NoBalances);
      RestoredPays(DrawId(w, newId), m, m, currencies);
      Drawn(w, newId);
      StartPays(w, DrawId(w, newId), Execute(w, c, currencies).world.matrices.docs[m.id], currencies);
    case RecalculateMatrixCmd(id) =>
      StoredIsStorable(w, id, currencies);
      RestoredPays(w, w.matrices.docs[id], w.matrices.docs[id], currencies);
    case AddBatchesToMatrixCmd(id, ids) =>
      StoredIsStorable(w, id, currencies);
      var m := w.matrices.docs[id];
      RestoredPays(w, m, m.(batches := AddRows(m.batches, BatchesByIds(w.books, ids))), currencies);
    case RemoveBatchesFromMatrixCmd(id, ids) =>
      StoredIsStorable(w, id, currencies);
      var m := w.matrices.docs[id];
      RestoredPays(w, m, m.(batches := RemoveRows(m.batches, BatchesByIds(w.books, ids))), currencies);
  }

  lemma Drawn(w: World, newId: Option<string>)
    ensures var start := DrawId(w, newId); start == w.(books := w.books.(nextId := start.books.nextId))
  {
  }

  /** After a move that completes the tables show what the transfers of the selected batches say, under the states from
      before it; when settling, those of the batches that are paid out, under SETTLED. */
  lemma MovePays(w: World, id: MatrixId, mv: Move, currencies: Currencies)
    requires WorldOk(w, currencies) && Execute(w, MoveMatrixCmd(id, mv), currencies).outcome == Done
    ensures var v := Execute(w, MoveMatrixCmd(id, mv), currencies).world;
            && id in w.matrices.docs && id in v.matrices.docs
            && Pays(w.books, w.matrices.docs[id], v.matrices.docs[id].tables, mv == Settle, currencies)
  {
    hide BooksOk, SequencesOk, OwnersOk, ValidRepo, EntriesOk, LocksOk, Recalculate, Sweep, RowsToMove, CurrenciesKnown,
         Items, Pays, Lists, SelectedIds;
    StoredIsStorable(w, id, currencies);
    var m := w.matrices.docs[id];
    var busy := m.(state := BUSY);
    RecalculatedPays(w.books, busy, mv == Settle, currencies);
    RecalculateKeeps(w.books, busy, mv == Settle, currencies);
    SelectionIgnoresState(w.books.batches.docs, m, BUSY);
    var n := Recalculate(w.books, busy, mv == Settle, currencies).matrix.value;
    SameViewPays(w.books, busy, w.books, m, n.tables, n.batches, mv == Settle, currencies);
  }
}
