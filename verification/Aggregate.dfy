/** packages/domain-lib/src/aggregate.ts: the aggregate as an object over its stores. Every method is proved
    against the function of the stored state that specifies it. */
module Aggregates {
  import opened Common
  import opened Model
  import opened Converters
  import opened MatrixTables
  import opened Repositories
  import opened Ledgers
  import opened Recalculation
  import opened Allocation
  import opened Commands
  import opened KeyedLists
  import opened Stores
  import opened MatrixObjects
  import opened LedgerObjects
  import opened BatchObjects
  import opened Refreshing

  /** The outgoing messages: commands still to be delivered, and events in the order they were sent. */
  class MessageProducer {
    var commands: multiset<Mark>
    var events: seq<SettledEvt>

    constructor ()
      ensures commands == multiset{} && events == []
    {
      commands, events := multiset{}, [];
    }

    method SendCommand(mark: Mark)
      modifies this
      ensures commands == old(commands) + multiset{mark} && events == old(events)
    {
      commands := commands + multiset{mark};
    }

    method SendEvent(evt: SettledEvt)
      modifies this
      ensures events == old(events) + [evt] && commands == old(commands)
    {
      events := events + [evt];
    }
  }

  /** Selecting the ids of a list from a store is the same whether or not unknown ids are left out first. */
  lemma {:induction false} PickSame<K(!new)>(order: seq<K>, a: set<K>, b: set<K>)
    requires forall k :: k in order ==> (k in a <==> k in b)
    ensures Pick(order, a) == Pick(order, b)
  {
    if order != [] {
      assert order[0] in order && forall k :: k in order[1..] ==> k in order;
      PickSame(order[1..], a, b);
    }
  }

  lemma ListedSelection(r: Repo<string, Batch>, m: Matrix, ids: seq<string>)
    requires ValidRepo(r) && m.kind == STATIC && |ids| == |m.batches| && forall i :: 0 <= i < |ids| ==>
            ids[i] == m.batches[i].id
    ensures Select(r, Includes(ids)) == Select(r, SelectedIds(r.docs, m))
  {
    forall k | k in r.order ensures k in Includes(ids) <==> k in SelectedIds(r.docs, m) {
      if k in RowIds(m.batches) {
        var i :| 0 <= i < |m.batches| && m.batches[i].id == k;
        assert ids[i] == k;
      }
      if k in Includes(ids) {
        var i :| 0 <= i < |ids| && ids[i] == k;
        assert m.batches[i].id == k;
      }
    }
    PickSame(r.order, Includes(ids), SelectedIds(r.docs, m));
  }

  class SettlementsAggregate {
    const currencies: Currencies
    const batchRepo: SettlementBatchRepo
    const transferRepo: SettlementBatchTransferRepo
    const matrixRepo: SettlementMatrixRequestRepo
    const abAdapter: AccountsBalancesAdapter
    const msgProducer: MessageProducer
    var configs: map<string, pos>
    var nextId: nat

    ghost predicate Valid()
      reads this, batchRepo, transferRepo, matrixRepo, abAdapter
    {
      batchRepo.Valid() && transferRepo.Valid() && matrixRepo.Valid() && abAdapter.currencies == currencies
    }

    function Stored(): Books
      reads this, batchRepo, transferRepo, abAdapter
    {
      Books(batchRepo.View(), transferRepo.View(), abAdapter.View(), nextId)
    }

    function View(): World
      reads this, batchRepo, transferRepo, matrixRepo, abAdapter, msgProducer
    {
      World(Stored(), matrixRepo.View(), configs, msgProducer.commands, msgProducer.events)
    }

    constructor (currencies: Currencies)
      ensures Valid() && View() == Empty && this.currencies == currencies
      ensures fresh(batchRepo) && fresh(transferRepo) && fresh(matrixRepo) && fresh(abAdapter) && fresh(msgProducer)
    {
      this.currencies := currencies;
      var batches := new SettlementBatchRepo();
      var transfers := new SettlementBatchTransferRepo();
      var matrices := new SettlementMatrixRequestRepo();
      var adapter := new AccountsBalancesAdapter(currencies);
      var producer := new MessageProducer();
      batchRepo, transferRepo, matrixRepo, abAdapter, msgProducer := batches, transfers, matrices, adapter, producer;
      configs, nextId := map[], 0;
    }

    // ----- recalculation

    /** `randomUUID` */
    method RandomUuid() returns (id: nat)
      modifies `nextId
      ensures id == old(nextId) && nextId == id + 1
    {
      id := nextId;
      nextId := nextId + 1;
    }

    /** Finds the account of a participant in the batch, or opens one. */
    method OpenAccount(b: SettlementBatch, participantId: string) returns (accountExtId: nat, added: bool)
      requires Valid()
      modifies `nextId, abAdapter, b
      ensures Valid()
      ensures Recalculation.OpenAccount(old(Stored()), old(b.View()), participantId)
          == Opened(Stored(), b.View(), accountExtId, added)
    {
      var account := b.GetAccount(participantId, b.header.currencyCode);
      if account.Some? {
        return account.value.accountExtId, false;
      }
      var id := RandomUuid();
      accountExtId := abAdapter.CreateAccount(id, participantId, b.header.currencyCode);
      b.AddAccount(accountExtId, participantId, b.header.currencyCode);
      added := true;
    }

    /** Journals a transfer, marks it as journalled, and refreshes the accounts of its batch. */
    method JournalTransfer(b: SettlementBatch, t: Transfer) returns (ok: bool, added: bool)
      requires Valid()
      modifies `nextId, abAdapter, transferRepo, b
      ensures Valid()
      ensures Recalculation.JournalTransfer(old(Stored()), old(b.View()), t, currencies)
          == Journalled(Stored(), b.View(), added, ok)
    {
      hide StringToBigint, Put, PostEntry, RefreshBatch, FindBatchAccount, Recalculation.OpenAccount;
      var debitedAccountId, debitedAdded := OpenAccount(b, t.payerFspId);
      var creditedAccountId, creditedAdded := OpenAccount(b, t.payeeFspId);
      added := debitedAdded || creditedAdded;
      var entry := JournalEntry(t.transferId, b.header.batchUUID, b.header.currencyCode, t.amount, debitedAccountId,
          creditedAccountId);
      ghost var before := abAdapter.View();
      SingleEntry(before, entry, currencies);
      ok := abAdapter.CreateJournalEntries([entry]);
      if !ok {
        return;
      }
      transferRepo.StoreBatchTransfer(
        Transfer(t.transferId, t.transferTimestamp, t.payerFspId, t.payeeFspId, t.currencyCode, t.amount,
                 b.header.id, b.header.batchName, Some(t.transferId)));
      var refreshed: seq<Batch>;
      RefreshOne(b.View(), abAdapter.View(), currencies);
      ok, refreshed := UpdateBatchAccountBalances(abAdapter, [b.View()]);
      if ok {
        b.accounts := refreshed[0].accounts;
      }
    }

    /** One turn of the loop over the transfers of a batch. */
    method TallyTransfer(matrix: SettlementMatrix, b: SettlementBatch, t: Transfer, settlingMatrix: bool)
      returns (ok: bool, counted: bool, amount: int)
      requires Valid() && b.header.currencyCode in currencies
      modifies `nextId, abAdapter, transferRepo, batchRepo, b, matrix
      ensures Valid()
      ensures matrix.View() == old(matrix.View()).(tables := matrix.Balances())
      ensures forall debit, credit ::
        var before := Tally(old(Stored()), old(b.View()), old(matrix.Balances()), debit, credit, true);
        var after := Recalculation.TallyTransfer(before, t, matrix.id, settlingMatrix, currencies);
        && after.books == Stored() && after.ok == ok
        && (ok ==> var added := if counted then amount else 0;
                   after == Tally(Stored(), b.View(), matrix.Balances(), debit + added, credit + added, true))
    {
      hide StringToBigint, Put, Recalculation.JournalTransfer, MatrixTables.AddBalance, FindBatchAccount;
      counted, amount := false, 0;
      var accountAdded := false;
      if t.journalEntryId.None? {
        ok, accountAdded := JournalTransfer(b, t);
        if !ok {
          return;
        }
      }
      if settlingMatrix {
        if b.header.ownerMatrixId == None || b.header.ownerMatrixId != Some(matrix.id) {
          return true, false, 0;
        } else if b.header.state != AWAITING_SETTLEMENT {
          return true, false, 0;
        }
      }
      var decimals := currencies[b.header.currencyCode];
      ok := matrix.AddBalance(t, b.header.currencyCode, decimals, if settlingMatrix then SETTLED else b.header.state);
      if !ok {
        return;
      }
      if accountAdded {
        batchRepo.UpdateBatch(b.View());
      }
      var value := StringToBigint(t.amount, decimals);
      if value.Err? {
        return false, false, 0;
      }
      counted, amount := true, value.value;
    }

    /** The loop over the transfers of one batch. */
    method TallyTransfers(matrix: SettlementMatrix, b: SettlementBatch, ts: seq<Transfer>, settlingMatrix: bool)
      returns (ok: bool, debit: int, credit: int)
      requires Valid() && b.header.currencyCode in currencies
      modifies `nextId, abAdapter, transferRepo, batchRepo, b, matrix
      ensures Valid()
      ensures matrix.View() == old(matrix.View()).(tables := matrix.Balances())
      ensures var start := Tally(old(Stored()), old(b.View()), old(matrix.Balances()), 0, 0, true);
              var after := Recalculation.TallyTransfers(start, ts, matrix.id, settlingMatrix, currencies);
              && after.books == Stored() && after.ok == ok
              && (ok ==> after == Tally(Stored(), b.View(), matrix.Balances(), debit, credit, true))
    {
      hide StringToBigint, Put, Recalculation.TallyTransfer, Printed;
      debit, credit := 0, 0;
      ghost var start := Tally(Stored(), b.View(), matrix.Balances(), 0, 0, true);
      for i := 0 to |ts|
        invariant Valid() && matrix.View() == old(matrix.View()).(tables := matrix.Balances())
        invariant Recalculation.TallyTransfers(Tally(Stored(), b.View(), matrix.Balances(), debit, credit, true),
                                               ts[i..], matrix.id, settlingMatrix, currencies)
               == Recalculation.TallyTransfers(start, ts, matrix.id, settlingMatrix, currencies)
      {
        assert ts[i..][0] == ts[i] && ts[i..][1..] == ts[i + 1..];
        ghost var before := Tally(Stored(), b.View(), matrix.Balances(), debit, credit, true);
        var counted, amount;
        ok, counted, amount := TallyTransfer(matrix, b, ts[i], settlingMatrix);
        ghost var after := Recalculation.TallyTransfer(before, ts[i], matrix.id, settlingMatrix, currencies);
        assert Recalculation.TallyTransfers(before, ts[i..], matrix.id, settlingMatrix, currencies)
            == Recalculation.TallyTransfers(after, ts[i + 1..], matrix.id, settlingMatrix, currencies);
        if !ok {
          StoppedTally(after, ts[i + 1..], matrix.id, settlingMatrix, currencies);
          return;
        }
        if counted {
          debit, credit := debit + amount, credit + amount;
        }
      }
      ok := true;
    }

    /** One batch: its transfers, and the row it adds to the matrix. */
    method RecalculateBatch(matrix: SettlementMatrix, dto: Batch, settlingMatrix: bool) returns (ok: bool)
      requires Valid()
      modifies `nextId, abAdapter, transferRepo, batchRepo, matrix
      ensures Valid()
      ensures matrix.View() == old(matrix.View()).(batches := matrix.batches, tables := matrix.Balances())
      ensures var before := Progress(old(Stored()), old(matrix.batches), old(matrix.Balances()), true);
              var after := Recalculation.RecalculateBatch(before, dto, matrix.id, settlingMatrix, currencies);
              && after.books == Stored() && after.ok == ok
              && (ok ==> after == Progress(Stored(), matrix.batches, matrix.Balances(), true))
    {
      hide StringToBigint, Put, Recalculation.TallyTransfers, Printed, TransfersOf;
      if dto.currencyCode !in currencies {
        return false;
      }
      var b := new SettlementBatch(dto);
      var ts := transferRepo.GetAllTransfersByBatchId(dto.id);
      assert ts == TransfersOf(Stored(), dto.id) by { TransfersAre(Stored(), dto.id); }
      var debit, credit;
      ok, debit, credit := TallyTransfers(matrix, b, ts, settlingMatrix);
      if !ok {
        return;
      }
      var batchDebitBalance := BigintToString(debit, currencies[dto.currencyCode]);
      var batchCreditBalance := BigintToString(credit, currencies[dto.currencyCode]);
      matrix.AddBatch(b.View(), batchDebitBalance, batchCreditBalance);
      ok := true;
    }

    /** `_recalculateMatrix`; not ok where it throws, with what was stored until then. */
    method RecalculateMatrix(matrix: SettlementMatrix, settlingMatrix: bool) returns (ok: bool)
      requires Valid()
      modifies `nextId, abAdapter, transferRepo, batchRepo, matrix
      ensures Valid()
      ensures Recalculate(old(Stored()), old(matrix.View()), settlingMatrix, currencies)
           == Recalculated(Stored(), if ok then Some(matrix.View()) else None)
    {
      hide Put, Recalculation.RecalculateBatch, SelectedIds, Refreshing.AllFound, RefreshBatch;
      ghost var m := matrix.View();
      var batches := SelectedBatches(matrix);
      matrix.Clear();
      var refreshed;
      ok, refreshed := UpdateBatchAccountBalances(abAdapter, batches);
      if !ok {
        return;
      }
      ghost var start := Progress(Stored(), [], NoBalances, true);
      for i := 0 to |refreshed|
        invariant Valid()
        invariant matrix.View() == m.(batches := matrix.batches, tables := matrix.Balances())
        invariant RecalculateBatches(Progress(Stored(), matrix.batches, matrix.Balances(), true), refreshed[i..], m.id,
            settlingMatrix, currencies)
               == RecalculateBatches(start, refreshed, m.id, settlingMatrix, currencies)
      {
        assert refreshed[i..][0] == refreshed[i] && refreshed[i..][1..] == refreshed[i + 1..];
        ghost var before := Progress(Stored(), matrix.batches, matrix.Balances(), true);
        ok := RecalculateBatch(matrix, refreshed[i], settlingMatrix);
        ghost var after := Recalculation.RecalculateBatch(before, refreshed[i], m.id, settlingMatrix, currencies);
        assert RecalculateBatches(before, refreshed[i..], m.id, settlingMatrix, currencies)
            == RecalculateBatches(after, refreshed[i + 1..], m.id, settlingMatrix, currencies);
        if !ok {
          StoppedProgress(after, refreshed[i + 1..], m.id, settlingMatrix, currencies);
          return;
        }
      }
      ok := true;
    }

    /** The batches to recalculate: those a static matrix lists, or all that meet the criteria of a dynamic one. */
    method SelectedBatches(matrix: SettlementMatrix) returns (batches: seq<Batch>)
      requires Valid()
      ensures batches == Recalculation.SelectedBatches(Stored(), matrix.View())
    {
      hide MatchesCriteria, Pick, Records;
      ListIsValid(batchRepo.batches, BatchKey);
      match matrix.kind
      case STATIC =>
        var ids: seq<string> := [];
        for i := 0 to |matrix.batches|
          invariant |ids| == i && forall j :: 0 <= j < i ==> ids[j] == matrix.batches[j].id
        {
          ids := ids + [matrix.batches[i].id];
        }
        ListedSelection(batchRepo.View(), matrix.View(), ids);
        batches := batchRepo.GetBatchesByIds(ids);
      case DYNAMIC(dateFrom, dateTo, currencyCodes, settlementModel, batchStatuses) =>
        batches := batchRepo.GetBatchesByCriteria(dateFrom, dateTo, settlementModel, currencyCodes, batchStatuses);
    }

    // ----- transfers and settlement models

    /** `_getOrCreateBatch` */
    method GetOrCreateBatch(model: string, currencyCode: string, start: nat, now: int)
      returns (batch: Batch, created: bool)
      requires Valid()
      modifies `nextId, batchRepo
      ensures Valid()
      ensures Commands.GetOrCreateBatch(old(Stored()), model, currencyCode, start, now)
              == Allocated(Stored(), batch, created)
    {
      hide BatchName, BatchIdentifier, Put, Select;
      var batchName := BatchName(model, currencyCode, start);
      var existing := batchRepo.GetBatchesByName(batchName);
      if |existing| == 0 {
        var firstUuid := RandomUuid();
        return NewBatch(firstUuid, model, currencyCode, batchName, 1, now), true;
      }
      var top := Highest(existing);
      if top.state == OPEN {
        return top, false;
      }
      var uuid := RandomUuid();
      batch := NewBatch(uuid, model, currencyCode, batchName, top.batchSequence + 1, now);
      batchRepo.StoreNewBatch(batch);
      created := true;
    }

    /** `handleTransfer` */
    method HandleTransfer(p: TransferPayload, now: int) returns (outcome: Outcome)
      requires Valid()
      modifies `nextId, batchRepo, transferRepo
      ensures Valid()
      ensures Effect(View(), outcome) == ProcessTransfer(old(View()), p, now, currencies)
    {
      hide Validate, Put, Commands.GetOrCreateBatch, WindowStart;
      outcome := Validate(p, currencies);
      if outcome != Done {
        return;
      }
      if p.settlementModel !in configs {
        return Failed(NoSettlementConfig);
      }
      ValidatedTimestamp(p, currencies);
      var batchStart := WindowStart(p.completedTimestamp, configs[p.settlementModel]);
      var batch, created := GetOrCreateBatch(p.settlementModel, p.currencyCode, batchStart, now);
      transferRepo.StoreBatchTransfer(NewTransfer(p, batch));
      if created {
        batchRepo.StoreNewBatch(batch);
      }
    }

    method CreateSettlementConfig(model: string, batchCreateInterval: nat) returns (outcome: Outcome)
      requires Valid()
      modifies `configs
      ensures Valid()
      ensures Effect(View(), outcome) == Commands.CreateSettlementConfig(old(View()), model, batchCreateInterval)
    {
      if model == "" {
        return Failed(InvalidSettlementModel);
      }
      if batchCreateInterval == 0 {
        return Failed(InvalidTimestamp);
      }
      if model in configs {
        return Failed(SettlementModelAlreadyExists);
      }
      configs := configs[model := batchCreateInterval];
      outcome := Done;
    }

    // ----- creating, recalculating and editing matrices

    /** `_updateMatrixStateAndSave` */
    method UpdateMatrixStateAndSave(matrix: SettlementMatrix, state: MatrixState)
      requires Valid()
      modifies matrixRepo, matrix
      ensures Valid() && matrix.View() == old(matrix.View()).(state := state)
      ensures matrixRepo.View() == Put(old(matrixRepo.View()), old(matrix.id), matrix.View())
    {
      matrix.state := state;
      matrixRepo.StoreMatrix(matrix.View());
    }

    /** Recalculates a matrix that is stored BUSY, and stores it again when that completes. */
    method RecalculateAndSave(matrix: SettlementMatrix, state: MatrixState) returns (outcome: Outcome)
      requires Valid()
      modifies `nextId, abAdapter, transferRepo, batchRepo, matrixRepo, matrix
      ensures Valid()
      ensures var r := Recalculate(old(Stored()), old(matrix.View()), false, currencies);
              Effect(View(), outcome) ==
                match r.matrix
                case None => Effect(old(View()).(books := r.books), Failed(RecalculationFailed))
                case Some(m) => Effect(Commands.StoreMatrix(old(View()).(books := r.books), m.(state := state)), Done)
    {
      hide Put, Recalculate;
      var ok := RecalculateMatrix(matrix, false);
      if !ok {
        return Failed(RecalculationFailed);
      }
      UpdateMatrixStateAndSave(matrix, state);
      outcome := Done;
    }

    /** Stores a BUSY matrix, recalculates it and stores the result. */
    method StoreAndRecalculate(matrix: SettlementMatrix, state: MatrixState) returns (outcome: Outcome)
      requires Valid() && matrix.state == BUSY
      modifies `nextId, abAdapter, transferRepo, batchRepo, matrixRepo, matrix
      ensures Valid()
      ensures Effect(View(), outcome)
           == RecalculateAndStore(old(View()), old(matrix.View()), old(matrix.View()), state, currencies)
    {
      hide Put, Recalculate;
      assert matrix.View().(state := BUSY) == matrix.View();
      matrixRepo.StoreMatrix(matrix.View());
      outcome := RecalculateAndSave(matrix, state);
    }

    /** `batches.forEach(batch => newMatrix.addBatch(batch, "0", "0"))` */
    method AddAll(matrix: SettlementMatrix, batches: seq<Batch>)
      modifies matrix
      ensures matrix.View() == old(matrix.View()).(batches := old(matrix.batches) + ZeroRows(batches))
    {
      for i := 0 to |batches|
        invariant matrix.View() == old(matrix.View()).(batches := matrix.batches)
        invariant matrix.batches + ZeroRows(batches[i..]) == old(matrix.batches) + ZeroRows(batches)
      {
        assert batches[i..][0] == batches[i] && batches[i..][1..] == batches[i + 1..];
        matrix.AddBatch(batches[i], "0", "0");
      }
      assert matrix.batches + [] == matrix.batches;
    }

    /** Is an id given, and in use? */
    method AlreadyExists(matrixId: Option<string>) returns (r: bool)
      requires Valid()
      ensures r <==> HasId(matrixId) && NewMatrixId(matrixId, nextId) in matrixRepo.View().docs
    {
      if matrixId.Some? && matrixId.value != "" {
        var existing := matrixRepo.GetMatrixById(Given(matrixId.value));
        return existing.Some?;
      }
      return false;
    }

    method DrawMatrixId(matrixId: Option<string>) returns (id: MatrixId)
      requires Valid()
      modifies `nextId
      ensures Valid() && View() == DrawId(old(View()), matrixId) && id == NewMatrixId(matrixId, old(nextId))
    {
      if matrixId.Some? && matrixId.value != "" {
        return Given(matrixId.value);
      }
      var n := RandomUuid();
      id := Generated(n);
    }

    method CreateStaticSettlementMatrix(matrixId: Option<string>, batchIds: seq<string>) returns (outcome: Outcome)
      requires Valid()
      modifies `nextId, abAdapter, transferRepo, batchRepo, matrixRepo
      ensures Valid()
      ensures Effect(View(), outcome) == CreateStaticMatrix(old(View()), matrixId, batchIds, currencies)
    {
      hide Put, RecalculateAndStore, Select, ZeroRows, HasId, NewMatrixId, Includes;
      var batches := batchRepo.GetBatchesByIds(batchIds);
      var existing := AlreadyExists(matrixId);
      if existing {
        return Failed(MatrixAlreadyExists);
      }
      var id := DrawMatrixId(matrixId);
      var matrix := new SettlementMatrix(Matrix(id, STATIC, IDLE, [], NoBalances));
      AddAll(matrix, batches);
      assert [] + ZeroRows(batches) == ZeroRows(batches);
      matrix.state := BUSY;
      outcome := StoreAndRecalculate(matrix, IDLE);
    }

    method CreateDynamicSettlementMatrix(matrixId: Option<string>, settlementModel: string, currencyCodes: seq<string>,
                                         batchStatuses: seq<string>, fromDate: int, toDate: int)
      returns (outcome: Outcome)
      requires Valid()
      modifies `nextId, abAdapter, transferRepo, batchRepo, matrixRepo
      ensures Valid()
      ensures Effect(View(), outcome)
           == CreateDynamicMatrix(old(View()), matrixId,
               DYNAMIC(fromDate, toDate, currencyCodes, settlementModel, batchStatuses), currencies)
    {
      hide Put, RecalculateAndStore, Select;
      var existing := AlreadyExists(matrixId);
      if existing {
        return Failed(MatrixAlreadyExists);
      }
      var id := DrawMatrixId(matrixId);
      var kind := DYNAMIC(fromDate, toDate, currencyCodes, settlementModel, batchStatuses);
      var matrix := new SettlementMatrix(Matrix(id, kind, IDLE, [], NoBalances));
      matrix.state := BUSY;
      outcome := StoreAndRecalculate(matrix, IDLE);
    }

    method RecalculateSettlementMatrix(id: MatrixId) returns (outcome: Outcome)
      requires Valid()
      modifies `nextId, abAdapter, transferRepo, batchRepo, matrixRepo
      ensures Valid()
      ensures Effect(View(), outcome) == Commands.RecalculateMatrix(old(View()), id, currencies)
    {
      hide Put, Recalculate;
      FoundMatrix(matrixRepo, id);
      var matrixDto := matrixRepo.GetMatrixById(id);
      if matrixDto.None? {
        return Failed(MatrixNotFound);
      }
      if matrixDto.value.state != IDLE && matrixDto.value.state != OUT_OF_SYNC {
        return Failed(CannotRecalculate);
      }
      var matrix := new SettlementMatrix(matrixDto.value);
      var previousState := matrix.state;
      matrix.state := BUSY;
      matrixRepo.StoreMatrix(matrix.View());
      outcome := RecalculateAndSave(matrix, if previousState == OUT_OF_SYNC then IDLE else previousState);
    }

    /** The loop that adds the batches the matrix does not list yet. */
    method AddMissing(matrix: SettlementMatrix, newBatches: seq<Batch>)
      modifies matrix
      ensures matrix.View() == old(matrix.View()).(batches := AddRows(old(matrix.batches), newBatches))
    {
      for i := 0 to |newBatches|
        invariant matrix.View() == old(matrix.View()).(batches := matrix.batches)
        invariant AddRows(matrix.batches, newBatches[i..]) == AddRows(old(matrix.batches), newBatches)
      {
        assert newBatches[i..][0] == newBatches[i] && newBatches[i..][1..] == newBatches[i + 1..];
        var existing := ListsBatch(matrix.batches, newBatches[i].id);
        if !existing {
          matrix.AddBatch(newBatches[i], "0", "0");
        }
      }
    }

    /** The loop that removes the batches the matrix lists. */
    method RemoveListed(matrix: SettlementMatrix, toRemove: seq<Batch>)
      modifies matrix
      ensures matrix.View() == old(matrix.View()).(batches := RemoveRows(old(matrix.batches), toRemove))
    {
      for i := 0 to |toRemove|
        invariant matrix.View() == old(matrix.View()).(batches := matrix.batches)
        invariant RemoveRows(matrix.batches, toRemove[i..]) == RemoveRows(old(matrix.batches), toRemove)
      {
        assert toRemove[i..][0] == toRemove[i] && toRemove[i..][1..] == toRemove[i + 1..];
        var existing := ListsBatch(matrix.batches, toRemove[i].id);
        if existing {
          matrix.RemoveBatch(toRemove[i]);
        } else {
          NothingToRemove(matrix.batches, toRemove[i].id);
        }
      }
    }

    method AddBatchesToStaticSettlementMatrix(matrixId: MatrixId, newBatchIds: seq<string>) returns (outcome: Outcome)
      requires Valid()
      modifies `nextId, abAdapter, transferRepo, batchRepo, matrixRepo
      ensures Valid()
      ensures Effect(View(), outcome) == AddBatches(old(View()), matrixId, newBatchIds, currencies)
    {
      hide Put, Recalculate, Select;
      FoundMatrix(matrixRepo, matrixId);
      var matrixDto := matrixRepo.GetMatrixById(matrixId);
      if matrixDto.None? {
        return Failed(MatrixNotFound);
      }
      if matrixDto.value.kind != STATIC {
        return Failed(MatrixIsClosed);
      }
      if matrixDto.value.state != IDLE {
        return Failed(CannotAddBatches);
      }
      var matrix := new SettlementMatrix(matrixDto.value);
      matrix.state := BUSY;
      matrixRepo.StoreMatrix(matrix.View());
      var newBatches := batchRepo.GetBatchesByIds(newBatchIds);
      AddMissing(matrix, newBatches);
      outcome := RecalculateAndSave(matrix, IDLE);
    }

    method RemoveBatchesFromStaticSettlementMatrix(matrixId: MatrixId, batchIdsToRemove: seq<string>)
      returns (outcome: Outcome)
      requires Valid()
      modifies `nextId, abAdapter, transferRepo, batchRepo, matrixRepo
      ensures Valid()
      ensures Effect(View(), outcome) == RemoveBatches(old(View()), matrixId, batchIdsToRemove, currencies)
    {
      hide Put, Recalculate, Select;
      FoundMatrix(matrixRepo, matrixId);
      var matrixDto := matrixRepo.GetMatrixById(matrixId);
      if matrixDto.None? {
        return Failed(MatrixNotFound);
      }
      if matrixDto.value.kind != STATIC {
        return Failed(MatrixIsClosed);
      }
      if matrixDto.value.state != IDLE {
        return Failed(CannotRemoveBatches);
      }
      var matrix := new SettlementMatrix(matrixDto.value);
      matrix.state := BUSY;
      matrixRepo.StoreMatrix(matrix.View());
      var toRemove := batchRepo.GetBatchesByIds(batchIdsToRemove);
      RemoveListed(matrix, toRemove);
      outcome := RecalculateAndSave(matrix, IDLE);
    }

    // ----- the commands that move batches

    /** What the five commands begin with: the matrix in the right state, stored BUSY and recalculated. Without one,
        `error` says why. */
    method BeginMove(id: MatrixId, required: MatrixState, refusal: Error, settlingMatrix: bool, ghost mv: Move)
      returns (matrix: SettlementMatrix?, error: Error)
      requires Valid() && required == From(mv) && refusal == Refusal(mv) && settlingMatrix == mv.Settle?
      modifies `nextId, abAdapter, transferRepo, batchRepo, matrixRepo
      ensures Valid()
      ensures matrix == null ==> Effect(View(), Failed(error)) == MoveMatrix(old(View()), id, mv, currencies)
      ensures matrix != null ==>
                && fresh(matrix)
                && MoveMatrix(old(View()), id, mv, currencies)
                   == (var todo := RowsToMove(matrix.batches, mv);
                       var s := Sweep(Swept(batchRepo.View(), [], [], true), todo, mv, matrix.id);
                       Commands.Finish(View(), matrix.View(), s, mv, currencies))
    {
      hide Put, Recalculate, Sweep, RowsToMove, Commands.Finish;
      error := MatrixNotFound;
      FoundMatrix(matrixRepo, id);
      var matrixDto := matrixRepo.GetMatrixById(id);
      if matrixDto.None? {
        return null, MatrixNotFound;
      }
      if matrixDto.value.state != required {
        return null, refusal;
      }
      var working := new SettlementMatrix(matrixDto.value);
      working.state := BUSY;
      matrixRepo.StoreMatrix(working.View());
      var ok := RecalculateMatrix(working, settlingMatrix);
      if !ok {
        return null, RecalculationFailed;
      }
      matrix := working;
    }

    /** What they end with: the matrix stored in its final state, and the other matrices told. */
    method EndMove(matrix: SettlementMatrix, state: MatrixState, batchesUpdated: seq<string>)
      requires Valid()
      modifies matrixRepo, msgProducer, matrix
      ensures Valid() && matrix.View() == old(matrix.View()).(state := state)
      ensures var w := Commands.StoreMatrix(old(View()), matrix.View());
              View() == w.(pending := w.pending + multiset{Mark(matrix.id, batchesUpdated)})
    {
      hide Put;
      UpdateMatrixStateAndSave(matrix, state);
      msgProducer.SendCommand(Mark(matrix.id, batchesUpdated));
    }

    method DisputeSettlementMatrix(id: MatrixId) returns (outcome: Outcome)
      requires Valid()
      modifies `nextId, abAdapter, transferRepo, batchRepo, matrixRepo, msgProducer
      ensures Valid()
      ensures Effect(View(), outcome) == MoveMatrix(old(View()), id, Dispute, currencies)
    {
      hide Put, Recalculate, Sweep, MoveMatrix;
      var matrix, error := BeginMove(id, IDLE, CannotClose, false, Dispute);
      if matrix == null {
        return Failed(error);
      }
      var ok, batchesUpdated := DisputeBatches(matrix);
      if !ok {
        return Failed(BatchNotFound);
      }
      EndMove(matrix, IDLE, batchesUpdated);
      outcome := Done;
    }

    /** The loop over the listed batches. */
    method DisputeBatches(matrix: SettlementMatrix) returns (ok: bool, batchesUpdated: seq<string>)
      requires Valid()
      modifies batchRepo, matrix
      ensures Valid() && matrix.View() == old(matrix.View()).(batches := matrix.batches)
      ensures var s := Sweep(Swept(old(batchRepo.View()), [], [], true), old(matrix.batches), Dispute, matrix.id);
              s.ok == ok && s.batches == batchRepo.View() && (ok ==>
                      s == Swept(s.batches, matrix.batches, batchesUpdated, true))
    {
      hide Put, Sweep;
      batchesUpdated := [];
      ghost var m, rows := matrix.View(), matrix.batches;
      ghost var start := Swept(batchRepo.View(), [], [], true);
      assert rows[..0] == [] && rows[0..] == rows;
      for i := 0 to |matrix.batches|
        invariant Valid() && matrix.View() == m.(batches := matrix.batches)
        invariant |matrix.batches| == |rows| && matrix.batches[i..] == rows[i..]
        invariant Sweep(Swept(batchRepo.View(), matrix.batches[..i], batchesUpdated, true), rows[i..], Dispute, m.id)
               == Sweep(start, rows, Dispute, m.id)
      {
        SweepTurn(Swept(batchRepo.View(), matrix.batches[..i], batchesUpdated, true), rows, i, Dispute, m.id);
        assert matrix.batches[i] == rows[i] by { assert matrix.batches[i..][0] == rows[i..][0]; }
        var found := batchRepo.GetBatch(matrix.batches[i].id);
        if found.None? {
          return false, batchesUpdated;
        }
        var batch := found.value;
        FoundBatch(batchRepo, matrix.batches[i].id);
        if batch.state == SETTLED || batch.state == AWAITING_SETTLEMENT || batch.state == DISPUTED {
          TurnSkipped(matrix.batches, i, rows);
          continue;
        }
        matrix.batches := matrix.batches[i := matrix.batches[i].(state := DISPUTED)];
        batchRepo.UpdateBatch(batch.(state := DISPUTED));
        batchesUpdated := batchesUpdated + [batch.id];
        TurnMoved(matrix.batches, i, rows, DISPUTED);
      }
      SweepDone(Swept(batchRepo.View(), matrix.batches, batchesUpdated, true), rows[|rows|..], Dispute, m.id);
      assert matrix.batches[..|rows|] == matrix.batches;
      ok := true;
    }

    method LockSettlementMatrixForAwaitingSettlement(id: MatrixId) returns (outcome: Outcome)
      requires Valid()
      modifies `nextId, abAdapter, transferRepo, batchRepo, matrixRepo, msgProducer
      ensures Valid()
      ensures Effect(View(), outcome) == MoveMatrix(old(View()), id, Lock, currencies)
    {
      hide Put, Recalculate, Sweep, MoveMatrix;
      var matrix, error := BeginMove(id, IDLE, CannotLock, false, Lock);
      if matrix == null {
        return Failed(error);
      }
      var ok, batchesUpdated := LockBatches(matrix);
      if !ok {
        return Failed(BatchNotFound);
      }
      EndMove(matrix, LOCKED, batchesUpdated);
      outcome := Done;
    }

    /** The loop over the listed batches. */
    method LockBatches(matrix: SettlementMatrix) returns (ok: bool, batchesUpdated: seq<string>)
      requires Valid()
      modifies batchRepo, matrix
      ensures Valid() && matrix.View() == old(matrix.View()).(batches := matrix.batches)
      ensures var s := Sweep(Swept(old(batchRepo.View()), [], [], true), old(matrix.batches), Lock, matrix.id);
              s.ok == ok && s.batches == batchRepo.View() && (ok ==>
                      s == Swept(s.batches, matrix.batches, batchesUpdated, true))
    {
      hide Put, Sweep;
      batchesUpdated := [];
      ghost var m, rows := matrix.View(), matrix.batches;
      ghost var start := Swept(batchRepo.View(), [], [], true);
      assert rows[..0] == [] && rows[0..] == rows;
      for i := 0 to |matrix.batches|
        invariant Valid() && matrix.View() == m.(batches := matrix.batches)
        invariant |matrix.batches| == |rows| && matrix.batches[i..] == rows[i..]
        invariant Sweep(Swept(batchRepo.View(), matrix.batches[..i], batchesUpdated, true), rows[i..], Lock, m.id)
               == Sweep(start, rows, Lock, m.id)
      {
        SweepTurn(Swept(batchRepo.View(), matrix.batches[..i], batchesUpdated, true), rows, i, Lock, m.id);
        assert matrix.batches[i] == rows[i] by { assert matrix.batches[i..][0] == rows[i..][0]; }
        var found := batchRepo.GetBatch(matrix.batches[i].id);
        if found.None? {
          return false, batchesUpdated;
        }
        var batch := found.value;
        FoundBatch(batchRepo, matrix.batches[i].id);
        if batch.state == SETTLED || batch.state == AWAITING_SETTLEMENT || batch.state == DISPUTED {
          TurnSkipped(matrix.batches, i, rows);
          continue;
        }
        matrix.batches := matrix.batches[i := matrix.batches[i].(state := AWAITING_SETTLEMENT)];
        batchRepo.UpdateBatch(batch.(state := AWAITING_SETTLEMENT, ownerMatrixId := Some(matrix.id)));
        batchesUpdated := batchesUpdated + [batch.id];
        TurnMoved(matrix.batches, i, rows, AWAITING_SETTLEMENT);
      }
      SweepDone(Swept(batchRepo.View(), matrix.batches, batchesUpdated, true), rows[|rows|..], Lock, m.id);
      assert matrix.batches[..|rows|] == matrix.batches;
      ok := true;
    }

    method UnLockSettlementMatrixFromAwaitingSettlement(id: MatrixId) returns (outcome: Outcome)
      requires Valid()
      modifies `nextId, abAdapter, transferRepo, batchRepo, matrixRepo, msgProducer
      ensures Valid()
      ensures Effect(View(), outcome) == MoveMatrix(old(View()), id, Unlock, currencies)
    {
      hide Put, Recalculate, Sweep, MoveMatrix;
      var matrix, error := BeginMove(id, LOCKED, CannotUnlock, false, Unlock);
      if matrix == null {
        return Failed(error);
      }
      var ok, batchesUpdated := UnlockBatches(matrix);
      if !ok {
        return Failed(BatchNotFound);
      }
      EndMove(matrix, IDLE, batchesUpdated);
      outcome := Done;
    }

    /** The loop over the listed batches. */
    method UnlockBatches(matrix: SettlementMatrix) returns (ok: bool, batchesUpdated: seq<string>)
      requires Valid()
      modifies batchRepo, matrix
      ensures Valid() && matrix.View() == old(matrix.View()).(batches := matrix.batches)
      ensures var s := Sweep(Swept(old(batchRepo.View()), [], [], true), old(matrix.batches), Unlock, matrix.id);
              s.ok == ok && s.batches == batchRepo.View() && (ok ==>
                      s == Swept(s.batches, matrix.batches, batchesUpdated, true))
    {
      hide Put, Sweep;
      batchesUpdated := [];
      ghost var m, rows := matrix.View(), matrix.batches;
      ghost var start := Swept(batchRepo.View(), [], [], true);
      assert rows[..0] == [] && rows[0..] == rows;
      for i := 0 to |matrix.batches|
        invariant Valid() && matrix.View() == m.(batches := matrix.batches)
        invariant |matrix.batches| == |rows| && matrix.batches[i..] == rows[i..]
        invariant Sweep(Swept(batchRepo.View(), matrix.batches[..i], batchesUpdated, true), rows[i..], Unlock, m.id)
               == Sweep(start, rows, Unlock, m.id)
      {
        SweepTurn(Swept(batchRepo.View(), matrix.batches[..i], batchesUpdated, true), rows, i, Unlock, m.id);
        assert matrix.batches[i] == rows[i] by { assert matrix.batches[i..][0] == rows[i..][0]; }
        var found := batchRepo.GetBatch(matrix.batches[i].id);
        if found.None? {
          return false, batchesUpdated;
        }
        var batch := found.value;
        FoundBatch(batchRepo, matrix.batches[i].id);
        if batch.state == AWAITING_SETTLEMENT && batch.ownerMatrixId == Some(matrix.id) {
          matrix.batches := matrix.batches[i := matrix.batches[i].(state := CLOSED)];
          batchRepo.UpdateBatch(batch.(ownerMatrixId := None, state := CLOSED));
          batchesUpdated := batchesUpdated + [batch.id];
          TurnMoved(matrix.batches, i, rows, CLOSED);
        } else {
          TurnSkipped(matrix.batches, i, rows);
        }
      }
      SweepDone(Swept(batchRepo.View(), matrix.batches, batchesUpdated, true), rows[|rows|..], Unlock, m.id);
      assert matrix.batches[..|rows|] == matrix.batches;
      ok := true;
    }

    method CloseSettlementMatrix(id: MatrixId) returns (outcome: Outcome)
      requires Valid()
      modifies `nextId, abAdapter, transferRepo, batchRepo, matrixRepo, msgProducer
      ensures Valid()
      ensures Effect(View(), outcome) == MoveMatrix(old(View()), id, Close, currencies)
    {
      hide Put, Recalculate, Sweep, MoveMatrix;
      var matrix, error := BeginMove(id, IDLE, CannotClose, false, Close);
      if matrix == null {
        return Failed(error);
      }
      var ok, batchesUpdated := CloseBatches(matrix);
      if !ok {
        return Failed(BatchNotFound);
      }
      EndMove(matrix, IDLE, batchesUpdated);
      outcome := Done;
    }

    /** The loop over the listed batches. */
    method CloseBatches(matrix: SettlementMatrix) returns (ok: bool, batchesUpdated: seq<string>)
      requires Valid()
      modifies batchRepo, matrix
      ensures Valid() && matrix.View() == old(matrix.View()).(batches := matrix.batches)
      ensures var s := Sweep(Swept(old(batchRepo.View()), [], [], true), old(matrix.batches), Close, matrix.id);
              s.ok == ok && s.batches == batchRepo.View() && (ok ==>
                      s == Swept(s.batches, matrix.batches, batchesUpdated, true))
    {
      hide Put, Sweep;
      batchesUpdated := [];
      ghost var m, rows := matrix.View(), matrix.batches;
      ghost var start := Swept(batchRepo.View(), [], [], true);
      assert rows[..0] == [] && rows[0..] == rows;
      for i := 0 to |matrix.batches|
        invariant Valid() && matrix.View() == m.(batches := matrix.batches)
        invariant |matrix.batches| == |rows| && matrix.batches[i..] == rows[i..]
        invariant Sweep(Swept(batchRepo.View(), matrix.batches[..i], batchesUpdated, true), rows[i..], Close, m.id)
               == Sweep(start, rows, Close, m.id)
      {
        SweepTurn(Swept(batchRepo.View(), matrix.batches[..i], batchesUpdated, true), rows, i, Close, m.id);
        assert matrix.batches[i] == rows[i] by { assert matrix.batches[i..][0] == rows[i..][0]; }
        var found := batchRepo.GetBatch(matrix.batches[i].id);
        if found.None? {
          return false, batchesUpdated;
        }
        var batch := found.value;
        FoundBatch(batchRepo, matrix.batches[i].id);
        if batch.state == SETTLED || batch.state == CLOSED || batch.state == AWAITING_SETTLEMENT {
          TurnSkipped(matrix.batches, i, rows);
          continue;
        }
        matrix.batches := matrix.batches[i := matrix.batches[i].(state := CLOSED)];
        batchRepo.UpdateBatch(batch.(state := CLOSED));
        batchesUpdated := batchesUpdated + [batch.id];
        TurnMoved(matrix.batches, i, rows, CLOSED);
      }
      SweepDone(Swept(batchRepo.View(), matrix.batches, batchesUpdated, true), rows[|rows|..], Close, m.id);
      assert matrix.batches[..|rows|] == matrix.batches;
      ok := true;
    }

    method SettleSettlementMatrix(id: MatrixId) returns (outcome: Outcome)
      requires Valid()
      modifies `nextId, abAdapter, transferRepo, batchRepo, matrixRepo, msgProducer
      ensures Valid()
      ensures Effect(View(), outcome) == MoveMatrix(old(View()), id, Settle, currencies)
    {
      hide Put, Recalculate, Sweep, MoveMatrix, DropNotAwaiting;
      var matrix, error := BeginMove(id, LOCKED, CannotSettle, true, Settle);
      if matrix == null {
        return Failed(error);
      }
      RemoveNotAwaiting(matrix);
      var ok, batchesUpdated := SettleBatches(matrix);
      if !ok {
        return Failed(BatchNotFound);
      }
      EndMove(matrix, FINALIZED, batchesUpdated);
      var participants;
      ok, participants := ParticipantList(matrix);
      if !ok {
        return Failed(InvalidCurrencyCode);
      }
      msgProducer.SendEvent(SettledEvt(matrix.id, participants));
      outcome := Done;
    }

    /** Takes the batches that are not awaiting settlement off the list, going over the list as it was. */
    method RemoveNotAwaiting(matrix: SettlementMatrix)
      modifies matrix
      ensures matrix.View() == old(matrix.View()).(batches := RowsToMove(old(matrix.batches), Settle))
    {
      var items := matrix.batches;
      for i := 0 to |items|
        invariant matrix.View() == old(matrix.View()).(batches := matrix.batches)
        invariant DropNotAwaiting(matrix.batches, items[i..]) == DropNotAwaiting(items, items)
      {
        assert items[i..][0] == items[i] && items[i..][1..] == items[i + 1..];
        if items[i].state != AWAITING_SETTLEMENT {
          matrix.RemoveBatchById(items[i].id);
        }
      }
    }

    /** One item per row of the participant balances. */
    method ParticipantList(matrix: SettlementMatrix) returns (ok: bool, participants: seq<ParticipantItem>)
      ensures ok <==> CurrenciesKnown(matrix.balancesByParticipant, currencies)
      ensures ok ==> participants == Items(matrix.balancesByParticipant)
    {
      var rows := matrix.balancesByParticipant;
      participants := [];
      for i := 0 to |rows|
        invariant forall j :: 0 <= j < i ==> rows[j].key.currencyCode in currencies
        invariant participants + Items(rows[i..]) == Items(rows)
      {
        assert rows[i..][0] == rows[i] && rows[i..][1..] == rows[i + 1..];
        var item := rows[i];
        if item.key.currencyCode !in currencies {
          return false, [];
        }
        match item.key
        case ByParticipant(participantId, _, code) =>
          participants := participants + [ParticipantItem(participantId, code, item.debitBalance, item.creditBalance)];
        case _ =>
      }
      assert participants + [] == participants;
      ok := true;
    }

    /** The loop over the listed batches. */
    method SettleBatches(matrix: SettlementMatrix) returns (ok: bool, batchesUpdated: seq<string>)
      requires Valid()
      modifies batchRepo, matrix
      ensures Valid() && matrix.View() == old(matrix.View()).(batches := matrix.batches)
      ensures var s := Sweep(Swept(old(batchRepo.View()), [], [], true), old(matrix.batches), Settle, matrix.id);
              s.ok == ok && s.batches == batchRepo.View() && (ok ==>
                      s == Swept(s.batches, matrix.batches, batchesUpdated, true))
    {
      hide Put, Sweep;
      batchesUpdated := [];
      ghost var m, rows := matrix.View(), matrix.batches;
      ghost var start := Swept(batchRepo.View(), [], [], true);
      assert rows[..0] == [] && rows[0..] == rows;
      for i := 0 to |matrix.batches|
        invariant Valid() && matrix.View() == m.(batches := matrix.batches)
        invariant |matrix.batches| == |rows| && matrix.batches[i..] == rows[i..]
        invariant Sweep(Swept(batchRepo.View(), matrix.batches[..i], batchesUpdated, true), rows[i..], Settle, m.id)
               == Sweep(start, rows, Settle, m.id)
      {
        SweepTurn(Swept(batchRepo.View(), matrix.batches[..i], batchesUpdated, true), rows, i, Settle, m.id);
        assert matrix.batches[i] == rows[i] by { assert matrix.batches[i..][0] == rows[i..][0]; }
        var found := batchRepo.GetBatch(matrix.batches[i].id);
        if found.None? {
          return false, batchesUpdated;
        }
        var batch := found.value;
        FoundBatch(batchRepo, matrix.batches[i].id);
        if batch.state == SETTLED {
          TurnSkipped(matrix.batches, i, rows);
          continue;
        }
        matrix.batches := matrix.batches[i := matrix.batches[i].(state := SETTLED)];
        batchRepo.UpdateBatch(batch.(state := SETTLED));
        batchesUpdated := batchesUpdated + [batch.id];
        TurnMoved(matrix.batches, i, rows, SETTLED);
      }
      SweepDone(Swept(batchRepo.View(), matrix.batches, batchesUpdated, true), rows[|rows|..], Settle, m.id);
      assert matrix.batches[..|rows|] == matrix.batches;
      ok := true;
    }

    /** `markMatrixOutOfSyncWhereBatch` */
    method MarkMatrixOutOfSyncWhereBatch(originMatrixId: MatrixId, batchIds: seq<string>)
      requires Valid()
      modifies matrixRepo
      ensures Valid()
      ensures matrixRepo.View() == MarkOutOfSync(old(matrixRepo.View()), batchIds, originMatrixId)
    {
      hide Put, IdleWith;
      ghost var ms := matrixRepo.View();
      for i := 0 to |batchIds|
        invariant Valid()
        invariant MarkOutOfSync(matrixRepo.View(), batchIds[i..], originMatrixId)
                  == MarkOutOfSync(ms, batchIds, originMatrixId)
      {
        assert batchIds[i..][0] == batchIds[i] && batchIds[i..][1..] == batchIds[i + 1..];
        var idleInSyncMatrices := matrixRepo.GetIdleMatricesWithBatchId(batchIds[i]);
        ghost var before := matrixRepo.View();
        for j := 0 to |idleInSyncMatrices|
          invariant Valid()
          invariant MarkEach(matrixRepo.View(), idleInSyncMatrices[j..], originMatrixId)
              == MarkEach(before, idleInSyncMatrices, originMatrixId)
        {
          var matrixDto := idleInSyncMatrices[j];
          assert idleInSyncMatrices[j..][0] == matrixDto && idleInSyncMatrices[j..][1..] == idleInSyncMatrices[j + 1..];
          if originMatrixId == matrixDto.id {
            continue;
          }
          var matrix := new SettlementMatrix(matrixDto);
          UpdateMatrixStateAndSave(matrix, OUT_OF_SYNC);
        }
      }
    }
  }

  lemma SingleEntry(l: Ledger, e: JournalEntry, currencies: Currencies)
    ensures PostEntries(l, [e], currencies)
            == match PostEntry(l, e, currencies) case None => (l, false) case Some(m) => (m, true)
  {
    hide PostEntry;
  }

  lemma RefreshOne(b: Batch, l: Ledger, currencies: Currencies)
    ensures RefreshBatches([b], l, currencies)
            == match RefreshBatch(b, l, currencies) case None => None case Some(c) => Some([c])
    ensures RefreshBatch(b, l, currencies).Some? ==>
              RefreshBatch(b, l, currencies).value == b.(accounts := RefreshBatch(b, l, currencies).value.accounts)
  {
    hide RefreshAccounts;
    var none: seq<Batch> := [];
    assert RefreshBatches(none, l, currencies) == Some(none);
    assert [b][1..] == none;
    if RefreshBatch(b, l, currencies).Some? {
      var c := RefreshBatch(b, l, currencies).value;
      assert [c] + none == [c];
    }
  }

  lemma TransfersAre(k: Books, batchId: string)
    ensures TransfersOf(k, batchId) == Select(k.transfers, IdsInBatch(k.transfers.docs, batchId))
  {
  }

  lemma StoppedTally(w: Tally, ts: seq<Transfer>, mid: MatrixId, settling: bool, currencies: Currencies)
    requires !w.ok
    ensures Recalculation.TallyTransfers(w, ts, mid, settling, currencies) == w
  {
  }

  lemma StoppedProgress(p: Progress, bs: seq<Batch>, mid: MatrixId, settling: bool, currencies: Currencies)
    requires !p.ok
    ensures RecalculateBatches(p, bs, mid, settling, currencies) == p
  {
  }

  lemma ValidatedTimestamp(p: TransferPayload, currencies: Currencies)
    requires Validate(p, currencies) == Done
    ensures p.completedTimestamp >= 1
  {
  }

  lemma FoundMatrix(repo: SettlementMatrixRequestRepo, id: MatrixId)
    requires repo.Valid()
    ensures id in repo.View().docs ==> repo.View().docs[id].id == id
  {
    DocsHold(repo.matrixRequests, MatrixKey);
  }

  lemma {:induction false} NothingToRemove(rows: seq<MatrixBatch>, id: string)
    requires id !in RowIds(rows)
    ensures RemoveRow(rows, id) == rows
  {
    if rows != [] {
      var rest := rows[1..];
      assert rows[0].id in RowIds(rows);
      forall x | x in RowIds(rest) ensures x in RowIds(rows) {
        var i :| 0 <= i < |rest| && rest[i].id == x;
        assert rows[i + 1].id == x;
      }
      NothingToRemove(rest, id);
    }
  }

  lemma FoundBatch(repo: SettlementBatchRepo, id: string)
    requires repo.Valid()
    ensures id in repo.View().docs ==> repo.View().docs[id].id == id
  {
    DocsHold(repo.batches, BatchKey);
  }

  /** One turn of the loop over the rows, as a step of the sweep. */
  lemma SweepTurn(s: Swept, rows: seq<MatrixBatch>, i: nat, mv: Move, mid: MatrixId)
    requires i < |rows| && s.ok
    ensures Sweep(s, rows[i..], mv, mid) == Sweep(SweepRow(s, rows[i], mv, mid), rows[i + 1..], mv, mid)
    ensures rows[i].id !in s.batches.docs ==> Sweep(s, rows[i..], mv, mid) == s.(ok := false)
  {
    hide SweepRow;
    assert rows[i..][0] == rows[i] && rows[i..][1..] == rows[i + 1..];
    if rows[i].id !in s.batches.docs {
      assert SweepRow(s, rows[i], mv, mid) == s.(ok := false) by { UnknownRow(s, rows[i], mv, mid); }
    }
  }

  lemma UnknownRow(s: Swept, row: MatrixBatch, mv: Move, mid: MatrixId)
    requires row.id !in s.batches.docs
    ensures SweepRow(s, row, mv, mid) == s.(ok := false)
  {
  }

  lemma SweepDone(s: Swept, rest: seq<MatrixBatch>, mv: Move, mid: MatrixId)
    requires rest == []
    ensures Sweep(s, rest, mv, mid) == s
  {
  }

  lemma TurnSkipped(batches: seq<MatrixBatch>, i: nat, rows: seq<MatrixBatch>)
    requires i < |batches| == |rows| && batches[i..] == rows[i..]
    ensures batches[..i + 1] == batches[..i] + [rows[i]] && batches[i + 1..] == rows[i + 1..]
  {
    assert batches[i..][0] == rows[i..][0];
    assert batches[i..][1..] == rows[i..][1..];
  }

  lemma TurnMoved(batches: seq<MatrixBatch>, i: nat, rows: seq<MatrixBatch>, st: BatchState)
    requires i < |batches| == |rows| && batches[i] == rows[i].(state := st) && batches[i + 1..] == rows[i + 1..]
    ensures batches[..i + 1] == batches[..i] + [rows[i].(state := st)]
  {
  }
}
