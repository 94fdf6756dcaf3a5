/** What a caller of the transfer and model commands gets, field by field. */
module Intake {
  import opened Common
  import opened Model
  import opened Digits
  import opened Converters
  import opened MatrixTables
  import opened Repositories
  import opened Ledgers
  import opened Recalculation
  import opened BookKeeping
  import opened Allocation
  import opened Commands
  import opened Effects
  import opened BatchSequences
  import opened Protocol

  // ----- when a transfer is accepted

  predicate Positive(amount: string, decimals: nat)
  {
    StringToBigint(amount, decimals).Ok? && StringToBigint(amount, decimals).value > 0
  }

  /** The complaint an error stands for. */
  predicate Complaint(w: World, p: TransferPayload, currencies: Currencies, e: Error)
  {
    match e
    case InvalidTimestamp => p.completedTimestamp < 1 || p.completedTimestamp > 8_640_000_000_000_000
    case InvalidBatchSettlementModel => p.settlementModel == ""
    case InvalidCurrencyCode => p.currencyCode == "" || p.currencyCode !in currencies
    case InvalidAmount =>
      p.currencyCode in currencies ==> !Positive(p.amount, currencies[p.currencyCode])
    case InvalidTransferId => p.transferId == ""
    case InvalidId => p.payerFspId == "" || p.payeeFspId == ""
    case NoSettlementConfig => p.settlementModel !in w.configs
    case _ => false
  }

  /** A transfer command is refused exactly when there is something to complain about, with such a complaint, and
      then nothing is stored. */
  lemma TransferAccepted(w: World, p: TransferPayload, now: int, currencies: Currencies)
    ensures var e := Execute(w, ProcessTransferCmd(p, now), currencies);
            && (e.outcome == Done <==>
                  && 1 <= p.completedTimestamp <= 8_640_000_000_000_000
                  && p.settlementModel != "" && p.transferId != "" && p.payerFspId != "" && p.payeeFspId != ""
                  && p.currencyCode != "" && p.currencyCode in currencies && p.settlementModel in w.configs
                  && Positive(p.amount, currencies[p.currencyCode]))
            && (e.outcome != Done ==> e.world == w && Complaint(w, p, currencies, e.outcome.error))
  {
    hide StringToBigint, AddTransfer;
    EmptyIsNoAmount(currencies, p.currencyCode);
  }

  lemma EmptyIsNoAmount(currencies: Currencies, code: string)
    ensures code in currencies ==> StringToBigint("", currencies[code]).Err?
  {
  }

  // ----- what is stored

  /** The transfer as it was sent, in its batch, and not journalled. */
  ghost predicate StoredAsSent(t: Transfer, p: TransferPayload, b: Batch)
  {
    && t.transferId == p.transferId && t.transferTimestamp == p.completedTimestamp
    && t.payerFspId == p.payerFspId && t.payeeFspId == p.payeeFspId
    && t.currencyCode == p.currencyCode && t.amount == p.amount
    && t.batchId == b.id && t.batchName == b.batchName && t.journalEntryId == None
  }

  /** A batch that was just opened: the next number of its name, all earlier ones taken and no longer open. */
  ghost predicate NewlyOpened(w: World, b: Batch, now: int)
  {
    && b.batchUUID == w.books.nextId && b.timestamp == now && b.ownerMatrixId == None && b.accounts == []
    && b.batchSequence >= 1 && b.id == BatchIdentifier(b.batchName, b.batchSequence)
    && (forall x :: x in w.books.batches.docs && w.books.batches.docs[x].batchName == b.batchName ==>
          w.books.batches.docs[x].batchSequence < b.batchSequence && w.books.batches.docs[x].state != OPEN)
    && (forall j :: 1 <= j < b.batchSequence ==> BatchIdentifier(b.batchName, j) in w.books.batches.docs)
  }

  /** Nothing but these two records changed. */
  ghost predicate OnlyStored(w: World, v: World, p: TransferPayload, b: Batch)
  {
    && p.transferId in v.books.transfers.docs && b.id in v.books.batches.docs
    && v.books.transfers.docs == w.books.transfers.docs[p.transferId := v.books.transfers.docs[p.transferId]]
    && v.books.batches.docs == w.books.batches.docs[b.id := b]
    && v.books.ledger == w.books.ledger && v.matrices == w.matrices && v.configs == w.configs
    && v.pending == w.pending && v.events == w.events
  }

  /** A transfer that is accepted is stored as it was sent, in an open batch of its model and currency that is named
      after the window its timestamp falls in: the open batch of that name, or a new one under the next number. */
  lemma TransferStored(w: World, p: TransferPayload, now: int, currencies: Currencies) returns (b: Batch, start: nat)
    requires WorldOk(w, currencies) && CurrenciesOk(currencies)
    requires Execute(w, ProcessTransferCmd(p, now), currencies).outcome == Done
    ensures p.settlementModel in w.configs
    ensures var width := 1000 * w.configs[p.settlementModel];
            start % width == 0 && start <= p.completedTimestamp < start + width
    ensures b.state == OPEN && b.settlementModel == p.settlementModel && b.currencyCode == p.currencyCode
    ensures b.batchName == BatchName(p.settlementModel, p.currencyCode, start)
    ensures var v := Execute(w, ProcessTransferCmd(p, now), currencies).world;
            && OnlyStored(w, v, p, b) && StoredAsSent(v.books.transfers.docs[p.transferId], p, b)
            && if b.id in w.books.batches.docs then b == w.books.batches.docs[b.id] && v.books.nextId == w.books.nextId
               else NewlyOpened(w, b, now) && v.books.nextId == w.books.nextId + 1
  {
    hide BooksOk, SequencesOk, OwnersOk, ValidRepo, EntriesOk, LocksOk, AddTransfer, CurrenciesOk, Validate, BatchName,
         BatchIdentifier, BatchStart;
    TransferAccepted(w, p, now, currencies);
    ExecuteKeeps(w, ProcessTransferCmd(p, now), currencies);
    var interval := w.configs[p.settlementModel];
    var v := Execute(w, ProcessTransferCmd(p, now), currencies).world;
    StartIsWindow(p.completedTimestamp, interval);
    StartNotNegative(p.completedTimestamp, interval);
    start := BatchStart(p.completedTimestamp, interval);
    b := AddTransferExact(w.books, p, interval, now, currencies);
    OpenedFresh(w.books, p, interval, now, b, currencies);
    if b.id !in w.books.batches.docs {
      OpenedNumber(w.books.batches.docs, v.books.batches.docs, b);
    }
  }

  /** A batch that was not stored before takes its number from the supply. */
  lemma OpenedFresh(k: Books, p: TransferPayload, interval: pos, now: int, b: Batch, currencies: Currencies)
    requires BooksOk(k, currencies) && SequencesOk(k.batches.docs) && CurrenciesOk(currencies)
    requires p.completedTimestamp >= 0 && p.currencyCode in currencies
    requires TransferEffect(k, AddTransfer(k, p, interval, now), p, b)
    ensures var l := AddTransfer(k, p, interval, now);
            if b.id in k.batches.docs then l.nextId == k.nextId
            else l.nextId == k.nextId + 1 && b.batchUUID == k.nextId && b.timestamp == now
  {
    hide BooksOk, SequencesOk, CurrenciesOk, BatchName, BatchIdentifier, WindowStart, ValidRepo, EarlierClosed, Put,
         GetOrCreateBatch;
    var start := WindowStart(p.completedTimestamp, interval);
    var a := GetOrCreateBatch(k, p.settlementModel, p.currencyCode, start, now);
    AllocationExact(k, p.settlementModel, p.currencyCode, start, now, currencies);
    FromSupply(k, p.settlementModel, p.currencyCode, start, now);
    StoredTwice(a, p);
    assert NewTransfer(p, b).batchId == NewTransfer(p, a.batch).batchId;
  }

  lemma FromSupply(k: Books, model: string, code: string, start: nat, now: int)
    ensures var a := GetOrCreateBatch(k, model, code, start, now);
            a.created ==> a.books.nextId == k.nextId + 1 && a.batch.batchUUID == k.nextId && a.batch.timestamp == now
  {
    hide BatchName, BatchIdentifier, Select, Put;
  }

  lemma StoredTwice(a: Allocated, p: TransferPayload)
    ensures var l := StoreTransfer(a, p);
            && l.nextId == a.books.nextId && l.transfers.docs[p.transferId] == NewTransfer(p, a.batch)
            && (a.created ==> a.batch.id in l.batches.docs && l.batches.docs[a.batch.id] == a.batch)
            && (!a.created ==> l.batches == a.books.batches)
  {
  }

  lemma OpenedNumber(before: map<string, Batch>, docs: map<string, Batch>, b: Batch)
    requires SequencesOk(docs) && docs == before[b.id := b] && b.id !in before && b.state == OPEN
    ensures b.batchSequence >= 1 && b.id == BatchIdentifier(b.batchName, b.batchSequence)
    ensures forall x :: x in before && before[x].batchName == b.batchName ==>
              before[x].batchSequence < b.batchSequence && before[x].state != OPEN
    ensures forall j :: 1 <= j < b.batchSequence ==> BatchIdentifier(b.batchName, j) in before
  {
    hide BatchIdentifier, NameHasParts;
    assert NumberedBatch(docs[b.id], docs);
    forall x | x in before && before[x].batchName == b.batchName
      ensures before[x].batchSequence < b.batchSequence && before[x].state != OPEN
    {
      OneOpenBatchPerName(docs, b.id, x);
    }
    forall j | 1 <= j < b.batchSequence ensures BatchIdentifier(b.batchName, j) in before {
      IdentifierInjective(b.batchName, j, b.batchName, b.batchSequence);
    }
  }

  // ----- transfers of one window

  /** Transfers of one model and currency whose timestamps fall in one window of the configured width join batches
      of one name; with windows of at least a minute, only those do. */
  lemma TransfersShareNames(w: World, p: TransferPayload, now: int, u: World, q: TransferPayload, later: int,
                            currencies: Currencies)
    requires WorldOk(w, currencies) && WorldOk(u, currencies) && CurrenciesOk(currencies)
    requires Execute(w, ProcessTransferCmd(p, now), currencies).outcome == Done
    requires Execute(u, ProcessTransferCmd(q, later), currencies).outcome == Done
    requires p.settlementModel == q.settlementModel && p.currencyCode == q.currencyCode
    ensures p.settlementModel in w.configs && q.settlementModel in u.configs
    ensures p.transferId in Execute(w, ProcessTransferCmd(p, now), currencies).world.books.transfers.docs
    ensures q.transferId in Execute(u, ProcessTransferCmd(q, later), currencies).world.books.transfers.docs
    ensures w.configs[p.settlementModel] == u.configs[q.settlementModel] ==>
              var width := 1000 * w.configs[p.settlementModel];
              var a := Execute(w, ProcessTransferCmd(p, now), currencies).world.books.transfers.docs[p.transferId];
              var b := Execute(u, ProcessTransferCmd(q, later), currencies).world.books.transfers.docs[q.transferId];
              && (p.completedTimestamp / width == q.completedTimestamp / width ==> a.batchName == b.batchName)
              && (width >= 60_000 && a.batchName == b.batchName ==>
                    p.completedTimestamp / width == q.completedTimestamp / width)
  {
    hide WorldOk, CurrenciesOk, Execute, BatchName, BatchStart, BatchIdentifier;
    var a, s := TransferStored(w, p, now, currencies);
    var b, t := TransferStored(u, q, later, currencies);
    TransferAccepted(w, p, now, currencies);
    TransferAccepted(u, q, later, currencies);
    if w.configs[p.settlementModel] == u.configs[q.settlementModel] {
      var interval := w.configs[p.settlementModel];
      NoDotInCode(p.currencyCode, currencies);
      StartUnique(s, p.completedTimestamp, interval);
      StartUnique(t, q.completedTimestamp, interval);
      SameQuotient(p.completedTimestamp, s, q.completedTimestamp, t, 1000 * interval);
      WindowsNamedApart(p.settlementModel, p.currencyCode, p.completedTimestamp, q.completedTimestamp, interval);
    }
  }

  lemma NoDotInCode(code: string, currencies: Currencies)
    requires CurrenciesOk(currencies) && code in currencies
    ensures '.' !in code
  {
  }

  lemma SameQuotient(x: int, s: int, y: int, t: int, width: int)
    requires width > 0 && s % width == 0 && t % width == 0
    requires s <= x < s + width && t <= y < t + width
    ensures x / width == y / width <==> s == t
  {
    LastDigit(x / width, x % width, s / width, x - s, width);
    LastDigit(y / width, y % width, t / width, y - t, width);
  }

  // ----- settlement models

  /** A model with a name and a positive interval that is not known yet is added with the interval that was sent; any
      other is refused, for the first of its faults, and nothing is stored. */
  lemma ModelAdded(w: World, model: string, interval: nat, currencies: Currencies)
    ensures var e := Execute(w, CreateSettlementModelCmd(model, interval), currencies);
            && (e.outcome == Done <==> model != "" && interval > 0 && model !in w.configs)
            && (e.outcome == Failed(InvalidSettlementModel) <==> model == "")
            && (e.outcome == Failed(InvalidTimestamp) <==> model != "" && interval == 0)
            && (e.outcome == Failed(SettlementModelAlreadyExists) <==>
                  model != "" && interval > 0 && model in w.configs)
            && (e.outcome != Done ==> e.world == w)
            && (e.outcome == Done ==>
                  && e.world.configs.Keys == w.configs.Keys + {model} && e.world.configs[model] == interval
                  && (forall x :: x in w.configs ==> e.world.configs[x] == w.configs[x])
                  && e.world.books == w.books && e.world.matrices == w.matrices && e.world.pending == w.pending
                  && e.world.events == w.events)
  {
  }
}
