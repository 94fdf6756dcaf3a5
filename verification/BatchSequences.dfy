/** Batch allocation over time: one open batch per name, numbered without gaps. */
module BatchSequences {
  import opened Common
  import opened Model
  import opened Converters
  import opened MatrixTables
  import opened Repositories
  import opened Ledgers
  import opened Recalculation
  import opened BookKeeping
  import opened Allocation
  import opened Commands
  import opened Effects

  /** Currency codes are not empty and hold no dot (ISO 4217 codes are three letters). */
  ghost predicate CurrenciesOk(currencies: Currencies)
  {
    forall c :: c in currencies ==> c != "" && '.' !in c
  }

  /** The name of a batch is made of its model, its currency and some window start. */
  ghost predicate NameHasParts(b: Batch)
  {
    exists start: nat :: b.batchName == BatchName(b.settlementModel, b.currencyCode, start)
  }

  /** All earlier numbers of the name are taken by batches that are no longer open. */
  ghost predicate EarlierClosed(b: Batch, docs: map<string, Batch>)
  {
    forall j :: 1 <= j < b.batchSequence ==>
      BatchIdentifier(b.batchName, j) in docs && docs[BatchIdentifier(b.batchName, j)].state != OPEN
  }

  ghost predicate NumberedBatch(b: Batch, docs: map<string, Batch>)
  {
    b.batchSequence >= 1 && b.id == BatchIdentifier(b.batchName, b.batchSequence) && NameHasParts(b)
    && EarlierClosed(b, docs)
  }

  ghost predicate SequencesOk(docs: map<string, Batch>)
  {
    forall id :: id in docs ==> docs[id].id == id && NumberedBatch(docs[id], docs)
  }

  /** What the invariant means: the batches of a name have the numbers 1 to n, each once, and at most one of
      them, the one with the highest number, is open. */
  lemma OneOpenBatchPerName(docs: map<string, Batch>, a: string, b: string)
    requires SequencesOk(docs) && a in docs && b in docs && docs[a].batchName == docs[b].batchName
    ensures docs[a].batchSequence == docs[b].batchSequence <==> a == b
    ensures docs[a].state == OPEN ==> docs[b].batchSequence <= docs[a].batchSequence
    ensures docs[a].state == OPEN && docs[b].state == OPEN ==> a == b
    ensures forall j :: 1 <= j <= docs[a].batchSequence ==>
              var id := BatchIdentifier(docs[a].batchName, j);
              id in docs && docs[id].batchName == docs[a].batchName && docs[id].batchSequence == j
  {
    hide BatchIdentifier, NameHasParts;
    var name := docs[a].batchName;
    assert NumberedBatch(docs[a], docs) && NumberedBatch(docs[b], docs);
    forall j | 1 <= j <= docs[a].batchSequence
      ensures var id := BatchIdentifier(name, j);
              id in docs && docs[id].batchName == name && docs[id].batchSequence == j
    {
      var id := BatchIdentifier(name, j);
      assert id in docs && NumberedBatch(docs[id], docs);
      IdentifierInjective(name, j, docs[id].batchName, docs[id].batchSequence);
    }
    if docs[a].batchSequence < docs[b].batchSequence {
      assert docs[BatchIdentifier(name, docs[a].batchSequence)].state != OPEN;
    }
    if docs[b].batchSequence < docs[a].batchSequence {
      assert docs[BatchIdentifier(name, docs[b].batchSequence)].state != OPEN;
    }
  }

  // ----- what keeps it

  /** States may change, but nothing is reopened, removed or renumbered. */
  ghost predicate NothingReopened(a: map<string, Batch>, b: map<string, Batch>)
  {
    a.Keys == b.Keys && forall id :: id in a ==>
      && b[id].id == a[id].id && b[id].batchName == a[id].batchName && b[id].batchSequence == a[id].batchSequence
      && b[id].settlementModel == a[id].settlementModel && b[id].currencyCode == a[id].currencyCode
      && b[id].timestamp == a[id].timestamp
      && (b[id].state == OPEN ==> a[id].state == OPEN)
  }

  lemma SameBatchesReopenNothing(a: map<string, Batch>, b: map<string, Batch>)
    requires SameBatches(a, b)
    ensures NothingReopened(a, b)
  {
    forall id | id in a ensures SameBatch(a[id], b[id]) {}
  }

  lemma MovesReopenNothing(a: map<string, Batch>, b: map<string, Batch>, ids: set<string>, mv: Move, mid: MatrixId)
    requires BatchesMoved(a, b, ids, mv, mid)
    ensures NothingReopened(a, b)
  {
    forall id | id in a ensures SameBatch(if id in ids then MovedOrSame(mv, mid, a[id]) else a[id], b[id]) {}
  }

  lemma NothingReopenedKeeps(a: map<string, Batch>, b: map<string, Batch>)
    requires SequencesOk(a) && NothingReopened(a, b)
    ensures SequencesOk(b)
  {
    hide BatchIdentifier, BatchName;
    forall id | id in b ensures b[id].id == id && NumberedBatch(b[id], b) {
      assert NumberedBatch(a[id], a);
      assert NameHasParts(b[id]) by { assert NameHasParts(a[id]); }
    }
  }

  // ----- allocating a batch for a transfer

  lemma SameNameSameParts(docs: map<string, Batch>, id: string, model: string, code: string, start: nat,
                          currencies: Currencies)
    requires SequencesOk(docs) && id in docs && docs[id].batchName == BatchName(model, code, start)
    requires CurrenciesOk(currencies) && code in currencies && docs[id].currencyCode in currencies
    ensures docs[id].settlementModel == model && docs[id].currencyCode == code
  {
    hide BatchName;
    assert NumberedBatch(docs[id], docs);
    var s: nat :| docs[id].batchName == BatchName(docs[id].settlementModel, docs[id].currencyCode, s);
    BatchNameInjective(model, code, start, docs[id].settlementModel, docs[id].currencyCode, s);
  }

  /** What the allocation must deliver. */
  ghost predicate AllocatedWell(k: Books, a: Allocated, model: string, code: string, name: string, now: int)
  {
    var b := a.batch;
    && b.state == OPEN && b.batchName == name && b.settlementModel == model && b.currencyCode == code
    && a.books.transfers == k.transfers && a.books.ledger == k.ledger && k.nextId <= a.books.nextId
    && ValidRepo(a.books.batches)
    && (!a.created ==> a.books == k && b.id in k.batches.docs && k.batches.docs[b.id] == b)
    && (a.created ==> b.id !in k.batches.docs && b.accounts == [] && b.ownerMatrixId == None && b.timestamp == now
                      && b.batchSequence >= 1 && b.id == BatchIdentifier(b.batchName, b.batchSequence)
                      && EarlierClosed(b, k.batches.docs)
                      && (a.books.batches == k.batches || a.books.batches == Put(k.batches, b.id, b)))
  }

  /** The head after the decreasing sort: a stored batch of the name with its highest number. */
  ghost predicate IsTop(docs: map<string, Batch>, name: string, top: Batch)
  {
    && top.id in docs && docs[top.id] == top && top.batchName == name
    && forall id :: id in docs && docs[id].batchName == name ==> docs[id].batchSequence <= top.batchSequence
  }

  lemma HighestIsTop(k: Books, name: string, currencies: Currencies)
    requires BooksOk(k, currencies)
    ensures var existing := Select(k.batches, BatchesNamed(k.batches.docs, name));
            && (existing == [] ==> forall id :: id in k.batches.docs ==> k.batches.docs[id].batchName != name)
            && (existing != [] ==> IsTop(k.batches.docs, name, Highest(existing)))
  {
    var docs := k.batches.docs;
    TransfersRepoOk(k, currencies);
    BooksKeyed(k, currencies);
    hide BooksOk, Pick, Records, ValidRepo, Select, NoDuplicates;
    var keys := SelectExact(k.batches, BatchesNamed(docs, name));
    var existing := Select(k.batches, BatchesNamed(docs, name));
    if existing == [] {
      forall id | id in docs ensures docs[id].batchName != name {
        assert id !in keys;
      }
    } else {
      var top := Highest(existing);
      var i :| 0 <= i < |existing| && existing[i] == top;
      assert keys[i] in keys;
      forall id | id in docs && docs[id].batchName == name ensures docs[id].batchSequence <= top.batchSequence {
        assert id in keys;
        var j :| 0 <= j < |keys| && keys[j] == id;
        assert existing[j] in existing;
      }
    }
  }

  /** The batch a transfer is put in: open, of its model and currency, either stored or new under the next number. */
  lemma AllocationExact(k: Books, model: string, code: string, start: nat, now: int, currencies: Currencies)
    requires BooksOk(k, currencies) && SequencesOk(k.batches.docs) && CurrenciesOk(currencies) && code in currencies
    ensures var name := BatchName(model, code, start);
            AllocatedWell(k, GetOrCreateBatch(k, model, code, start, now), model, code, name, now)
  {
    hide BooksOk, BatchName, BatchIdentifier, ValidRepo, SequencesOk, EarlierClosed, Select, CurrenciesOk, IsTop;
    var name := BatchName(model, code, start);
    TransfersRepoOk(k, currencies);
    HighestIsTop(k, name, currencies);
    var existing := Select(k.batches, BatchesNamed(k.batches.docs, name));
    if existing == [] {
      FirstNumber(name, k.batches.docs);
    } else {
      TopAllocates(k, Highest(existing), model, code, start, now, currencies);
    }
  }

  lemma TopAllocates(k: Books, top: Batch, model: string, code: string, start: nat, now: int, currencies: Currencies)
    requires BooksOk(k, currencies) && SequencesOk(k.batches.docs) && CurrenciesOk(currencies) && code in currencies
    requires IsTop(k.batches.docs, BatchName(model, code, start), top)
    ensures top.settlementModel == model && top.currencyCode == code
    ensures top.id in k.batches.docs && k.batches.docs[top.id] == top && top.batchName == BatchName(model, code, start)
    ensures top.state != OPEN ==>
              var b := NewBatch(k.nextId, model, code, BatchName(model, code, start), top.batchSequence + 1, now);
              b.id !in k.batches.docs && EarlierClosed(b, k.batches.docs) && ValidRepo(Put(k.batches, b.id, b))
  {
    hide BooksOk, BatchName, BatchIdentifier, ValidRepo, SequencesOk, EarlierClosed, CurrenciesOk;
    var name := BatchName(model, code, start);
    TransfersRepoOk(k, currencies);
    TopBatch(k, top.id, model, code, start, currencies);
    if top.state != OPEN {
      var b := NewBatch(k.nextId, model, code, name, top.batchSequence + 1, now);
      NextNumber(top, k.batches.docs, name);
      PutValid(k.batches, b.id, b);
    }
  }

  lemma TopBatch(k: Books, id: string, model: string, code: string, start: nat, currencies: Currencies)
    requires BooksOk(k, currencies) && SequencesOk(k.batches.docs) && id in k.batches.docs
    requires k.batches.docs[id].batchName == BatchName(model, code, start) && CurrenciesOk(currencies)
             && code in currencies
    ensures k.batches.docs[id].id == id && k.batches.docs[id].settlementModel == model
        && k.batches.docs[id].currencyCode == code
  {
    StoredBatchListed(k, id, currencies);
    CurrencyKnown(k, k.batches.docs[id], currencies);
    SameNameSameParts(k.batches.docs, id, model, code, start, currencies);
  }

  lemma FirstNumber(name: string, docs: map<string, Batch>)
    requires SequencesOk(docs) && forall id :: id in docs ==> docs[id].batchName != name
    ensures BatchIdentifier(name, 1) !in docs
    ensures forall b: Batch :: b.batchName == name && b.batchSequence == 1 ==> EarlierClosed(b, docs)
  {
    hide BatchIdentifier;
    NotTaken(name, 1, docs);
  }

  lemma NotTaken(name: string, n: nat, docs: map<string, Batch>)
    requires SequencesOk(docs) && forall id :: id in docs && docs[id].batchName == name ==> docs[id].batchSequence != n
    ensures BatchIdentifier(name, n) !in docs
  {
    hide BatchIdentifier, NameHasParts, EarlierClosed;
    var id := BatchIdentifier(name, n);
    if id in docs {
      assert NumberedBatch(docs[id], docs);
      IdentifierInjective(name, n, docs[id].batchName, docs[id].batchSequence);
    }
  }

  /** Above a closed highest batch the next number is free and all earlier ones are closed. */
  lemma NextNumber(top: Batch, docs: map<string, Batch>, name: string)
    requires SequencesOk(docs) && top.id in docs && docs[top.id] == top && top.state != OPEN && top.batchName == name
    requires forall id :: id in docs && docs[id].batchName == name ==> docs[id].batchSequence <= top.batchSequence
    ensures BatchIdentifier(name, top.batchSequence + 1) !in docs
    ensures forall b: Batch :: b.batchName == name && b.batchSequence == top.batchSequence + 1 ==>
              EarlierClosed(b, docs)
  {
    hide BatchIdentifier, NameHasParts;
    NotTaken(name, top.batchSequence + 1, docs);
    assert NumberedBatch(top, docs);
  }

  /** Storing a transfer: it joins an open batch of its model, currency and window, which is new under the next
      number when none was open; no other batch or transfer changes. */
  ghost predicate TransferEffect(k: Books, l: Books, p: TransferPayload, b: Batch)
  {
    && b.state == OPEN && b.settlementModel == p.settlementModel && b.currencyCode == p.currencyCode
    && l.transfers.docs == k.transfers.docs[p.transferId := NewTransfer(p, b)]
    && l.ledger == k.ledger && k.nextId <= l.nextId
    && b.id in l.batches.docs && l.batches.docs[b.id] == b && l.batches.docs == k.batches.docs[b.id := b]
    && (b.id in k.batches.docs ==> k.batches.docs[b.id] == b)
    && (b.id !in k.batches.docs ==> b.accounts == [] && b.ownerMatrixId == None)
  }

  lemma AddTransferExact(k: Books, p: TransferPayload, interval: pos, now: int, currencies: Currencies)
    returns (b: Batch)
    requires BooksOk(k, currencies) && SequencesOk(k.batches.docs) && CurrenciesOk(currencies)
    requires Validate(p, currencies) == Done
    ensures TransferEffect(k, AddTransfer(k, p, interval, now), p, b)
    ensures b.batchName == BatchName(p.settlementModel, p.currencyCode, WindowStart(p.completedTimestamp, interval))
    ensures BooksOk(AddTransfer(k, p, interval, now), currencies)
    ensures SequencesOk(AddTransfer(k, p, interval, now).batches.docs)
  {
    ValidTransfer(p, currencies);
    hide BatchName, WindowStart, GetOrCreateBatch, Validate, StringToBigint, Decimals, Amount, BooksOk, ValidRepo,
         SequencesOk, CurrenciesOk, StoreTransfer, TransferEffect, AllocatedWell;
    var start := WindowStart(p.completedTimestamp, interval);
    AllocationExact(k, p.settlementModel, p.currencyCode, start, now, currencies);
    var a := GetOrCreateBatch(k, p.settlementModel, p.currencyCode, start, now);
    b := a.batch;
    AllocatedName(k, a, p.settlementModel, p.currencyCode, BatchName(p.settlementModel, p.currencyCode, start), now);
    ValidAmount(p, b, currencies);
    StoredExact(k, a, p, start, now, currencies);
    TransferBooksOk(k, AddTransfer(k, p, interval, now), p, b, currencies);
  }

  lemma AllocatedName(k: Books, a: Allocated, model: string, code: string, name: string, now: int)
    requires AllocatedWell(k, a, model, code, name, now)
    ensures a.batch.batchName == name
  {
  }

  lemma StoredExact(k: Books, a: Allocated, p: TransferPayload, start: nat, now: int, currencies: Currencies)
    requires BooksOk(k, currencies) && SequencesOk(k.batches.docs)
    requires var name := BatchName(p.settlementModel, p.currencyCode, start);
             AllocatedWell(k, a, p.settlementModel, p.currencyCode, name, now)
    ensures var l := StoreTransfer(a, p);
            && TransferEffect(k, l, p, a.batch) && ValidRepo(l.batches) && ValidRepo(l.transfers)
            && SequencesOk(l.batches.docs)
  {
    hide BatchName, BooksOk, ValidRepo, SequencesOk, BatchIdentifier, EarlierClosed;
    TransfersRepoOk(k, currencies);
    PutValid(a.books.transfers, p.transferId, NewTransfer(p, a.batch));
    PutValid(a.books.batches, a.batch.id, a.batch);
    if a.created {
      NewBatchNumbered(k.batches.docs, a.batch, p.settlementModel, p.currencyCode, start);
    } else {
      assert k.batches.docs == k.batches.docs[a.batch.id := a.batch];
    }
  }

  lemma ValidTransfer(p: TransferPayload, currencies: Currencies)
    requires Validate(p, currencies) == Done
    ensures 1 <= p.completedTimestamp && p.transferId != "" && p.payerFspId != "" && p.payeeFspId != ""
        && p.currencyCode in currencies
  {
  }

  lemma ValidAmount(p: TransferPayload, b: Batch, currencies: Currencies)
    requires Validate(p, currencies) == Done
    ensures StringToBigint(p.amount, Decimals(currencies, p.currencyCode)).Ok?
            && Amount(NewTransfer(p, b), currencies) > 0
  {
  }

  lemma NewBatchNumbered(docs: map<string, Batch>, b: Batch, model: string, code: string, start: nat)
    requires SequencesOk(docs) && b.id !in docs && EarlierClosed(b, docs) && b.batchSequence >= 1
    requires b.id == BatchIdentifier(b.batchName, b.batchSequence)
    requires b.batchName == BatchName(model, code, start) && b.settlementModel == model && b.currencyCode == code
    ensures SequencesOk(docs[b.id := b])
  {
    hide BatchIdentifier, BatchName;
    var more := docs[b.id := b];
    assert NameHasParts(b);
    forall id | id in more ensures more[id].id == id && NumberedBatch(more[id], more) {
      if id != b.id {
        assert NumberedBatch(docs[id], docs);
      }
    }
  }

  lemma TransferBooksOk(k: Books, l: Books, p: TransferPayload, b: Batch, currencies: Currencies)
    requires BooksOk(k, currencies) && TransferEffect(k, l, p, b) && ValidRepo(l.batches) && ValidRepo(l.transfers)
    requires p.currencyCode in currencies && StringToBigint(p.amount, Decimals(currencies, p.currencyCode)).Ok?
    requires Amount(NewTransfer(p, b), currencies) > 0
    ensures BooksOk(l, currencies)
  {
    hide StringToBigint, Decimals, Amount, ValidRepo, Known;
    forall id | id in l.batches.docs ensures BatchOk(l.batches.docs[id], id, l.ledger, currencies) {
      if id in k.batches.docs {
        assert BatchOk(k.batches.docs[id], id, k.ledger, currencies);
      }
    }
    forall x | x in l.transfers.docs ensures TransferOk(l.transfers.docs[x], x, l.batches.docs, currencies) {
      if x != p.transferId {
        assert TransferOk(k.transfers.docs[x], x, k.batches.docs, currencies);
      }
    }
    assert LedgerOk(l.ledger, l.nextId);
  }
}
