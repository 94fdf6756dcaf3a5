/** Transfers through runs: how a step changes them, and that the batches which have left OPEN keep theirs. */
module Settlement {
  import opened Common
  import opened Sums
  import opened Model
  import opened Converters
  import opened MatrixTables
  import opened Totals
  import opened Conservation
  import opened Repositories
  import opened Ledgers
  import opened Recalculation
  import opened BookKeeping
  import opened Exactness
  import opened Commands
  import opened Effects
  import opened BatchSequences
  import opened Protocol
  import opened Safety

  // ----- transfers through one step

  /** The step stores a transfer: one that passes the checks, of a settlement model that is configured. */
  predicate StoresTransfer(w: World, s: Step, currencies: Currencies)
  {
    && s.Handle? && s.command.ProcessTransferCmd?
    && Validate(s.command.transfer, currencies) == Done && s.command.transfer.settlementModel in w.configs
  }

  /** Exactly then the command completes; otherwise nothing is stored. */
  lemma StoredExactlyWhenDone(w: World, p: TransferPayload, now: int, currencies: Currencies)
    ensures StoresTransfer(w, Handle(ProcessTransferCmd(p, now)), currencies) <==>
              ProcessTransfer(w, p, now, currencies).outcome == Done
    ensures !StoresTransfer(w, Handle(ProcessTransferCmd(p, now)), currencies) ==>
              ProcessTransfer(w, p, now, currencies).world == w
  {
    hide Validate, AddTransfer;
  }

  ghost predicate Replays(w: World, s: Step)
  {
    s.Handle? && s.command.ProcessTransferCmd? && s.command.transfer.transferId in w.books.transfers.docs
  }

  lemma MoveSameTransfers(w: World, id: MatrixId, mv: Move, currencies: Currencies)
    requires WorldOk(w, currencies)
    ensures SameTransfers(w.books.transfers.docs, MoveMatrix(w, id, mv, currencies).world.books.transfers.docs)
  {
    hide BooksOk, SequencesOk, OwnersOk, ValidRepo, EntriesOk, LocksOk, MoveMatrix, StoreOk, MoveTargets, Fresh,
         BatchesMoved, MovedIds;
    WorldStoreOk(w, currencies);
    var mark := MoveMatrixEffect(w, id, mv, currencies);
  }

  lemma RecalculateSameTransfers(w: World, stored: Matrix, working: Matrix, currencies: Currencies)
    requires WorldOk(w, currencies) && stored.id == working.id && stored.kind == working.kind
    ensures SameTransfers(w.books.transfers.docs,
                          RecalculateAndStore(w, stored, working, IDLE, currencies).world.books.transfers.docs)
  {
    hide BooksOk, RecalculateAndStore, SelectedIds, Fresh, ValidRepo, SequencesOk, OwnersOk, EntriesOk, LocksOk;
    RecalculateAndStoreEffect(w, stored, working, currencies);
  }

  /** A transfer changes in one step only by being journalled, or by being stored anew. */
  lemma StepOnTransfers(w: World, s: Step, currencies: Currencies)
    requires WorldOk(w, currencies) && CurrenciesOk(currencies)
    ensures StoresTransfer(w, s, currencies) || SameTransfers(w.books.transfers.docs,
        Next(w, s, currencies).books.transfers.docs)
  {
    hide WorldOk, MoveMatrix, RecalculateAndStore, MarkOutOfSync, CreateStaticMatrix, CreateDynamicMatrix,
         Commands.RecalculateMatrix, AddBatches, RemoveBatches, Validate, AddTransfer, CurrenciesOk;
    SameTransfersSelf(w.books.transfers.docs);
    hide SameTransfers;
    if s.Handle? {
      if Recalculates(s.command) {
        var start, stored, working := RecalculatingCommand(w, s.command, currencies);
        RecalculateSameTransfers(start, stored, working, currencies);
      } else if s.command.MoveMatrixCmd? {
        MoveSameTransfers(w, s.command.matrixId, s.command.move, currencies);
      }
    }
  }

  lemma SameTransfersSelf(a: map<string, Transfer>)
    ensures SameTransfers(a, a)
  {
  }

  // ----- frozen batches

  /** The transfers of a batch apart from their journal entries. */
  function Contents(docs: map<string, Transfer>, batchId: string): map<string, Transfer>
  {
    map x | x in docs && docs[x].batchId == batchId :: docs[x].(journalEntryId := None)
  }

  lemma SameContents(a: map<string, Transfer>, b: map<string, Transfer>, batchId: string)
    requires SameTransfers(a, b)
    ensures Contents(a, batchId) == Contents(b, batchId)
  {
    forall x | x in a ensures SameTransfer(a[x], b[x]) {}
  }

  /** A command that stores a transfer changes the contents of some batch that is not open exactly when the
      transfer was already stored, in such a batch. */
  lemma StoringChangesFrozen(w: World, p: TransferPayload, now: int, currencies: Currencies)
    requires WorldOk(w, currencies) && CurrenciesOk(currencies)
    requires ProcessTransfer(w, p, now, currencies).outcome == Done
    ensures var v := ProcessTransfer(w, p, now, currencies).world;
            var docs := w.books.transfers.docs;
            (forall x :: x in w.books.batches.docs && StateAt(w, x) != OPEN ==>
               Contents(docs, x) == Contents(v.books.transfers.docs, x))
            <==> !(p.transferId in docs && docs[p.transferId].batchId in w.books.batches.docs
                   && StateAt(w, docs[p.transferId].batchId) != OPEN)
  {
    hide BooksOk, SequencesOk, OwnersOk, ValidRepo, EntriesOk, LocksOk, AddTransfer, CurrenciesOk, Validate, Contents;
    var b := AddTransferExact(w.books, p, w.configs[p.settlementModel], now, currencies);
    var docs, t := w.books.transfers.docs, NewTransfer(p, b);
    forall x | x in w.books.batches.docs && StateAt(w, x) != OPEN
      ensures Contents(docs, x) == Contents(docs[p.transferId := t], x) <==>
              !(p.transferId in docs && docs[p.transferId].batchId == x)
    {
      ContentsWithout(docs, p.transferId, t, x);
    }
  }

  /** A batch that does not get the transfer changes exactly when it had it before. */
  lemma ContentsWithout(docs: map<string, Transfer>, id: string, t: Transfer, x: string)
    requires t.batchId != x
    ensures Contents(docs, x) == Contents(docs[id := t], x) <==> !(id in docs && docs[id].batchId == x)
  {
    if id in docs && docs[id].batchId == x {
      assert id in Contents(docs, x) && id !in Contents(docs[id := t], x);
    }
  }

  /** In one step that replays no transfer, a batch that is not open keeps its transfers. */
  lemma FrozenStep(w: World, s: Step, x: string, currencies: Currencies)
    requires WorldOk(w, currencies) && CurrenciesOk(currencies) && !Replays(w, s)
    requires x in w.books.batches.docs && StateAt(w, x) != OPEN
    ensures Contents(w.books.transfers.docs, x) == Contents(Next(w, s, currencies).books.transfers.docs, x)
  {
    hide WorldOk, CurrenciesOk, SameTransfers, ProcessTransfer;
    StepOnTransfers(w, s, currencies);
    if StoresTransfer(w, s, currencies) {
      StoredExactlyWhenDone(w, s.command.transfer, s.command.now, currencies);
      StoringChangesFrozen(w, s.command.transfer, s.command.now, currencies);
    } else {
      SameContents(w.books.transfers.docs, Next(w, s, currencies).books.transfers.docs, x);
    }
  }

  ghost predicate NoReplays(ws: seq<World>, steps: seq<Step>)
  {
    |ws| == |steps| + 1 && forall i :: 0 <= i < |steps| ==> !Replays(ws[i], steps[i])
  }

  /** With distinct transfer ids, a batch that has left OPEN keeps its transfers, and so its total, for the rest
      of the run. */
  lemma {:induction false} FrozenBatches(ws: seq<World>, steps: seq<Step>, currencies: Currencies, i: nat, j: nat,
                                         x: string)
    requires IsRun(ws, steps, currencies) && CurrenciesOk(currencies) && NoReplays(ws, steps) && i <= j < |ws|
    requires x in ws[i].books.batches.docs && StateAt(ws[i], x) != OPEN
    ensures Contents(ws[i].books.transfers.docs, x) == Contents(ws[j].books.transfers.docs, x)
    ensures BatchTotal(ws[i].books, x, currencies) == BatchTotal(ws[j].books, x, currencies)
    decreases j - i
  {
    hide WorldOk, Next, CurrenciesOk, Contents, BatchTotal;
    if i < j {
      FrozenBatches(ws, steps, currencies, i, j - 1, x);
      BatchStays(ws, steps, currencies, i, j - 1, x);
      RunOk(ws, steps, currencies, j - 1);
      FrozenStep(ws[j - 1], steps[j - 1], x, currencies);
      SameContentsSameTotal(ws[j - 1].books, ws[j].books, x, currencies);
    }
  }

  lemma SameContentsSameTotal(k: Books, l: Books, x: string, currencies: Currencies)
    requires Contents(k.transfers.docs, x) == Contents(l.transfers.docs, x)
    ensures BatchTotal(k, x, currencies) == BatchTotal(l, x, currencies)
  {
    hide StringToBigint, Decimals;
    var a, b := Contents(k.transfers.docs, x), Contents(l.transfers.docs, x);
    assert forall y :: y in a ==> Amount(a[y], currencies) == Amount(k.transfers.docs[y], currencies);
    assert forall y :: y in b ==> Amount(b[y], currencies) == Amount(l.transfers.docs[y], currencies);
    var m, n := AmountsInBatch(k, x, currencies), AmountsInBatch(l, x, currencies);
    assert m.Keys == a.Keys && n.Keys == b.Keys;
    forall y | y in m ensures m[y] == n[y] {
      assert m[y] == Amount(a[y], currencies);
      assert n[y] == Amount(b[y], currencies);
    }
    assert m == n;
  }

  /** Any two recalculations that do not settle, of any matrices and however far apart, show a batch that had left
      OPEN with the same totals, debit equal to credit. */
  lemma FrozenRows(ws: seq<World>, steps: seq<Step>, currencies: Currencies, i: nat, j: nat, m: Matrix, n: Matrix,
                   a: MatrixBatch, b: MatrixBatch)
    requires IsRun(ws, steps, currencies) && CurrenciesOk(currencies) && NoReplays(ws, steps) && i <= j < |ws|
    requires Recalculate(ws[i].books, m, false, currencies).matrix.Some?
    requires Recalculate(ws[j].books, n, false, currencies).matrix.Some?
    requires a in Recalculate(ws[i].books, m, false, currencies).matrix.value.batches
    requires b in Recalculate(ws[j].books, n, false, currencies).matrix.value.batches
    requires a.id == b.id && a.id in ws[i].books.batches.docs && StateAt(ws[i], a.id) != OPEN
    ensures a.batchDebitBalance == a.batchCreditBalance == b.batchDebitBalance == b.batchCreditBalance
  {
    hide WorldOk, IsRun, NoReplays, CurrenciesOk, Recalculate, BatchTotal, BooksOk;
    RunOk(ws, steps, currencies, i);
    RunOk(ws, steps, currencies, j);
    FrozenBatches(ws, steps, currencies, i, j, a.id);
    BatchStays(ws, steps, currencies, i, j, a.id);
    assert BooksOk(ws[i].books, currencies) && BooksOk(ws[j].books, currencies) by {
      WorldBooksOk(ws[i], currencies);
      WorldBooksOk(ws[j], currencies);
    }
    RecalculatedRow(ws[i].books, m, a, currencies);
    RecalculatedRow(ws[j].books, n, b, currencies);
  }

  lemma WorldBooksOk(w: World, currencies: Currencies)
    requires WorldOk(w, currencies)
    ensures BooksOk(w.books, currencies)
  {
  }

  /** The row that a recalculation without settling writes for a batch. */
  lemma RecalculatedRow(k: Books, m: Matrix, row: MatrixBatch, currencies: Currencies)
    requires BooksOk(k, currencies) && Recalculate(k, m, false, currencies).matrix.Some?
    requires row in Recalculate(k, m, false, currencies).matrix.value.batches
    ensures row.id in k.batches.docs
    ensures var decimals := Decimals(currencies, k.batches.docs[row.id].currencyCode);
            var shown := Printed(BatchTotal(k, row.id, currencies), decimals);
            row.batchDebitBalance == shown && row.batchCreditBalance == shown
  {
    hide BooksOk, Recalculate, RowIds, SelectedIds, TablesShow, AllInBound, NobodyPaysThemselves, Printed, Decimals,
         BatchTotal;
    RecalculateExact(k, m, false, currencies);
    BooksKeyed(k, currencies);
    var rows := Recalculate(k, m, false, currencies).matrix.value.batches;
    var r :| 0 <= r < |rows| && rows[r] == row;
  }
}
