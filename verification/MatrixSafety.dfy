/** What becomes of matrices over whole runs, and of the batches a matrix has locked but no longer selects. */
module MatrixSafety {
  import opened Common
  import opened Sums
  import opened Model
  import opened Converters
  import opened MatrixTables
  import opened Totals
  import opened Repositories
  import opened Ledgers
  import opened Recalculation
  import opened BookKeeping
  import opened Exactness
  import opened Commands
  import opened Effects
  import opened BatchSequences
  import opened Protocol
  import opened Safety
  import opened Settlement
  import opened Events

  // ----- one step

  predicate MatrixTransition(a: MatrixState, b: MatrixState)
  {
    || a == b
    || (a == IDLE && b in {BUSY, LOCKED, OUT_OF_SYNC})
    || (a == OUT_OF_SYNC && b in {IDLE, BUSY})
    || (a == LOCKED && b in {IDLE, BUSY, FINALIZED})
  }

  /** The matrix keeps its id and type, moves along the transitions, and stays as it is once FINALIZED or BUSY. */
  ghost predicate MatrixGoesTo(m: Matrix, n: Matrix)
  {
    && n.id == m.id && n.kind == m.kind && MatrixTransition(m.state, n.state)
    && (m.state in {FINALIZED, BUSY} ==> n == m)
  }

  ghost predicate MatricesGoTo(w: World, v: World)
  {
    forall mid :: mid in w.matrices.docs ==>
      mid in v.matrices.docs && MatrixGoesTo(w.matrices.docs[mid], v.matrices.docs[mid])
  }

  lemma RecalculateMatrices(w: World, stored: Matrix, working: Matrix, currencies: Currencies)
    requires WorldOk(w, currencies) && stored.id == working.id && stored.kind == working.kind
    requires stored.id in w.matrices.docs ==>
               stored == w.matrices.docs[stored.id] && stored.state in {IDLE, OUT_OF_SYNC}
    ensures MatricesGoTo(w, RecalculateAndStore(w, stored, working, IDLE, currencies).world)
  {
    hide BooksOk, RecalculateAndStore, SelectedIds, Fresh, ValidRepo, SameCore, SequencesOk, OwnersOk, EntriesOk,
         LocksOk;
    RecalculateAndStoreEffect(w, stored, working, currencies);
  }

  lemma MoveMatrices(w: World, id: MatrixId, mv: Move, currencies: Currencies)
    requires WorldOk(w, currencies)
    ensures MatricesGoTo(w, MoveMatrix(w, id, mv, currencies).world)
  {
    hide BooksOk, SequencesOk, OwnersOk, ValidRepo, EntriesOk, LocksOk, MoveMatrix, StoreOk, MoveTargets, Fresh,
         BatchesMoved, MovedIds, SameTransfers, SameCore, Includes;
    WorldStoreOk(w, currencies);
    var mark := MoveMatrixEffect(w, id, mv, currencies);
    if id in w.matrices.docs {
      StoredMatrixOk(w, id, currencies);
    }
  }

  lemma MarkMatrices(w: World, v: World, origin: MatrixId, ids: seq<string>, currencies: Currencies)
    requires WorldOk(w, currencies) && v.matrices == MarkOutOfSync(w.matrices, ids, origin)
    ensures MatricesGoTo(w, v)
  {
    hide BooksOk, SequencesOk, OwnersOk, ValidRepo, EntriesOk, LocksOk, MarkOutOfSync, Includes, RowIds;
    MatricesKeyed(w, currencies);
    MarkOutOfSyncExact(w.matrices, ids, origin);
  }

  lemma SameMatrices(w: World, v: World)
    requires v.matrices == w.matrices
    ensures MatricesGoTo(w, v)
  {
  }

  /** One step moves every matrix only along the documented transitions; FINALIZED matrices, and those left BUSY by
      a failed recalculation, never change. */
  lemma StepOnMatrices(w: World, s: Step, currencies: Currencies)
    requires WorldOk(w, currencies) && CurrenciesOk(currencies)
    ensures MatricesGoTo(w, Next(w, s, currencies))
  {
    hide WorldOk, MoveMatrix, RecalculateAndStore, MarkOutOfSync, CreateStaticMatrix, CreateDynamicMatrix,
         Commands.RecalculateMatrix, AddBatches, RemoveBatches, ProcessTransfer, CurrenciesOk, MatricesGoTo;
    var v := Next(w, s, currencies);
    if s.Deliver? {
      MarkMatrices(w, v, s.mark.originMatrixId, s.mark.batchIds, currencies);
    } else if Recalculates(s.command) {
      var start, stored, working := RecalculatingCommand(w, s.command, currencies);
      SameMatrices(w, w);
      RecalculateMatrices(start, stored, working, currencies);
      SameStart(w, start, v);
    } else if s.command.ProcessTransferCmd? {
      TransferMatrices(w, s.command.transfer, s.command.now, currencies);
    } else if s.command.MoveMatrixCmd? {
      MoveMatrices(w, s.command.matrixId, s.command.move, currencies);
    } else if s.command.MarkMatrixOutOfSyncCmd? {
      MarkMatrices(w, v, s.command.originMatrixId, s.command.batchIds, currencies);
    } else {
      SameMatrices(w, v);
    }
  }

  lemma SameStart(w: World, start: World, v: World)
    requires start.matrices == w.matrices
    ensures MatricesGoTo(start, v) <==> MatricesGoTo(w, v)
  {
    hide MatrixGoesTo;
  }

  lemma TransferMatrices(w: World, p: TransferPayload, now: int, currencies: Currencies)
    ensures MatricesGoTo(w, ProcessTransfer(w, p, now, currencies).world)
  {
    hide Validate, AddTransfer;
  }

  // ----- runs

  /** Over every run a matrix keeps its type, and once FINALIZED (or left BUSY) never changes again. */
  lemma {:induction false} MatrixStays(ws: seq<World>, steps: seq<Step>, currencies: Currencies, i: nat, j: nat,
                                       mid: MatrixId)
    requires IsRun(ws, steps, currencies) && CurrenciesOk(currencies) && i <= j < |ws| && mid in ws[i].matrices.docs
    ensures mid in ws[j].matrices.docs && ws[j].matrices.docs[mid].kind == ws[i].matrices.docs[mid].kind
    ensures ws[i].matrices.docs[mid].state in {FINALIZED, BUSY} ==> ws[j].matrices.docs[mid] == ws[i].matrices.docs[mid]
    decreases j - i
  {
    hide WorldOk, Next, CurrenciesOk;
    if i < j {
      MatrixStays(ws, steps, currencies, i, j - 1, mid);
      RunOk(ws, steps, currencies, j - 1);
      StepOnMatrices(ws[j - 1], steps[j - 1], currencies);
    }
  }

  // ----- locks that are lost

  /** This matrix has locked the batch. */
  ghost predicate LockedBy(w: World, x: string, mid: MatrixId)
  {
    x in w.books.batches.docs && w.books.batches.docs[x].state == AWAITING_SETTLEMENT
        && w.books.batches.docs[x].ownerMatrixId == Some(mid)
  }

  /** A matrix whose status filter leaves out AWAITING_SETTLEMENT selects none of the batches it has locked. */
  lemma LostToSelection(w: World, mid: MatrixId, x: string)
    requires LockedBy(w, x, mid) && mid in w.matrices.docs && !KeepsLocked(w.matrices.docs[mid].kind)
    ensures x !in SelectedIds(w.books.batches.docs, w.matrices.docs[mid])
  {
  }

  /** After an unlock that completes, the matrix has no batch locked exactly when its selection includes batches
      awaiting settlement, or it had locked none. */
  lemma UnlockReleasesAll(w: World, mid: MatrixId, currencies: Currencies)
    requires WorldOk(w, currencies) && MoveMatrix(w, mid, Unlock, currencies).outcome == Done
    ensures mid in w.matrices.docs
    ensures var v := MoveMatrix(w, mid, Unlock, currencies).world;
            (forall x :: !LockedBy(v, x, mid))
                <==> KeepsLocked(w.matrices.docs[mid].kind) || forall x :: !LockedBy(w, x, mid)
  {
    hide BooksOk, SequencesOk, OwnersOk, ValidRepo, EntriesOk, LocksOk, MoveMatrix, StoreOk, SelectedIds, Fresh,
         MovedIds, SameTransfers, SameCore, Includes, KeepsLocked;
    WorldStoreOk(w, currencies);
    var mark := MoveMatrixEffect(w, mid, Unlock, currencies);
    var v := MoveMatrix(w, mid, Unlock, currencies).world;
    var a, b, targets := w.books.batches.docs, v.books.batches.docs, MoveTargets(w, mid, Unlock);
    forall x ensures LockedBy(v, x, mid) <==> LockedBy(w, x, mid) && x !in targets {
      if x in a {
        assert SameBatch(if x in targets then MovedOrSame(Unlock, mid, a[x]) else a[x], b[x]);
      }
    }
    hide MoveTargets;
    if KeepsLocked(w.matrices.docs[mid].kind) {
      forall x | LockedBy(w, x, mid) ensures x in targets {
        LockedAreTargets(w, mid, Unlock, x, currencies);
      }
    } else {
      forall x | LockedBy(w, x, mid) ensures x !in targets {
        NotSelected(w, mid, x);
      }
    }
  }

  lemma NotSelected(w: World, mid: MatrixId, x: string)
    requires LockedBy(w, x, mid) && mid in w.matrices.docs && !KeepsLocked(w.matrices.docs[mid].kind)
    ensures x !in MoveTargets(w, mid, Unlock) && x !in MoveTargets(w, mid, Settle) && x !in PaidIds(w, mid)
  {
    LostToSelection(w, mid, x);
  }

  /** A batch locked by such a matrix. */
  ghost predicate Lost(w: World, x: string, mid: MatrixId)
  {
    LockedBy(w, x, mid) && mid in w.matrices.docs && !KeepsLocked(w.matrices.docs[mid].kind)
  }

  lemma LostStep(w: World, s: Step, x: string, mid: MatrixId, currencies: Currencies)
    requires WorldOk(w, currencies) && CurrenciesOk(currencies) && Lost(w, x, mid)
    ensures !Pays(w, s, x, currencies)
    ensures var v := Next(w, s, currencies);
            Lost(v, x, mid) || (x in v.books.batches.docs && StateAt(v, x) == SETTLED)
  {
    hide WorldOk, CurrenciesOk, Next, Execute, KeepsLocked, PaidIds;
    StepTransitions(w, s, x, currencies);
    StepOnMatrices(w, s, currencies);
    NotSelected(w, mid, x);
    hide MoveTargets;
    if Pays(w, s, x, currencies) {
      PaidIsSettled(w, s, x, currencies);
    }
    StepOnBatch(w, s, x, currencies);
    var b := Next(w, s, currencies).books.batches.docs[x];
    hide MovedBy;
    if MovedBy(w, s, x, b) {
      NeverUnlocked(w, s, x, mid, b);
    }
  }

  lemma NeverUnlocked(w: World, s: Step, x: string, mid: MatrixId, b: Batch)
    requires Lost(w, x, mid) && MovedBy(w, s, x, b)
    ensures b.state != CLOSED
  {
    hide SelectedIds, KeepsLocked;
    NotSelected(w, mid, x);
    MovedTransition(w, s, x, b);
  }

  /** Such a lock is never given up: over every run the batch is never CLOSED again, and no event ever pays it.
      All that can happen to it is that another matrix settles it. */
  lemma {:induction false} LostLocksStay(ws: seq<World>, steps: seq<Step>, currencies: Currencies, i: nat, j: nat,
      x: string, mid: MatrixId)
    requires IsRun(ws, steps, currencies) && CurrenciesOk(currencies) && i <= j < |ws| && Lost(ws[i], x, mid)
    ensures Lost(ws[j], x, mid) || (x in ws[j].books.batches.docs && StateAt(ws[j], x) == SETTLED)
    ensures j < |steps| ==> !Pays(ws[j], steps[j], x, currencies)
    decreases j - i
  {
    hide WorldOk, Next, CurrenciesOk, Pays, Lost;
    RunOk(ws, steps, currencies, j);
    if i < j {
      LostLocksStay(ws, steps, currencies, i, j - 1, x, mid);
      RunOk(ws, steps, currencies, j - 1);
      if Lost(ws[j - 1], x, mid) {
        LostStep(ws[j - 1], steps[j - 1], x, mid, currencies);
      } else {
        StepTransitions(ws[j - 1], steps[j - 1], x, currencies);
      }
    }
    if j < |steps| {
      if Lost(ws[j], x, mid) {
        LostStep(ws[j], steps[j], x, mid, currencies);
      } else if Pays(ws[j], steps[j], x, currencies) {
        PaidIsSettled(ws[j], steps[j], x, currencies);
      }
    }
  }

  /** What a lock that completes does to a selected batch that is open or closed. */
  lemma LockTakes(w: World, mid: MatrixId, x: string, currencies: Currencies)
    requires WorldOk(w, currencies) && MoveMatrix(w, mid, Lock, currencies).outcome == Done
    requires mid in w.matrices.docs && x in MoveTargets(w, mid, Lock) && x in w.books.batches.docs
        && StateAt(w, x) in {OPEN, CLOSED}
    ensures var v := MoveMatrix(w, mid, Lock, currencies).world;
            && LockedBy(v, x, mid) && mid in v.matrices.docs && v.matrices.docs[mid].state == LOCKED
            && v.matrices.docs[mid].kind == w.matrices.docs[mid].kind
  {
    hide BooksOk, SequencesOk, OwnersOk, ValidRepo, EntriesOk, LocksOk, MoveMatrix, StoreOk, MoveTargets, Fresh,
         MovedIds, SameTransfers, SameCore, Includes;
    WorldStoreOk(w, currencies);
    var mark := MoveMatrixEffect(w, mid, Lock, currencies);
    assert SameBatch(MovedOrSame(Lock, mid, w.books.batches.docs[x]),
        MoveMatrix(w, mid, Lock, currencies).world.books.batches.docs[x]);
  }

  /** An unlock that completes leaves a lost batch locked, though the matrix is IDLE again. */
  lemma UnlockForgets(w: World, mid: MatrixId, x: string, currencies: Currencies)
    requires WorldOk(w, currencies) && MoveMatrix(w, mid, Unlock, currencies).outcome == Done && Lost(w, x, mid)
    ensures var v := MoveMatrix(w, mid, Unlock, currencies).world;
            LockedBy(v, x, mid) && mid in v.matrices.docs && v.matrices.docs[mid].state == IDLE
  {
    hide BooksOk, SequencesOk, OwnersOk, ValidRepo, EntriesOk, LocksOk, MoveMatrix, StoreOk, MoveTargets, Fresh,
         MovedIds, SameTransfers, SameCore, Includes, KeepsLocked, PaidIds;
    WorldStoreOk(w, currencies);
    NotSelected(w, mid, x);
    var mark := MoveMatrixEffect(w, mid, Unlock, currencies);
    assert SameBatch(w.books.batches.docs[x], MoveMatrix(w, mid, Unlock, currencies).world.books.batches.docs[x]);
  }
}
