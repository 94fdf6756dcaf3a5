/** Safety over whole runs: stale reads, locks, transitions, and batches that no longer change. */
module Safety {
  import opened Common
  import opened Sums
  import opened Model
  import opened Converters
  import opened MatrixTables
  import opened Repositories
  import opened Ledgers
  import opened Recalculation
  import opened BookKeeping
  import opened Exactness
  import opened Allocation
  import opened Commands
  import opened Effects
  import opened BatchSequences
  import opened Protocol

  // ----- stale reads and locks in every reachable state

  /** Whenever an idle matrix shows a batch in a state it is no longer in, a message from another matrix that
      names the batch is still on its way. */
  lemma StaleReadsAreTold(ws: seq<World>, steps: seq<Step>, currencies: Currencies, i: nat, mid: MatrixId, r: nat)
    requires IsRun(ws, steps, currencies) && CurrenciesOk(currencies) && i < |ws|
    requires mid in ws[i].matrices.docs && ws[i].matrices.docs[mid].state == IDLE
             && r < |ws[i].matrices.docs[mid].batches|
    ensures var w, row := ws[i], ws[i].matrices.docs[mid].batches[r];
            && row.id in w.books.batches.docs
            && (row.state == w.books.batches.docs[row.id].state
                || exists mark :: mark in w.pending && mark.originMatrixId != mid && row.id in Includes(mark.batchIds))
  {
    RunOk(ws, steps, currencies, i);
    assert Entry(ws[i].matrices.docs[mid], mid, ws[i].books, ws[i].pending);
    hide BooksOk, SequencesOk, LocksOk, OwnersOk, EntriesOk;
    var row := ws[i].matrices.docs[mid].batches[r];
    assert row.state == ws[i].books.batches.docs[row.id].state || Told(ws[i].pending, mid, row.id);
  }

  /** So whenever all messages have been delivered, in whatever order, every idle matrix shows the stored states. */
  lemma DeliveredMeansInSync(ws: seq<World>, steps: seq<Step>, currencies: Currencies, i: nat, mid: MatrixId, r: nat)
    requires IsRun(ws, steps, currencies) && CurrenciesOk(currencies) && i < |ws| && ws[i].pending == multiset{}
    requires mid in ws[i].matrices.docs && ws[i].matrices.docs[mid].state == IDLE
             && r < |ws[i].matrices.docs[mid].batches|
    ensures var row := ws[i].matrices.docs[mid].batches[r];
            row.id in ws[i].books.batches.docs && row.state == ws[i].books.batches.docs[row.id].state
  {
    StaleReadsAreTold(ws, steps, currencies, i, mid, r);
  }

  /** In every reachable state a batch has an owner exactly while it is awaiting settlement or settled, and the
      owner of a locked batch exists; unless its status filter hides the batches it locked, that owner is LOCKED
      (or stuck BUSY) and lists the batch. */
  lemma LocksHaveOwners(ws: seq<World>, steps: seq<Step>, currencies: Currencies, i: nat, x: string)
    requires IsRun(ws, steps, currencies) && CurrenciesOk(currencies) && i < |ws| && x in ws[i].books.batches.docs
    ensures var w, b := ws[i], ws[i].books.batches.docs[x];
            && (b.ownerMatrixId.Some? <==> b.state in {AWAITING_SETTLEMENT, SETTLED})
            && (b.state == AWAITING_SETTLEMENT ==>
                  var mid := b.ownerMatrixId.value;
                  && mid in w.matrices.docs
                  && (KeepsLocked(w.matrices.docs[mid].kind) ==>
                        w.matrices.docs[mid].state in {LOCKED, BUSY} && x in RowIds(w.matrices.docs[mid].batches)))
  {
    RunOk(ws, steps, currencies, i);
    BooksKeyed(ws[i].books, currencies);
    assert LockOk(ws[i].books.batches.docs[x], ws[i].matrices.docs);
    hide BooksOk, SequencesOk, EntriesOk;
  }

  /** In every reachable state the batches of a name are numbered from 1 without gaps, each number once, and only
      the highest may be open. */
  lemma BatchesNumbered(ws: seq<World>, steps: seq<Step>, currencies: Currencies, i: nat, a: string, b: string)
    requires IsRun(ws, steps, currencies) && CurrenciesOk(currencies) && i < |ws|
    requires a in ws[i].books.batches.docs && b in ws[i].books.batches.docs
    requires ws[i].books.batches.docs[a].batchName == ws[i].books.batches.docs[b].batchName
    ensures var docs := ws[i].books.batches.docs;
            && (docs[a].batchSequence == docs[b].batchSequence <==> a == b)
            && (docs[a].state == OPEN ==> docs[b].batchSequence <= docs[a].batchSequence)
            && (docs[a].state == OPEN && docs[b].state == OPEN ==> a == b)
            && forall j :: 1 <= j <= docs[a].batchSequence ==>
                 var id := BatchIdentifier(docs[a].batchName, j);
                 id in docs && docs[id].batchName == docs[a].batchName && docs[id].batchSequence == j
  {
    hide BooksOk, SequencesOk, LocksOk, OwnersOk, EntriesOk, BatchIdentifier;
    RunOk(ws, steps, currencies, i);
    OneOpenBatchPerName(ws[i].books.batches.docs, a, b);
  }

  // ----- what one step does to one batch

  /** What never changes about a batch. */
  ghost predicate SameIdentity(a: Batch, b: Batch)
  {
    && b.id == a.id && b.batchUUID == a.batchUUID && b.batchName == a.batchName && b.batchSequence == a.batchSequence
    && b.timestamp == a.timestamp
    && b.settlementModel == a.settlementModel && b.currencyCode == a.currencyCode
  }

  ghost predicate Stayed(a: Batch, b: Batch)
  {
    SameIdentity(a, b) && b.state == a.state && b.ownerMatrixId == a.ownerMatrixId
  }

  /** The step is a command on a matrix in the right state that moves this batch. */
  ghost predicate MovedBy(w: World, s: Step, x: string, b: Batch)
    requires x in w.books.batches.docs
  {
    && s.Handle? && s.command.MoveMatrixCmd? && s.command.matrixId in w.matrices.docs
    && var mid, mv := s.command.matrixId, s.command.move;
       && w.matrices.docs[mid].state == From(mv) && x in MoveTargets(w, mid, mv)
       && Moved(mv, mid, w.books.batches.docs[x]).Some?
       && Stayed(Moved(mv, mid, w.books.batches.docs[x]).value, b)
  }

  lemma SameStatesStayed(a: map<string, Batch>, b: map<string, Batch>)
    requires SameBatches(a, b)
    ensures forall x :: x in a ==> x in b && Stayed(a[x], b[x])
  {
    SameBatchesSameStates(a, b);
  }

  lemma MoveStep(w: World, id: MatrixId, mv: Move, x: string, currencies: Currencies)
    requires WorldOk(w, currencies) && x in w.books.batches.docs
    ensures var v := MoveMatrix(w, id, mv, currencies).world;
            x in v.books.batches.docs && (Stayed(w.books.batches.docs[x], v.books.batches.docs[x])
              || MovedBy(w, Handle(MoveMatrixCmd(id, mv)), x, v.books.batches.docs[x]))
  {
    hide BooksOk, SequencesOk, OwnersOk, ValidRepo, EntriesOk, LocksOk, MoveMatrix, StoreOk, MoveTargets, Moved,
         SameTransfers, Includes, MovedIds, Fresh, LedgerGrows;
    WorldStoreOk(w, currencies);
    var mark := MoveMatrixEffect(w, id, mv, currencies);
    var e := MoveMatrix(w, id, mv, currencies);
    if e.outcome == Done {
      var a := w.books.batches.docs[x];
      var moved := if x in MoveTargets(w, id, mv) then MovedOrSame(mv, id, a) else a;
      assert SameBatch(moved, e.world.books.batches.docs[x]);
    } else if e.world != w {
      SameStatesStayed(w.books.batches.docs, e.world.books.batches.docs);
    }
  }

  lemma RecalculateStep(w: World, stored: Matrix, working: Matrix, x: string, currencies: Currencies)
    requires WorldOk(w, currencies) && stored.id == working.id && stored.kind == working.kind
             && x in w.books.batches.docs
    ensures var v := RecalculateAndStore(w, stored, working, IDLE, currencies).world;
            SameCore(w.books, v.books) && x in v.books.batches.docs
            && Stayed(w.books.batches.docs[x], v.books.batches.docs[x])
  {
    hide BooksOk, RecalculateAndStore, SelectedIds, Fresh, SequencesOk, OwnersOk, EntriesOk, LocksOk;
    RecalculateAndStoreEffect(w, stored, working, currencies);
    SameStatesStayed(w.books.batches.docs,
                     RecalculateAndStore(w, stored, working, IDLE, currencies).world.books.batches.docs);
  }

  // ----- the commands that only recalculate

  /** Creating, recalculating and editing a matrix. */
  predicate Recalculates(c: Command)
  {
    c.CreateStaticMatrixCmd? || c.CreateDynamicMatrixCmd? || c.RecalculateMatrixCmd? || c.AddBatchesToMatrixCmd?
    || c.RemoveBatchesFromMatrixCmd?
  }

  /** A new matrix: each batch once, and no balances yet. */
  ghost predicate ZeroBalances(m: Matrix)
  {
    && m.tables == NoBalances && DistinctRows(m.batches)
    && forall i :: 0 <= i < |m.batches| ==>
         m.batches[i].batchDebitBalance == "0" && m.batches[i].batchCreditBalance == "0"
  }

  lemma {:induction false} ZeroRowsAre(bs: seq<Batch>)
    ensures |ZeroRows(bs)| == |bs|
    ensures forall i :: 0 <= i < |bs| ==> ZeroRows(bs)[i] == ZeroRow(bs[i])
  {
    if bs != [] {
      ZeroRowsAre(bs[1..]);
    }
  }

  /** The batches found by their ids are found once each. */
  lemma ByIdsDistinct(k: Books, ids: seq<string>, currencies: Currencies)
    requires BooksOk(k, currencies)
    ensures var bs := BatchesByIds(k, ids); forall i, j :: 0 <= i < j < |bs| ==> bs[i].id != bs[j].id
  {
    hide BooksOk, Pick, Records, Select, ValidRepo, Includes, KeyedById, NoDuplicates;
    TransfersRepoOk(k, currencies);
    BooksKeyed(k, currencies);
    var keys := SelectExact(k.batches, Includes(ids));
    KeysDiffer(k.batches.docs, keys, BatchesByIds(k, ids));
  }

  lemma KeysDiffer(docs: map<string, Batch>, keys: seq<string>, bs: seq<Batch>)
    requires KeyedById(docs) && NoDuplicates(keys) && |bs| == |keys|
    requires forall i :: 0 <= i < |keys| ==> keys[i] in docs && bs[i] == docs[keys[i]]
    ensures forall i, j :: 0 <= i < j < |bs| ==> bs[i].id != bs[j].id
  {
    forall i | 0 <= i < |bs| ensures bs[i].id == keys[i] {}
  }

  lemma NewRowsAreZero(w: World, ids: seq<string>, mid: MatrixId, currencies: Currencies)
    requires BooksOk(w.books, currencies)
    ensures ZeroBalances(Matrix(mid, STATIC, BUSY, ZeroRows(BatchesByIds(w.books, ids)), NoBalances))
  {
    hide BooksOk, BatchesByIds, ZeroRows;
    ByIdsDistinct(w.books, ids, currencies);
    ZeroRowsAre(BatchesByIds(w.books, ids));
  }

  /** Such a command is refused, or stores a matrix that was IDLE, OUT_OF_SYNC or not there, and recalculates it. */
  ghost predicate RunsAs(w: World, v: World, start: World, stored: Matrix, working: Matrix, currencies: Currencies)
  {
    && WorldOk(start, currencies) && start == w.(books := w.books.(nextId := start.books.nextId))
    && stored.id == working.id && stored.kind == working.kind
    && (stored.id in w.matrices.docs ==> stored == w.matrices.docs[stored.id] && stored.state in {IDLE, OUT_OF_SYNC})
    && (stored.id !in w.matrices.docs ==> ZeroBalances(stored))
    && (v == w || v == RecalculateAndStore(start, stored, working, IDLE, currencies).world)
  }

  lemma CreatingCommand(w: World, id: Option<string>, m: Matrix, v: World, currencies: Currencies)
    requires WorldOk(w, currencies) && m.id == NewMatrixId(id, w.books.nextId) && ZeroBalances(m)
    requires v == if HasId(id) && m.id in w.matrices.docs then w
                  else RecalculateAndStore(DrawId(w, id), m, m, IDLE, currencies).world
    ensures var start := if HasId(id) && m.id in w.matrices.docs then w else DrawId(w, id);
            var stored := if HasId(id) && m.id in w.matrices.docs then m.(id := Generated(w.books.nextId)) else m;
            RunsAs(w, v, start, stored, stored, currencies)
  {
    hide BooksOk, SequencesOk, OwnersOk, ValidRepo, EntriesOk, LocksOk, RecalculateAndStore;
    DrawIdKeeps(w, id, currencies);
    if Generated(w.books.nextId) in w.matrices.docs {
      StoredIsStorable(w, Generated(w.books.nextId), currencies);
    }
  }

  lemma EditingCommand(w: World, id: MatrixId, rows: seq<MatrixBatch>, v: World, currencies: Currencies)
    requires WorldOk(w, currencies) && id in w.matrices.docs && w.matrices.docs[id].state in {IDLE, OUT_OF_SYNC}
    requires var m := w.matrices.docs[id];
             v == RecalculateAndStore(w, m, m.(batches := rows), IDLE, currencies).world
    ensures RunsAs(w, v, w, w.matrices.docs[id], w.matrices.docs[id].(batches := rows), currencies)
  {
    hide BooksOk, SequencesOk, OwnersOk, ValidRepo, EntriesOk, LocksOk, RecalculateAndStore;
    StoredIsStorable(w, id, currencies);
  }

  lemma RefusedCommand(w: World, currencies: Currencies)
    requires WorldOk(w, currencies)
    ensures var m := Matrix(Generated(w.books.nextId), STATIC, BUSY, [], NoBalances);
            RunsAs(w, w, w, m, m, currencies)
  {
    hide BooksOk, SequencesOk, OwnersOk, ValidRepo, EntriesOk, LocksOk, RecalculateAndStore;
    if Generated(w.books.nextId) in w.matrices.docs {
      StoredIsStorable(w, Generated(w.books.nextId), currencies);
    }
  }

  lemma WorldRowsZero(w: World, ids: seq<string>, mid: MatrixId, currencies: Currencies)
    requires WorldOk(w, currencies)
    ensures ZeroBalances(Matrix(mid, STATIC, BUSY, ZeroRows(BatchesByIds(w.books, ids)), NoBalances))
  {
    hide BooksOk, SequencesOk, OwnersOk, ValidRepo, EntriesOk, LocksOk, BatchesByIds, ZeroBalances;
    NewRowsAreZero(w, ids, mid, currencies);
  }

  lemma RecalculatingCommand(w: World, c: Command, currencies: Currencies)
      returns (start: World, stored: Matrix, working: Matrix)
    requires WorldOk(w, currencies) && Recalculates(c)
    ensures RunsAs(w, Execute(w, c, currencies).world, start, stored, working, currencies)
  {
    hide WorldOk, RecalculateAndStore, AddRows, RemoveRows, BatchesByIds, ZeroRows, DrawId, RunsAs;
    var v := Execute(w, c, currencies).world;
    RefusedCommand(w, currencies);
    start, stored := w, Matrix(Generated(w.books.nextId), STATIC, BUSY, [], NoBalances);
    working := stored;
    if c.CreateStaticMatrixCmd? {
      var m := Matrix(NewMatrixId(c.newId, w.books.nextId), STATIC, BUSY, ZeroRows(BatchesByIds(w.books, c.batchIds)),
          NoBalances);
      WorldRowsZero(w, c.batchIds, m.id, currencies);
      CreatingCommand(w, c.newId, m, v, currencies);
      if !(HasId(c.newId) && m.id in w.matrices.docs) {
        start, stored, working := DrawId(w, c.newId), m, m;
      }
    } else if c.CreateDynamicMatrixCmd? {
      var kind := DYNAMIC(c.dateFrom, c.dateTo, c.currencyCodes, c.model, c.batchStatuses);
      var m := Matrix(NewMatrixId(c.newId, w.books.nextId), kind, BUSY, [], NoBalances);
      CreatingCommand(w, c.newId, m, v, currencies);
      if !(HasId(c.newId) && m.id in w.matrices.docs) {
        start, stored, working := DrawId(w, c.newId), m, m;
      }
    } else if v != w {
      stored := w.matrices.docs[c.matrixId];
      var rows := stored.batches;
      if c.AddBatchesToMatrixCmd? {
        rows := AddRows(rows, BatchesByIds(w.books, c.batchIds));
      } else if c.RemoveBatchesFromMatrixCmd? {
        rows := RemoveRows(rows, BatchesByIds(w.books, c.batchIds));
      }
      working := stored.(batches := rows);
      EditingCommand(w, c.matrixId, working.batches, v, currencies);
    }
  }

  /** Every step leaves every stored batch as it is, or is a command of a matrix that moves it. */
  lemma StepOnBatch(w: World, s: Step, x: string, currencies: Currencies)
    requires WorldOk(w, currencies) && CurrenciesOk(currencies) && x in w.books.batches.docs
    ensures var v := Next(w, s, currencies);
            x in v.books.batches.docs
            && (Stayed(w.books.batches.docs[x], v.books.batches.docs[x]) || MovedBy(w, s, x, v.books.batches.docs[x]))
  {
    hide WorldOk, MoveMatrix, RecalculateAndStore, MarkOutOfSync, CreateStaticMatrix, CreateDynamicMatrix,
         Commands.RecalculateMatrix, AddBatches, RemoveBatches, Stayed, MovedBy, ProcessTransfer, CurrenciesOk;
    StayedSelf(w.books.batches.docs[x]);
    if s.Handle? {
      if Recalculates(s.command) {
        var start, stored, working := RecalculatingCommand(w, s.command, currencies);
        RecalculateStep(start, stored, working, x, currencies);
      } else if s.command.ProcessTransferCmd? {
        TransferStep(w, s.command.transfer, s.command.now, x, currencies);
        StayedSelf(Next(w, s, currencies).books.batches.docs[x]);
      } else if s.command.MoveMatrixCmd? {
        MoveStep(w, s.command.matrixId, s.command.move, x, currencies);
      }
    }
  }

  lemma StayedSelf(a: Batch)
    ensures Stayed(a, a)
  {
  }

  lemma TransferStep(w: World, p: TransferPayload, now: int, x: string, currencies: Currencies)
    requires WorldOk(w, currencies) && CurrenciesOk(currencies) && x in w.books.batches.docs
    ensures var v := ProcessTransfer(w, p, now, currencies).world;
            x in v.books.batches.docs && v.books.batches.docs[x] == w.books.batches.docs[x]
  {
    hide BooksOk, SequencesOk, OwnersOk, ValidRepo, EntriesOk, LocksOk, AddTransfer, CurrenciesOk;
    if Validate(p, currencies) == Done && p.settlementModel in w.configs {
      var b := AddTransferExact(w.books, p, w.configs[p.settlementModel], now, currencies);
    }
  }

  // ----- transitions

  predicate Transition(a: BatchState, b: BatchState)
  {
    || a == b
    || (a in {OPEN, DISPUTED} && b == CLOSED)
    || (a in {OPEN, CLOSED} && b == DISPUTED)
    || (a in {OPEN, CLOSED} && b == AWAITING_SETTLEMENT)
    || (a == AWAITING_SETTLEMENT && b in {CLOSED, SETTLED})
  }

  lemma MovedTransition(w: World, s: Step, x: string, b: Batch)
    requires x in w.books.batches.docs && MovedBy(w, s, x, b)
    ensures Transition(w.books.batches.docs[x].state, b.state) && SameIdentity(w.books.batches.docs[x], b)
    ensures w.books.batches.docs[x].state == AWAITING_SETTLEMENT && b.state == CLOSED ==>
              s == Handle(MoveMatrixCmd(s.command.matrixId, Unlock))
                  && w.books.batches.docs[x].ownerMatrixId == Some(s.command.matrixId)
    ensures b.state == SETTLED ==> b.ownerMatrixId == w.books.batches.docs[x].ownerMatrixId && s.command.move == Settle
    ensures b.state == AWAITING_SETTLEMENT ==> b.ownerMatrixId == Some(s.command.matrixId) && s.command.move == Lock
    ensures w.books.batches.docs[x].state != SETTLED
  {
    hide SelectedIds;
  }

  /** One step moves a batch only along the documented transitions; a lock is only given up, as CLOSED, by an
      unlock of the matrix that owns it; a settled batch keeps its state and owner. */
  lemma StepTransitions(w: World, s: Step, x: string, currencies: Currencies)
    requires WorldOk(w, currencies) && CurrenciesOk(currencies) && x in w.books.batches.docs
    ensures var a, v := w.books.batches.docs[x], Next(w, s, currencies);
            && x in v.books.batches.docs && Transition(a.state, v.books.batches.docs[x].state)
            && SameIdentity(a, v.books.batches.docs[x])
            && (a.state == AWAITING_SETTLEMENT && v.books.batches.docs[x].state == CLOSED ==>
                  s.Handle? && s.command.MoveMatrixCmd? && s.command.move == Unlock
                      && a.ownerMatrixId == Some(s.command.matrixId))
            && (a.state == SETTLED ==> Stayed(a, v.books.batches.docs[x]))
            && (a.state == AWAITING_SETTLEMENT && v.books.batches.docs[x].state in {AWAITING_SETTLEMENT, SETTLED} ==>
                  v.books.batches.docs[x].ownerMatrixId == a.ownerMatrixId)
  {
    StepOnBatch(w, s, x, currencies);
    hide WorldOk, Next, MovedBy, CurrenciesOk;
    var b := Next(w, s, currencies).books.batches.docs[x];
    if !Stayed(w.books.batches.docs[x], b) {
      MovedTransition(w, s, x, b);
      LockingMovesOpen(w, s, x, b);
    }
  }

  /** Only batches that are not locked yet become locked. */
  lemma LockingMovesOpen(w: World, s: Step, x: string, b: Batch)
    requires x in w.books.batches.docs && MovedBy(w, s, x, b)
    ensures b.state == AWAITING_SETTLEMENT ==> w.books.batches.docs[x].state in {OPEN, CLOSED}
  {
    hide SelectedIds;
  }

  // ----- paths of one batch through a run

  function StateAt(w: World, x: string): BatchState
    requires x in w.books.batches.docs
  {
    w.books.batches.docs[x].state
  }

  lemma {:induction false} BatchStays(ws: seq<World>, steps: seq<Step>, currencies: Currencies, i: nat, j: nat,
                                      x: string)
    requires IsRun(ws, steps, currencies) && CurrenciesOk(currencies) && i <= j < |ws| && x in ws[i].books.batches.docs
    ensures x in ws[j].books.batches.docs && SameIdentity(ws[i].books.batches.docs[x], ws[j].books.batches.docs[x])
    ensures StateAt(ws[i], x) == SETTLED ==> Stayed(ws[i].books.batches.docs[x], ws[j].books.batches.docs[x])
    ensures StateAt(ws[i], x) != OPEN ==> StateAt(ws[j], x) != OPEN
    decreases j - i
  {
    hide WorldOk, Next, CurrenciesOk;
    if i < j {
      BatchStays(ws, steps, currencies, i, j - 1, x);
      RunOk(ws, steps, currencies, j - 1);
      StepTransitions(ws[j - 1], steps[j - 1], x, currencies);
    }
  }

  /** Somewhere between two different states there is a first step that leaves the first one. */
  lemma {:induction false} FirstChange(ws: seq<World>, steps: seq<Step>, currencies: Currencies, i: nat, j: nat,
      x: string) returns (k: nat)
    requires IsRun(ws, steps, currencies) && CurrenciesOk(currencies) && i < j < |ws| && x in ws[i].books.batches.docs
    requires x in ws[j].books.batches.docs && StateAt(ws[j], x) != StateAt(ws[i], x)
    ensures i < k <= j && x in ws[k - 1].books.batches.docs && x in ws[k].books.batches.docs
    ensures StateAt(ws[k - 1], x) == StateAt(ws[i], x) && StateAt(ws[k], x) != StateAt(ws[i], x)
    decreases j - i
  {
    hide WorldOk, Next, CurrenciesOk, IsRun;
    BatchStays(ws, steps, currencies, i, j - 1, x);
    if i < j - 1 && StateAt(ws[j - 1], x) != StateAt(ws[i], x) {
      k := FirstChange(ws, steps, currencies, i, j - 1, x);
    } else {
      k := j;
    }
  }

  /** The step into the state a batch has at j, when it had another one at i. */
  lemma {:induction false} LastChange(ws: seq<World>, steps: seq<Step>, currencies: Currencies, i: nat, j: nat,
      x: string) returns (k: nat)
    requires IsRun(ws, steps, currencies) && CurrenciesOk(currencies) && i < j < |ws| && x in ws[i].books.batches.docs
    requires x in ws[j].books.batches.docs && StateAt(ws[j], x) != StateAt(ws[i], x)
    ensures i < k <= j && x in ws[k - 1].books.batches.docs && x in ws[k].books.batches.docs
    ensures StateAt(ws[k - 1], x) != StateAt(ws[j], x) && StateAt(ws[k], x) == StateAt(ws[j], x)
    decreases j - i
  {
    hide WorldOk, Next, CurrenciesOk, IsRun;
    BatchStays(ws, steps, currencies, i, j - 1, x);
    if StateAt(ws[j - 1], x) != StateAt(ws[j], x) {
      k := j;
    } else {
      k := LastChange(ws, steps, currencies, i, j - 1, x);
    }
  }

  lemma TransitionAt(ws: seq<World>, steps: seq<Step>, currencies: Currencies, k: nat, x: string)
    requires IsRun(ws, steps, currencies) && CurrenciesOk(currencies) && 0 < k < |ws|
             && x in ws[k - 1].books.batches.docs
    ensures x in ws[k].books.batches.docs && Transition(StateAt(ws[k - 1], x), StateAt(ws[k], x))
  {
    hide WorldOk, Next, CurrenciesOk, Transition;
    RunOk(ws, steps, currencies, k - 1);
    StepTransitions(ws[k - 1], steps[k - 1], x, currencies);
  }

  /** A disputed batch is settled only by way of CLOSED and then AWAITING_SETTLEMENT. */
  lemma DisputedIsClosedBeforeSettled(ws: seq<World>, steps: seq<Step>, currencies: Currencies, i: nat, j: nat,
                                      x: string)
    returns (k: nat, l: nat)
    requires IsRun(ws, steps, currencies) && CurrenciesOk(currencies) && i < j < |ws| && x in ws[i].books.batches.docs
    requires StateAt(ws[i], x) == DISPUTED && x in ws[j].books.batches.docs && StateAt(ws[j], x) == SETTLED
    ensures i < k < l < j && x in ws[k].books.batches.docs && x in ws[l].books.batches.docs
    ensures StateAt(ws[k], x) == CLOSED && StateAt(ws[l], x) == AWAITING_SETTLEMENT
  {
    hide WorldOk, Next, CurrenciesOk, IsRun;
    var into := LastChange(ws, steps, currencies, i, j, x);
    TransitionAt(ws, steps, currencies, into, x);
    l := into - 1;
    k := FirstChange(ws, steps, currencies, i, l, x);
    TransitionAt(ws, steps, currencies, k, x);
  }
}
