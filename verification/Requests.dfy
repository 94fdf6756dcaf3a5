/** When the commands on matrices are carried out, when they are refused, and what either leaves. */
module Requests {
  import opened Common
  import opened Model
  import opened Converters
  import opened MatrixTables
  import opened Totals
  import opened Repositories
  import opened Ledgers
  import opened Recalculation
  import opened BookKeeping
  import opened Exactness
  import opened Accumulation
  import opened Completion
  import opened Commands
  import opened Effects
  import opened BatchSequences
  import opened Protocol
  import opened Membership
  import opened Safety
  import opened Selections

  /** Recalculating these batches for this matrix goes through: in the order of the stores each amount still fits. */
  ghost predicate GoesThrough(k: Books, ids: set<string>, mid: MatrixId, settling: bool, currencies: Currencies)
  {
    EachFits(map[], BatchesBookings(k, Select(k.batches, ids), mid, settling), currencies)
  }

  lemma BookingsAre(k: Books, m: Matrix, settling: bool, currencies: Currencies)
    ensures EachFits(map[], RecalculationBookings(k, m, settling), currencies)
            <==> GoesThrough(k, SelectedIds(k.batches.docs, m), m.id, settling, currencies)
  {
    hide EachFits, BatchesBookings, Select, SelectedIds;
  }

  /** The matrix is IDLE and lists exactly these batches with their stored states; no other matrix and no state of a
      batch changed, and nothing was sent. */
  ghost predicate Restored(w: World, v: World, mid: MatrixId, kind: MatrixType, ids: set<string>)
  {
    && mid in v.matrices.docs && v.matrices.docs == w.matrices.docs[mid := v.matrices.docs[mid]]
    && var m := v.matrices.docs[mid];
       && m.id == mid && m.kind == kind && m.state == IDLE
       && DistinctRows(m.batches) && RowIds(m.batches) == ids
       && (forall i :: 0 <= i < |m.batches| ==>
             m.batches[i].id in v.books.batches.docs
             && m.batches[i].state == v.books.batches.docs[m.batches[i].id].state)
       && SameBatches(w.books.batches.docs, v.books.batches.docs)
       && SameTransfers(w.books.transfers.docs, v.books.transfers.docs)
       && v.pending == w.pending && v.events == w.events && v.configs == w.configs
  }

  /** The matrix stays BUSY with the list and tables it was stored with. */
  ghost predicate Stuck(w: World, v: World, mid: MatrixId, kind: MatrixType, rows: seq<MatrixBatch>, tb: Tables)
  {
    && v.matrices.docs == w.matrices.docs[mid := Matrix(mid, kind, BUSY, rows, tb)]
    && SameBatches(w.books.batches.docs, v.books.batches.docs)
    && SameTransfers(w.books.transfers.docs, v.books.transfers.docs)
    && v.pending == w.pending && v.events == w.events && v.configs == w.configs
  }

  /** The common part of the five commands below. */
  lemma Recalculated(w: World, stored: Matrix, working: Matrix, currencies: Currencies)
    requires BooksOk(w.books, currencies) && ValidRepo(w.matrices)
    requires stored.id == working.id && stored.kind == working.kind
    ensures var e := RecalculateAndStore(w, stored, working, IDLE, currencies);
            var ids := SelectedIds(w.books.batches.docs, working);
            && (e.outcome == Done <==> GoesThrough(w.books, ids, stored.id, false, currencies))
            && (e.outcome == Done ==> Restored(w, e.world, stored.id, stored.kind, ids))
            && (e.outcome != Done ==> e.outcome == Failed(RecalculationFailed)
                                      && Stuck(w, e.world, stored.id, stored.kind, stored.batches, stored.tables))
  {
    hide BooksOk, ValidRepo, SelectedIds, GoesThrough, Recalculate, RecalculationBookings, EachFits, SameBatches,
         SameTransfers, LedgerGrows, RowIds, Without;
    RecalculateAndStoreEffect(w, stored, working, currencies);
    RecalculateAndStoreCompletes(w, stored, working, IDLE, currencies);
    BookingsAre(w.books, working, false, currencies);
    PutValid(w.matrices, stored.id, stored.(state := BUSY));
  }

  // ----- recalculating

  /** A matrix is recalculated exactly when it is stored, IDLE or OUT_OF_SYNC, and each amount fits. An unknown one
      is refused, and so is a BUSY, LOCKED or FINALIZED one. */
  lemma RecalculateRequested(w: World, id: MatrixId, currencies: Currencies)
    requires WorldOk(w, currencies)
    ensures var e := Execute(w, RecalculateMatrixCmd(id), currencies);
            if id !in w.matrices.docs then e == Effect(w, Failed(MatrixNotFound))
            else
              var m, ids := w.matrices.docs[id], SelectedIds(w.books.batches.docs, w.matrices.docs[id]);
              match m.state
              case BUSY => e == Effect(w, Failed(CannotRecalculate))
              case LOCKED => e == Effect(w, Failed(CannotRecalculate))
              case FINALIZED => e == Effect(w, Failed(CannotRecalculate))
              case _ =>
                if GoesThrough(w.books, ids, id, false, currencies)
                then e.outcome == Done && Restored(w, e.world, id, m.kind, ids)
                else e.outcome == Failed(RecalculationFailed) && Stuck(w, e.world, id, m.kind, m.batches, m.tables)
  {
    hide BooksOk, SequencesOk, OwnersOk, EntriesOk, LocksOk, ValidRepo, SelectedIds, GoesThrough, Restored, Stuck,
         RecalculateAndStore, Storable;
    if id in w.matrices.docs {
      StoredIsStorable(w, id, currencies);
      Recalculated(w, w.matrices.docs[id], w.matrices.docs[id], currencies);
    }
  }

  // ----- editing

  /** Batches are added exactly to a stored static matrix that is IDLE, when each amount of the new list fits. */
  lemma AddRequested(w: World, id: MatrixId, sent: seq<string>, currencies: Currencies)
    requires WorldOk(w, currencies)
    ensures var e := Execute(w, AddBatchesToMatrixCmd(id, sent), currencies);
            if id !in w.matrices.docs then e == Effect(w, Failed(MatrixNotFound))
            else
              var m := w.matrices.docs[id];
              var ids := RowIds(m.batches) + set x | x in sent && x in w.books.batches.docs;
              if m.kind.DYNAMIC? then e == Effect(w, Failed(MatrixIsClosed))
              else if m.state in {BUSY, LOCKED, FINALIZED, OUT_OF_SYNC} then e == Effect(w, Failed(CannotAddBatches))
              else if GoesThrough(w.books, ids, id, false, currencies)
              then e.outcome == Done && Restored(w, e.world, id, STATIC, ids)
              else e.outcome == Failed(RecalculationFailed) && Stuck(w, e.world, id, STATIC, m.batches, m.tables)
  {
    hide BooksOk, SequencesOk, OwnersOk, EntriesOk, LocksOk, ValidRepo, SelectedIds, GoesThrough, Restored, Stuck,
         RecalculateAndStore, Storable, RowIds, AddRows, BatchesByIds;
    if id in w.matrices.docs {
      var m := w.matrices.docs[id];
      var working := m.(batches := AddRows(m.batches, BatchesByIds(w.books, sent)));
      StoredIsStorable(w, id, currencies);
      ListedAreStored(w, id, currencies);
      AddedIds(m.batches, BatchesByIds(w.books, sent));
      FoundIds(w, sent, currencies);
      SentAre(sent);
      if m.kind == STATIC {
        StaticSelection(w.books.batches.docs, working);
        Recalculated(w, m, working, currencies);
        assert (RowIds(m.batches) + Membership.Known(w, sent)) * w.books.batches.docs.Keys
            == RowIds(m.batches) + set x | x in sent && x in w.books.batches.docs;
      }
    }
  }

  lemma SentAre(sent: seq<string>)
    ensures forall x :: x in Includes(sent) <==> x in sent
  {
  }

  /** Batches are removed exactly from a stored static matrix that is IDLE, when each amount of the new list fits. */
  lemma RemoveRequested(w: World, id: MatrixId, sent: seq<string>, currencies: Currencies)
    requires WorldOk(w, currencies)
    ensures var e := Execute(w, RemoveBatchesFromMatrixCmd(id, sent), currencies);
            if id !in w.matrices.docs then e == Effect(w, Failed(MatrixNotFound))
            else
              var m := w.matrices.docs[id];
              var ids := set x | x in RowIds(m.batches) && x !in sent;
              if m.kind.DYNAMIC? then e == Effect(w, Failed(MatrixIsClosed))
              else if m.state in {BUSY, LOCKED, FINALIZED, OUT_OF_SYNC} then e == Effect(w, Failed(CannotRemoveBatches))
              else if GoesThrough(w.books, ids, id, false, currencies)
              then e.outcome == Done && Restored(w, e.world, id, STATIC, ids)
              else e.outcome == Failed(RecalculationFailed) && Stuck(w, e.world, id, STATIC, m.batches, m.tables)
  {
    hide BooksOk, SequencesOk, OwnersOk, EntriesOk, LocksOk, ValidRepo, SelectedIds, GoesThrough, Restored, Stuck,
         RecalculateAndStore, Storable, RowIds, RemoveRows, BatchesByIds;
    if id in w.matrices.docs {
      var m := w.matrices.docs[id];
      var working := m.(batches := RemoveRows(m.batches, BatchesByIds(w.books, sent)));
      StoredIsStorable(w, id, currencies);
      ListedAreStored(w, id, currencies);
      RemovedIds(m.batches, BatchesByIds(w.books, sent));
      FoundIds(w, sent, currencies);
      SentAre(sent);
      if m.kind == STATIC {
        StaticSelection(w.books.batches.docs, working);
        Recalculated(w, m, working, currencies);
        assert (RowIds(m.batches) - Membership.Known(w, sent)) * w.books.batches.docs.Keys
            == set x | x in RowIds(m.batches) && x !in sent;
      }
    }
  }

  // ----- creating

  /** The id of a new matrix: the one that was sent, or a fresh one. */
  function IdFor(w: World, newId: Option<string>): MatrixId
  {
    match newId
    case Some(text) => if text == "" then Generated(w.books.nextId) else Given(text)
    case None => Generated(w.books.nextId)
  }

  /** A row of a batch before its first recalculation. */
  predicate BlankRow(row: MatrixBatch, docs: map<string, Batch>)
  {
    && row.id in docs && row.name == docs[row.id].batchName && row.currencyCode == docs[row.id].currencyCode
    && row.state == docs[row.id].state && row.batchDebitBalance == "0" && row.batchCreditBalance == "0"
  }

  /** A new matrix is left BUSY, over these batches, without balances. */
  ghost predicate BlankStuck(w: World, v: World, mid: MatrixId, kind: MatrixType, ids: set<string>)
  {
    && mid in v.matrices.docs && Stuck(w, v, mid, kind, v.matrices.docs[mid].batches, Tables([], [], []))
    && DistinctRows(v.matrices.docs[mid].batches) && RowIds(v.matrices.docs[mid].batches) == ids
    && forall i :: 0 <= i < |v.matrices.docs[mid].batches| ==>
         BlankRow(v.matrices.docs[mid].batches[i], w.books.batches.docs)
  }

  lemma BlankRows(w: World, sent: seq<string>, currencies: Currencies)
    requires WorldOk(w, currencies)
    ensures var rows := ZeroRows(BatchesByIds(w.books, sent));
            && DistinctRows(rows) && RowIds(rows) == Membership.Known(w, sent)
            && forall i :: 0 <= i < |rows| ==> BlankRow(rows[i], w.books.batches.docs)
  {
    hide SequencesOk, OwnersOk, EntriesOk, LocksOk, BooksOk, ValidRepo, Pick, Records, Select, Includes, ZeroRows,
         KeyedById, NoDuplicates, RowIds;
    var bs := BatchesByIds(w.books, sent);
    TransfersRepoOk(w.books, currencies);
    BooksKeyed(w.books, currencies);
    var keys := SelectExact(w.books.batches, Includes(sent));
    ZeroRowsAre(bs);
    ZeroIds(bs);
    FoundIds(w, sent, currencies);
    KeysDiffer(w.books.batches.docs, keys, bs);
    KeyedRows(w.books.batches.docs, keys, bs);
  }

  lemma KeyedRows(docs: map<string, Batch>, keys: seq<string>, bs: seq<Batch>)
    requires KeyedById(docs) && |bs| == |keys|
    requires forall i :: 0 <= i < |keys| ==> keys[i] in docs && bs[i] == docs[keys[i]]
    ensures forall i :: 0 <= i < |bs| ==> BlankRow(ZeroRow(bs[i]), docs)
  {
    forall i | 0 <= i < |bs| ensures BlankRow(ZeroRow(bs[i]), docs) {
      assert docs[keys[i]].id == keys[i];
    }
  }

  lemma {:induction false} SupplyIrrelevant(k: Books, n: nat, bs: seq<Batch>, mid: MatrixId, settling: bool)
    ensures BatchesBookings(k.(nextId := n), bs, mid, settling) == BatchesBookings(k, bs, mid, settling)
  {
    if bs != [] {
      SupplyIrrelevant(k, n, bs[1..], mid, settling);
    }
  }

  /** A new matrix that is drawn its id and then recalculated. */
  lemma Created(w: World, newId: Option<string>, m: Matrix, currencies: Currencies)
    requires WorldOk(w, currencies) && m.id == NewMatrixId(newId, w.books.nextId)
    ensures m.id == IdFor(w, newId)
    ensures var e := RecalculateAndStore(DrawId(w, newId), m, m, IDLE, currencies);
            var ids := SelectedIds(w.books.batches.docs, m);
            && (e.outcome == Done <==> GoesThrough(w.books, ids, m.id, false, currencies))
            && (e.outcome == Done ==> Restored(w, e.world, m.id, m.kind, ids))
            && (e.outcome != Done ==> e.outcome == Failed(RecalculationFailed)
                                      && Stuck(w, e.world, m.id, m.kind, m.batches, m.tables))
  {
    hide BooksOk, SequencesOk, OwnersOk, EntriesOk, LocksOk, ValidRepo, SelectedIds, RecalculateAndStore, EachFits,
         BatchesBookings, Select, SameBatches, SameTransfers, RowIds;
    DrawIdKeeps(w, newId, currencies);
    Recalculated(DrawId(w, newId), m, m, currencies);
    var ids := SelectedIds(w.books.batches.docs, m);
    SupplyIrrelevant(w.books, DrawId(w, newId).books.nextId, Select(w.books.batches, ids), m.id, false);
  }

  lemma UnusedWhenDrawn(w: World, newId: Option<string>, currencies: Currencies)
    requires WorldOk(w, currencies)
    ensures !HasId(newId) ==> NewMatrixId(newId, w.books.nextId) !in w.matrices.docs
    ensures NewMatrixId(newId, w.books.nextId) == IdFor(w, newId)
  {
    hide BooksOk, SequencesOk, OwnersOk, EntriesOk, LocksOk, ValidRepo;
    DrawIdKeeps(w, newId, currencies);
  }

  /** A static matrix is created exactly under an id that is not in use, when each amount of the stored batches among
      those sent fits. */
  lemma CreateStaticRequested(w: World, newId: Option<string>, sent: seq<string>, currencies: Currencies)
    requires WorldOk(w, currencies)
    ensures var e, mid := Execute(w, CreateStaticMatrixCmd(newId, sent), currencies), IdFor(w, newId);
            var ids := set x | x in sent && x in w.books.batches.docs;
            if mid in w.matrices.docs then e == Effect(w, Failed(MatrixAlreadyExists))
            else if GoesThrough(w.books, ids, mid, false, currencies)
            then e.outcome == Done && Restored(w, e.world, mid, STATIC, ids)
            else e.outcome == Failed(RecalculationFailed) && BlankStuck(w, e.world, mid, STATIC, ids)
  {
    hide WorldOk, SelectedIds, GoesThrough, Restored, RecalculateAndStore, RowIds, ZeroRows, BatchesByIds, DrawId,
         SameBatches, SameTransfers, BlankRow;
    UnusedWhenDrawn(w, newId, currencies);
    BlankRows(w, sent, currencies);
    var m := Matrix(IdFor(w, newId), STATIC, BUSY, ZeroRows(BatchesByIds(w.books, sent)), NoBalances);
    Created(w, newId, m, currencies);
    StaticSelection(w.books.batches.docs, m);
    SentAre(sent);
    assert Membership.Known(w, sent) == set x | x in sent && x in w.books.batches.docs;
    assert Membership.Known(w, sent) * w.books.batches.docs.Keys == Membership.Known(w, sent);
  }

  /** A dynamic matrix is created exactly under an id that is not in use, when each amount of the wanted batches
      fits. */
  lemma CreateDynamicRequested(w: World, newId: Option<string>, from: int, to: int, codes: seq<string>, model: string,
                               statuses: seq<string>, currencies: Currencies)
    requires WorldOk(w, currencies)
    ensures var e := Execute(w, CreateDynamicMatrixCmd(newId, from, to, codes, model, statuses), currencies);
            var mid, kind := IdFor(w, newId), DYNAMIC(from, to, codes, model, statuses);
            var docs := w.books.batches.docs;
            var ids := set x | x in docs && Wanted(docs[x], from, to, codes, model, statuses);
            if mid in w.matrices.docs then e == Effect(w, Failed(MatrixAlreadyExists))
            else if GoesThrough(w.books, ids, mid, false, currencies)
            then e.outcome == Done && Restored(w, e.world, mid, kind, ids)
            else e.outcome == Failed(RecalculationFailed) && BlankStuck(w, e.world, mid, kind, {})
  {
    hide WorldOk, SelectedIds, GoesThrough, Restored, RecalculateAndStore, DrawId, SameBatches, SameTransfers, Wanted;
    UnusedWhenDrawn(w, newId, currencies);
    var kind := DYNAMIC(from, to, codes, model, statuses);
    var m := Matrix(IdFor(w, newId), kind, BUSY, [], NoBalances);
    Created(w, newId, m, currencies);
    SelectionExact(w.books.batches.docs, m);
    assert SelectedIds(w.books.batches.docs, m)
        == set x | x in w.books.batches.docs && Wanted(w.books.batches.docs[x], from, to, codes, model, statuses);
  }

  // ----- moving

  /** The state a matrix must be in, and the complaint when it is in another one. */
  predicate MayMove(st: MatrixState, mv: Move)
  {
    match mv
    case Dispute => st == IDLE
    case Lock => st == IDLE
    case Unlock => st == LOCKED
    case Close => st == IDLE
    case Settle => st == LOCKED
  }

  /** Past the checks nothing but the recalculation can fail. */
  lemma OnlyRecalculationFails(w: World, id: MatrixId, mv: Move, currencies: Currencies)
    requires StoreOk(w, currencies) && id in w.matrices.docs && w.matrices.docs[id].state == From(mv)
    ensures MoveMatrix(w, id, mv, currencies).outcome in {Done, Failed(RecalculationFailed)}
  {
    hide BooksOk, MatrixOk, ValidRepo, Recalculate, Sweep, RowsToMove, CurrenciesKnown, Items, SelectedIds, Fresh,
         BatchesMoved, MoveTargets, MovedIds, SameCore, Includes;
    MoveRecalculates(w, id, mv, currencies);
  }

  /** The five moving commands are carried out exactly on a stored matrix in the right state, when each amount of the
      batches they count fits: the selected ones, when settling those that await settlement and belong to the matrix. */
  lemma MoveRequested(w: World, id: MatrixId, mv: Move, currencies: Currencies)
    requires WorldOk(w, currencies)
    ensures var e := Execute(w, MoveMatrixCmd(id, mv), currencies);
            if id !in w.matrices.docs then e == Effect(w, Failed(MatrixNotFound))
            else
              var m, ids := w.matrices.docs[id], SelectedIds(w.books.batches.docs, w.matrices.docs[id]);
              if !MayMove(m.state, mv) then
                e == Effect(w, Failed(if mv == Lock then CannotLock else if mv == Unlock then CannotUnlock
                                      else if mv == Settle then CannotSettle else CannotClose))
              else if GoesThrough(w.books, ids, id, mv == Settle, currencies) then e.outcome == Done
              else e.outcome == Failed(RecalculationFailed) && Stuck(w, e.world, id, m.kind, m.batches, m.tables)
  {
    hide BooksOk, SequencesOk, OwnersOk, EntriesOk, LocksOk, ValidRepo, SelectedIds, GoesThrough, RecalculationBookings,
         EachFits, StoreOk, Storable, MoveEffect, SameBatches, SameTransfers, Recalculate, Sweep, RowsToMove, Without,
         CurrenciesKnown, Items, LedgerGrows;
    if id in w.matrices.docs {
      WorldStoreOk(w, currencies);
      StoredIsStorable(w, id, currencies);
      MoveCompletes(w, id, mv, currencies);
      BookingsAre(w.books, w.matrices.docs[id], mv == Settle, currencies);
      var mark := MoveMatrixEffect(w, id, mv, currencies);
      if w.matrices.docs[id].state == From(mv) {
        OnlyRecalculationFails(w, id, mv, currencies);
      }
    }
  }

  // ----- telling

  /** Does the matrix list one of these batches? */
  ghost predicate ListsOneOf(m: Matrix, sent: seq<string>)
  {
    exists i :: 0 <= i < |m.batches| && m.batches[i].id in sent
  }

  /** A mark message puts out of sync exactly the IDLE matrices other than its sender that list a batch it names, and
      touches nothing else; delivering one that is on its way does the same and takes it off the way. */
  lemma MarkRequested(w: World, origin: MatrixId, sent: seq<string>, currencies: Currencies)
    requires WorldOk(w, currencies)
    ensures var e := Execute(w, MarkMatrixOutOfSyncCmd(origin, sent), currencies);
            && e.outcome == Done && e.world.books == w.books && e.world.configs == w.configs
            && e.world.pending == w.pending && e.world.events == w.events
            && e.world.matrices.docs.Keys == w.matrices.docs.Keys
            && forall mid :: mid in w.matrices.docs ==>
                 var m := w.matrices.docs[mid];
                 e.world.matrices.docs[mid]
                 == if m.state == IDLE && mid != origin && ListsOneOf(m, sent) then m.(state := OUT_OF_SYNC) else m
    ensures Next(w, Deliver(Mark(origin, sent)), currencies)
            == Execute(w, MarkMatrixOutOfSyncCmd(origin, sent), currencies).world
               .(pending := w.pending - multiset{Mark(origin, sent)})
  {
    hide BooksOk, SequencesOk, OwnersOk, EntriesOk, LocksOk, ValidRepo, MarkOutOfSync, Includes, RowIds, ListsOneOf;
    MatricesKeyed(w, currencies);
    MarkOutOfSyncExact(w.matrices, sent, origin);
    forall mid | mid in w.matrices.docs
      ensures RowIds(w.matrices.docs[mid].batches) * Includes(sent) != {} <==> ListsOneOf(w.matrices.docs[mid], sent)
    {
      Meets(w.matrices.docs[mid], sent);
    }
  }

  lemma Meets(m: Matrix, sent: seq<string>)
    ensures RowIds(m.batches) * Includes(sent) != {} <==> ListsOneOf(m, sent)
  {
    if ListsOneOf(m, sent) {
      var i :| 0 <= i < |m.batches| && m.batches[i].id in sent;
      var j :| 0 <= j < |sent| && sent[j] == m.batches[i].id;
      assert m.batches[i].id in RowIds(m.batches) * Includes(sent);
    }
    if RowIds(m.batches) * Includes(sent) != {} {
      var x :| x in RowIds(m.batches) * Includes(sent);
      var i :| 0 <= i < |m.batches| && m.batches[i].id == x;
      assert m.batches[i].id in sent;
    }
  }

  /** Any other message changes nothing. */
  lemma OtherRequested(w: World, currencies: Currencies)
    ensures Execute(w, OtherCmd, currencies) == Effect(w, Failed(UnknownCommand))
  {
  }
}
