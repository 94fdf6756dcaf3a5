/** What the five commands that move batches do to the states of batches and matrices, state by state. */
module StateChanges {
  import opened Common
  import opened Model
  import opened Converters
  import opened MatrixTables
  import opened Totals
  import opened Repositories
  import opened Ledgers
  import opened Recalculation
  import opened BookKeeping
  import opened Exactness
  import opened Accumulation
  import opened Completion
  import opened Commands
  import opened Effects
  import opened BatchSequences
  import opened Protocol

  /** All batches but these keep their state and owner. */
  ghost predicate OthersKeep(w: World, v: World, ids: set<string>)
  {
    && v.books.batches.docs.Keys == w.books.batches.docs.Keys
    && forall x :: x in w.books.batches.docs && x !in ids ==>
         && v.books.batches.docs[x].state == w.books.batches.docs[x].state
         && v.books.batches.docs[x].ownerMatrixId == w.books.batches.docs[x].ownerMatrixId
  }

  /** The selected batches of this matrix that are in one of these states. */
  ghost function SelectedIn(w: World, id: MatrixId, states: set<BatchState>): set<string>
    requires id in w.matrices.docs
  {
    var docs := w.books.batches.docs;
    set x | x in SelectedIds(docs, w.matrices.docs[id]) && x in docs && docs[x].state in states
  }

  /** The matrix ends in this state, the others are as they were, and one message names these batches. */
  ghost predicate Finished(w: World, v: World, id: MatrixId, st: MatrixState, ids: set<string>)
  {
    && id in v.matrices.docs && v.matrices.docs[id].state == st
    && v.matrices.docs == w.matrices.docs[id := v.matrices.docs[id]]
    && exists sent: seq<string> :: v.pending == w.pending + multiset{Mark(id, sent)} && NamesExactly(sent, ids)
  }

  ghost predicate NamesExactly(sent: seq<string>, ids: set<string>)
  {
    forall x :: x in sent <==> x in ids
  }

  // ----- one move, up to what it makes of one batch

  ghost function AfterMove(w: World, id: MatrixId, mv: Move, x: string): Batch
    requires id in w.matrices.docs && x in w.books.batches.docs
  {
    if x in MoveTargets(w, id, mv) then MovedOrSame(mv, id, w.books.batches.docs[x]) else w.books.batches.docs[x]
  }

  lemma MoveDone(w: World, id: MatrixId, mv: Move, currencies: Currencies)
    requires WorldOk(w, currencies) && MoveMatrix(w, id, mv, currencies).outcome == Done
    ensures id in w.matrices.docs && w.matrices.docs[id].state == From(mv)
    ensures var v := MoveMatrix(w, id, mv, currencies).world;
            && v.books.batches.docs.Keys == w.books.batches.docs.Keys
            && (forall x :: x in w.books.batches.docs ==>
                  && v.books.batches.docs[x].state == AfterMove(w, id, mv, x).state
                  && v.books.batches.docs[x].ownerMatrixId == AfterMove(w, id, mv, x).ownerMatrixId)
            && Finished(w, v, id, To(mv), MovedIds(w.books.batches.docs, MoveTargets(w, id, mv), mv, id))
  {
    hide BooksOk, SequencesOk, OwnersOk, ValidRepo, EntriesOk, LocksOk, MoveMatrix, StoreOk, MoveTargets, Fresh,
         MovedIds, SameTransfers, Includes, MovedOrSame;
    WorldStoreOk(w, currencies);
    var mark := MoveMatrixEffect(w, id, mv, currencies);
    StoredMatrixOk(w, id, currencies);
    var v := MoveMatrix(w, id, mv, currencies).world;
    NamesThem(mark, id, MovedIds(w.books.batches.docs, MoveTargets(w, id, mv), mv, id));
    forall x | x in w.books.batches.docs
      ensures SameBatch(AfterMove(w, id, mv, x), v.books.batches.docs[x]) {}
  }

  lemma NamesThem(mark: Mark, id: MatrixId, ids: set<string>)
    requires mark.originMatrixId == id && Includes(mark.batchIds) == ids
    ensures mark == Mark(id, mark.batchIds) && NamesExactly(mark.batchIds, ids)
  {
    forall x ensures x in mark.batchIds <==> x in Includes(mark.batchIds) {}
  }

  // ----- the five commands

  /** Closing: from IDLE back to IDLE; the selected batches that are OPEN or DISPUTED become CLOSED. */
  lemma Closed(w: World, id: MatrixId, currencies: Currencies)
    requires WorldOk(w, currencies) && Execute(w, MoveMatrixCmd(id, Close), currencies).outcome == Done
    ensures id in w.matrices.docs && w.matrices.docs[id].state == IDLE
    ensures var v, ids := Execute(w, MoveMatrixCmd(id, Close), currencies).world, SelectedIn(w, id, {OPEN, DISPUTED});
            && OthersKeep(w, v, ids) && Finished(w, v, id, IDLE, ids)
            && forall x :: x in ids ==>
                 && v.books.batches.docs[x].state == CLOSED
                 && v.books.batches.docs[x].ownerMatrixId == w.books.batches.docs[x].ownerMatrixId
  {
    hide WorldOk, MoveMatrix, SelectedIds, Finished;
    MoveDone(w, id, Close, currencies);
    assert MovedIds(w.books.batches.docs, MoveTargets(w, id, Close), Close, id) == SelectedIn(w, id, {OPEN, DISPUTED});
  }

  /** Disputing: from IDLE back to IDLE; the selected batches that are OPEN or CLOSED become DISPUTED. */
  lemma Disputed(w: World, id: MatrixId, currencies: Currencies)
    requires WorldOk(w, currencies) && Execute(w, MoveMatrixCmd(id, Dispute), currencies).outcome == Done
    ensures id in w.matrices.docs && w.matrices.docs[id].state == IDLE
    ensures var v, ids := Execute(w, MoveMatrixCmd(id, Dispute), currencies).world, SelectedIn(w, id, {OPEN, CLOSED});
            && OthersKeep(w, v, ids) && Finished(w, v, id, IDLE, ids)
            && forall x :: x in ids ==>
                 && v.books.batches.docs[x].state == DISPUTED
                 && v.books.batches.docs[x].ownerMatrixId == w.books.batches.docs[x].ownerMatrixId
  {
    hide WorldOk, MoveMatrix, SelectedIds, Finished;
    MoveDone(w, id, Dispute, currencies);
    assert MovedIds(w.books.batches.docs, MoveTargets(w, id, Dispute), Dispute, id)
           == SelectedIn(w, id, {OPEN, CLOSED});
  }

  /** Locking: from IDLE to LOCKED; the selected batches that are OPEN or CLOSED await settlement and belong to the
      matrix. */
  lemma Locked(w: World, id: MatrixId, currencies: Currencies)
    requires WorldOk(w, currencies) && Execute(w, MoveMatrixCmd(id, Lock), currencies).outcome == Done
    ensures id in w.matrices.docs && w.matrices.docs[id].state == IDLE
    ensures var v, ids := Execute(w, MoveMatrixCmd(id, Lock), currencies).world, SelectedIn(w, id, {OPEN, CLOSED});
            && OthersKeep(w, v, ids) && Finished(w, v, id, LOCKED, ids)
            && forall x :: x in ids ==>
                 && v.books.batches.docs[x].state == AWAITING_SETTLEMENT
                 && v.books.batches.docs[x].ownerMatrixId == Some(id)
  {
    hide WorldOk, MoveMatrix, SelectedIds, Finished;
    MoveDone(w, id, Lock, currencies);
    assert MovedIds(w.books.batches.docs, MoveTargets(w, id, Lock), Lock, id) == SelectedIn(w, id, {OPEN, CLOSED});
  }

  /** Unlocking: from LOCKED to IDLE; the selected batches that await settlement and belong to the matrix become
      CLOSED and belong to nobody. */
  lemma Unlocked(w: World, id: MatrixId, currencies: Currencies)
    requires WorldOk(w, currencies) && Execute(w, MoveMatrixCmd(id, Unlock), currencies).outcome == Done
    ensures id in w.matrices.docs && w.matrices.docs[id].state == LOCKED
    ensures var v := Execute(w, MoveMatrixCmd(id, Unlock), currencies).world;
            var ids := set x | x in SelectedIn(w, id, {AWAITING_SETTLEMENT})
                               && w.books.batches.docs[x].ownerMatrixId == Some(id);
            && OthersKeep(w, v, ids) && Finished(w, v, id, IDLE, ids)
            && forall x :: x in ids ==>
                 v.books.batches.docs[x].state == CLOSED && v.books.batches.docs[x].ownerMatrixId == None
  {
    hide WorldOk, MoveMatrix, SelectedIds, Finished;
    MoveDone(w, id, Unlock, currencies);
    assert MovedIds(w.books.batches.docs, MoveTargets(w, id, Unlock), Unlock, id)
        == set x | x in SelectedIn(w, id, {AWAITING_SETTLEMENT}) && w.books.batches.docs[x].ownerMatrixId == Some(id);
  }

  /** Settling: from LOCKED to FINALIZED; the selected batches that await settlement become SETTLED, whoever they
      belong to. */
  lemma Settled(w: World, id: MatrixId, currencies: Currencies)
    requires WorldOk(w, currencies) && Execute(w, MoveMatrixCmd(id, Settle), currencies).outcome == Done
    ensures id in w.matrices.docs && w.matrices.docs[id].state == LOCKED
    ensures var v := Execute(w, MoveMatrixCmd(id, Settle), currencies).world;
            var ids := SelectedIn(w, id, {AWAITING_SETTLEMENT});
            && OthersKeep(w, v, ids) && Finished(w, v, id, FINALIZED, ids)
            && forall x :: x in ids ==>
                 && v.books.batches.docs[x].state == SETTLED
                 && v.books.batches.docs[x].ownerMatrixId == w.books.batches.docs[x].ownerMatrixId
  {
    hide WorldOk, MoveMatrix, SelectedIds, Finished;
    MoveDone(w, id, Settle, currencies);
    assert MovedIds(w.books.batches.docs, MoveTargets(w, id, Settle), Settle, id)
        == SelectedIn(w, id, {AWAITING_SETTLEMENT});
  }
}
