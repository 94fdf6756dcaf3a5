/** The invariant of the settlement protocol and its preservation by every step. */
module Protocol {
  import opened Common
  import opened Model
  import opened Converters
  import opened MatrixTables
  import opened Repositories
  import opened Ledgers
  import opened Recalculation
  import opened BookKeeping
  import opened Commands
  import opened Effects
  import opened BatchSequences

  /** A batch has an owner exactly while it is locked or settled. */
  ghost predicate OwnersOk(docs: map<string, Batch>)
  {
    forall id :: id in docs ==> (docs[id].ownerMatrixId.Some? <==> docs[id].state in {AWAITING_SETTLEMENT, SETTLED})
  }

  /** A dynamic matrix lists only batches within its dates, model and currencies. */
  ghost predicate WithinCriteria(m: Matrix, docs: map<string, Batch>)
  {
    m.kind.DYNAMIC? ==> forall x :: x in RowIds(m.batches) && x in docs ==> MatchesFixed(docs[x], m.kind)
  }

  /** Does the selection of this matrix still include the batches it has locked? */
  predicate KeepsLocked(kind: MatrixType)
  {
    kind.DYNAMIC? ==> MatchesStatus(AWAITING_SETTLEMENT, kind)
  }

  /** A locked batch: its owner exists and, if it keeps its locked batches selected, is LOCKED (or BUSY after a
      failed recalculation) and lists the batch. */
  ghost predicate LockOk(b: Batch, matrices: map<MatrixId, Matrix>)
  {
    b.state == AWAITING_SETTLEMENT && b.ownerMatrixId.Some? ==>
      var mid := b.ownerMatrixId.value;
      && mid in matrices
      && (KeepsLocked(matrices[mid].kind) ==>
            matrices[mid].state in {LOCKED, BUSY} && b.id in RowIds(matrices[mid].batches))
  }

  ghost predicate LocksOk(w: World)
  {
    forall id :: id in w.books.batches.docs ==> LockOk(w.books.batches.docs[id], w.matrices.docs)
  }

  /** A message on its way that will put this matrix out of sync because of this batch. */
  ghost predicate Told(pending: multiset<Mark>, mid: MatrixId, x: string)
  {
    exists mark :: mark in pending && mark.originMatrixId != mid && x in Includes(mark.batchIds)
  }

  /** An idle matrix shows the stored state of each batch it lists, unless a message about it is on its way. */
  ghost predicate InSync(m: Matrix, docs: map<string, Batch>, pending: multiset<Mark>)
  {
    m.state == IDLE ==>
      forall i :: 0 <= i < |m.batches| && m.batches[i].id in docs ==>
        m.batches[i].state == docs[m.batches[i].id].state || Told(pending, m.id, m.batches[i].id)
  }

  /** A stored matrix: consistent, within its criteria and in sync. */
  ghost predicate Entry(m: Matrix, mid: MatrixId, k: Books, pending: multiset<Mark>)
  {
    MatrixOk(m, mid, k) && WithinCriteria(m, k.batches.docs) && InSync(m, k.batches.docs, pending)
  }

  ghost predicate EntriesOk(w: World)
  {
    forall mid :: mid in w.matrices.docs ==> Entry(w.matrices.docs[mid], mid, w.books, w.pending)
  }

  ghost predicate WorldOk(w: World, currencies: Currencies)
  {
    && BooksOk(w.books, currencies) && ValidRepo(w.matrices)
    && SequencesOk(w.books.batches.docs) && OwnersOk(w.books.batches.docs)
    && EntriesOk(w) && LocksOk(w)
  }

  lemma WorldStoreOk(w: World, currencies: Currencies)
    requires WorldOk(w, currencies)
    ensures StoreOk(w, currencies)
  {
    hide BooksOk, SequencesOk, OwnersOk, LocksOk, InSync, WithinCriteria;
    forall mid | mid in w.matrices.docs ensures MatrixOk(w.matrices.docs[mid], mid, w.books) {
      assert Entry(w.matrices.docs[mid], mid, w.books, w.pending);
    }
  }

  // ----- what a change of the batches does to the other parts

  /** States and owners are the same. */
  ghost predicate SameStates(a: map<string, Batch>, b: map<string, Batch>)
  {
    NothingReopened(a, b) && forall id :: id in a ==>
      b[id].state == a[id].state && b[id].ownerMatrixId == a[id].ownerMatrixId
  }

  lemma SameBatchesSameStates(a: map<string, Batch>, b: map<string, Batch>)
    requires SameBatches(a, b)
    ensures SameStates(a, b)
  {
    SameBatchesReopenNothing(a, b);
    forall id | id in a ensures SameBatch(a[id], b[id]) {}
  }

  lemma CriteriaKept(m: Matrix, a: map<string, Batch>, b: map<string, Batch>)
    requires WithinCriteria(m, a) && NothingReopened(a, b)
    ensures WithinCriteria(m, b)
  {
  }

  lemma SyncKept(m: Matrix, a: map<string, Batch>, b: map<string, Batch>, p: multiset<Mark>, q: multiset<Mark>)
    requires InSync(m, a, p) && SameStates(a, b) && p <= q
    ensures InSync(m, b, q)
  {
    if m.state == IDLE {
      forall i | 0 <= i < |m.batches| && m.batches[i].id in b
        ensures m.batches[i].state == b[m.batches[i].id].state || Told(q, m.id, m.batches[i].id)
      {
        if Told(p, m.id, m.batches[i].id) {
          ToldMore(p, q, m.id, m.batches[i].id);
        }
      }
    }
  }

  lemma ToldMore(p: multiset<Mark>, q: multiset<Mark>, mid: MatrixId, x: string)
    requires p <= q && Told(p, mid, x)
    ensures Told(q, mid, x)
  {
    var mark :| mark in p && mark.originMatrixId != mid && x in Includes(mark.batchIds);
    assert mark in q;
  }

  /** A list just taken from the store is in sync and within the criteria it was selected by. */
  lemma FreshInSync(m: Matrix, ids: set<string>, docs: map<string, Batch>, pending: multiset<Mark>)
    requires Fresh(m.batches, ids, docs)
    ensures InSync(m, docs, pending)
    ensures forall i :: 0 <= i < |m.batches| ==> m.batches[i].id in docs
  {
  }

  lemma MatrixOkKept(m: Matrix, id: MatrixId, k: Books, l: Books)
    requires MatrixOk(m, id, k) && k.batches.docs.Keys <= l.batches.docs.Keys && k.nextId <= l.nextId
    ensures MatrixOk(m, id, l)
  {
  }

  // ----- recalculating, creating and editing

  /** The batches this matrix may select. */
  ghost predicate SelectedWithin(kind: MatrixType, ids: set<string>, docs: map<string, Batch>)
  {
    kind.DYNAMIC? ==> forall x :: x in ids && x in docs ==> MatchesFixed(docs[x], kind)
  }

  lemma LocksKeptWhenIdle(w: World, v: World, id: MatrixId)
    requires LocksOk(w) && SameStates(w.books.batches.docs, v.books.batches.docs)
    requires id in v.matrices.docs && v.matrices.docs == w.matrices.docs[id := v.matrices.docs[id]]
    requires id in w.matrices.docs ==>
            w.matrices.docs[id].state in {IDLE, OUT_OF_SYNC} && w.matrices.docs[id].kind == v.matrices.docs[id].kind
    ensures LocksOk(v)
  {
    hide KeepsLocked;
    forall x | x in v.books.batches.docs ensures LockOk(v.books.batches.docs[x], v.matrices.docs) {
      assert LockOk(w.books.batches.docs[x], w.matrices.docs);
    }
  }

  /** A matrix that a step does not touch stays as good as it was. */
  lemma EntryKept(m: Matrix, mid: MatrixId, k: Books, l: Books, p: multiset<Mark>, q: multiset<Mark>)
    requires Entry(m, mid, k, p) && SameStates(k.batches.docs, l.batches.docs) && k.nextId <= l.nextId && p <= q
    ensures Entry(m, mid, l, q)
  {
    hide InSync, MatchesFixed;
    SyncKept(m, k.batches.docs, l.batches.docs, p, q);
    CriteriaKept(m, k.batches.docs, l.batches.docs);
    MatrixOkKept(m, mid, k, l);
  }

  /** Replacing one matrix by a good one while nothing moves. */
  lemma EntriesKept(w: World, v: World, id: MatrixId)
    requires EntriesOk(w) && SameStates(w.books.batches.docs, v.books.batches.docs)
    requires w.books.nextId <= v.books.nextId && w.pending <= v.pending
    requires id in v.matrices.docs && v.matrices.docs == w.matrices.docs[id := v.matrices.docs[id]]
    requires Entry(v.matrices.docs[id], id, v.books, v.pending)
    ensures EntriesOk(v)
  {
    hide Entry, SameStates;
    forall mid | mid in v.matrices.docs ensures Entry(v.matrices.docs[mid], mid, v.books, v.pending) {
      if mid != id {
        EntryKept(w.matrices.docs[mid], mid, w.books, v.books, w.pending, v.pending);
      }
    }
  }

  lemma SameStatesKeepBatches(a: map<string, Batch>, b: map<string, Batch>)
    requires SequencesOk(a) && OwnersOk(a) && SameStates(a, b)
    ensures SequencesOk(b) && OwnersOk(b)
  {
    hide NumberedBatch;
    NothingReopenedKeeps(a, b);
  }

  lemma FreshEntry(m: Matrix, id: MatrixId, ids: set<string>, k: Books, pending: multiset<Mark>)
    requires Fresh(m.batches, ids, k.batches.docs) && m.id == id && (id.Generated? ==> id.n < k.nextId)
    requires SelectedWithin(m.kind, ids, k.batches.docs)
    ensures Entry(m, id, k, pending)
  {
    hide MatchesFixed;
    FreshInSync(m, ids, k.batches.docs, pending);
  }

  lemma SelectedWithinKept(kind: MatrixType, ids: set<string>, a: map<string, Batch>, b: map<string, Batch>)
    requires SelectedWithin(kind, ids, a) && NothingReopened(a, b)
    ensures SelectedWithin(kind, ids, b)
  {
  }

  lemma RestoreKeeps(w: World, v: World, id: MatrixId, kind: MatrixType, ids: set<string>, currencies: Currencies)
    requires WorldOk(w, currencies) && RestoreEffect(w, v, id, kind, ids)
    requires BooksOk(v.books, currencies) && ValidRepo(v.matrices)
    requires id in w.matrices.docs ==>
               w.matrices.docs[id].state in {IDLE, OUT_OF_SYNC} && w.matrices.docs[id].kind == kind
    requires id.Generated? ==> id.n < v.books.nextId
    requires SelectedWithin(kind, ids, w.books.batches.docs)
    ensures WorldOk(v, currencies)
  {
    hide BooksOk, SequencesOk, OwnersOk, ValidRepo, SameBatches, SameTransfers, LedgerGrows, EntriesOk, LocksOk, Entry,
         Fresh;
    var a, b := w.books.batches.docs, v.books.batches.docs;
    SameBatchesSameStates(a, b);
    SameStatesKeepBatches(a, b);
    LocksKeptWhenIdle(w, v, id);
    SelectedWithinKept(kind, ids, a, b);
    FreshEntry(v.matrices.docs[id], id, ids, v.books, v.pending);
    EntriesKept(w, v, id);
  }

  /** A matrix that can be left BUSY: as it was stored, or new and listing stored batches. */
  ghost predicate Storable(w: World, stored: Matrix)
  {
    && MatrixOk(stored, stored.id, w.books) && WithinCriteria(stored, w.books.batches.docs)
    && (stored.id in w.matrices.docs ==> stored == w.matrices.docs[stored.id])
  }

  lemma LocksKeptWhenBusy(w: World, v: World, m: Matrix)
    requires LocksOk(w) && SameStates(w.books.batches.docs, v.books.batches.docs)
    requires v.matrices.docs == w.matrices.docs[m.id := m.(state := BUSY)]
    requires m.id in w.matrices.docs ==> m == w.matrices.docs[m.id]
    ensures LocksOk(v)
  {
    hide KeepsLocked;
    forall x | x in v.books.batches.docs ensures LockOk(v.books.batches.docs[x], v.matrices.docs) {
      assert LockOk(w.books.batches.docs[x], w.matrices.docs);
    }
  }

  lemma BusyEntry(m: Matrix, k: Books, l: Books, pending: multiset<Mark>)
    requires MatrixOk(m, m.id, k) && WithinCriteria(m, k.batches.docs)
    requires SameStates(k.batches.docs, l.batches.docs) && k.nextId <= l.nextId
    ensures Entry(m.(state := BUSY), m.id, l, pending)
  {
    CriteriaKept(m, k.batches.docs, l.batches.docs);
  }

  lemma StuckKeeps(w: World, v: World, stored: Matrix, currencies: Currencies)
    requires WorldOk(w, currencies) && StuckEffect(w, v, stored) && BooksOk(v.books, currencies) && Storable(w, stored)
    ensures WorldOk(v, currencies)
  {
    hide BooksOk, SequencesOk, OwnersOk, ValidRepo, SameBatches, SameTransfers, LedgerGrows, EntriesOk, LocksOk, Entry,
         MatrixOk, WithinCriteria;
    var a, b := w.books.batches.docs, v.books.batches.docs;
    PutValid(w.matrices, stored.id, stored.(state := BUSY));
    SameBatchesSameStates(a, b);
    SameStatesKeepBatches(a, b);
    LocksKeptWhenBusy(w, v, stored);
    BusyEntry(stored, w.books, v.books, v.pending);
    EntriesKept(w, v, stored.id);
  }

  // ----- moving batches

  lemma MovedIsOwned(mv: Move, mid: MatrixId, b: Batch)
    requires b.ownerMatrixId.Some? <==> b.state in {AWAITING_SETTLEMENT, SETTLED}
    requires mv == Settle ==> b.state == AWAITING_SETTLEMENT
    ensures MovedOrSame(mv, mid, b).ownerMatrixId.Some?
            <==> MovedOrSame(mv, mid, b).state in {AWAITING_SETTLEMENT, SETTLED}
  {
  }

  lemma OwnersMoved(a: map<string, Batch>, b: map<string, Batch>, ids: set<string>, mv: Move, mid: MatrixId)
    requires OwnersOk(a) && BatchesMoved(a, b, ids, mv, mid)
    requires mv == Settle ==> forall x :: x in ids && x in a ==> a[x].state == AWAITING_SETTLEMENT
    ensures OwnersOk(b)
  {
    hide MovedOrSame;
    forall x | x in b ensures b[x].ownerMatrixId.Some? <==> b[x].state in {AWAITING_SETTLEMENT, SETTLED} {
      assert SameBatch(if x in ids then MovedOrSame(mv, mid, a[x]) else a[x], b[x]);
      if x in ids {
        MovedIsOwned(mv, mid, a[x]);
      }
    }
  }

  /** A batch whose shown state is overtaken by a move is named in the message the move sends. */
  lemma MoveTells(m: Matrix, a: map<string, Batch>, b: map<string, Batch>, ids: set<string>, mv: Move, mid: MatrixId,
                  p: multiset<Mark>, mark: Mark)
    requires InSync(m, a, p) && BatchesMoved(a, b, ids, mv, mid) && m.id != mid
    requires mark.originMatrixId == mid && Includes(mark.batchIds) == MovedIds(a, ids, mv, mid)
    ensures InSync(m, b, p + multiset{mark})
  {
    var q := p + multiset{mark};
    hide Moved;
    if m.state == IDLE {
      forall i | 0 <= i < |m.batches| && m.batches[i].id in b
        ensures m.batches[i].state == b[m.batches[i].id].state || Told(q, m.id, m.batches[i].id)
      {
        var x := m.batches[i].id;
        assert SameBatch(if x in ids then MovedOrSame(mv, mid, a[x]) else a[x], b[x]);
        if x in MovedIds(a, ids, mv, mid) {
          assert mark in q;
        } else if Told(p, m.id, x) {
          ToldMore(p, q, m.id, x);
        }
      }
    }
  }

  lemma MovedNothingReopened(w: World, v: World, id: MatrixId, mv: Move, mark: Mark)
    requires MoveEffect(w, v, id, mv, mark)
    ensures NothingReopened(w.books.batches.docs, v.books.batches.docs)
  {
    hide MoveTargets, MovedOrSame, SameTransfers, Fresh, MovedIds;
    MovesReopenNothing(w.books.batches.docs, v.books.batches.docs, MoveTargets(w, id, mv), mv, id);
  }

  lemma SelectionWithin(docs: map<string, Batch>, m: Matrix, mv: Move)
    ensures SelectedWithin(m.kind, TargetIds(docs, SelectedIds(docs, m), mv), docs)
  {
    hide MatchesFixed;
  }

  lemma EntriesMoved(w: World, v: World, id: MatrixId, mv: Move, mark: Mark, currencies: Currencies)
    requires WorldOk(w, currencies) && MoveEffect(w, v, id, mv, mark)
    ensures EntriesOk(v)
  {
    var a, b := w.books.batches.docs, v.books.batches.docs;
    hide BooksOk, SequencesOk, OwnersOk, LocksOk, SelectedIds, TargetIds, SameTransfers, Includes, MovedIds,
         MatchesFixed;
    MovedNothingReopened(w, v, id, mv, mark);
    SelectionWithin(a, w.matrices.docs[id], mv);
    SelectedWithinKept(w.matrices.docs[id].kind, MoveTargets(w, id, mv), a, b);
    assert Entry(w.matrices.docs[id], id, w.books, w.pending);
    FreshEntry(v.matrices.docs[id], id, MoveTargets(w, id, mv), v.books, v.pending);
    hide InSync, WithinCriteria, Fresh, BatchesMoved, NothingReopened, MoveTargets;
    forall mid | mid in v.matrices.docs && mid != id ensures Entry(v.matrices.docs[mid], mid, v.books, v.pending) {
      assert Entry(w.matrices.docs[mid], mid, w.books, w.pending);
      MoveTells(w.matrices.docs[mid], a, b, MoveTargets(w, id, mv), mv, id, w.pending, mark);
      CriteriaKept(w.matrices.docs[mid], a, b);
      OtherMatrixKept(w, v, id, mv, mark, mid);
    }
  }

  lemma OtherMatrixKept(w: World, v: World, id: MatrixId, mv: Move, mark: Mark, mid: MatrixId)
    requires MoveEffect(w, v, id, mv, mark) && mid in w.matrices.docs && MatrixOk(w.matrices.docs[mid], mid, w.books)
    ensures MatrixOk(w.matrices.docs[mid], mid, v.books)
  {
    MatrixOkKept(w.matrices.docs[mid], mid, w.books, v.books);
  }

  /** A matrix that keeps its locked batches selected moves every batch it has locked when it unlocks or settles. */
  lemma LockedAreTargets(w: World, id: MatrixId, mv: Move, x: string, currencies: Currencies)
    requires WorldOk(w, currencies) && id in w.matrices.docs && x in w.books.batches.docs
    requires w.books.batches.docs[x].state == AWAITING_SETTLEMENT && w.books.batches.docs[x].ownerMatrixId == Some(id)
    requires KeepsLocked(w.matrices.docs[id].kind)
    ensures x in MoveTargets(w, id, mv)
  {
    var m := w.matrices.docs[id];
    assert LockOk(w.books.batches.docs[x], w.matrices.docs);
    assert Entry(m, id, w.books, w.pending);
    StoredBatchListed(w.books, x, currencies);
    hide BooksOk, SequencesOk;
    assert x in SelectedIds(w.books.batches.docs, m);
  }

  lemma LocksMoved(w: World, v: World, id: MatrixId, mv: Move, mark: Mark, currencies: Currencies)
    requires WorldOk(w, currencies) && MoveEffect(w, v, id, mv, mark)
    ensures LocksOk(v)
  {
    var a, b := w.books.batches.docs, v.books.batches.docs;
    hide BooksOk, SequencesOk, EntriesOk, SameTransfers, Includes, MovedIds, KeepsLocked, MatchesFixed;
    assert w.matrices.docs[id].id == id by { WorldStoreOk(w, currencies); StoredMatrixOk(w, id, currencies); }
    forall x | x in b ensures LockOk(b[x], v.matrices.docs) {
      LockMoved(w, v, id, mv, mark, x, currencies);
    }
  }

  lemma LockMoved(w: World, v: World, id: MatrixId, mv: Move, mark: Mark, x: string, currencies: Currencies)
    requires WorldOk(w, currencies) && MoveEffect(w, v, id, mv, mark) && x in v.books.batches.docs
    ensures LockOk(v.books.batches.docs[x], v.matrices.docs)
  {
    var a, b := w.books.batches.docs, v.books.batches.docs;
    hide BooksOk, SequencesOk, EntriesOk, SameTransfers, Includes, MovedIds, KeepsLocked, MoveTargets, MovedOrSame,
         LockOk;
    assert SameBatch(if x in MoveTargets(w, id, mv) then MovedOrSame(mv, id, a[x]) else a[x], b[x]);
    SweptKeyed(w.books, a[x], b[x], x, mv, id, x in MoveTargets(w, id, mv), currencies);
    if a[x].state == AWAITING_SETTLEMENT && a[x].ownerMatrixId == Some(id) && KeepsLocked(w.matrices.docs[id].kind) {
      LockedAreTargets(w, id, mv, x, currencies);
    }
    LockAfterMove(a[x], b[x], w.matrices.docs, v.matrices.docs, id, mv, x in MoveTargets(w, id, mv));
  }

  lemma SweptKeyed(k: Books, a: Batch, b: Batch, x: string, mv: Move, mid: MatrixId, targeted: bool,
                   currencies: Currencies)
    requires BooksOk(k, currencies) && x in k.batches.docs && k.batches.docs[x] == a
    requires SameBatch(if targeted then MovedOrSame(mv, mid, a) else a, b)
    ensures b.id == x
  {
    BooksKeyed(k, currencies);
    MovedKeepsId(mv, mid, a);
  }

  /** One batch and its lock, through a move of one matrix. */
  lemma LockAfterMove(a: Batch, b: Batch, ms: map<MatrixId, Matrix>, ns: map<MatrixId, Matrix>, id: MatrixId, mv: Move,
      targeted: bool)
    requires LockOk(a, ms) && SameBatch(if targeted then MovedOrSame(mv, id, a) else a, b)
    requires id in ms && id in ns && ns == ms[id := ns[id]] && ns[id].kind == ms[id].kind
    requires ms[id].state == From(mv) && ns[id].state == To(mv)
    requires targeted ==> b.id in RowIds(ns[id].batches)
    requires a.state == AWAITING_SETTLEMENT && a.ownerMatrixId == Some(id) && KeepsLocked(ms[id].kind) ==> targeted
    ensures LockOk(b, ns)
  {
    hide KeepsLocked, RowIds;
  }

  lemma MoveKeeps(w: World, v: World, id: MatrixId, mv: Move, mark: Mark, currencies: Currencies)
    requires WorldOk(w, currencies) && MoveEffect(w, v, id, mv, mark)
    requires BooksOk(v.books, currencies) && ValidRepo(v.matrices)
    ensures WorldOk(v, currencies)
  {
    hide BooksOk, SequencesOk, OwnersOk, EntriesOk, LocksOk, SameTransfers, Includes, MovedIds, SelectedIds, ValidRepo,
         Fresh;
    var a, b := w.books.batches.docs, v.books.batches.docs;
    MovedNothingReopened(w, v, id, mv, mark);
    NothingReopenedKeeps(a, b);
    OwnersMoved(a, b, MoveTargets(w, id, mv), mv, id);
    EntriesMoved(w, v, id, mv, mark, currencies);
    LocksMoved(w, v, id, mv, mark, currencies);
  }

  // ----- transfers

  lemma EntryWithNewBatch(m: Matrix, mid: MatrixId, k: Books, l: Books, b: Batch, pending: multiset<Mark>)
    requires Entry(m, mid, k, pending) && k.nextId <= l.nextId && l.batches.docs == k.batches.docs[b.id := b]
    requires b.id in k.batches.docs ==> k.batches.docs[b.id] == b
    ensures Entry(m, mid, l, pending)
  {
    hide MatchesFixed, Told;
    forall x | x in RowIds(m.batches) ensures x in k.batches.docs && l.batches.docs[x] == k.batches.docs[x] {
      var i :| 0 <= i < |m.batches| && m.batches[i].id == x;
    }
    forall i | 0 <= i < |m.batches|
      ensures var id := m.batches[i].id; id in k.batches.docs && l.batches.docs[id] == k.batches.docs[id]
    {
      assert m.batches[i].id in RowIds(m.batches);
    }
  }

  lemma TransferKeeps(w: World, l: Books, p: TransferPayload, b: Batch, currencies: Currencies)
    requires WorldOk(w, currencies) && TransferEffect(w.books, l, p, b)
    requires BooksOk(l, currencies) && SequencesOk(l.batches.docs)
    ensures WorldOk(w.(books := l), currencies)
  {
    hide BooksOk, SequencesOk, ValidRepo, Entry;
    var v := w.(books := l);
    forall mid | mid in v.matrices.docs ensures Entry(v.matrices.docs[mid], mid, v.books, v.pending) {
      EntryWithNewBatch(w.matrices.docs[mid], mid, w.books, l, b, w.pending);
    }
    hide EntriesOk, KeepsLocked;
    forall x | x in l.batches.docs ensures LockOk(l.batches.docs[x], w.matrices.docs) {
      if x in w.books.batches.docs {
        assert LockOk(w.books.batches.docs[x], w.matrices.docs);
      }
    }
  }

  // ----- messages

  /** Delivering a message, or handling one that came from elsewhere: what was told stays true. */
  lemma InSyncMarked(m: Matrix, docs: map<string, Batch>, origin: MatrixId, ids: seq<string>, p: multiset<Mark>,
      q: multiset<Mark>)
    requires InSync(m, docs, p)
    requires q == p || q == p - multiset{Mark(origin, ids)}
    requires m.id == origin || RowIds(m.batches) * Includes(ids) == {}
    ensures InSync(m, docs, q)
  {
    hide Includes;
    if m.state == IDLE {
      forall i | 0 <= i < |m.batches| && m.batches[i].id in docs
        ensures m.batches[i].state == docs[m.batches[i].id].state || Told(q, m.id, m.batches[i].id)
      {
        var x := m.batches[i].id;
        assert x in RowIds(m.batches);
        if Told(p, m.id, x) {
          var mark :| mark in p && mark.originMatrixId != m.id && x in Includes(mark.batchIds);
          assert mark == Mark(origin, ids) ==> x in RowIds(m.batches) * Includes(ids);
          assert mark in q;
        }
      }
    }
  }

  lemma EntryMarked(m: Matrix, mid: MatrixId, k: Books, origin: MatrixId, ids: seq<string>, p: multiset<Mark>,
      q: multiset<Mark>)
    requires Entry(m, mid, k, p)
    requires q == p || q == p - multiset{Mark(origin, ids)}
    ensures var marked := m.state == IDLE && mid != origin && RowIds(m.batches) * Includes(ids) != {};
            var n := if marked then m.(state := OUT_OF_SYNC) else m;
            Entry(n, mid, k, q)
  {
    hide Includes, MatchesFixed, Told;
    if m.state == IDLE && !(mid != origin && RowIds(m.batches) * Includes(ids) != {}) {
      InSyncMarked(m, k.batches.docs, origin, ids, p, q);
    }
  }

  lemma LockMarked(b: Batch, docs: map<MatrixId, Matrix>, ids: set<string>, origin: MatrixId)
    requires LockOk(b, docs)
    ensures LockOk(b, MarkedDocs(docs, ids, origin))
  {
    hide KeepsLocked;
  }

  lemma MarkKeeps(w: World, origin: MatrixId, ids: seq<string>, q: multiset<Mark>, currencies: Currencies)
    requires WorldOk(w, currencies)
    requires q == w.pending || q == w.pending - multiset{Mark(origin, ids)}
    ensures WorldOk(w.(matrices := MarkOutOfSync(w.matrices, ids, origin), pending := q), currencies)
  {
    hide BooksOk, SequencesOk, OwnersOk, ValidRepo, Entry, LockOk, MarkOutOfSync;
    var v := w.(matrices := MarkOutOfSync(w.matrices, ids, origin), pending := q);
    MatricesKeyed(w, currencies);
    MarkOutOfSyncExact(w.matrices, ids, origin);
    forall mid | mid in v.matrices.docs ensures Entry(v.matrices.docs[mid], mid, v.books, v.pending) {
      EntryMarked(w.matrices.docs[mid], mid, w.books, origin, ids, w.pending, q);
    }
    forall x | x in v.books.batches.docs ensures LockOk(v.books.batches.docs[x], v.matrices.docs) {
      LockMarked(w.books.batches.docs[x], w.matrices.docs, Includes(ids), origin);
    }
  }

  lemma MatricesKeyed(w: World, currencies: Currencies)
    requires WorldOk(w, currencies)
    ensures KeyedMatrices(w.matrices.docs)
  {
    forall mid | mid in w.matrices.docs ensures w.matrices.docs[mid].id == mid {
      assert Entry(w.matrices.docs[mid], mid, w.books, w.pending);
    }
  }

  // ----- every command

  lemma StoredIsStorable(w: World, id: MatrixId, currencies: Currencies)
    requires WorldOk(w, currencies) && id in w.matrices.docs
    ensures Storable(w, w.matrices.docs[id]) && w.matrices.docs[id].id == id
    ensures id.Generated? ==> id.n < w.books.nextId
  {
    assert Entry(w.matrices.docs[id], id, w.books, w.pending);
  }

  lemma SelectionOfWithin(docs: map<string, Batch>, m: Matrix)
    ensures SelectedWithin(m.kind, SelectedIds(docs, m), docs)
  {
    hide MatchesFixed;
  }

  /** The frame shared by recalculating, creating and editing. */
  lemma RecalculateAndStoreKeeps(w: World, stored: Matrix, working: Matrix, currencies: Currencies)
    requires WorldOk(w, currencies) && Storable(w, stored) && stored.id == working.id && stored.kind == working.kind
    requires stored.id in w.matrices.docs ==> w.matrices.docs[stored.id].state in {IDLE, OUT_OF_SYNC}
    requires stored.id.Generated? ==> stored.id.n < w.books.nextId
    ensures WorldOk(RecalculateAndStore(w, stored, working, IDLE, currencies).world, currencies)
  {
    hide BooksOk, SequencesOk, OwnersOk, ValidRepo, EntriesOk, LocksOk, RecalculateAndStore, SelectedIds, Entry,
         SelectedWithin;
    RecalculateAndStoreEffect(w, stored, working, currencies);
    var e := RecalculateAndStore(w, stored, working, IDLE, currencies);
    SelectionOfWithin(w.books.batches.docs, working);
    if e.outcome == Done {
      RestoreKeeps(w, e.world, stored.id, stored.kind, SelectedIds(w.books.batches.docs, working), currencies);
    } else {
      StuckKeeps(w, e.world, stored, currencies);
    }
  }

  lemma MoveMatrixKeeps(w: World, id: MatrixId, mv: Move, currencies: Currencies)
    requires WorldOk(w, currencies)
    ensures WorldOk(MoveMatrix(w, id, mv, currencies).world, currencies)
  {
    hide BooksOk, SequencesOk, OwnersOk, ValidRepo, EntriesOk, LocksOk, MoveMatrix, MoveEffect, StoreOk;
    WorldStoreOk(w, currencies);
    var mark := MoveMatrixEffect(w, id, mv, currencies);
    var e := MoveMatrix(w, id, mv, currencies);
    if e.outcome == Done {
      MoveKeeps(w, e.world, id, mv, mark, currencies);
    } else if e.world != w {
      StoredIsStorable(w, id, currencies);
      StuckKeeps(w, e.world, w.matrices.docs[id], currencies);
    }
  }

  lemma DrawIdKeeps(w: World, id: Option<string>, currencies: Currencies)
    requires WorldOk(w, currencies)
    ensures WorldOk(DrawId(w, id), currencies) && DrawId(w, id).books.batches == w.books.batches
    ensures DrawId(w, id).matrices == w.matrices
    ensures var mid := NewMatrixId(id, w.books.nextId);
            (mid.Generated? ==> mid.n < DrawId(w, id).books.nextId) && (!HasId(id) ==> mid !in w.matrices.docs)
  {
    var v := DrawId(w, id);
    if !HasId(id) {
      BooksOkGrows(w.books, w.books.ledger, w.books.nextId + 1, currencies) by { LedgerSelf(w.books, currencies); }
      if Generated(w.books.nextId) in w.matrices.docs {
        StoredIsStorable(w, Generated(w.books.nextId), currencies);
      }
      hide BooksOk, SequencesOk, LocksOk;
      forall mid | mid in v.matrices.docs ensures Entry(v.matrices.docs[mid], mid, v.books, v.pending) {
        assert Entry(w.matrices.docs[mid], mid, w.books, w.pending);
      }
      assert LocksOk(v) by { SameLocks(w, v); }
    }
  }

  lemma SameLocks(w: World, v: World)
    requires LocksOk(w) && v.books.batches == w.books.batches && v.matrices == w.matrices
    ensures LocksOk(v)
  {
  }

  lemma LedgerSelf(k: Books, currencies: Currencies)
    requires BooksOk(k, currencies)
    ensures LedgerGrows(k.ledger, k.ledger) && LedgerOk(k.ledger, k.nextId + 1)
  {
  }

  lemma {:induction false} ZeroRowsListed(docs: map<string, Batch>, bs: seq<Batch>)
    requires forall i :: 0 <= i < |bs| ==> bs[i].id in docs
    ensures forall i :: 0 <= i < |ZeroRows(bs)| ==> ZeroRows(bs)[i].id in docs
  {
    if bs != [] {
      ZeroRowsListed(docs, bs[1..]);
    }
  }

  lemma ByIdsListed(k: Books, ids: seq<string>, currencies: Currencies)
    requires BooksOk(k, currencies)
    ensures forall i :: 0 <= i < |BatchesByIds(k, ids)| ==> BatchesByIds(k, ids)[i].id in k.batches.docs
  {
    TransfersRepoOk(k, currencies);
    BooksKeyed(k, currencies);
    hide BooksOk, Pick, Records, Select, ValidRepo;
    var keys := SelectExact(k.batches, Includes(ids));
  }

  lemma NewMatrixKeeps(w: World, id: Option<string>, m: Matrix, currencies: Currencies)
    requires WorldOk(w, currencies) && m.id == NewMatrixId(id, w.books.nextId)
             && (HasId(id) ==> m.id !in w.matrices.docs)
    requires forall i :: 0 <= i < |m.batches| ==> m.batches[i].id in w.books.batches.docs
    requires m.kind.DYNAMIC? ==> m.batches == []
    ensures WorldOk(RecalculateAndStore(DrawId(w, id), m, m, IDLE, currencies).world, currencies)
  {
    hide BooksOk, SequencesOk, OwnersOk, ValidRepo, EntriesOk, LocksOk, RecalculateAndStore, DrawId, MatchesFixed;
    DrawIdKeeps(w, id, currencies);
    RecalculateAndStoreKeeps(DrawId(w, id), m, m, currencies);
  }

  lemma ProcessTransferKeeps(w: World, p: TransferPayload, now: int, currencies: Currencies)
    requires WorldOk(w, currencies) && CurrenciesOk(currencies)
    ensures WorldOk(ProcessTransfer(w, p, now, currencies).world, currencies)
  {
    hide BooksOk, SequencesOk, OwnersOk, ValidRepo, EntriesOk, LocksOk, AddTransfer, TransferEffect, CurrenciesOk;
    if Validate(p, currencies) == Done && p.settlementModel in w.configs {
      var b := AddTransferExact(w.books, p, w.configs[p.settlementModel], now, currencies);
      TransferKeeps(w, AddTransfer(w.books, p, w.configs[p.settlementModel], now), p, b, currencies);
    }
  }

  /** Every command keeps the invariant, whether it completes or fails. */
  lemma ExecuteKeeps(w: World, c: Command, currencies: Currencies)
    requires WorldOk(w, currencies) && CurrenciesOk(currencies)
    ensures WorldOk(Execute(w, c, currencies).world, currencies)
  {
    hide BooksOk, SequencesOk, OwnersOk, ValidRepo, RecalculateAndStore, ProcessTransfer, MoveMatrix, MarkOutOfSync,
         DrawId, BatchesByIds, ZeroRows, AddRows, RemoveRows, CurrenciesOk, Storable;
    match c
    case ProcessTransferCmd(p, now) => ProcessTransferKeeps(w, p, now, currencies);
    case CreateSettlementModelCmd(model, interval) =>
      assert WorldOk(Execute(w, c, currencies).world, currencies) by { ConfigKeeps(w, model, interval, currencies); }
    case CreateStaticMatrixCmd(id, ids) =>
      ByIdsListed(w.books, ids, currencies);
      ZeroRowsListed(w.books.batches.docs, BatchesByIds(w.books, ids));
      var mid := NewMatrixId(id, w.books.nextId);
      if !(HasId(id) && mid in w.matrices.docs) {
        NewMatrixKeeps(w, id, Matrix(mid, STATIC, BUSY, ZeroRows(BatchesByIds(w.books, ids)), NoBalances), currencies);
      }
    case CreateDynamicMatrixCmd(id, from, to, codes, model, statuses) =>
      var mid := NewMatrixId(id, w.books.nextId);
      if !(HasId(id) && mid in w.matrices.docs) {
        NewMatrixKeeps(w, id, Matrix(mid, DYNAMIC(from, to, codes, model, statuses), BUSY, [], NoBalances), currencies);
      }
    case RecalculateMatrixCmd(id) =>
      if id in w.matrices.docs && w.matrices.docs[id].state in {IDLE, OUT_OF_SYNC} {
        StoredIsStorable(w, id, currencies);
        RecalculateAndStoreKeeps(w, w.matrices.docs[id], w.matrices.docs[id], currencies);
      }
    case AddBatchesToMatrixCmd(id, ids) =>
      if id in w.matrices.docs && w.matrices.docs[id].state == IDLE {
        StoredIsStorable(w, id, currencies);
        var m := w.matrices.docs[id];
        RecalculateAndStoreKeeps(w, m, m.(batches := AddRows(m.batches, BatchesByIds(w.books, ids))), currencies);
      }
    case RemoveBatchesFromMatrixCmd(id, ids) =>
      if id in w.matrices.docs && w.matrices.docs[id].state == IDLE {
        StoredIsStorable(w, id, currencies);
        var m := w.matrices.docs[id];
        RecalculateAndStoreKeeps(w, m, m.(batches := RemoveRows(m.batches, BatchesByIds(w.books, ids))), currencies);
      }
    case MoveMatrixCmd(id, mv) => MoveMatrixKeeps(w, id, mv, currencies);
    case MarkMatrixOutOfSyncCmd(origin, ids) =>
      MarkKeeps(w, origin, ids, w.pending, currencies);
      assert w.(matrices := MarkOutOfSync(w.matrices, ids, origin), pending := w.pending)
          == w.(matrices := MarkOutOfSync(w.matrices, ids, origin));
    case OtherCmd =>
  }

  lemma ConfigKeeps(w: World, model: string, interval: nat, currencies: Currencies)
    requires WorldOk(w, currencies)
    ensures WorldOk(CreateSettlementConfig(w, model, interval).world, currencies)
  {
    hide BooksOk, SequencesOk, OwnersOk, ValidRepo, Entry, LockOk;
  }

  lemma NextKeeps(w: World, s: Step, currencies: Currencies)
    requires WorldOk(w, currencies) && CurrenciesOk(currencies)
    ensures WorldOk(Next(w, s, currencies), currencies)
  {
    hide WorldOk, CurrenciesOk, MarkOutOfSync;
    match s
    case Handle(c) => ExecuteKeeps(w, c, currencies);
    case Deliver(mark) =>
      assert mark == Mark(mark.originMatrixId, mark.batchIds);
      MarkKeeps(w, mark.originMatrixId, mark.batchIds, w.pending - multiset{mark}, currencies);
  }

  lemma EmptyOk(currencies: Currencies)
    ensures WorldOk(Empty, currencies)
  {
  }

  lemma OneMoreStep(ws: seq<World>, steps: seq<Step>, s: Step, currencies: Currencies)
    requires IsRun(ws, steps, currencies) && Enabled(ws[|steps|], s)
    ensures IsRun(ws + [Next(ws[|steps|], s, currencies)], steps + [s], currencies)
  {
    hide Next;
    var more, longer := ws + [Next(ws[|steps|], s, currencies)], steps + [s];
    forall i | 0 <= i < |longer|
      ensures Enabled(more[i], longer[i]) && more[i + 1] == Next(more[i], longer[i], currencies)
    {
      if i < |steps| {
        assert more[i] == ws[i] && more[i + 1] == ws[i + 1] && longer[i] == steps[i];
      }
    }
  }

  /** Every reachable state satisfies the invariant, for any commands and any delivery order of the messages. */
  lemma {:induction false} RunOk(ws: seq<World>, steps: seq<Step>, currencies: Currencies, i: nat)
    requires IsRun(ws, steps, currencies) && CurrenciesOk(currencies) && i < |ws|
    ensures WorldOk(ws[i], currencies)
  {
    hide WorldOk, CurrenciesOk;
    if i == 0 {
      EmptyOk(currencies);
    } else {
      RunOk(ws, steps, currencies, i - 1);
      NextKeeps(ws[i - 1], steps[i - 1], currencies);
    }
  }
}
