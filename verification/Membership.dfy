/** Which batches a matrix lists after it was created, or batches were added to it or removed from it. */
module Membership {
  import opened Common
  import opened Model
  import opened Repositories
  import opened Recalculation
  import opened BookKeeping
  import opened Commands
  import opened Effects
  import opened BatchSequences
  import opened Protocol

  function IdsOf(bs: seq<Batch>): set<string>
  {
    set i | 0 <= i < |bs| :: bs[i].id
  }

  lemma IdsHead(bs: seq<Batch>)
    requires bs != []
    ensures IdsOf(bs) == {bs[0].id} + IdsOf(bs[1..])
  {
    var rest := bs[1..];
    forall x | x in IdsOf(rest) ensures x in IdsOf(bs) {
      var i :| 0 <= i < |rest| && rest[i].id == x;
      assert bs[i + 1].id == x;
    }
    assert bs[0].id in IdsOf(bs);
  }

  lemma {:induction false} AddedIds(rows: seq<MatrixBatch>, bs: seq<Batch>)
    ensures RowIds(AddRows(rows, bs)) == RowIds(rows) + IdsOf(bs)
    decreases |bs|
  {
    hide RowIds;
    if bs != [] {
      IdsHead(bs);
      RowIdsAppend(rows, ZeroRow(bs[0]));
      AddedIds(if bs[0].id in RowIds(rows) then rows else rows + [ZeroRow(bs[0])], bs[1..]);
    } else {
      assert IdsOf(bs) == {};
    }
  }

  lemma {:induction false} RemovedId(rows: seq<MatrixBatch>, id: string)
    ensures RowIds(RemoveRow(rows, id)) == RowIds(rows) - {id}
  {
    if rows == [] {
      assert RowIds(rows) == {};
    } else {
      var head, rest := rows[0], rows[1..];
      RemovedId(rest, id);
      RowIdsHead(rows);
      hide RowIds;
      var kept := RemoveRow(rows, id);
      if head.id != id {
        assert kept == [head] + RemoveRow(rest, id);
        assert kept[1..] == RemoveRow(rest, id);
        RowIdsHead(kept);
      } else {
        assert kept == RemoveRow(rest, id);
      }
    }
  }

  lemma {:induction false} RemovedIds(rows: seq<MatrixBatch>, bs: seq<Batch>)
    ensures RowIds(RemoveRows(rows, bs)) == RowIds(rows) - IdsOf(bs)
    decreases |bs|
  {
    hide RowIds;
    if bs != [] {
      IdsHead(bs);
      RemovedId(rows, bs[0].id);
      RemovedIds(RemoveRow(rows, bs[0].id), bs[1..]);
    } else {
      assert IdsOf(bs) == {};
    }
  }

  lemma {:induction false} ZeroIds(bs: seq<Batch>)
    ensures RowIds(ZeroRows(bs)) == IdsOf(bs)
  {
    if bs == [] {
      assert RowIds(ZeroRows(bs)) == {} && IdsOf(bs) == {};
    } else {
      ZeroIds(bs[1..]);
      IdsHead(bs);
      RowIdsHead(ZeroRows(bs));
      assert ZeroRows(bs)[1..] == ZeroRows(bs[1..]);
    }
  }

  /** The ids sent along that are ids of stored batches. */
  function Known(w: World, ids: seq<string>): set<string>
  {
    Includes(ids) * w.books.batches.docs.Keys
  }

  lemma FoundIds(w: World, ids: seq<string>, currencies: Currencies)
    requires BooksOk(w.books, currencies)
    ensures IdsOf(BatchesByIds(w.books, ids)) == Known(w, ids)
  {
    TransfersRepoOk(w.books, currencies);
    BooksKeyed(w.books, currencies);
    hide BooksOk, Pick, Records, Select, ValidRepo, Includes;
    var keys := SelectExact(w.books.batches, Includes(ids));
    var bs := BatchesByIds(w.books, ids);
    forall x | x in Known(w, ids) ensures x in IdsOf(bs) {
      assert x in keys;
      var i :| 0 <= i < |keys| && keys[i] == x;
      assert bs[i].id == x;
    }
    forall x | x in IdsOf(bs) ensures x in Known(w, ids) {
      var i :| 0 <= i < |bs| && bs[i].id == x;
      assert keys[i] in keys;
    }
  }

  /** A static matrix that was recalculated lists what was put on its list, as far as it is stored. */
  lemma ListedAfter(w: World, stored: Matrix, working: Matrix, currencies: Currencies)
    requires BooksOk(w.books, currencies) && ValidRepo(w.matrices) && stored.id == working.id
             && stored.kind == working.kind
    requires RecalculateAndStore(w, stored, working, IDLE, currencies).outcome == Done
    ensures var v := RecalculateAndStore(w, stored, working, IDLE, currencies).world;
            && stored.id in v.matrices.docs && v.matrices.docs[stored.id].state == IDLE
            && v.matrices.docs[stored.id].kind == stored.kind && v.books.batches.docs.Keys == w.books.batches.docs.Keys
            && RowIds(v.matrices.docs[stored.id].batches) == SelectedIds(w.books.batches.docs, working)
  {
    hide BooksOk, RecalculateAndStore, SelectedIds, ValidRepo, SameTransfers, LedgerGrows;
    RecalculateAndStoreEffect(w, stored, working, currencies);
  }

  lemma StaticSelection(docs: map<string, Batch>, m: Matrix)
    requires m.kind == STATIC
    ensures SelectedIds(docs, m) == RowIds(m.batches) * docs.Keys
  {
    hide RowIds;
  }

  lemma ListedAreStored(w: World, id: MatrixId, currencies: Currencies)
    requires WorldOk(w, currencies) && id in w.matrices.docs
    ensures w.matrices.docs[id].id == id && RowIds(w.matrices.docs[id].batches) <= w.books.batches.docs.Keys
  {
    WorldStoreOk(w, currencies);
    assert MatrixOk(w.matrices.docs[id], id, w.books);
  }

  /** Adding batches that completes: the matrix lists what it listed, and the stored ones among those sent. */
  lemma AddBatchesMembers(w: World, id: MatrixId, ids: seq<string>, currencies: Currencies)
    requires WorldOk(w, currencies) && AddBatches(w, id, ids, currencies).outcome == Done
    ensures id in w.matrices.docs
    ensures var v := AddBatches(w, id, ids, currencies).world;
            && id in v.matrices.docs && v.books.batches.docs.Keys == w.books.batches.docs.Keys
            && RowIds(v.matrices.docs[id].batches) == RowIds(w.matrices.docs[id].batches) + Known(w, ids)
  {
    hide SequencesOk, OwnersOk, EntriesOk, LocksOk, BooksOk, ValidRepo, RecalculateAndStore, SelectedIds, RowIds,
         AddRows, BatchesByIds, Includes;
    ListedAreStored(w, id, currencies);
    var m := w.matrices.docs[id];
    var working := m.(batches := AddRows(m.batches, BatchesByIds(w.books, ids)));
    ListedAfter(w, m, working, currencies);
    StaticSelection(w.books.batches.docs, working);
    AddedIds(m.batches, BatchesByIds(w.books, ids));
    FoundIds(w, ids, currencies);
  }

  /** Removing batches that completes: the matrix lists what it listed without those sent. */
  lemma RemoveBatchesMembers(w: World, id: MatrixId, ids: seq<string>, currencies: Currencies)
    requires WorldOk(w, currencies) && RemoveBatches(w, id, ids, currencies).outcome == Done
    ensures id in w.matrices.docs
    ensures var v := RemoveBatches(w, id, ids, currencies).world;
            id in v.matrices.docs
            && RowIds(v.matrices.docs[id].batches) == RowIds(w.matrices.docs[id].batches) - Includes(ids)
  {
    hide SequencesOk, OwnersOk, EntriesOk, LocksOk, BooksOk, ValidRepo, RecalculateAndStore, SelectedIds, RowIds,
         RemoveRows, BatchesByIds, Includes;
    ListedAreStored(w, id, currencies);
    var m := w.matrices.docs[id];
    var working := m.(batches := RemoveRows(m.batches, BatchesByIds(w.books, ids)));
    ListedAfter(w, m, working, currencies);
    StaticSelection(w.books.batches.docs, working);
    RemovedIds(m.batches, BatchesByIds(w.books, ids));
    FoundIds(w, ids, currencies);
  }

  /** Adding batches and removing them again leaves the list as it was exactly when none of the stored ones among
      them was on it before. */
  lemma RemovingUndoesAdding(w: World, id: MatrixId, ids: seq<string>, currencies: Currencies)
    requires WorldOk(w, currencies) && CurrenciesOk(currencies)
    requires AddBatches(w, id, ids, currencies).outcome == Done
    requires RemoveBatches(AddBatches(w, id, ids, currencies).world, id, ids, currencies).outcome == Done
    ensures id in w.matrices.docs
    ensures var v := RemoveBatches(AddBatches(w, id, ids, currencies).world, id, ids, currencies).world;
            && id in v.matrices.docs
            && (RowIds(v.matrices.docs[id].batches) == RowIds(w.matrices.docs[id].batches) <==>
                  RowIds(w.matrices.docs[id].batches) * Includes(ids) == {})
  {
    hide WorldOk, CurrenciesOk, AddBatches, RemoveBatches, RowIds, Includes;
    var u := AddBatches(w, id, ids, currencies).world;
    AddBatchesMembers(w, id, ids, currencies);
    ExecuteKeeps(w, AddBatchesToMatrixCmd(id, ids), currencies);
    RemoveBatchesMembers(u, id, ids, currencies);
    var before, sent := RowIds(w.matrices.docs[id].batches), Includes(ids);
    assert before + Known(w, ids) - sent == before - sent;
    assert before - sent == before <==> before * sent == {} by {
      assert before - sent + before * sent == before;
    }
  }

  /** A new static matrix lists exactly the stored batches among those sent. */
  lemma CreateStaticMembers(w: World, newId: Option<string>, ids: seq<string>, currencies: Currencies)
    requires WorldOk(w, currencies) && CreateStaticMatrix(w, newId, ids, currencies).outcome == Done
    ensures var v, mid := CreateStaticMatrix(w, newId, ids, currencies).world, NewMatrixId(newId, w.books.nextId);
            && mid !in w.matrices.docs && mid in v.matrices.docs && v.matrices.docs[mid].state == IDLE
            && RowIds(v.matrices.docs[mid].batches) == Known(w, ids)
  {
    hide SequencesOk, OwnersOk, EntriesOk, LocksOk, BooksOk, ValidRepo, RecalculateAndStore, SelectedIds, RowIds,
         ZeroRows, BatchesByIds, Includes, DrawId;
    DrawIdKeeps(w, newId, currencies);
    var mid := NewMatrixId(newId, w.books.nextId);
    var m := Matrix(mid, STATIC, BUSY, ZeroRows(BatchesByIds(w.books, ids)), NoBalances);
    ListedAfter(DrawId(w, newId), m, m, currencies);
    StaticSelection(w.books.batches.docs, m);
    ZeroIds(BatchesByIds(w.books, ids));
    FoundIds(w, ids, currencies);
  }

  /** A new dynamic matrix lists exactly the stored batches that meet its criteria. */
  lemma CreateDynamicMembers(w: World, newId: Option<string>, criteria: MatrixType, currencies: Currencies)
    requires WorldOk(w, currencies) && criteria.DYNAMIC?
             && CreateDynamicMatrix(w, newId, criteria, currencies).outcome == Done
    ensures var v, mid := CreateDynamicMatrix(w, newId, criteria, currencies).world, NewMatrixId(newId, w.books.nextId);
            && mid !in w.matrices.docs && mid in v.matrices.docs && v.matrices.docs[mid].state == IDLE
            && forall x :: x in RowIds(v.matrices.docs[mid].batches) <==>
                 x in w.books.batches.docs && MatchesCriteria(w.books.batches.docs[x], criteria)
  {
    hide SequencesOk, OwnersOk, EntriesOk, LocksOk, BooksOk, ValidRepo, RecalculateAndStore, RowIds, DrawId,
         MatchesCriteria;
    DrawIdKeeps(w, newId, currencies);
    var mid := NewMatrixId(newId, w.books.nextId);
    var m := Matrix(mid, criteria, BUSY, [], NoBalances);
    ListedAfter(DrawId(w, newId), m, m, currencies);
  }
}
