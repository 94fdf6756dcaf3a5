/** What each command does to the stored state, in closed form. */
module Effects {
  import opened Common
  import opened Model
  import opened Converters
  import opened MatrixTables
  import opened Totals
  import opened Repositories
  import opened Ledgers
  import opened Recalculation
  import opened BookKeeping
  import opened Exactness
  import opened Allocation
  import opened Commands

  // ----- moving batches

  function MovedOrSame(mv: Move, mid: MatrixId, b: Batch): Batch
  {
    match Moved(mv, mid, b)
    case Some(c) => c
    case None => b
  }

  /** The stored batches after the sweep over the batches with these ids. */
  function SweptDocs(docs: map<string, Batch>, ids: set<string>, mv: Move, mid: MatrixId): map<string, Batch>
  {
    map id | id in docs :: if id in ids then MovedOrSame(mv, mid, docs[id]) else docs[id]
  }

  function SweptRows(rows: seq<MatrixBatch>, docs: map<string, Batch>, mv: Move, mid: MatrixId): (r: seq<MatrixBatch>)
    requires forall i :: 0 <= i < |rows| ==> rows[i].id in docs
    ensures |r| == |rows|
    ensures forall i :: 0 <= i < |rows| ==> r[i] == rows[i].(state := MovedOrSame(mv, mid, docs[rows[i].id]).state)
  {
    seq(|rows|, i requires 0 <= i < |rows| => rows[i].(state := MovedOrSame(mv, mid, docs[rows[i].id]).state))
  }

  /** The ids of the batches that a command moves. */
  function MovedIds(docs: map<string, Batch>, ids: set<string>, mv: Move, mid: MatrixId): set<string>
  {
    set id | id in ids && id in docs && Moved(mv, mid, docs[id]).Some?
  }

  ghost predicate KeyedById(docs: map<string, Batch>)
  {
    forall id :: id in docs ==> docs[id].id == id
  }

  /** Rows still to be swept: distinct, stored, and showing the stored state. */
  ghost predicate ToSweep(rows: seq<MatrixBatch>, docs: map<string, Batch>)
  {
    && (forall i, j :: 0 <= i < j < |rows| ==> rows[i].id != rows[j].id)
    && (forall i :: 0 <= i < |rows| ==> rows[i].id in docs && rows[i].state == docs[rows[i].id].state)
  }

  lemma SweepOne(s: Swept, row: MatrixBatch, docs: map<string, Batch>, swept: set<string>, mv: Move, mid: MatrixId)
    requires s.ok && ValidRepo(s.batches) && s.batches.docs == SweptDocs(docs, swept, mv, mid) && KeyedById(docs)
    requires row.id in docs && row.state == docs[row.id].state && row.id !in swept
    ensures var t := SweepRow(s, row, mv, mid);
            && t.ok && ValidRepo(t.batches) && t.batches.docs == SweptDocs(docs, swept + {row.id}, mv, mid)
            && t.rows == s.rows + [row.(state := MovedOrSame(mv, mid, docs[row.id]).state)]
            && t.updated == s.updated + (if Moved(mv, mid, docs[row.id]).Some? then [row.id] else [])
  {
    MovedKeepsId(mv, mid, docs[row.id]);
    SweptMore(docs, swept, row.id, mv, mid);
    hide Moved, ValidRepo, SweptDocs;
    PutValid(s.batches, row.id, MovedOrSame(mv, mid, docs[row.id]));
  }

  lemma SweptMore(docs: map<string, Batch>, swept: set<string>, id: string, mv: Move, mid: MatrixId)
    requires id in docs && id !in swept
    ensures SweptDocs(docs, swept, mv, mid)[id] == docs[id]
    ensures SweptDocs(docs, swept + {id}, mv, mid)
            == SweptDocs(docs, swept, mv, mid)[id := MovedOrSame(mv, mid, docs[id])]
  {
    hide MovedOrSame;
  }

  lemma MovedKeepsId(mv: Move, mid: MatrixId, b: Batch)
    ensures Moved(mv, mid, b).Some? ==> Moved(mv, mid, b).value.id == b.id
  {
  }

  lemma IncludesAppend(ids: seq<string>, more: seq<string>)
    ensures Includes(ids + more) == Includes(ids) + Includes(more)
  {
    forall id | id in Includes(ids) + Includes(more) ensures id in Includes(ids + more) {
      if id in Includes(ids) {
        var i :| 0 <= i < |ids| && ids[i] == id;
        assert (ids + more)[i] == id;
      } else {
        var i :| 0 <= i < |more| && more[i] == id;
        assert (ids + more)[|ids| + i] == id;
      }
    }
  }

  lemma RowIdsHead(rows: seq<MatrixBatch>)
    requires rows != []
    ensures RowIds(rows) == {rows[0].id} + RowIds(rows[1..])
  {
    var rest := rows[1..];
    forall id | id in {rows[0].id} + RowIds(rest) ensures id in RowIds(rows) {
      if id == rows[0].id {
        assert rows[0].id == id;
      } else {
        var i :| 0 <= i < |rest| && rest[i].id == id;
        assert rows[i + 1].id == id;
      }
    }
  }

  lemma ToSweepTail(rows: seq<MatrixBatch>, docs: map<string, Batch>)
    requires ToSweep(rows, docs) && rows != []
    ensures ToSweep(rows[1..], docs) && rows[0].id !in RowIds(rows[1..])
    ensures rows[0].id in docs && rows[0].state == docs[rows[0].id].state
  {
    var rest := rows[1..];
    assert forall i :: 0 <= i < |rest| ==> rest[i] == rows[i + 1];
  }

  /** The loop over the rows stores exactly the moved batches and reports exactly their ids. */
  lemma {:induction false} SweepExact(s: Swept, rows: seq<MatrixBatch>, docs: map<string, Batch>, swept: set<string>,
      mv: Move, mid: MatrixId)
    requires s.ok && ValidRepo(s.batches) && s.batches.docs == SweptDocs(docs, swept, mv, mid) && KeyedById(docs)
    requires ToSweep(rows, docs) && RowIds(rows) !! swept
    ensures var t := Sweep(s, rows, mv, mid);
            && t.ok && ValidRepo(t.batches) && t.batches.docs == SweptDocs(docs, swept + RowIds(rows), mv, mid)
            && t.rows == s.rows + SweptRows(rows, docs, mv, mid)
            && Includes(t.updated) == Includes(s.updated) + MovedIds(docs, RowIds(rows), mv, mid)
    decreases |rows|
  {
    hide Moved, ValidRepo, KeyedById, SweptDocs, ToSweep, RowIds, MovedOrSame, SweepRow;
    if rows == [] {
      assert RowIds(rows) == {} by { NoRowIds(rows); }
      assert s.rows + SweptRows(rows, docs, mv, mid) == s.rows;
      assert swept + RowIds(rows) == swept;
    } else {
      var row, rest := rows[0], rows[1..];
      ToSweepTail(rows, docs);
      RowIdsHead(rows);
      SweepOne(s, row, docs, swept, mv, mid);
      var t := SweepRow(s, row, mv, mid);
      SweepExact(t, rest, docs, swept + {row.id}, mv, mid);
      assert swept + {row.id} + RowIds(rest) == swept + RowIds(rows);
      SweptRowsStep(s.rows, rows, docs, mv, mid);
      UpdatedStep(s.updated, row.id, docs, RowIds(rest), mv, mid);
    }
  }

  lemma NoRowIds(rows: seq<MatrixBatch>)
    requires rows == []
    ensures RowIds(rows) == {}
  {
  }

  lemma SweptRowsStep(front: seq<MatrixBatch>, rows: seq<MatrixBatch>, docs: map<string, Batch>, mv: Move,
                      mid: MatrixId)
    requires rows != [] && forall i :: 0 <= i < |rows| ==> rows[i].id in docs
    ensures forall i :: 0 <= i < |rows[1..]| ==> rows[1..][i].id in docs
    ensures front + SweptRows(rows, docs, mv, mid)
            == front + [rows[0].(state := MovedOrSame(mv, mid, docs[rows[0].id]).state)]
               + SweptRows(rows[1..], docs, mv, mid)
  {
  }

  lemma UpdatedStep(updated: seq<string>, id: string, docs: map<string, Batch>, rest: set<string>, mv: Move,
                    mid: MatrixId)
    requires id in docs
    ensures Includes(updated + (if Moved(mv, mid, docs[id]).Some? then [id] else [])) + MovedIds(docs, rest, mv, mid)
            == Includes(updated) + MovedIds(docs, {id} + rest, mv, mid)
  {
    hide Moved;
    IncludesAppend(updated, if Moved(mv, mid, docs[id]).Some? then [id] else []);
    assert Includes([id]) == {id} by { assert [id][0] == id; }
    assert Includes([]) == {};
  }

  // ----- dropping rows before a settlement

  ghost predicate DistinctRows(rows: seq<MatrixBatch>)
  {
    forall i, j :: 0 <= i < j < |rows| ==> rows[i].id != rows[j].id
  }

  lemma {:induction false} RemoveRowExact(rows: seq<MatrixBatch>, id: string)
    requires DistinctRows(rows)
    ensures DistinctRows(RemoveRow(rows, id))
    ensures forall x :: x in RemoveRow(rows, id) <==> x in rows && x.id != id
  {
    if rows != [] {
      var row, rest := rows[0], rows[1..];
      assert forall i :: 0 <= i < |rest| ==> rest[i] == rows[i + 1];
      RemoveRowExact(rest, id);
      assert rows == [row] + rest;
      forall x | x in RemoveRow(rest, id) ensures x.id != row.id {
        var i :| 0 <= i < |rest| && rest[i] == x;
        assert rows[i + 1] == x;
      }
      DistinctCons(row, RemoveRow(rest, id));
    }
  }

  lemma DistinctCons(row: MatrixBatch, rows: seq<MatrixBatch>)
    requires DistinctRows(rows) && forall x :: x in rows ==> x.id != row.id
    ensures DistinctRows([row] + rows)
  {
  }

  lemma {:induction false} DropExact(rows: seq<MatrixBatch>, items: seq<MatrixBatch>)
    requires DistinctRows(rows)
    ensures var r := DropNotAwaiting(rows, items);
            && DistinctRows(r)
            && forall x :: x in r <==>
                 x in rows && forall y :: y in items && y.state != AWAITING_SETTLEMENT ==> y.id != x.id
    decreases |items|
  {
    if items != [] {
      var item, rest := items[0], items[1..];
      RemoveRowExact(rows, item.id);
      DropExact(if item.state != AWAITING_SETTLEMENT then RemoveRow(rows, item.id) else rows, rest);
      assert items == [item] + rest;
    }
  }

  /** Removing by id while walking over the rows leaves exactly the rows awaiting settlement. */
  lemma DropLeavesAwaiting(rows: seq<MatrixBatch>)
    requires DistinctRows(rows)
    ensures DistinctRows(DropNotAwaiting(rows, rows))
    ensures forall x :: x in DropNotAwaiting(rows, rows) <==> x in rows && x.state == AWAITING_SETTLEMENT
  {
    DropExact(rows, rows);
    forall x, y | x in rows && y in rows && x.id == y.id ensures x == y {
      var i :| 0 <= i < |rows| && rows[i] == x;
      var j :| 0 <= j < |rows| && rows[j] == y;
    }
  }

  /** The ids a command moves batches among: the selected ones, when settling those awaiting settlement. */
  function TargetIds(docs: map<string, Batch>, ids: set<string>, mv: Move): set<string>
  {
    if mv.Settle? then set id | id in ids && id in docs && docs[id].state == AWAITING_SETTLEMENT else ids
  }

  lemma RowsToMoveExact(rows: seq<MatrixBatch>, ids: set<string>, docs: map<string, Batch>, mv: Move)
    requires Fresh(rows, ids, docs)
    ensures ToSweep(RowsToMove(rows, mv), docs)
    ensures RowIds(RowsToMove(rows, mv)) == TargetIds(docs, ids, mv)
  {
    if mv.Settle? {
      DropLeavesAwaiting(rows);
      AwaitingLeft(rows, DropNotAwaiting(rows, rows), ids, docs);
    }
  }

  lemma AwaitingLeft(rows: seq<MatrixBatch>, r: seq<MatrixBatch>, ids: set<string>, docs: map<string, Batch>)
    requires Fresh(rows, ids, docs) && DistinctRows(r)
    requires forall x :: x in r <==> x in rows && x.state == AWAITING_SETTLEMENT
    ensures ToSweep(r, docs) && RowIds(r) == TargetIds(docs, ids, Settle)
  {
    forall i | 0 <= i < |r|
      ensures r[i].id in docs && r[i].state == docs[r[i].id].state && r[i].id in TargetIds(docs, ids, Settle)
    {
      assert r[i] in r;
      var j :| 0 <= j < |rows| && rows[j] == r[i];
      assert rows[j].id in RowIds(rows);
    }
    forall id | id in TargetIds(docs, ids, Settle) ensures id in RowIds(r) {
      var j :| 0 <= j < |rows| && rows[j].id == id;
      assert rows[j] in r;
      var i :| 0 <= i < |r| && r[i] == rows[j];
      assert r[i].id == id;
    }
  }

  // ----- the whole of a command that moves batches

  ghost predicate MatrixOk(m: Matrix, id: MatrixId, k: Books)
  {
    && m.id == id && (id.Generated? ==> id.n < k.nextId)
    && (forall i :: 0 <= i < |m.batches| ==> m.batches[i].id in k.batches.docs)
  }

  ghost predicate StoreOk(w: World, currencies: Currencies)
  {
    && BooksOk(w.books, currencies) && ValidRepo(w.matrices)
    && forall id :: id in w.matrices.docs ==> MatrixOk(w.matrices.docs[id], id, w.books)
  }

  /** The batches after a move among these ids: moved or the same, apart from accounts. */
  ghost predicate BatchesMoved(a: map<string, Batch>, b: map<string, Batch>, ids: set<string>, mv: Move, mid: MatrixId)
  {
    a.Keys == b.Keys && forall id :: id in a ==>
      SameBatch(if id in ids then MovedOrSame(mv, mid, a[id]) else a[id], b[id])
  }

  lemma MovedSame(mv: Move, mid: MatrixId, a: Batch, b: Batch)
    requires SameBatch(a, b)
    ensures SameBatch(MovedOrSame(mv, mid, a), MovedOrSame(mv, mid, b))
    ensures Moved(mv, mid, a).Some? <==> Moved(mv, mid, b).Some?
  {
  }

  lemma SweptAfterSame(a: map<string, Batch>, b: map<string, Batch>, ids: set<string>, mv: Move, mid: MatrixId)
    requires SameBatches(a, b)
    ensures BatchesMoved(a, SweptDocs(b, ids, mv, mid), ids, mv, mid)
    ensures MovedIds(a, ids, mv, mid) == MovedIds(b, ids, mv, mid)
    ensures TargetIds(a, ids, mv) == TargetIds(b, ids, mv)
  {
    hide Moved, MovedOrSame, SameBatch;
    forall id | id in a
      ensures SameBatch(MovedOrSame(mv, mid, a[id]), MovedOrSame(mv, mid, b[id]))
      ensures Moved(mv, mid, a[id]).Some? <==> Moved(mv, mid, b[id]).Some?
      ensures a[id].state == b[id].state
    {
      MovedSame(mv, mid, a[id], b[id]);
      SameState(a[id], b[id]);
    }
  }

  lemma SameState(a: Batch, b: Batch)
    requires SameBatch(a, b)
    ensures a.state == b.state
  {
  }

  lemma SweptRowsFresh(rows: seq<MatrixBatch>, docs: map<string, Batch>, ids: set<string>, mv: Move, mid: MatrixId)
    requires ToSweep(rows, docs) && RowIds(rows) == ids
    ensures Fresh(SweptRows(rows, docs, mv, mid), ids, SweptDocs(docs, ids, mv, mid))
  {
    hide Moved, MovedOrSame;
    var r := SweptRows(rows, docs, mv, mid);
    forall i | 0 <= i < |r| ensures r[i].id in ids {
      assert rows[i].id in RowIds(rows);
    }
    forall id | id in ids ensures id in RowIds(r) {
      var i :| 0 <= i < |rows| && rows[i].id == id;
      assert r[i].id == id;
    }
  }

  /** Changing states and owners keeps the books consistent. */
  lemma SweptBooksOk(k: Books, batches: Repo<string, Batch>, ids: set<string>, mv: Move, mid: MatrixId,
                     currencies: Currencies)
    requires BooksOk(k, currencies) && ValidRepo(batches) && batches.docs == SweptDocs(k.batches.docs, ids, mv, mid)
    ensures BooksOk(k.(batches := batches), currencies)
  {
    hide AccountsOk, StringToBigint, Decimals, LedgerOk;
    forall id | id in k.batches.docs ensures BatchOk(batches.docs[id], id, k.ledger, currencies) {
      assert BatchOk(k.batches.docs[id], id, k.ledger, currencies);
    }
    forall x | x in k.transfers.docs ensures TransferOk(k.transfers.docs[x], x, batches.docs, currencies) {
      assert TransferOk(k.transfers.docs[x], x, k.batches.docs, currencies);
    }
  }

  lemma BooksKeyed(k: Books, currencies: Currencies)
    requires BooksOk(k, currencies)
    ensures KeyedById(k.batches.docs)
  {
    forall id | id in k.batches.docs ensures k.batches.docs[id].id == id {
      StoredBatchListed(k, id, currencies);
    }
  }

  /** The rows of a recalculated matrix, swept: what is stored, what the rows show, what is reported. */
  lemma SweepRecalculated(k: Books, rows: seq<MatrixBatch>, ids: set<string>, mv: Move, mid: MatrixId,
                          currencies: Currencies)
    requires BooksOk(k, currencies) && Fresh(rows, ids, k.batches.docs)
    ensures var targets := TargetIds(k.batches.docs, ids, mv);
            var s := Sweep(Swept(k.batches, [], [], true), RowsToMove(rows, mv), mv, mid);
            && s.ok && s.batches.docs == SweptDocs(k.batches.docs, targets, mv, mid)
            && BooksOk(k.(batches := s.batches), currencies)
            && Fresh(s.rows, targets, s.batches.docs)
            && Includes(s.updated) == MovedIds(k.batches.docs, targets, mv, mid)
  {
    hide Moved, MovedOrSame, RowsToMove, BooksOk, Fresh, ToSweep;
    var docs, targets, todo := k.batches.docs, TargetIds(k.batches.docs, ids, mv), RowsToMove(rows, mv);
    BooksKeyed(k, currencies);
    TransfersRepoOk(k, currencies);
    RowsToMoveExact(rows, ids, docs, mv);
    assert SweptDocs(docs, {}, mv, mid) == docs;
    SweepExact(Swept(k.batches, [], [], true), todo, docs, {}, mv, mid);
    assert {} + RowIds(todo) == targets;
    var s := Sweep(Swept(k.batches, [], [], true), todo, mv, mid);
    NothingFirst(s.rows, todo, docs, mv, mid);
    SweptRowsFresh(todo, docs, targets, mv, mid);
    SweptBooksOk(k, s.batches, targets, mv, mid, currencies);
  }

  lemma NothingFirst(rows: seq<MatrixBatch>, todo: seq<MatrixBatch>, docs: map<string, Batch>, mv: Move, mid: MatrixId)
    requires ToSweep(todo, docs)
    requires rows == [] + SweptRows(todo, docs, mv, mid)
    ensures rows == SweptRows(todo, docs, mv, mid)
    ensures Includes([]) == {}
  {
  }

  /** The ids a command on this matrix moves batches among. */
  function MoveTargets(w: World, id: MatrixId, mv: Move): set<string>
    requires id in w.matrices.docs
  {
    TargetIds(w.books.batches.docs, SelectedIds(w.books.batches.docs, w.matrices.docs[id]), mv)
  }

  lemma SelectionIgnoresState(docs: map<string, Batch>, m: Matrix, st: MatrixState)
    ensures SelectedIds(docs, m.(state := st)) == SelectedIds(docs, m)
  {
  }

  /** A command that fails leaves everything as it was, or leaves the matrix BUSY after a failed recalculation. */
  ghost predicate StuckOrSame(w: World, v: World, id: MatrixId)
  {
    v == w || (id in w.matrices.docs && w.matrices.docs[id].state in {IDLE, OUT_OF_SYNC, LOCKED}
               && SameCore(w.books, v.books)
               && v == StoreMatrix(w, w.matrices.docs[id].(state := BUSY)).(books := v.books))
  }

  /** A command that moves batches and completes: exactly the selected batches move, the matrix lists them with
      their new states, and the other matrices are told which batches moved. */
  ghost predicate MoveEffect(w: World, v: World, id: MatrixId, mv: Move, mark: Mark)
  {
    && id in w.matrices.docs && w.matrices.docs[id].state == From(mv)
    && BatchesMoved(w.books.batches.docs, v.books.batches.docs, MoveTargets(w, id, mv), mv, id)
    && SameTransfers(w.books.transfers.docs, v.books.transfers.docs) && w.books.nextId <= v.books.nextId
    && id in v.matrices.docs && v.matrices.docs == w.matrices.docs[id := v.matrices.docs[id]]
    && v.matrices.docs[id].kind == w.matrices.docs[id].kind && v.matrices.docs[id].state == To(mv)
    && v.matrices.docs[id].id == w.matrices.docs[id].id
    && Fresh(v.matrices.docs[id].batches, MoveTargets(w, id, mv), v.books.batches.docs)
    && v.pending == w.pending + multiset{mark} && mark.originMatrixId == w.matrices.docs[id].id
    && Includes(mark.batchIds) == MovedIds(w.books.batches.docs, MoveTargets(w, id, mv), mv, id)
    && v.configs == w.configs
  }

  lemma MatricesAfterTwoPuts(ms: Repo<MatrixId, Matrix>, id: MatrixId, a: Matrix, b: Matrix)
    requires ValidRepo(ms)
    ensures ValidRepo(Put(Put(ms, id, a), id, b)) && Put(Put(ms, id, a), id, b).docs == ms.docs[id := b]
  {
    PutValid(ms, id, a);
    PutValid(Put(ms, id, a), id, b);
  }

  lemma StoredMatrixOk(w: World, id: MatrixId, currencies: Currencies)
    requires StoreOk(w, currencies) && id in w.matrices.docs
    ensures w.matrices.docs[id].id == id
  {
    assert MatrixOk(w.matrices.docs[id], id, w.books);
  }

  /** The participants' currencies in a recalculated matrix are configured ones. */
  lemma RecalculatedCurrencies(k: Books, m: Matrix, settling: bool, currencies: Currencies)
    requires BooksOk(k, currencies)
    ensures var r := Recalculate(k, m, settling, currencies);
            r.matrix.Some? ==> CurrenciesKnown(r.matrix.value.tables.byParticipant, currencies)
  {
    var r, facts := Recalculate(k, m, settling, currencies), RecalculatedFacts(k, m, settling, currencies);
    RecalculateExact(k, m, settling, currencies);
    FactsInCurrencies(k, m, settling, currencies);
    hide Recalculate, BooksOk, RecalculatedFacts, RowOf;
    if r.matrix.Some? {
      ShownCurrencies(r.matrix.value.tables, facts, currencies);
    }
  }

  lemma FactsInCurrencies(k: Books, m: Matrix, settling: bool, currencies: Currencies)
    requires BooksOk(k, currencies)
    ensures forall x :: x in RecalculatedFacts(k, m, settling, currencies) ==>
              RecalculatedFacts(k, m, settling, currencies)[x].currencyCode in currencies
  {
    var facts := RecalculatedFacts(k, m, settling, currencies);
    forall x | x in facts ensures facts[x].currencyCode in currencies {
      var id := k.transfers.docs[x].batchId;
      StoredBatchListed(k, id, currencies);
      CurrencyKnown(k, k.batches.docs[id], currencies);
    }
  }

  lemma ShownCurrencies(tb: Tables, facts: Facts, currencies: Currencies)
    requires TablesShow(tb, facts, currencies) && forall x :: x in facts ==> facts[x].currencyCode in currencies
    ensures CurrenciesKnown(tb.byParticipant, currencies)
  {
    hide SidesOf, RowShows;
    var rows := tb.byParticipant;
    forall i | 0 <= i < |rows| ensures rows[i].key.currencyCode in currencies {
      assert rows[i].key in RowKeys(rows);
    }
  }

  /** What the recalculation at the start of a moving command leaves. */
  lemma MoveRecalculates(w: World, id: MatrixId, mv: Move, currencies: Currencies)
    requires StoreOk(w, currencies) && id in w.matrices.docs
    ensures var m := w.matrices.docs[id];
            var r := Recalculate(w.books, m.(state := BUSY), mv.Settle?, currencies);
            && BooksOk(r.books, currencies) && SameCore(w.books, r.books)
            && (r.matrix.Some? ==>
                  var m1 := r.matrix.value;
                  var s := Sweep(Swept(r.books.batches, [], [], true), RowsToMove(m1.batches, mv), mv, m1.id);
                  && m1.id == id && m1.kind == m.kind && CurrenciesKnown(m1.tables.byParticipant, currencies)
                  && s.ok && BooksOk(r.books.(batches := s.batches), currencies)
                  && BatchesMoved(w.books.batches.docs, s.batches.docs, MoveTargets(w, id, mv), mv, id)
                  && Fresh(s.rows, MoveTargets(w, id, mv), s.batches.docs)
                  && Includes(s.updated) == MovedIds(w.books.batches.docs, MoveTargets(w, id, mv), mv, id))
  {
    var m := w.matrices.docs[id];
    var busy := m.(state := BUSY);
    StoredMatrixOk(w, id, currencies);
    hide BooksOk, Recalculate, SelectedIds, Moved, RowsToMove, Fresh, TargetIds, Sweep, BatchesMoved, MovedIds;
    RecalculateKeeps(w.books, busy, mv.Settle?, currencies);
    RecalculatedCurrencies(w.books, busy, mv.Settle?, currencies);
    SelectionIgnoresState(w.books.batches.docs, m, BUSY);
    var r := Recalculate(w.books, busy, mv.Settle?, currencies);
    if r.matrix.Some? {
      var ids := SelectedIds(w.books.batches.docs, m);
      SweptAfterSame(w.books.batches.docs, r.books.batches.docs, TargetIds(w.books.batches.docs, ids, mv), mv, id);
      SweptAfterSame(w.books.batches.docs, r.books.batches.docs, ids, mv, id);
      SweepRecalculated(r.books, r.matrix.value.batches, ids, mv, id, currencies);
    }
  }

  /** Every command that moves batches either completes with its full effect or moves nothing at all. */
  lemma MoveMatrixEffect(w: World, id: MatrixId, mv: Move, currencies: Currencies) returns (mark: Mark)
    requires StoreOk(w, currencies)
    ensures var e := MoveMatrix(w, id, mv, currencies);
            && (e.outcome == Done ==> MoveEffect(w, e.world, id, mv, mark) && BooksOk(e.world.books, currencies)
                                      && ValidRepo(e.world.matrices))
            && (e.outcome != Done ==> StuckOrSame(w, e.world, id) && BooksOk(e.world.books, currencies))
  {
    hide BooksOk, Recalculate, SelectedIds, Moved, RowsToMove, Fresh, TargetIds, Sweep, BatchesMoved, MovedIds,
         CurrenciesKnown, MatrixOk, MoveTargets, ValidRepo, SameBatches, SameTransfers, LedgerGrows, Includes;
    mark := Mark(id, []);
    if id in w.matrices.docs && w.matrices.docs[id].state == From(mv) {
      MoveRecalculates(w, id, mv, currencies);
      StoredMatrixOk(w, id, currencies);
      var m := w.matrices.docs[id];
      var r := Recalculate(w.books, m.(state := BUSY), mv.Settle?, currencies);
      if r.matrix.Some? {
        var m1 := r.matrix.value;
        var s := Sweep(Swept(r.books.batches, [], [], true), RowsToMove(m1.batches, mv), mv, m1.id);
        MatricesAfterTwoPuts(w.matrices, id, m.(state := BUSY), m1.(batches := s.rows, state := To(mv)));
        mark := Mark(m1.id, s.updated);
      }
    }
  }

  // ----- recalculating, creating and editing

  /** A recalculation that completes: the matrix is IDLE and lists exactly these batches with their states. */
  ghost predicate RestoreEffect(w: World, v: World, id: MatrixId, kind: MatrixType, ids: set<string>)
  {
    && SameCore(w.books, v.books)
    && id in v.matrices.docs && v.matrices.docs == w.matrices.docs[id := v.matrices.docs[id]]
    && v.matrices.docs[id].id == id && v.matrices.docs[id].kind == kind && v.matrices.docs[id].state == IDLE
    && Fresh(v.matrices.docs[id].batches, ids, v.books.batches.docs)
    && v.pending == w.pending && v.events == w.events && v.configs == w.configs
  }

  /** A recalculation that fails: the matrix stays BUSY as it was stored. */
  ghost predicate StuckEffect(w: World, v: World, stored: Matrix)
  {
    SameCore(w.books, v.books) && v == StoreMatrix(w, stored.(state := BUSY)).(books := v.books)
  }

  lemma RecalculateAndStoreEffect(w: World, stored: Matrix, working: Matrix, currencies: Currencies)
    requires BooksOk(w.books, currencies) && ValidRepo(w.matrices)
    requires stored.id == working.id && stored.kind == working.kind
    ensures var e := RecalculateAndStore(w, stored, working, IDLE, currencies);
            && BooksOk(e.world.books, currencies) && ValidRepo(e.world.matrices)
            && (e.outcome == Done ==>
                  RestoreEffect(w, e.world, stored.id, stored.kind, SelectedIds(w.books.batches.docs, working)))
            && (e.outcome != Done ==> StuckEffect(w, e.world, stored))
  {
    hide BooksOk, Recalculate, SelectedIds, Fresh;
    RecalculateKeeps(w.books, working.(state := BUSY), false, currencies);
    SelectionIgnoresState(w.books.batches.docs, working, BUSY);
    var r := Recalculate(w.books, working.(state := BUSY), false, currencies);
    PutValid(w.matrices, stored.id, stored.(state := BUSY));
    if r.matrix.Some? {
      MatricesAfterTwoPuts(w.matrices, stored.id, stored.(state := BUSY), r.matrix.value.(state := IDLE));
    }
  }

  // ----- marking

  function MarkedDocs(docs: map<MatrixId, Matrix>, ids: set<string>, origin: MatrixId): map<MatrixId, Matrix>
  {
    map id | id in docs ::
      if docs[id].state == IDLE && id != origin && RowIds(docs[id].batches) * ids != {}
      then docs[id].(state := OUT_OF_SYNC) else docs[id]
  }

  ghost predicate KeyedMatrices(docs: map<MatrixId, Matrix>)
  {
    forall id :: id in docs ==> docs[id].id == id
  }

  lemma {:induction false} MarkEachExact(ms: Repo<MatrixId, Matrix>, found: seq<Matrix>, origin: MatrixId)
    requires ValidRepo(ms) && forall i :: 0 <= i < |found| ==> found[i].id in ms.docs
    ensures var r := MarkEach(ms, found, origin);
            && ValidRepo(r) && r.docs.Keys == ms.docs.Keys
            && forall id :: id in ms.docs && (id == origin || forall i :: 0 <= i < |found| ==> found[i].id != id) ==>
                 r.docs[id] == ms.docs[id]
    decreases |found|
  {
    if found != [] {
      var m, rest := found[0], found[1..];
      assert forall i :: 0 <= i < |rest| ==> rest[i] == found[i + 1];
      var more := if m.id == origin then ms else Put(ms, m.id, m.(state := OUT_OF_SYNC));
      PutValid(ms, m.id, m.(state := OUT_OF_SYNC));
      MarkEachExact(more, rest, origin);
    }
  }

  lemma {:induction false} MarkEachMarks(ms: Repo<MatrixId, Matrix>, found: seq<Matrix>, origin: MatrixId, i: nat)
    requires ValidRepo(ms) && i < |found| && found[i].id != origin
    requires forall j :: 0 <= j < |found| ==> found[j].id in ms.docs
    requires forall j, k :: 0 <= j < k < |found| ==> found[j].id != found[k].id
    ensures MarkEach(ms, found, origin).docs.Keys == ms.docs.Keys
    ensures MarkEach(ms, found, origin).docs[found[i].id] == found[i].(state := OUT_OF_SYNC)
    decreases |found|
  {
    var m, rest := found[0], found[1..];
    assert forall j :: 0 <= j < |rest| ==> rest[j] == found[j + 1];
    var more := if m.id == origin then ms else Put(ms, m.id, m.(state := OUT_OF_SYNC));
    PutValid(ms, m.id, m.(state := OUT_OF_SYNC));
    if i == 0 {
      MarkEachExact(more, rest, origin);
    } else {
      MarkEachMarks(more, rest, origin, i - 1);
    }
  }

  /** The listed matrices are the wanted ones, once each. */
  lemma IdleWithExact(ms: Repo<MatrixId, Matrix>, batchId: string) returns (keys: seq<MatrixId>)
    requires ValidRepo(ms) && KeyedMatrices(ms.docs)
    ensures |IdleWith(ms, batchId)| == |keys| && NoDuplicates(keys)
    ensures forall i :: 0 <= i < |keys| ==> keys[i] in ms.docs && IdleWith(ms, batchId)[i] == ms.docs[keys[i]]
                                            && IdleWith(ms, batchId)[i].id == keys[i]
    ensures forall id :: id in keys <==>
              id in ms.docs && ms.docs[id].state == IDLE && batchId in RowIds(ms.docs[id].batches)
  {
    hide RowIds, Pick, Records, Select, NoDuplicates, ValidRepo;
    keys := SelectExact(ms,
                        set id | id in ms.docs && ms.docs[id].state == IDLE && batchId in RowIds(ms.docs[id].batches));
  }

  /** One batch id: the idle matrices that list it, other than the origin, go out of sync. */
  lemma MarkOneExact(ms: Repo<MatrixId, Matrix>, batchId: string, origin: MatrixId)
    requires ValidRepo(ms) && KeyedMatrices(ms.docs)
    ensures var r := MarkEach(ms, IdleWith(ms, batchId), origin);
            ValidRepo(r) && r.docs == MarkedDocs(ms.docs, {batchId}, origin) && KeyedMatrices(r.docs)
  {
    hide IdleWith, ValidRepo, RowIds, MarkEach, NoDuplicates;
    var keys := IdleWithExact(ms, batchId);
    KeysDistinct(keys);
    var found := IdleWith(ms, batchId);
    MarkEachExact(ms, found, origin);
    var r, marked := MarkEach(ms, found, origin), MarkedDocs(ms.docs, {batchId}, origin);
    forall id | id in ms.docs ensures r.docs[id] == marked[id] {
      if id in keys && id != origin {
        var i :| 0 <= i < |keys| && keys[i] == id;
        MarkEachMarks(ms, found, origin, i);
        assert batchId in RowIds(ms.docs[id].batches) * {batchId};
      } else {
        assert forall i :: 0 <= i < |found| ==> found[i].id == keys[i];
      }
    }
    assert r.docs == marked;
  }

  lemma KeysDistinct(keys: seq<MatrixId>)
    requires NoDuplicates(keys)
    ensures forall i, j :: 0 <= i < j < |keys| ==> keys[i] != keys[j]
  {
  }

  /** The nested loops equal their specification: exactly the idle matrices that list any of the batches, other
      than the origin, go out of sync; nothing else changes. */
  lemma {:induction false} MarkOutOfSyncExact(ms: Repo<MatrixId, Matrix>, batchIds: seq<string>, origin: MatrixId)
    requires ValidRepo(ms) && KeyedMatrices(ms.docs)
    ensures var r := MarkOutOfSync(ms, batchIds, origin);
            ValidRepo(r) && r.docs == MarkedDocs(ms.docs, Includes(batchIds), origin) && KeyedMatrices(r.docs)
    decreases |batchIds|
  {
    hide ValidRepo, IdleWith, RowIds;
    if batchIds == [] {
      assert Includes(batchIds) == {};
      assert MarkedDocs(ms.docs, {}, origin) == ms.docs;
    } else {
      var id, rest := batchIds[0], batchIds[1..];
      MarkOneExact(ms, id, origin);
      var one := MarkEach(ms, IdleWith(ms, id), origin);
      MarkOutOfSyncExact(one, rest, origin);
      IncludesAppend([id], rest);
      assert batchIds == [id] + rest;
      assert Includes([id]) == {id} by { assert [id][0] == id; }
      MarkedTwice(ms.docs, {id}, Includes(rest), origin);
    }
  }

  lemma MarkedTwice(docs: map<MatrixId, Matrix>, a: set<string>, b: set<string>, origin: MatrixId)
    ensures MarkedDocs(MarkedDocs(docs, a, origin), b, origin) == MarkedDocs(docs, a + b, origin)
  {
    hide RowIds;
    forall id | id in docs
      ensures MarkedDocs(MarkedDocs(docs, a, origin), b, origin)[id] == MarkedDocs(docs, a + b, origin)[id]
    {
      var ids := RowIds(docs[id].batches);
      assert ids * (a + b) == ids * a + ids * b;
    }
  }
}
