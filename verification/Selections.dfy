/** Which batches a matrix selects, with the criteria and the names of the states written out. */
module Selections {
  import opened Common
  import opened Model
  import opened Converters
  import opened MatrixTables
  import opened Repositories
  import opened Ledgers
  import opened Recalculation
  import opened BookKeeping
  import opened Exactness
  import opened Accumulation
  import opened Completion
  import opened Commands
  import opened Effects
  import opened BatchSequences
  import opened Protocol
  import opened Membership

  /** Is the state of a batch among these names? */
  ghost predicate Named(st: BatchState, names: seq<string>)
  {
    || (st == OPEN && "OPEN" in names)
    || (st == CLOSED && "CLOSED" in names)
    || (st == DISPUTED && "DISPUTED" in names)
    || (st == AWAITING_SETTLEMENT && "AWAITING_SETTLEMENT" in names)
    || (st == SETTLED && "SETTLED" in names)
  }

  /** What a dynamic matrix was created with: dates, and what is not empty of model, currencies and states. */
  ghost predicate Wanted(b: Batch, from: int, to: int, codes: seq<string>, model: string, statuses: seq<string>)
  {
    && from <= b.timestamp <= to
    && (model != "" ==> b.settlementModel == model)
    && (codes != [] ==> b.currencyCode in codes)
    && (statuses != [] ==> Named(b.state, statuses))
  }

  /** The selection of a stored matrix: a static one selects the batches it lists, a dynamic one those wanted. */
  lemma SelectionExact(docs: map<string, Batch>, m: Matrix)
    ensures m.kind.STATIC? ==>
              forall x :: x in SelectedIds(docs, m) <==>
                x in docs && exists i :: 0 <= i < |m.batches| && m.batches[i].id == x
    ensures m.kind.DYNAMIC? ==>
              var d := m.kind;
              forall x :: x in SelectedIds(docs, m) <==>
                x in docs && Wanted(docs[x], d.dateFrom, d.dateTo, d.currencyCodes, d.settlementModel, d.batchStatuses)
  {
    if m.kind.DYNAMIC? {
      forall x | x in docs
        ensures MatchesStatus(docs[x].state, m.kind) <==>
                  m.kind.batchStatuses == [] || Named(docs[x].state, m.kind.batchStatuses)
      {
        StatusNamed(docs[x].state, m.kind);
      }
      hide MatchesStatus, Named;
    }
  }

  lemma StatusNamed(st: BatchState, kind: MatrixType)
    requires kind.DYNAMIC?
    ensures MatchesStatus(st, kind) <==> kind.batchStatuses == [] || Named(st, kind.batchStatuses)
  {
  }

  /** A new dynamic matrix keeps the criteria it was sent and lists exactly the stored batches they want. */
  lemma DynamicCreated(w: World, newId: Option<string>, from: int, to: int, codes: seq<string>, model: string,
                       statuses: seq<string>, currencies: Currencies)
    requires WorldOk(w, currencies)
    requires Execute(w, CreateDynamicMatrixCmd(newId, from, to, codes, model, statuses), currencies).outcome == Done
    ensures var v := Execute(w, CreateDynamicMatrixCmd(newId, from, to, codes, model, statuses), currencies).world;
            var mid := if newId.Some? && newId.value != "" then Given(newId.value) else Generated(w.books.nextId);
            && mid !in w.matrices.docs && mid in v.matrices.docs
            && v.matrices.docs[mid].kind == DYNAMIC(from, to, codes, model, statuses)
            && forall x :: x in RowIds(v.matrices.docs[mid].batches) <==>
                 x in w.books.batches.docs && Wanted(w.books.batches.docs[x], from, to, codes, model, statuses)
  {
    hide WorldOk, CreateDynamicMatrix, MatchesCriteria, RowIds, Wanted;
    var kind := DYNAMIC(from, to, codes, model, statuses);
    CreateDynamicMembers(w, newId, kind, currencies);
    KeptCriteria(w, newId, kind, currencies);
    forall x | x in w.books.batches.docs
      ensures MatchesCriteria(w.books.batches.docs[x], kind) <==>
                Wanted(w.books.batches.docs[x], from, to, codes, model, statuses)
    {
      CriteriaWanted(w.books.batches.docs[x], kind);
    }
  }

  lemma CriteriaWanted(b: Batch, d: MatrixType)
    requires d.DYNAMIC?
    ensures MatchesCriteria(b, d) <==>
              Wanted(b, d.dateFrom, d.dateTo, d.currencyCodes, d.settlementModel, d.batchStatuses)
  {
    StatusNamed(b.state, d);
    hide MatchesStatus, Named;
  }

  lemma KeptCriteria(w: World, newId: Option<string>, kind: MatrixType, currencies: Currencies)
    requires WorldOk(w, currencies) && kind.DYNAMIC?
    requires CreateDynamicMatrix(w, newId, kind, currencies).outcome == Done
    ensures var v, mid := CreateDynamicMatrix(w, newId, kind, currencies).world, NewMatrixId(newId, w.books.nextId);
            mid in v.matrices.docs && v.matrices.docs[mid].kind == kind
  {
    hide SequencesOk, OwnersOk, EntriesOk, LocksOk, BooksOk, ValidRepo, RecalculateAndStore, RowIds, DrawId,
         SelectedIds, SameTransfers, LedgerGrows;
    DrawIdKeeps(w, newId, currencies);
    var m := Matrix(NewMatrixId(newId, w.books.nextId), kind, BUSY, [], NoBalances);
    RecalculateAndStoreEffect(DrawId(w, newId), m, m, currencies);
  }
}
