/** A matrix sends one settled event in its life, and sends it when it becomes FINALIZED. */
module SettledOnce {
  import opened Common
  import opened Model
  import opened Converters
  import opened MatrixTables
  import opened Totals
  import opened Repositories
  import opened Recalculation
  import opened BookKeeping
  import opened Commands
  import opened Effects
  import opened BatchSequences
  import opened Protocol
  import opened Safety
  import opened Events
  import opened MatrixSafety

  ghost predicate Finalized(w: World, mid: MatrixId)
  {
    mid in w.matrices.docs && w.matrices.docs[mid].state == FINALIZED
  }

  /** The step is a settlement of this matrix that completes. */
  ghost predicate Settles(w: World, s: Step, mid: MatrixId, currencies: Currencies)
  {
    s == Handle(MoveMatrixCmd(mid, Settle)) && MoveMatrix(w, mid, Settle, currencies).outcome == Done
  }

  // ----- one step

  lemma MoveFinalizes(w: World, id: MatrixId, mv: Move, mid: MatrixId, currencies: Currencies)
    requires WorldOk(w, currencies)
    ensures Finalized(MoveMatrix(w, id, mv, currencies).world, mid) <==>
              Finalized(w, mid) || (mid == id && mv == Settle && MoveMatrix(w, id, mv, currencies).outcome == Done)
  {
    hide BooksOk, SequencesOk, OwnersOk, ValidRepo, EntriesOk, LocksOk, MoveMatrix, StoreOk, MoveTargets, Fresh,
         BatchesMoved, MovedIds, SameTransfers, SameCore, Includes;
    WorldStoreOk(w, currencies);
    var mark := MoveMatrixEffect(w, id, mv, currencies);
    if id in w.matrices.docs {
      StoredMatrixOk(w, id, currencies);
    }
  }

  lemma RecalculatingFinalizes(w: World, v: World, start: World, stored: Matrix, working: Matrix, mid: MatrixId,
                               currencies: Currencies)
    requires RunsAs(w, v, start, stored, working, currencies)
    ensures Finalized(v, mid) <==> Finalized(w, mid)
  {
    hide BooksOk, SequencesOk, OwnersOk, ValidRepo, EntriesOk, LocksOk, RecalculateAndStore, SelectedIds, Fresh,
         SameCore;
    RecalculateAndStoreEffect(start, stored, working, currencies);
  }

  lemma MarkFinalizes(w: World, origin: MatrixId, ids: seq<string>, mid: MatrixId, currencies: Currencies)
    requires WorldOk(w, currencies)
    ensures var ms := MarkOutOfSync(w.matrices, ids, origin);
            mid in ms.docs && ms.docs[mid].state == FINALIZED <==> Finalized(w, mid)
  {
    hide BooksOk, SequencesOk, OwnersOk, ValidRepo, EntriesOk, LocksOk, MarkOutOfSync, Includes, RowIds;
    MatricesKeyed(w, currencies);
    MarkOutOfSyncExact(w.matrices, ids, origin);
  }

  /** A step finalizes a matrix exactly by settling it. */
  lemma StepFinalizes(w: World, s: Step, mid: MatrixId, currencies: Currencies)
    requires WorldOk(w, currencies) && CurrenciesOk(currencies)
    ensures Finalized(Next(w, s, currencies), mid) <==> Finalized(w, mid) || Settles(w, s, mid, currencies)
  {
    hide WorldOk, MoveMatrix, RecalculateAndStore, MarkOutOfSync, CreateStaticMatrix, CreateDynamicMatrix,
         Commands.RecalculateMatrix, AddBatches, RemoveBatches, Validate, AddTransfer, CurrenciesOk;
    match s
    case Deliver(mark) => MarkFinalizes(w, mark.originMatrixId, mark.batchIds, mid, currencies);
    case Handle(c) =>
      if Recalculates(c) {
        var start, stored, working := RecalculatingCommand(w, c, currencies);
        RecalculatingFinalizes(w, Next(w, s, currencies), start, stored, working, mid, currencies);
      } else if c.MoveMatrixCmd? {
        MoveFinalizes(w, c.matrixId, c.move, mid, currencies);
      } else if c.MarkMatrixOutOfSyncCmd? {
        MarkFinalizes(w, c.originMatrixId, c.batchIds, mid, currencies);
      }
  }

  lemma RecalculatingSendsNothing(w: World, v: World, start: World, stored: Matrix, working: Matrix,
                                  currencies: Currencies)
    requires RunsAs(w, v, start, stored, working, currencies)
    ensures v.events == w.events
  {
    hide WorldOk, Recalculate;
  }

  /** A step sends one event when it settles a matrix, naming that matrix, and otherwise none. */
  lemma StepEvents(w: World, s: Step, currencies: Currencies)
    requires WorldOk(w, currencies) && CurrenciesOk(currencies)
    ensures var v := Next(w, s, currencies);
            || (v.events == w.events && forall mid :: !Settles(w, s, mid, currencies))
            || (|v.events| == |w.events| + 1 && v.events[..|w.events|] == w.events
                && Settles(w, s, v.events[|w.events|].settlementMatrixId, currencies))
  {
    hide WorldOk, MoveMatrix, RecalculateAndStore, MarkOutOfSync, CreateStaticMatrix, CreateDynamicMatrix,
         Commands.RecalculateMatrix, AddBatches, RemoveBatches, Validate, AddTransfer, CurrenciesOk, RunsAs,
         SettledFacts;
    if s.Handle? && Recalculates(s.command) {
      var start, stored, working := RecalculatingCommand(w, s.command, currencies);
      RecalculatingSendsNothing(w, Next(w, s, currencies), start, stored, working, currencies);
    } else if s.Handle? && s.command.MoveMatrixCmd? {
      var id, mv := s.command.matrixId, s.command.move;
      if mv == Settle && MoveMatrix(w, id, mv, currencies).outcome == Done {
        SettleExact(w, id, currencies);
      } else {
        EventsOfMove(w, id, mv, currencies);
      }
    }
  }

  // ----- runs

  ghost predicate HasEvent(w: World, mid: MatrixId)
  {
    exists i :: 0 <= i < |w.events| && w.events[i].settlementMatrixId == mid
  }

  /** No matrix has two events, and a matrix has one exactly when it is FINALIZED. */
  ghost predicate OneEventEach(w: World)
  {
    && (forall i, j :: 0 <= i < j < |w.events| ==> w.events[i].settlementMatrixId != w.events[j].settlementMatrixId)
    && forall mid :: HasEvent(w, mid) <==> Finalized(w, mid)
  }

  lemma SettlesLocked(w: World, mid: MatrixId, currencies: Currencies)
    requires WorldOk(w, currencies) && MoveMatrix(w, mid, Settle, currencies).outcome == Done
    ensures !Finalized(w, mid)
  {
    hide WorldOk, Recalculate;
  }

  lemma StepKeepsOneEvent(w: World, s: Step, currencies: Currencies)
    requires WorldOk(w, currencies) && CurrenciesOk(currencies) && OneEventEach(w)
    ensures OneEventEach(Next(w, s, currencies))
  {
    hide WorldOk, Next, CurrenciesOk, MoveMatrix, Finalized;
    var v := Next(w, s, currencies);
    StepEvents(w, s, currencies);
    forall mid ensures HasEvent(v, mid) <==> Finalized(v, mid) {
      StepFinalizes(w, s, mid, currencies);
      EventsGrow(w, v, mid);
    }
    if v.events != w.events {
      var mid := v.events[|w.events|].settlementMatrixId;
      SettlesLocked(w, mid, currencies);
      assert !HasEvent(w, mid);
      forall i | 0 <= i < |w.events| ensures v.events[i].settlementMatrixId != mid {
        assert v.events[..|w.events|][i] == v.events[i];
      }
      forall i, j | 0 <= i < j < |v.events| ensures v.events[i].settlementMatrixId != v.events[j].settlementMatrixId {
        assert v.events[..|w.events|][i] == v.events[i];
        if j < |w.events| {
          assert v.events[..|w.events|][j] == v.events[j];
        }
      }
    }
  }

  lemma EventsGrow(w: World, v: World, mid: MatrixId)
    requires v.events == w.events || (|v.events| == |w.events| + 1 && v.events[..|w.events|] == w.events)
    ensures HasEvent(v, mid) <==>
              HasEvent(w, mid) || (|v.events| == |w.events| + 1 && v.events[|w.events|].settlementMatrixId == mid)
  {
    if v.events != w.events {
      var last := v.events[|w.events|];
      assert v.events == w.events + [last];
      if HasEvent(w, mid) {
        var i :| 0 <= i < |w.events| && w.events[i].settlementMatrixId == mid;
        assert v.events[i].settlementMatrixId == mid;
      }
    }
  }

  /** Over every run a matrix sends at most one settled event, and in every state it has sent one exactly when it is
      FINALIZED. */
  lemma {:induction false} OneEventPerMatrix(ws: seq<World>, steps: seq<Step>, currencies: Currencies, i: nat)
    requires IsRun(ws, steps, currencies) && CurrenciesOk(currencies) && i < |ws|
    ensures OneEventEach(ws[i])
  {
    hide WorldOk, Next, CurrenciesOk, OneEventEach;
    if i == 0 {
      NoEventsYet();
    } else {
      OneEventPerMatrix(ws, steps, currencies, i - 1);
      RunOk(ws, steps, currencies, i - 1);
      StepKeepsOneEvent(ws[i - 1], steps[i - 1], currencies);
    }
  }

  lemma NoEventsYet()
    ensures OneEventEach(Empty)
  {
  }
}
