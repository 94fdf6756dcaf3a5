/** packages/command-handler-svc/src/handler.ts: one message, one step. */
module Handler {
  import opened Common
  import opened Model
  import opened Repositories
  import opened Recalculation
  import opened Commands
  import opened BatchSequences
  import opened Protocol
  import opened Stores
  import opened LedgerObjects
  import opened Aggregates

  class SettlementsCommandHandler {
    const settlementsAgg: SettlementsAggregate

    constructor (agg: SettlementsAggregate)
      ensures settlementsAgg == agg
    {
      settlementsAgg := agg;
    }

    /** Everything a command may change. */
    function Reach(): set<object>
    {
      {settlementsAgg, settlementsAgg.batchRepo, settlementsAgg.transferRepo, settlementsAgg.matrixRepo,
       settlementsAgg.abAdapter, settlementsAgg.msgProducer}
    }

    /** The part of the dispatch that is about the commands that move batches. */
    method MoveHandler(matrixId: MatrixId, move: Move) returns (outcome: Outcome)
      requires settlementsAgg.Valid()
      modifies Reach()
      ensures settlementsAgg.Valid()
      ensures Effect(settlementsAgg.View(), outcome)
              == MoveMatrix(old(settlementsAgg.View()), matrixId, move, settlementsAgg.currencies)
    {
      hide MoveMatrix;
      match move
      case Close => outcome := settlementsAgg.CloseSettlementMatrix(matrixId);
      case Settle => outcome := settlementsAgg.SettleSettlementMatrix(matrixId);
      case Dispute => outcome := settlementsAgg.DisputeSettlementMatrix(matrixId);
      case Lock => outcome := settlementsAgg.LockSettlementMatrixForAwaitingSettlement(matrixId);
      case Unlock => outcome := settlementsAgg.UnLockSettlementMatrixFromAwaitingSettlement(matrixId);
    }

    /** Calls the method of the aggregate that the message names. Errors are swallowed: the result is whatever the
        command stored before it failed. */
    method MsgHandler(message: Command)
      requires settlementsAgg.Valid()
      modifies Reach()
      ensures settlementsAgg.Valid()
      ensures settlementsAgg.View() == Execute(old(settlementsAgg.View()), message, settlementsAgg.currencies).world
      ensures CurrenciesOk(settlementsAgg.currencies)
              && old(WorldOk(settlementsAgg.View(), settlementsAgg.currencies)) ==>
                WorldOk(settlementsAgg.View(), settlementsAgg.currencies)
    {
      hide ProcessTransfer, CreateSettlementConfig, CreateStaticMatrix, CreateDynamicMatrix, Commands.RecalculateMatrix,
           AddBatches, RemoveBatches, MoveMatrix, MarkOutOfSync;
      hide WorldOk, CurrenciesOk;
      if CurrenciesOk(settlementsAgg.currencies) && WorldOk(settlementsAgg.View(), settlementsAgg.currencies) {
        ExecuteKeeps(settlementsAgg.View(), message, settlementsAgg.currencies);
      }
      var outcome;
      match message
      case ProcessTransferCmd(transfer, now) => outcome := settlementsAgg.HandleTransfer(transfer, now);
      case CreateSettlementModelCmd(model, interval) =>
        outcome := settlementsAgg.CreateSettlementConfig(model, interval);
      case CreateDynamicMatrixCmd(matrixId, dateFrom, dateTo, currencyCodes, model, batchStatuses) =>
        outcome := settlementsAgg.CreateDynamicSettlementMatrix(matrixId, model, currencyCodes, batchStatuses, dateFrom,
            dateTo);
      case CreateStaticMatrixCmd(matrixId, batchIds) =>
        outcome := settlementsAgg.CreateStaticSettlementMatrix(matrixId, batchIds);
      case RecalculateMatrixCmd(matrixId) => outcome := settlementsAgg.RecalculateSettlementMatrix(matrixId);
      case MoveMatrixCmd(matrixId, move) => outcome := MoveHandler(matrixId, move);
      case AddBatchesToMatrixCmd(matrixId, batchIds) =>
        outcome := settlementsAgg.AddBatchesToStaticSettlementMatrix(matrixId, batchIds);
      case RemoveBatchesFromMatrixCmd(matrixId, batchIds) =>
        outcome := settlementsAgg.RemoveBatchesFromStaticSettlementMatrix(matrixId, batchIds);
      case MarkMatrixOutOfSyncCmd(originMatrixId, batchIds) =>
        settlementsAgg.MarkMatrixOutOfSyncWhereBatch(originMatrixId, batchIds);
      case OtherCmd =>
    }

    /** Takes one of the messages the aggregate has sent, and handles it. */
    method Deliver(mark: Mark)
      requires settlementsAgg.Valid() && mark in settlementsAgg.msgProducer.commands
      modifies Reach()
      ensures settlementsAgg.Valid()
      ensures settlementsAgg.View() == Next(old(settlementsAgg.View()), Step.Deliver(mark), settlementsAgg.currencies)
    {
      hide MarkOutOfSync;
      settlementsAgg.msgProducer.commands := settlementsAgg.msgProducer.commands - multiset{mark};
      MsgHandler(MarkMatrixOutOfSyncCmd(mark.originMatrixId, mark.batchIds));
    }

    /** Handles messages in the order they arrive; one that was never sent cannot be delivered. What is stored then
        is the end of a run, so it satisfies the invariant of the protocol. */
    method Consume(arriving: seq<Step>) returns (ghost ws: seq<World>, ghost steps: seq<Step>)
      requires settlementsAgg.Valid() && settlementsAgg.View() == Empty && CurrenciesOk(settlementsAgg.currencies)
      modifies Reach()
      ensures settlementsAgg.Valid()
      ensures IsRun(ws, steps, settlementsAgg.currencies) && settlementsAgg.View() == ws[|steps|]
      ensures WorldOk(settlementsAgg.View(), settlementsAgg.currencies)
    {
      hide WorldOk, CurrenciesOk, Next;
      ws, steps := [settlementsAgg.View()], [];
      for i := 0 to |arriving|
        invariant settlementsAgg.Valid()
        invariant IsRun(ws, steps, settlementsAgg.currencies) && settlementsAgg.View() == ws[|steps|]
      {
        match arriving[i] {
          case Handle(command) =>
            MsgHandler(command);
            assert settlementsAgg.View() == Next(ws[|steps|], arriving[i], settlementsAgg.currencies) by {
              HandleIsNext(ws[|steps|], command, settlementsAgg.currencies);
            }
            OneMoreStep(ws, steps, arriving[i], settlementsAgg.currencies);
            ws, steps := ws + [settlementsAgg.View()], steps + [arriving[i]];
          case Deliver(mark) =>
            if mark in settlementsAgg.msgProducer.commands {
              Deliver(mark);
              OneMoreStep(ws, steps, arriving[i], settlementsAgg.currencies);
              ws, steps := ws + [settlementsAgg.View()], steps + [arriving[i]];
            }
        }
      }
      RunOk(ws, steps, settlementsAgg.currencies, |steps|);
    }
  }

  lemma HandleIsNext(w: World, c: Command, currencies: Currencies)
    ensures Next(w, Handle(c), currencies) == Execute(w, c, currencies).world
  {
    hide Execute;
  }
}
