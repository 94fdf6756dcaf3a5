/** packages/domain-lib/src/aggregate.ts: every command as a function from the stored state to the next. */
module Commands {
  import opened Common
  import opened Model
  import opened Converters
  import opened MatrixTables
  import opened Repositories
  import opened Ledgers
  import opened Recalculation
  import opened Allocation

  /** MarkMatrixOutOfSyncCmd, sent by a matrix that changed the states of these batches. */
  datatype Mark = Mark(originMatrixId: MatrixId, batchIds: seq<string>)

  datatype ParticipantItem = ParticipantItem(
    participantId: string, currencyCode: string, settledDebitBalance: string, settledCreditBalance: string)

  /** SettlementMatrixSettledEvt without its timestamp. */
  datatype SettledEvt = SettledEvt(settlementMatrixId: MatrixId, participantList: seq<ParticipantItem>)

  type pos = n: nat | n > 0 witness 1

  /** Everything that is stored, and the messages on their way. `configs` holds the batch interval of a model. */
  datatype World = World(
    books: Books,
    matrices: Repo<MatrixId, Matrix>,
    configs: map<string, pos>,
    pending: multiset<Mark>,
    events: seq<SettledEvt>)

  datatype Error =
    | InvalidTimestamp | InvalidBatchSettlementModel | InvalidCurrencyCode | InvalidAmount | InvalidTransferId
    | InvalidId | NoSettlementConfig | InvalidSettlementModel | SettlementModelAlreadyExists
    | MatrixNotFound | MatrixAlreadyExists | MatrixIsClosed
    | CannotRecalculate | CannotAddBatches | CannotRemoveBatches
    | CannotClose | CannotLock | CannotUnlock | CannotSettle
    | BatchNotFound | RecalculationFailed | UnknownCommand

  datatype Outcome = Done | Failed(error: Error)

  datatype Effect = Effect(world: World, outcome: Outcome)

  // ----- handleTransfer

  datatype TransferPayload = TransferPayload(
    transferId: string, amount: string, currencyCode: string, payerFspId: string, payeeFspId: string,
    completedTimestamp: int, settlementModel: string)

  /** Section 21.4.1 of ECMA-262: beyond this a Date is invalid and its value is NaN. */
  const MAX_TIME: int := 8_640_000_000_000_000

  function Validate(p: TransferPayload, currencies: Currencies): Outcome
  {
    if p.completedTimestamp < 1 || p.completedTimestamp > MAX_TIME then Failed(InvalidTimestamp)
    else if p.settlementModel == "" then Failed(InvalidBatchSettlementModel)
    else if p.currencyCode == "" then Failed(InvalidCurrencyCode)
    else if p.amount == "" then Failed(InvalidAmount)
    else if p.transferId == "" then Failed(InvalidTransferId)
    else if p.payerFspId == "" || p.payeeFspId == "" then Failed(InvalidId)
    else if p.currencyCode !in currencies then Failed(InvalidCurrencyCode)
    else
      match StringToBigint(p.amount, currencies[p.currencyCode])
      case Err(_) => Failed(InvalidAmount)
      case Ok(v) => if v <= 0 then Failed(InvalidAmount) else Done
  }

  /** The first batch of the highest sequence (the head after the decreasing sort). */
  function Highest(bs: seq<Batch>): (b: Batch)
    requires bs != []
    ensures b in bs && forall c :: c in bs ==> c.batchSequence <= b.batchSequence
  {
    if |bs| == 1 then bs[0]
    else
      var rest := Highest(bs[1..]);
      assert forall c :: c in bs ==> c == bs[0] || c in bs[1..];
      if bs[0].batchSequence >= rest.batchSequence then bs[0] else rest
  }

  function BatchesNamed(docs: map<string, Batch>, name: string): set<string>
  {
    set id | id in docs && docs[id].batchName == name
  }

  function NewBatch(uuid: nat, model: string, code: string, name: string, sequence: nat, now: int): Batch
  {
    Batch(uuid, BatchIdentifier(name, sequence), now, model, code, name, sequence, OPEN, None, [])
  }

  datatype Allocated = Allocated(books: Books, batch: Batch, created: bool)

  /** `_getOrCreateBatch` */
  function GetOrCreateBatch(k: Books, model: string, code: string, start: nat, now: int): Allocated
  {
    var name := BatchName(model, code, start);
    var existing := Select(k.batches, BatchesNamed(k.batches.docs, name));
    if existing == [] then Allocated(k.(nextId := k.nextId + 1), NewBatch(k.nextId, model, code, name, 1, now), true)
    else
      var top := Highest(existing);
      if top.state == OPEN then Allocated(k, top, false)
      else
        var b := NewBatch(k.nextId, model, code, name, top.batchSequence + 1, now);
        Allocated(k.(nextId := k.nextId + 1, batches := Put(k.batches, b.id, b)), b, true)
  }

  function NewTransfer(p: TransferPayload, b: Batch): Transfer
  {
    Transfer(p.transferId, p.completedTimestamp, p.payerFspId, p.payeeFspId, p.currencyCode, p.amount, b.id,
             b.batchName, None)
  }

  /** The window start is never negative for a valid transfer. */
  function WindowStart(timestamp: nat, interval: pos): nat
  {
    StartNotNegative(timestamp, interval);
    BatchStart(timestamp, interval)
  }

  /** Stores the transfer, then the batch when it is new. */
  function StoreTransfer(a: Allocated, p: TransferPayload): Books
  {
    var k := a.books.(transfers := Put(a.books.transfers, p.transferId, NewTransfer(p, a.batch)));
    if a.created then k.(batches := Put(k.batches, a.batch.id, a.batch)) else k
  }

  function AddTransfer(k: Books, p: TransferPayload, interval: pos, now: int): Books
    requires p.completedTimestamp >= 0
  {
    var start := WindowStart(p.completedTimestamp, interval);
    StoreTransfer(GetOrCreateBatch(k, p.settlementModel, p.currencyCode, start, now), p)
  }

  function ProcessTransfer(w: World, p: TransferPayload, now: int, currencies: Currencies): Effect
  {
    match Validate(p, currencies)
    case Failed(e) => Effect(w, Failed(e))
    case Done =>
      if p.settlementModel !in w.configs then Effect(w, Failed(NoSettlementConfig))
      else Effect(w.(books := AddTransfer(w.books, p, w.configs[p.settlementModel], now)), Done)
  }

  function CreateSettlementConfig(w: World, model: string, interval: nat): Effect
  {
    if model == "" then Effect(w, Failed(InvalidSettlementModel))
    else if interval == 0 then Effect(w, Failed(InvalidTimestamp))
    else if model in w.configs then Effect(w, Failed(SettlementModelAlreadyExists))
    else Effect(w.(configs := w.configs[model := interval]), Done)
  }

  // ----- creating, recalculating and editing matrices

  function StoreMatrix(w: World, m: Matrix): World
  {
    w.(matrices := Put(w.matrices, m.id, m))
  }

  /** The common frame of a command on a matrix: store it BUSY, recalculate `working`, and when that completes
      store the result in its final state. When it does not, the matrix stays BUSY as stored. */
  function RecalculateAndStore(w: World, stored: Matrix, working: Matrix, final: MatrixState, currencies: Currencies)
    : Effect
  {
    var w1 := StoreMatrix(w, stored.(state := BUSY));
    var r := Recalculate(w1.books, working.(state := BUSY), false, currencies);
    match r.matrix
    case None => Effect(w1.(books := r.books), Failed(RecalculationFailed))
    case Some(m) => Effect(StoreMatrix(w1.(books := r.books), m.(state := final)), Done)
  }

  /** A missing or empty id is replaced by a random one. */
  predicate HasId(id: Option<string>)
  {
    id.Some? && id.value != ""
  }

  function NewMatrixId(id: Option<string>, nextId: nat): MatrixId
  {
    if HasId(id) then Given(id.value) else Generated(nextId)
  }

  function DrawId(w: World, id: Option<string>): World
  {
    if HasId(id) then w else w.(books := w.books.(nextId := w.books.nextId + 1))
  }

  function ZeroRow(b: Batch): MatrixBatch
  {
    MatrixBatch(b.id, b.batchName, b.currencyCode, "0", "0", b.state)
  }

  function ZeroRows(bs: seq<Batch>): seq<MatrixBatch>
  {
    if bs == [] then [] else [ZeroRow(bs[0])] + ZeroRows(bs[1..])
  }

  function Includes(ids: seq<string>): set<string>
  {
    set i | 0 <= i < |ids| :: ids[i]
  }

  function BatchesByIds(k: Books, ids: seq<string>): seq<Batch>
  {
    Select(k.batches, Includes(ids))
  }

  function CreateStaticMatrix(w: World, id: Option<string>, batchIds: seq<string>, currencies: Currencies): Effect
  {
    var mid := NewMatrixId(id, w.books.nextId);
    if HasId(id) && mid in w.matrices.docs then Effect(w, Failed(MatrixAlreadyExists))
    else
      var m := Matrix(mid, STATIC, BUSY, ZeroRows(BatchesByIds(w.books, batchIds)), NoBalances);
      RecalculateAndStore(DrawId(w, id), m, m, IDLE, currencies)
  }

  function CreateDynamicMatrix(w: World, id: Option<string>, criteria: MatrixType, currencies: Currencies): Effect
    requires criteria.DYNAMIC?
  {
    var mid := NewMatrixId(id, w.books.nextId);
    if HasId(id) && mid in w.matrices.docs then Effect(w, Failed(MatrixAlreadyExists))
    else
      var m := Matrix(mid, criteria, BUSY, [], NoBalances);
      RecalculateAndStore(DrawId(w, id), m, m, IDLE, currencies)
  }

  function RecalculateMatrix(w: World, id: MatrixId, currencies: Currencies): Effect
  {
    if id !in w.matrices.docs then Effect(w, Failed(MatrixNotFound))
    else
      var m := w.matrices.docs[id];
      if m.state != IDLE && m.state != OUT_OF_SYNC then Effect(w, Failed(CannotRecalculate))
      else RecalculateAndStore(w, m, m, IDLE, currencies)
  }

  /** Appends the batches that are not listed yet. */
  function AddRows(rows: seq<MatrixBatch>, bs: seq<Batch>): seq<MatrixBatch>
    decreases |bs|
  {
    if bs == [] then rows
    else AddRows(if bs[0].id in RowIds(rows) then rows else rows + [ZeroRow(bs[0])], bs[1..])
  }

  function RemoveRow(rows: seq<MatrixBatch>, id: string): seq<MatrixBatch>
  {
    if rows == [] then [] else (if rows[0].id == id then [] else [rows[0]]) + RemoveRow(rows[1..], id)
  }

  function RemoveRows(rows: seq<MatrixBatch>, bs: seq<Batch>): seq<MatrixBatch>
    decreases |bs|
  {
    if bs == [] then rows else RemoveRows(RemoveRow(rows, bs[0].id), bs[1..])
  }

  function AddBatches(w: World, id: MatrixId, batchIds: seq<string>, currencies: Currencies): Effect
  {
    if id !in w.matrices.docs then Effect(w, Failed(MatrixNotFound))
    else
      var m := w.matrices.docs[id];
      if m.kind != STATIC then Effect(w, Failed(MatrixIsClosed))
      else if m.state != IDLE then Effect(w, Failed(CannotAddBatches))
      else
        var rows := AddRows(m.batches, BatchesByIds(w.books, batchIds));
        RecalculateAndStore(w, m, m.(batches := rows), IDLE, currencies)
  }

  function RemoveBatches(w: World, id: MatrixId, batchIds: seq<string>, currencies: Currencies): Effect
  {
    if id !in w.matrices.docs then Effect(w, Failed(MatrixNotFound))
    else
      var m := w.matrices.docs[id];
      if m.kind != STATIC then Effect(w, Failed(MatrixIsClosed))
      else if m.state != IDLE then Effect(w, Failed(CannotRemoveBatches))
      else
        var rows := RemoveRows(m.batches, BatchesByIds(w.books, batchIds));
        RecalculateAndStore(w, m, m.(batches := rows), IDLE, currencies)
  }

  // ----- the commands that move batches

  datatype Move = Dispute | Lock | Unlock | Close | Settle

  /** What the command makes of a batch; None where it leaves the batch alone. */
  function Moved(mv: Move, mid: MatrixId, b: Batch): Option<Batch>
  {
    match mv
    case Dispute =>
      if b.state == SETTLED || b.state == AWAITING_SETTLEMENT || b.state == DISPUTED then None
      else Some(b.(state := DISPUTED))
    case Lock =>
      if b.state == SETTLED || b.state == AWAITING_SETTLEMENT || b.state == DISPUTED then None
      else Some(b.(state := AWAITING_SETTLEMENT, ownerMatrixId := Some(mid)))
    case Unlock =>
      if b.state == AWAITING_SETTLEMENT && b.ownerMatrixId == Some(mid)
      then Some(b.(state := CLOSED, ownerMatrixId := None)) else None
    case Close =>
      if b.state == SETTLED || b.state == CLOSED || b.state == AWAITING_SETTLEMENT then None
      else Some(b.(state := CLOSED))
    case Settle =>
      if b.state == SETTLED then None else Some(b.(state := SETTLED))
  }

  /** The loop over the listed batches: rows done so far, batches stored, ids of the batches that moved. */
  datatype Swept = Swept(batches: Repo<string, Batch>, rows: seq<MatrixBatch>, updated: seq<string>, ok: bool)

  function SweepRow(s: Swept, row: MatrixBatch, mv: Move, mid: MatrixId): Swept
  {
    if row.id !in s.batches.docs then s.(ok := false)
    else
      match Moved(mv, mid, s.batches.docs[row.id])
      case None => s.(rows := s.rows + [row])
      case Some(b) =>
        Swept(Put(s.batches, b.id, b), s.rows + [row.(state := b.state)], s.updated + [b.id], s.ok)
  }

  function Sweep(s: Swept, rows: seq<MatrixBatch>, mv: Move, mid: MatrixId): Swept
    decreases |rows|
  {
    if rows == [] || !s.ok then s else Sweep(SweepRow(s, rows[0], mv, mid), rows[1..], mv, mid)
  }

  function From(mv: Move): MatrixState
  {
    match mv
    case Dispute => IDLE
    case Lock => IDLE
    case Unlock => LOCKED
    case Close => IDLE
    case Settle => LOCKED
  }

  function To(mv: Move): MatrixState
  {
    match mv
    case Dispute => IDLE
    case Lock => LOCKED
    case Unlock => IDLE
    case Close => IDLE
    case Settle => FINALIZED
  }

  function Refusal(mv: Move): Error
  {
    match mv
    case Dispute => CannotClose
    case Lock => CannotLock
    case Unlock => CannotUnlock
    case Close => CannotClose
    case Settle => CannotSettle
  }

  /** Settling removes, by id, the rows of batches that are not awaiting settlement. */
  function DropNotAwaiting(rows: seq<MatrixBatch>, items: seq<MatrixBatch>): seq<MatrixBatch>
    decreases |items|
  {
    if items == [] then rows
    else
      var left := if items[0].state != AWAITING_SETTLEMENT then RemoveRow(rows, items[0].id) else rows;
      DropNotAwaiting(left, items[1..])
  }

  function RowsToMove(rows: seq<MatrixBatch>, mv: Move): seq<MatrixBatch>
  {
    if mv.Settle? then DropNotAwaiting(rows, rows) else rows
  }

  predicate CurrenciesKnown(rows: seq<Row>, currencies: Currencies)
  {
    forall i :: 0 <= i < |rows| ==> rows[i].key.currencyCode in currencies
  }

  function Items(rows: seq<Row>): seq<ParticipantItem>
  {
    if rows == [] then []
    else
      (match rows[0].key
       case ByParticipant(p, _, c) => [ParticipantItem(p, c, rows[0].debitBalance, rows[0].creditBalance)]
       case _ => []) + Items(rows[1..])
  }

  /** Storing the moved matrix, telling the other matrices, and for a settlement the outside world. */
  function Finish(w: World, m: Matrix, s: Swept, mv: Move, currencies: Currencies): Effect
  {
    var w1 := w.(books := w.books.(batches := s.batches));
    if !s.ok then Effect(w1, Failed(BatchNotFound))
    else
      var m1 := m.(batches := s.rows, state := To(mv));
      var w2 := StoreMatrix(w1, m1).(pending := w.pending + multiset{Mark(m.id, s.updated)});
      if !mv.Settle? then Effect(w2, Done)
      else if !CurrenciesKnown(m.tables.byParticipant, currencies) then Effect(w2, Failed(InvalidCurrencyCode))
      else Effect(w2.(events := w.events + [SettledEvt(m.id, Items(m.tables.byParticipant))]), Done)
  }

  function MoveMatrix(w: World, id: MatrixId, mv: Move, currencies: Currencies): Effect
  {
    if id !in w.matrices.docs then Effect(w, Failed(MatrixNotFound))
    else
      var m := w.matrices.docs[id];
      if m.state != From(mv) then Effect(w, Failed(Refusal(mv)))
      else
        var w1 := StoreMatrix(w, m.(state := BUSY));
        var r := Recalculate(w.books, m.(state := BUSY), mv.Settle?, currencies);
        match r.matrix
        case None => Effect(w1.(books := r.books), Failed(RecalculationFailed))
        case Some(m1) =>
          var s := Sweep(Swept(r.books.batches, [], [], true), RowsToMove(m1.batches, mv), mv, m1.id);
          Finish(w1.(books := r.books), m1, s, mv, currencies)
  }

  // ----- telling other matrices

  function IdleWith(ms: Repo<MatrixId, Matrix>, batchId: string): seq<Matrix>
  {
    Select(ms, set id | id in ms.docs && ms.docs[id].state == IDLE && batchId in RowIds(ms.docs[id].batches))
  }

  function MarkEach(ms: Repo<MatrixId, Matrix>, found: seq<Matrix>, origin: MatrixId): Repo<MatrixId, Matrix>
    decreases |found|
  {
    if found == [] then ms
    else
      MarkEach(if found[0].id == origin then ms else Put(ms, found[0].id, found[0].(state := OUT_OF_SYNC)), found[1..],
               origin)
  }

  function MarkOutOfSync(ms: Repo<MatrixId, Matrix>, batchIds: seq<string>, origin: MatrixId): Repo<MatrixId, Matrix>
    decreases |batchIds|
  {
    if batchIds == [] then ms
    else MarkOutOfSync(MarkEach(ms, IdleWith(ms, batchIds[0]), origin), batchIds[1..], origin)
  }

  // ----- the dispatcher and runs

  datatype Command =
    | ProcessTransferCmd(transfer: TransferPayload, now: int)
    | CreateSettlementModelCmd(model: string, interval: nat)
    | CreateStaticMatrixCmd(newId: Option<string>, batchIds: seq<string>)
    | CreateDynamicMatrixCmd(newId: Option<string>, dateFrom: int, dateTo: int, currencyCodes: seq<string>,
                             model: string, batchStatuses: seq<string>)
    | RecalculateMatrixCmd(matrixId: MatrixId)
    | AddBatchesToMatrixCmd(matrixId: MatrixId, batchIds: seq<string>)
    | RemoveBatchesFromMatrixCmd(matrixId: MatrixId, batchIds: seq<string>)
    | MoveMatrixCmd(matrixId: MatrixId, move: Move)
    | MarkMatrixOutOfSyncCmd(originMatrixId: MatrixId, batchIds: seq<string>)
    | OtherCmd

  function Execute(w: World, c: Command, currencies: Currencies): Effect
  {
    match c
    case ProcessTransferCmd(p, now) => ProcessTransfer(w, p, now, currencies)
    case CreateSettlementModelCmd(model, interval) => CreateSettlementConfig(w, model, interval)
    case CreateStaticMatrixCmd(id, ids) => CreateStaticMatrix(w, id, ids, currencies)
    case CreateDynamicMatrixCmd(id, from, to, codes, model, statuses) =>
      CreateDynamicMatrix(w, id, DYNAMIC(from, to, codes, model, statuses), currencies)
    case RecalculateMatrixCmd(id) => RecalculateMatrix(w, id, currencies)
    case AddBatchesToMatrixCmd(id, ids) => AddBatches(w, id, ids, currencies)
    case RemoveBatchesFromMatrixCmd(id, ids) => RemoveBatches(w, id, ids, currencies)
    case MoveMatrixCmd(id, mv) => MoveMatrix(w, id, mv, currencies)
    case MarkMatrixOutOfSyncCmd(origin, ids) => Effect(w.(matrices := MarkOutOfSync(w.matrices, ids, origin)), Done)
    case OtherCmd => Effect(w, Failed(UnknownCommand))
  }

  /** A step of a run: a command from outside, or the delivery of one of the messages on their way. */
  datatype Step = Handle(command: Command) | Deliver(mark: Mark)

  predicate Enabled(w: World, s: Step)
  {
    s.Deliver? ==> s.mark in w.pending
  }

  /** The dispatcher swallows errors: whatever a command stored before failing stays. */
  function Next(w: World, s: Step, currencies: Currencies): World
  {
    match s
    case Handle(c) => Execute(w, c, currencies).world
    case Deliver(mark) =>
      var taken := w.(pending := w.pending - multiset{mark});
      Execute(taken, MarkMatrixOutOfSyncCmd(mark.originMatrixId, mark.batchIds), currencies).world
  }

  const Empty := World(Books(Repo(map[], []), Repo(map[], []), Ledger([], []), 0), Repo(map[], []), map[], multiset{},
                       [])

  ghost predicate IsRun(ws: seq<World>, steps: seq<Step>, currencies: Currencies)
  {
    && |ws| == |steps| + 1 && ws[0] == Empty
    && forall i :: 0 <= i < |steps| ==> Enabled(ws[i], steps[i]) && ws[i + 1] == Next(ws[i], steps[i], currencies)
  }
}
