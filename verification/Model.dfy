/** The records the settlement service stores and exchanges. */
module Model {
  import opened Common

  datatype BatchState = OPEN | CLOSED | DISPUTED | AWAITING_SETTLEMENT | SETTLED

  datatype MatrixState = IDLE | BUSY | FINALIZED | OUT_OF_SYNC | LOCKED

  /** A matrix id sent with a command, or one drawn with randomUUID when none was sent. */
  datatype MatrixId = Given(text: string) | Generated(n: nat)

  /** Currency code to number of decimals, from the global configuration. */
  type Currencies = map<string, nat>

  function StateName(s: BatchState): string
  {
    match s
    case OPEN => "OPEN"
    case CLOSED => "CLOSED"
    case DISPUTED => "DISPUTED"
    case AWAITING_SETTLEMENT => "AWAITING_SETTLEMENT"
    case SETTLED => "SETTLED"
  }

  /** Ids drawn with randomUUID for accounts and batches are numbers from a fresh supply. */
  datatype BatchAccount = BatchAccount(
    accountExtId: nat,
    participantId: string,
    currencyCode: string,
    debitBalance: string,
    creditBalance: string)

  datatype Batch = Batch(
    batchUUID: nat,
    id: string,
    timestamp: int,
    settlementModel: string,
    currencyCode: string,
    batchName: string,
    batchSequence: nat,
    state: BatchState,
    ownerMatrixId: Option<MatrixId>,
    accounts: seq<BatchAccount>)

  datatype Transfer = Transfer(
    transferId: string,
    transferTimestamp: int,
    payerFspId: string,
    payeeFspId: string,
    currencyCode: string,
    amount: string,
    batchId: string,
    batchName: string,
    journalEntryId: Option<string>)

  /** The key of a row in one of the three balance tables of a matrix. */
  datatype Key =
    | ByParticipant(participantId: string, state: BatchState, currencyCode: string)
    | ByCurrency(currencyCode: string)
    | ByState(state: BatchState, currencyCode: string)

  datatype Row = Row(key: Key, debitBalance: string, creditBalance: string)

  datatype Tables = Tables(byParticipant: seq<Row>, byCurrency: seq<Row>, byStateAndCurrency: seq<Row>)

  const NoBalances := Tables([], [], [])

  datatype MatrixBatch = MatrixBatch(
    id: string,
    name: string,
    currencyCode: string,
    batchDebitBalance: string,
    batchCreditBalance: string,
    state: BatchState)

  datatype MatrixType =
    | STATIC
    | DYNAMIC(dateFrom: int, dateTo: int, currencyCodes: seq<string>, settlementModel: string,
              batchStatuses: seq<string>)

  datatype Matrix = Matrix(
    id: MatrixId,
    kind: MatrixType,
    state: MatrixState,
    batches: seq<MatrixBatch>,
    tables: Tables)
}
