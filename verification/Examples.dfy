/** Runs from the empty world at whose end what one might expect does not hold. */
module Examples {
  import opened Common
  import opened Sums
  import opened Model
  import opened Digits
  import opened Converters
  import opened MatrixTables
  import opened Totals
  import opened Repositories
  import opened Ledgers
  import opened Recalculation
  import opened BookKeeping
  import opened Exactness
  import opened Accumulation
  import opened Completion
  import opened Allocation
  import opened Commands
  import opened Effects
  import opened BatchSequences
  import opened Protocol
  import opened Safety
  import opened Settlement
  import opened Events
  import opened LedgerAgreement
  import opened LedgerRuns
  import opened MatrixSafety
  import opened Membership

  // ----- storing transfers in new batches

  const CODE := "USD"
  const CURRENCIES: Currencies := map[CODE := 2]
  const FIRST := Given("A")
  const SECOND := Given("B")

  function Payload(id: string, amount: string, payer: string, payee: string, time: nat): TransferPayload
  {
    TransferPayload(id, amount, CODE, payer, payee, time, "m")
  }

  /** The batch that is opened for a window of settlement model m. */
  function Opened(uuid: nat, start: nat): Batch
  {
    NewBatch(uuid, "m", CODE, BatchName("m", CODE, start), 1, 0)
  }

  /** The first batch of a run is that of the first minute, the second that of the second. */
  function BatchAt(n: nat): Batch { Opened(n, n * 60_000) }

  function IdAt(n: nat): string { BatchAt(n).id }

  lemma CurrenciesGood()
    ensures CurrenciesOk(CURRENCIES)
  {
  }

  lemma {:induction false} PickNone<K(!new)>(order: seq<K>)
    ensures Pick(order, {}) == []
  {
    if order != [] {
      PickNone(order[1..]);
    }
  }

  /** A valid transfer whose window has no batch yet opens one and joins it. */
  lemma StoredInNewBatch(w: World, p: TransferPayload, start: nat)
    requires w.configs == map["m" := 1] && Validate(p, CURRENCIES) == Done
    requires p.settlementModel == "m" && p.currencyCode == CODE && p.completedTimestamp >= 1
    requires start == WindowStart(p.completedTimestamp, 1)
    requires BatchesNamed(w.books.batches.docs, BatchName("m", CODE, start)) == {}
    ensures var k, b := w.books, Opened(w.books.nextId, start);
            var transfers := Put(k.transfers, p.transferId, NewTransfer(p, b));
            Next(w, Handle(ProcessTransferCmd(p, 0)), CURRENCIES)
            == w.(books := Books(Put(k.batches, b.id, b), transfers, k.ledger, k.nextId + 1))
  {
    hide Validate, BatchName, BatchIdentifier, WindowStart, Put, BatchesNamed;
    PickNone(w.books.batches.order);
  }

  /** The model is configured, and nothing else has happened. */
  function Configured(interval: pos): World
  {
    Empty.(configs := map["m" := interval])
  }

  lemma ConfiguredRun() returns (ws: seq<World>, steps: seq<Step>)
    ensures IsRun(ws, steps, CURRENCIES) && NoJournalledReplays(ws, steps, CURRENCIES) && |ws| == 2 && |steps| == 1
            && ws[1] == Configured(1)
  {
    ws, steps := [Empty, Configured(1)], [Handle(CreateSettlementModelCmd("m", 1))];
    var configs: map<string, pos> := map[];
    assert configs["m" := 1] == map["m" := 1];
  }

  /** One more command. */
  lemma Extend(ws: seq<World>, steps: seq<Step>, c: Command) returns (vs: seq<World>, longer: seq<Step>)
    requires IsRun(ws, steps, CURRENCIES) && |ws| == |steps| + 1
    ensures IsRun(vs, longer, CURRENCIES) && |longer| == |steps| + 1 && |vs| == |ws| + 1
    ensures longer[..|steps|] == steps && longer[|steps|] == Handle(c)
    ensures vs[..|ws|] == ws && vs[|ws|] == Next(ws[|steps|], Handle(c), CURRENCIES)
    ensures forall i :: 0 <= i < |steps| ==> longer[i] == steps[i]
    ensures forall i :: 0 <= i < |ws| ==> vs[i] == ws[i]
    ensures NoJournalledReplays(ws, steps, CURRENCIES) && !ReplaysJournalled(ws[|steps|], Handle(c), CURRENCIES) ==>
              NoJournalledReplays(vs, longer, CURRENCIES)
  {
    hide Next, ReplaysJournalled;
    OneMoreStep(ws, steps, Handle(c), CURRENCIES);
    vs, longer := ws + [Next(ws[|steps|], Handle(c), CURRENCIES)], steps + [Handle(c)];
  }

  // ----- one batch with one transfer

  function Create(text: string): Command { CreateStaticMatrixCmd(Some(text), [IdAt(0)]) }

  function Cents(n: nat): string { Printed(n, 2) }

  function Payment(payee: string): TransferPayload { Payload("t", Cents(100), "p", payee, 1) }

  function Stored(payee: string): Transfer { NewTransfer(Payment(payee), BatchAt(0)) }

  lemma AmountReads()
    ensures StringToBigint(Cents(100), 2) == Ok(100) && Cents(100) != ""
  {
    PowMonotone(10, 3, MAX_INTEGER_DIGITS + 2);
    assert Pow(10, 3) == 1000 by { assert Pow(10, 2) == 100; }
    hide StringToBigint, Printed;
    PrintThenRead(100, 2);
    EmptyUnreadable(2);
  }

  lemma EmptyUnreadable(decimals: nat)
    ensures StringToBigint("", decimals).Err?
  {
  }

  lemma PayloadValid()
    ensures Validate(Payment("q"), CURRENCIES) == Done
  {
    AmountReads();
    hide StringToBigint, Cents;
  }

  /** The transfer is stored, its batch is open, and there is no matrix yet. */
  ghost predicate JustStored(w: World)
  {
    && w.configs == map["m" := 1] && w.matrices == Repo(map[], []) && w.pending == multiset{} && w.events == []
    && w.books.batches.docs == map[IdAt(0) := BatchAt(0)] && w.books.transfers.docs == map["t" := Stored("q")]
  }

  lemma StoredRun() returns (ws: seq<World>, steps: seq<Step>)
    ensures IsRun(ws, steps, CURRENCIES) && NoJournalledReplays(ws, steps, CURRENCIES) && |ws| == 3 && |steps| == 2
            && JustStored(ws[2])
    ensures steps[1] == Handle(ProcessTransferCmd(Payment("q"), 0))
  {
    ws, steps := ConfiguredRun();
    PayloadValid();
    hide Validate, BatchName, BatchIdentifier, Cents, IsRun, NoJournalledReplays, Next;
    var start := WindowStart(1, 1);
    assert start == 0;
    assert BatchesNamed(Configured(1).books.batches.docs, BatchName("m", CODE, start)) == {};
    StoredInNewBatch(Configured(1), Payment("q"), 0);
    ws, steps := Extend(ws, steps, ProcessTransferCmd(Payment("q"), 0));
  }

  // ----- what the steps of the examples do

  /** The model is configured and the transfer is the only one. */
  ghost predicate OneTransfer(w: World)
  {
    && WorldOk(w, CURRENCIES) && w.configs == map["m" := 1]
    && SameTransfers(map["t" := Stored("q")], w.books.transfers.docs)
  }

  lemma StoredIsOne(ws: seq<World>, steps: seq<Step>, i: nat)
    requires IsRun(ws, steps, CURRENCIES) && i < |ws| && JustStored(ws[i])
    ensures OneTransfer(ws[i])
  {
    hide WorldOk, IsRun, Stored, BatchAt, IdAt;
    CurrenciesGood();
    RunOk(ws, steps, CURRENCIES, i);
    SameTransfersSelf(map["t" := Stored("q")]);
  }

  lemma TheAmount(k: Books)
    requires SameTransfers(map["t" := Stored("q")], k.transfers.docs)
    ensures k.transfers.docs.Keys == {"t"} && Amount(k.transfers.docs["t"], CURRENCIES) == 100
    ensures k.transfers.docs["t"].payerFspId != k.transfers.docs["t"].payeeFspId
            && k.transfers.docs["t"].batchId == IdAt(0)
  {
    AmountReads();
    hide StringToBigint, Cents, BatchAt, IdAt;
    var docs := map["t" := Stored("q")];
    assert docs.Keys == {"t"};
    assert SameTransfer(docs["t"], k.transfers.docs["t"]);
    assert Stored("q").batchId == IdAt(0) by { TransferInBatch(); }
  }

  lemma TransferInBatch()
    ensures Stored("q").batchId == IdAt(0)
  {
    hide BatchAt;
  }

  /** One transfer of 1.00 is within every bound. */
  lemma SmallTotals(k: Books, m: Matrix, settling: bool)
    requires SameTransfers(map["t" := Stored("q")], k.transfers.docs)
    ensures AllInBound(RecalculatedFacts(k, m, settling, CURRENCIES), CURRENCIES)
  {
    hide Stored, IdAt, SameTransfers, AllInBound, RecalculatedFacts, Amount;
    TheAmount(k);
    OneAmountFits(k, m, settling);
  }

  lemma OneAmountFits(k: Books, m: Matrix, settling: bool)
    requires k.transfers.docs.Keys == {"t"} && Amount(k.transfers.docs["t"], CURRENCIES) == 100
    requires k.transfers.docs["t"].payerFspId != k.transfers.docs["t"].payeeFspId
    ensures AllInBound(RecalculatedFacts(k, m, settling, CURRENCIES), CURRENCIES)
  {
    hide SelectedIds, Amount, CountedIds;
    var facts := RecalculatedFacts(k, m, settling, CURRENCIES);
    forall code ensures CurrencyTotal(facts, code) < Bound(Decimals(CURRENCIES, code)) {
      var d := Debits(facts, ByCurrency(code));
      assert forall x :: x in d ==> x == "t" && d[x] == 100;
      SmallSum(d);
      EnoughDigits(Decimals(CURRENCIES, code));
    }
  }

  lemma SmallSum(m: map<string, int>)
    requires forall x :: x in m ==> x == "t" && m[x] == 100
    ensures MapSum(m) <= 100
  {
    if "t" in m {
      MapSumRemove(m, "t");
      assert m - {"t"} == map[];
    } else {
      assert m == map[];
    }
  }

  lemma EnoughDigits(decimals: nat)
    ensures 1000 <= Bound(decimals)
  {
    PowMonotone(10, 3, MAX_INTEGER_DIGITS + decimals);
    assert Pow(10, 3) == 1000 by { assert Pow(10, 2) == 100; }
  }

  lemma StillOneTransfer(w: World, v: World)
    requires OneTransfer(w) && WorldOk(v, CURRENCIES) && v.configs == w.configs
    requires SameTransfers(w.books.transfers.docs, v.books.transfers.docs)
    ensures OneTransfer(v)
  {
    hide Stored, WorldOk;
    var a, b, c := map["t" := Stored("q")], w.books.transfers.docs, v.books.transfers.docs;
    forall x | x in a ensures SameTransfer(a[x], c[x]) {
      assert SameTransfer(a[x], b[x]);
      assert SameTransfer(b[x], c[x]);
    }
  }

  /** Creating a matrix completes. */
  lemma Created(w: World, v: World, text: string, m: Matrix)
    requires OneTransfer(w) && text != "" && Given(text) !in w.matrices.docs && m.id == Given(text)
    requires v == RecalculateAndStore(w, m, m, IDLE, CURRENCIES).world && WorldOk(v, CURRENCIES)
    ensures RecalculateAndStore(w, m, m, IDLE, CURRENCIES).outcome == Done && OneTransfer(v)
    ensures RestoreEffect(w, v, m.id, m.kind, SelectedIds(w.books.batches.docs, m))
    ensures IdAt(0) in SelectedIds(w.books.batches.docs, m) ==> Entered(v.books.transfers.docs, "t")
  {
    hide BooksOk, SequencesOk, OwnersOk, EntriesOk, LocksOk, ValidRepo, Recalculate, SelectedIds, IdAt, Stored, Fresh,
         RecalculatedFacts, AllInBound, NobodyPaysThemselves, EachFits, RecalculationBookings, SameTransfers,
         LedgerGrows, SameBatches;
    SmallTotals(w.books, m, false);
    RecalculateCompletesExactly(w.books, m, false, CURRENCIES);
    RecalculateAndStoreCompletes(w, m, m, IDLE, CURRENCIES);
    RecalculateAndStoreEffect(w, m, m, CURRENCIES);
    StillOneTransfer(w, v);
    RecalculateKeeps(w.books, m.(state := BUSY), false, CURRENCIES);
    SelectionIgnoresState(w.books.batches.docs, m, BUSY);
    TheAmount(v.books);
  }

  /** A new static matrix over the batch: IDLE, listing it, with the transfer journalled. */
  lemma StaticCreated(w: World, text: string)
    requires OneTransfer(w) && text != "" && Given(text) !in w.matrices.docs && IdAt(0) in w.books.batches.docs
    ensures var v, mid := Next(w, Handle(Create(text)), CURRENCIES).(books := w.books), Given(text);
            mid in v.matrices.docs && v.matrices.docs == w.matrices.docs[mid := v.matrices.docs[mid]]
            && v.matrices.docs[mid].kind == STATIC && v.matrices.docs[mid].state == IDLE
            && RowIds(v.matrices.docs[mid].batches) == {IdAt(0)} && v.pending == w.pending && v.events == w.events
    ensures var v := Next(w, Handle(Create(text)), CURRENCIES);
            OneTransfer(v) && SameBatches(w.books.batches.docs, v.books.batches.docs)
            && Entered(v.books.transfers.docs, "t")
  {
    hide OneTransfer, RecalculateAndStore, IdAt, SelectedIds, Fresh, BatchesByIds, ZeroRows, WorldOk, SameBatches,
         SameTransfers, LedgerGrows, Entered, RowIds;
    var ids := [IdAt(0)];
    var c := CreateStaticMatrixCmd(Some(text), ids);
    var m := Matrix(Given(text), STATIC, BUSY, ZeroRows(BatchesByIds(w.books, ids)), NoBalances);
    var v := Next(w, Handle(c), CURRENCIES);
    assert v == RecalculateAndStore(w, m, m, IDLE, CURRENCIES).world;
    WorldOfOne(w);
    CurrenciesGood();
    NextKeeps(w, Handle(c), CURRENCIES);
    ListedOnly(w, m);
    Created(w, v, text, m);
    assert Fresh(v.matrices.docs[m.id].batches, {IdAt(0)}, v.books.batches.docs);
    FreshAre(v.matrices.docs[m.id].batches, {IdAt(0)}, v.books.batches.docs);
  }

  lemma FreshAre(rows: seq<MatrixBatch>, ids: set<string>, docs: map<string, Batch>)
    requires Fresh(rows, ids, docs)
    ensures RowIds(rows) == ids
  {
  }

  lemma WorldOfOne(w: World)
    requires OneTransfer(w)
    ensures WorldOk(w, CURRENCIES) && BooksOk(w.books, CURRENCIES)
  {
  }

  lemma ListedOnly(w: World, m: Matrix)
    requires OneTransfer(w) && IdAt(0) in w.books.batches.docs && m.kind == STATIC
    requires m.batches == ZeroRows(BatchesByIds(w.books, [IdAt(0)]))
    ensures SelectedIds(w.books.batches.docs, m) == {IdAt(0)}
  {
    hide IdAt, Stored, BatchesByIds, ZeroRows, RowIds, SequencesOk, OwnersOk, EntriesOk, LocksOk, BooksOk,
         SameTransfers;
    FoundIds(w, [IdAt(0)], CURRENCIES);
    ZeroIds(BatchesByIds(w.books, [IdAt(0)]));
    StaticSelection(w.books.batches.docs, m);
    assert [IdAt(0)][0] == IdAt(0);
  }

  /** A command that moves batches completes. */
  lemma MoveDone(w: World, id: MatrixId, mv: Move)
    requires OneTransfer(w) && id in w.matrices.docs && w.matrices.docs[id].state == From(mv)
    ensures var v := Next(w, Handle(MoveMatrixCmd(id, mv)), CURRENCIES);
            && MoveMatrix(w, id, mv, CURRENCIES).outcome == Done && v == MoveMatrix(w, id, mv, CURRENCIES).world
            && OneTransfer(v)
            && id in v.matrices.docs && v.matrices.docs == w.matrices.docs[id := v.matrices.docs[id]]
            && v.matrices.docs[id].kind == w.matrices.docs[id].kind && v.matrices.docs[id].state == To(mv)
            && RowIds(v.matrices.docs[id].batches) == MoveTargets(w, id, mv)
            && BatchesMoved(w.books.batches.docs, v.books.batches.docs, MoveTargets(w, id, mv), mv, id)
  {
    hide BooksOk, SequencesOk, OwnersOk, EntriesOk, LocksOk, ValidRepo, MoveMatrix, StoreOk, MoveTargets, Fresh,
         MovedIds, SameTransfers, Includes, BatchesMoved, Stored, RecalculatedFacts, AllInBound, NobodyPaysThemselves,
         EachFits, RecalculationBookings, MatrixOk, RowIds;
    WorldStoreOk(w, CURRENCIES);
    SmallTotals(w.books, w.matrices.docs[id], mv.Settle?);
    RecalculateCompletesExactly(w.books, w.matrices.docs[id], mv.Settle?, CURRENCIES);
    MoveCompletes(w, id, mv, CURRENCIES);
    var mark := MoveMatrixEffect(w, id, mv, CURRENCIES);
    MoveMatrixKeeps(w, id, mv, CURRENCIES);
    var v := MoveMatrix(w, id, mv, CURRENCIES).world;
    StillOneTransfer(w, v);
    FreshAre(v.matrices.docs[id].batches, MoveTargets(w, id, mv), v.books.batches.docs);
  }

  // ----- a lock that is never given up

  function Only(status: string): MatrixType { DYNAMIC(0, 10, [], "", [status]) }

  function CreateOnly(status: string): Command { CreateDynamicMatrixCmd(Some("A"), 0, 10, [], "", [status]) }

  /** A new dynamic matrix that selects by state OPEN, over the batch just stored. */
  lemma DynamicCreated(w: World)
    requires OneTransfer(w) && JustStored(w)
    ensures var v := Next(w, Handle(CreateOnly("OPEN")), CURRENCIES);
            && OneTransfer(v) && FIRST in v.matrices.docs && v.matrices.docs[FIRST].state == IDLE
            && v.matrices.docs[FIRST].kind == Only("OPEN") && SameBatches(w.books.batches.docs, v.books.batches.docs)
  {
    hide OneTransfer, RecalculateAndStore, IdAt, SelectedIds, Fresh, WorldOk, SameBatches, SameTransfers, LedgerGrows,
         Entered, RowIds, BatchAt, Stored;
    var c := CreateOnly("OPEN");
    var m := Matrix(FIRST, Only("OPEN"), BUSY, [], NoBalances);
    var v := Next(w, Handle(c), CURRENCIES);
    assert v == RecalculateAndStore(w, m, m, IDLE, CURRENCIES).world;
    WorldOfOne(w);
    CurrenciesGood();
    NextKeeps(w, Handle(c), CURRENCIES);
    Created(w, v, "A", m);
  }

  lemma OpenIsTarget(a: map<string, Batch>, w: World)
    requires a == map[IdAt(0) := BatchAt(0)] && SameBatches(a, w.books.batches.docs)
    requires FIRST in w.matrices.docs && w.matrices.docs[FIRST].kind == Only("OPEN")
    ensures IdAt(0) in w.books.batches.docs && StateAt(w, IdAt(0)) == OPEN && IdAt(0) in MoveTargets(w, FIRST, Lock)
  {
    hide BatchName, BatchIdentifier;
    assert SameBatch(a[IdAt(0)], w.books.batches.docs[IdAt(0)]);
    assert StateName(OPEN) == "OPEN";
  }

  /** From the empty world: a dynamic matrix that selects by state OPEN locks the batch, no longer selects it, and
      unlocks without giving up the lock. */
  lemma LostLockExample() returns (ws: seq<World>, steps: seq<Step>, x: string)
    ensures |steps| == 5 && |ws| == 6
    ensures steps[2] == Handle(CreateDynamicMatrixCmd(Some("A"), 0, 10, [], "", ["OPEN"]))
    ensures steps[3] == Handle(MoveMatrixCmd(FIRST, Lock))
    ensures steps[4] == Handle(MoveMatrixCmd(FIRST, Unlock))
    ensures MoveMatrix(ws[4], FIRST, Unlock, CURRENCIES).outcome == Done
            && ws[5] == MoveMatrix(ws[4], FIRST, Unlock, CURRENCIES).world
    ensures FIRST in ws[5].matrices.docs && ws[5].matrices.docs[FIRST].state == IDLE && Lost(ws[5], x, FIRST)
    ensures IsRun(ws, steps, CURRENCIES)
  {
    hide IsRun, NoJournalledReplays, Next, OneTransfer, JustStored, IdAt, MoveMatrix, Only, SameBatches,
         ReplaysJournalled, Lost, CreateDynamicMatrix, Payment, CreateOnly;
    x := IdAt(0);
    OpenOnlyCommand();
    ws, steps := StoredRun();
    StoredIsOne(ws, steps, 2);
    DynamicCreated(ws[2]);
    ws, steps := Extend(ws, steps, CreateOnly("OPEN"));
    LockedAndLost(ws[2], ws[3]);
    ws, steps := Extend(ws, steps, MoveMatrixCmd(FIRST, Lock));
    UnlockedAndLost(ws[4]);
    ws, steps := Extend(ws, steps, MoveMatrixCmd(FIRST, Unlock));
  }

  lemma OpenOnlyCommand()
    ensures CreateOnly("OPEN") == CreateDynamicMatrixCmd(Some("A"), 0, 10, [], "", ["OPEN"])
  {
  }

  lemma LockedAndLost(w: World, u: World)
    requires JustStored(w) && OneTransfer(u) && SameBatches(w.books.batches.docs, u.books.batches.docs)
    requires FIRST in u.matrices.docs && u.matrices.docs[FIRST].state == IDLE
             && u.matrices.docs[FIRST].kind == Only("OPEN")
    ensures var v := Next(u, Handle(MoveMatrixCmd(FIRST, Lock)), CURRENCIES);
            OneTransfer(v) && Lost(v, IdAt(0), FIRST) && FIRST in v.matrices.docs
            && v.matrices.docs[FIRST].state == LOCKED
  {
    hide Next, OneTransfer, JustStored, IdAt, BatchAt, MoveMatrix, KeepsLocked, WorldOk, MoveTargets, Only, SameBatches,
         BatchesMoved;
    JustStoredBatch(w);
    OpenIsTarget(w.books.batches.docs, u);
    WorldOfOne(u);
    MoveDone(u, FIRST, Lock);
    LockTakes(u, FIRST, IdAt(0), CURRENCIES);
    OpenOnlyLoses();
  }

  lemma UnlockedAndLost(u: World)
    requires OneTransfer(u) && Lost(u, IdAt(0), FIRST) && u.matrices.docs[FIRST].state == LOCKED
    ensures var v := Next(u, Handle(MoveMatrixCmd(FIRST, Unlock)), CURRENCIES);
            && MoveMatrix(u, FIRST, Unlock, CURRENCIES).outcome == Done
            && v == MoveMatrix(u, FIRST, Unlock, CURRENCIES).world
            && Lost(v, IdAt(0), FIRST) && FIRST in v.matrices.docs && v.matrices.docs[FIRST].state == IDLE
  {
    hide Next, OneTransfer, IdAt, MoveMatrix, KeepsLocked, WorldOk, MoveTargets, BatchesMoved;
    WorldOfOne(u);
    MoveDone(u, FIRST, Unlock);
    UnlockForgets(u, FIRST, IdAt(0), CURRENCIES);
  }

  lemma OpenOnlyLoses()
    ensures !KeepsLocked(Only("OPEN"))
  {
    assert StateName(AWAITING_SETTLEMENT) == "AWAITING_SETTLEMENT";
  }

  lemma JustStoredBatch(w: World)
    requires JustStored(w)
    ensures w.books.batches.docs == map[IdAt(0) := BatchAt(0)] && w.matrices.docs == map[] && w.events == []
    ensures w.pending == multiset{}
  {
    hide Stored, BatchAt, IdAt;
  }

  // ----- settling what another matrix has locked

  /** A static matrix over one batch. */
  ghost predicate Lists(w: World, id: MatrixId, st: MatrixState, x: string)
  {
    && id in w.matrices.docs && w.matrices.docs[id].kind == STATIC && w.matrices.docs[id].state == st
    && RowIds(w.matrices.docs[id].batches) == {x}
  }

  lemma StaticTargets(w: World, id: MatrixId, st: MatrixState, mv: Move, x: string)
    requires Lists(w, id, st, x) && x in w.books.batches.docs
    ensures MoveTargets(w, id, mv)
            == if mv == Settle && StateAt(w, x) != AWAITING_SETTLEMENT then {} else {x}
  {
    hide RowIds;
    StaticSelection(w.books.batches.docs, w.matrices.docs[id]);
  }

  ghost predicate OpenThere(w: World, x: string)
  {
    x in w.books.batches.docs && w.books.batches.docs[x].state == OPEN
  }

  /** Both matrices list the batch, and the first may have locked it. */
  ghost predicate Pair(w: World, first: MatrixState, second: MatrixState, x: string)
  {
    && OneTransfer(w) && w.events == []
    && Lists(w, FIRST, first, x) && Lists(w, SECOND, second, x)
    && if first == IDLE then OpenThere(w, x) else LockedBy(w, x, FIRST)
  }

  lemma PairCreated(w: World)
    requires JustStored(w) && OneTransfer(w)
    ensures var u := Next(w, Handle(Create("A")), CURRENCIES);
            var v := Next(u, Handle(Create("B")), CURRENCIES);
            Pair(v, IDLE, IDLE, IdAt(0))
  {
    hide Next, OneTransfer, JustStored, IdAt, BatchAt, SameBatches, Entered;
    JustStoredBatch(w);
    TheKey();
    StaticCreated(w, "A");
    var u := Next(w, Handle(Create("A")), CURRENCIES);
    StillOpen(w.books.batches.docs, u);
    StaticCreated(u, "B");
    var v := Next(u, Handle(Create("B")), CURRENCIES);
    SameAgain(w.books.batches.docs, u.books.batches.docs, v.books.batches.docs);
    StillOpen(w.books.batches.docs, v);
  }

  lemma TheKey()
    ensures IdAt(0) == BatchAt(0).id && BatchAt(0).state == OPEN
  {
    hide BatchName, BatchIdentifier;
  }

  lemma StillOpen(a: map<string, Batch>, w: World)
    requires a == map[IdAt(0) := BatchAt(0)] && SameBatches(a, w.books.batches.docs)
    ensures IdAt(0) in w.books.batches.docs && StateAt(w, IdAt(0)) == OPEN
  {
    TheKey();
    hide IdAt, BatchAt;
    assert SameBatch(a[IdAt(0)], w.books.batches.docs[IdAt(0)]);
  }

  lemma SameAgain(a: map<string, Batch>, b: map<string, Batch>, c: map<string, Batch>)
    requires SameBatches(a, b) && SameBatches(b, c)
    ensures SameBatches(a, c)
  {
    forall id | id in a ensures SameBatch(a[id], c[id]) {
      assert SameBatch(a[id], b[id]);
      assert SameBatch(b[id], c[id]);
    }
  }

  lemma FirstLocks(u: World, x: string)
    requires Pair(u, IDLE, IDLE, x)
    ensures Pair(Next(u, Handle(MoveMatrixCmd(FIRST, Lock)), CURRENCIES), LOCKED, IDLE, x)
  {
    hide Next, OneTransfer, MoveMatrix, MoveTargets, BatchesMoved, WorldOk, RowIds;
    WorldOfOne(u);
    StaticTargets(u, FIRST, IDLE, Lock, x);
    MoveDone(u, FIRST, Lock);
    LockTakes(u, FIRST, x, CURRENCIES);
    EventsOfMove(u, FIRST, Lock, CURRENCIES);
  }

  /** The second matrix is locked too, before it hears of the first; the batch stays with the first. */
  lemma SecondLocks(u: World, x: string)
    requires Pair(u, LOCKED, IDLE, x)
    ensures Pair(Next(u, Handle(MoveMatrixCmd(SECOND, Lock)), CURRENCIES), LOCKED, LOCKED, x)
  {
    hide Next, OneTransfer, MoveMatrix, MoveTargets, BatchesMoved, WorldOk, RowIds;
    WorldOfOne(u);
    StaticTargets(u, SECOND, IDLE, Lock, x);
    MoveDone(u, SECOND, Lock);
    EventsOfMove(u, SECOND, Lock, CURRENCIES);
    StaysLocked(u, Next(u, Handle(MoveMatrixCmd(SECOND, Lock)), CURRENCIES), x);
  }

  lemma StaysLocked(u: World, v: World, x: string)
    requires LockedBy(u, x, FIRST)
    requires BatchesMoved(u.books.batches.docs, v.books.batches.docs, {x}, Lock, SECOND)
    ensures LockedBy(v, x, FIRST)
  {
    assert SameBatch(MovedOrSame(Lock, SECOND, u.books.batches.docs[x]), v.books.batches.docs[x]);
  }

  lemma SecondSettles(u: World, x: string)
    requires Pair(u, LOCKED, LOCKED, x)
    ensures var v := Next(u, Handle(MoveMatrixCmd(SECOND, Settle)), CURRENCIES);
            && SettlesForeign(u, Handle(MoveMatrixCmd(SECOND, Settle)), x, CURRENCIES)
            && x in v.books.batches.docs && StateAt(v, x) == SETTLED
            && v.events == [SettledEvt(SECOND, [])] && FIRST in v.matrices.docs
            && v.matrices.docs[FIRST].state == LOCKED
  {
    hide Next, OneTransfer, MoveMatrix, MoveTargets, BatchesMoved, WorldOk, RowIds, SettledFacts, PaidIds, EventShows,
         StoreOk, SettlesForeign;
    WorldOfOne(u);
    StaticTargets(u, SECOND, LOCKED, Settle, x);
    MoveDone(u, SECOND, Settle);
    ForeignTarget(u, x);
    ForeignIsSettled(u, Handle(MoveMatrixCmd(SECOND, Settle)), x, CURRENCIES);
    SecondEvent(u, x);
  }

  lemma ForeignTarget(u: World, x: string)
    requires Pair(u, LOCKED, LOCKED, x) && MoveMatrix(u, SECOND, Settle, CURRENCIES).outcome == Done
    ensures SettlesForeign(u, Handle(MoveMatrixCmd(SECOND, Settle)), x, CURRENCIES)
  {
    hide OneTransfer, MoveMatrix, MoveTargets, WorldOk, RowIds;
    StaticTargets(u, SECOND, LOCKED, Settle, x);
  }

  lemma SecondEvent(u: World, x: string)
    requires Pair(u, LOCKED, LOCKED, x) && WorldOk(u, CURRENCIES)
    requires MoveMatrix(u, SECOND, Settle, CURRENCIES).outcome == Done
    ensures MoveMatrix(u, SECOND, Settle, CURRENCIES).world.events == [SettledEvt(SECOND, [])]
  {
    hide OneTransfer, MoveMatrix, MoveTargets, WorldOk, RowIds, SettledFacts, PaidIds, EventShows;
    var v := MoveMatrix(u, SECOND, Settle, CURRENCIES).world;
    PaysNobody(u, x);
    NothingPaid(u, SECOND);
    SettleExact(u, SECOND, CURRENCIES);
    EmptyEvent(v.events[0], SECOND);
    assert v.events == [v.events[0]];
  }

  lemma PaysNobody(u: World, x: string)
    requires Pair(u, LOCKED, LOCKED, x)
    ensures PaidIds(u, SECOND) == {}
  {
    hide WorldOk, Stored, RowIds, SameTransfers;
    ListedAreStored(u, SECOND, CURRENCIES);
    StaticSelection(u.books.batches.docs, u.matrices.docs[SECOND]);
  }

  lemma NothingPaid(w: World, id: MatrixId)
    requires id in w.matrices.docs && PaidIds(w, id) == {}
    ensures SettledFacts(w, id, CURRENCIES) == map[]
  {
    hide CountedIds;
  }

  lemma EmptyEvent(evt: SettledEvt, id: MatrixId)
    requires EventShows(evt, id, map[], CURRENCIES)
    ensures evt == SettledEvt(id, [])
  {
    var none: Facts := map[];
    assert ParticipantKeys(none) == {};
    hide ItemKey;
    ItemListed(evt.participantList);
  }

  lemma ItemListed(items: seq<ParticipantItem>)
    ensures items != [] ==> ItemKey(items[0]) in ItemKeys(items)
  {
  }

  /** From the empty world: two matrices list the batch, the first locks it, the second is locked before the mark
      message reaches it, and settling the second turns the batch of the first SETTLED with an event that pays
      nobody. */
  lemma ForeignSettlementExample() returns (ws: seq<World>, steps: seq<Step>, x: string)
    ensures |steps| == 7 && |ws| == 8
    ensures steps[2] == Handle(CreateStaticMatrixCmd(Some("A"), [x]))
    ensures steps[3] == Handle(CreateStaticMatrixCmd(Some("B"), [x]))
    ensures steps[4] == Handle(MoveMatrixCmd(FIRST, Lock))
    ensures steps[5] == Handle(MoveMatrixCmd(SECOND, Lock))
    ensures steps[6] == Handle(MoveMatrixCmd(SECOND, Settle))
    ensures SettlesForeign(ws[6], steps[6], x, CURRENCIES)
    ensures x in ws[7].books.batches.docs && StateAt(ws[7], x) == SETTLED && ws[7].events == [SettledEvt(SECOND, [])]
    ensures FIRST in ws[7].matrices.docs && ws[7].matrices.docs[FIRST].state == LOCKED
    ensures IsRun(ws, steps, CURRENCIES)
  {
    hide IsRun, NoJournalledReplays, Next, OneTransfer, JustStored, IdAt, Pair, ReplaysJournalled, Payment,
         SettlesForeign, Create, MoveTargets;
    x := IdAt(0);
    assert Create("A") == CreateStaticMatrixCmd(Some("A"), [x])
           && Create("B") == CreateStaticMatrixCmd(Some("B"), [x]) by {
      CreateIs("A");
      CreateIs("B");
    }
    ws, steps := StoredRun();
    StoredIsOne(ws, steps, 2);
    PairCreated(ws[2]);
    ws, steps := Extend(ws, steps, Create("A"));
    ws, steps := Extend(ws, steps, Create("B"));
    FirstLocks(ws[4], x);
    ws, steps := Extend(ws, steps, MoveMatrixCmd(FIRST, Lock));
    SecondLocks(ws[5], x);
    ws, steps := Extend(ws, steps, MoveMatrixCmd(SECOND, Lock));
    SecondSettles(ws[6], x);
    ws, steps := Extend(ws, steps, MoveMatrixCmd(SECOND, Settle));
  }

  lemma CreateIs(text: string)
    ensures Create(text) == CreateStaticMatrixCmd(Some(text), [IdAt(0)])
  {
    hide IdAt;
  }

  // ----- replaying a journalled transfer

  /** From the empty world: the transfer is journalled when a matrix over its batch is created; sending it again
      then takes the ledger and the transfers apart. */
  lemma ReplayExample() returns (ws: seq<World>, steps: seq<Step>, x: string)
    ensures |steps| == 4 && |ws| == 5
    ensures steps[2] == Handle(CreateStaticMatrixCmd(Some("A"), [x]))
    ensures steps[3] == steps[1] && ReplaysJournalled(ws[3], steps[3], CURRENCIES)
    ensures Agrees(ws[3].books, CURRENCIES) && !Agrees(ws[4].books, CURRENCIES)
    ensures IsRun(ws, steps, CURRENCIES)
  {
    hide IsRun, NoJournalledReplays, Next, OneTransfer, IdAt, ReplaysJournalled, Payment, Agrees, CurrenciesOk, WorldOk,
         Create;
    x := IdAt(0);
    CreateIs("A");
    ws, steps := JournalledRun();
    Replayed(ws[3]);
    CurrenciesGood();
    RunAgrees(ws, steps, CURRENCIES, 3);
    WorldOfOne(ws[3]);
    StepAgrees(ws[3], Handle(ProcessTransferCmd(Payment("q"), 0)), CURRENCIES);
    ws, steps := Extend(ws, steps, ProcessTransferCmd(Payment("q"), 0));
  }

  lemma JournalledRun() returns (ws: seq<World>, steps: seq<Step>)
    ensures |steps| == 3 && |ws| == 4 && OneTransfer(ws[3]) && Entered(ws[3].books.transfers.docs, "t")
    ensures IsRun(ws, steps, CURRENCIES) && NoJournalledReplays(ws, steps, CURRENCIES)
    ensures steps[1] == Handle(ProcessTransferCmd(Payment("q"), 0)) && steps[2] == Handle(Create("A"))
  {
    hide IsRun, NoJournalledReplays, Next, OneTransfer, JustStored, IdAt, BatchAt, ReplaysJournalled, Payment,
         SameBatches, Create;
    ws, steps := StoredRun();
    StoredIsOne(ws, steps, 2);
    JustStoredBatch(ws[2]);
    StaticCreated(ws[2], "A");
    CreationReplaysNothing(ws[2]);
    ws, steps := Extend(ws, steps, Create("A"));
  }

  lemma CreationReplaysNothing(w: World)
    ensures !ReplaysJournalled(w, Handle(Create("A")), CURRENCIES)
  {
  }

  lemma Replayed(w: World)
    requires OneTransfer(w) && Entered(w.books.transfers.docs, "t")
    ensures ReplaysJournalled(w, Handle(ProcessTransferCmd(Payment("q"), 0)), CURRENCIES)
  {
    hide Validate, WorldOk, Stored, SameTransfers;
    PayloadValid();
  }
}
