/** A recalculation that completed and fails when it is repeated. */
module Repeats {
  import opened Common
  import opened Sums
  import opened Model
  import opened Digits
  import opened Converters
  import opened MatrixTables
  import opened Totals
  import opened Repositories
  import opened Ledgers
  import opened Recalculation
  import opened BookKeeping
  import opened Exactness
  import opened Accumulation
  import opened Completion
  import opened Allocation
  import opened Commands
  import opened Effects
  import opened BatchSequences
  import opened Protocol
  import opened Membership
  import opened LedgerRuns
  import opened Examples

  /** An amount below the bound whose double is above it. */
  const LARGE: nat := 60_000_000_000_000_000_000

  lemma TheBound()
    ensures Bound(2) == 100_000_000_000_000_000_000
  {
    assert Pow(10, 4) == 10_000 && Pow(10, 8) == 100_000_000 && Pow(10, 12) == 1_000_000_000_000;
    assert Pow(10, 16) == 10_000_000_000_000_000 && Pow(10, 20) == 100_000_000_000_000_000_000;
  }

  // ----- two transfers in two orders

  predicate Small(t: Transfer)
  {
    StringToBigint(t.amount, 2) == Ok(100) && t.payerFspId != t.payeeFspId
  }

  predicate Large(t: Transfer)
  {
    StringToBigint(t.amount, 2) == Ok(LARGE) && t.payerFspId == t.payeeFspId
  }

  lemma TotalOfOne(x: string, f: Fact)
    ensures CurrencyTotal(map[x := f], f.currencyCode) == Counted(f)
    ensures CurrencyTotal(map[], f.currencyCode) == 0
  {
    var none: Facts := map[];
    assert Debits(none, ByCurrency(f.currencyCode)) == map[];
    MapSumInsert(map[], x, Counted(f));
    assert Debits(map[x := f], ByCurrency(f.currencyCode)) == map[x := Counted(f)];
  }

  /** A large payment to oneself fits as the last one, and nothing fits after it. */
  lemma OrderDecides(t: Transfer, s: Transfer, st: BatchState, st': BatchState)
    requires Small(t) && Large(s)
    ensures EachFits(map[], [Booking(s, CODE, st')], CURRENCIES)
    ensures EachFits(map[], [Booking(t, CODE, st), Booking(s, CODE, st')], CURRENCIES)
    ensures !EachFits(map[], [Booking(s, CODE, st'), Booking(t, CODE, st)], CURRENCIES)
  {
    hide StringToBigint, CurrencyTotal, Bound;
    var a, b := Booking(t, CODE, st), Booking(s, CODE, st');
    var f, g := BookedFact(a, CURRENCIES), BookedFact(b, CURRENCIES);
    TheBound();
    assert Decimals(CURRENCIES, CODE) == 2;
    assert f.amount == 100 && g.amount == LARGE && f.currencyCode == CODE && g.currencyCode == CODE;
    assert Counted(f) == 100 && Counted(g) == 2 * LARGE;
    TotalOfOne(t.transferId, f);
    TotalOfOne(s.transferId, g);
    var none: Facts := map[];
    assert none[t.transferId := f] == map[t.transferId := f] && none[s.transferId := g] == map[s.transferId := g];
    assert [b][1..] == [] && [a, b][1..] == [b] && [b, a][1..] == [a];
    assert EachFits(map[t.transferId := f], [b], CURRENCIES) by {
      assert EachFits(map[t.transferId := f][s.transferId := g], [], CURRENCIES);
    }
  }

  // ----- two batches with one transfer each

  ghost predicate Setting(k: Books, x: string, y: string)
  {
    && BooksOk(k, CURRENCIES) && x != y && k.batches.docs.Keys == {x, y} && k.transfers.docs.Keys == {"t", "s"}
    && k.batches.docs[x].currencyCode == CODE && k.batches.docs[y].currencyCode == CODE
    && Small(k.transfers.docs["t"]) && k.transfers.docs["t"].batchId == x
    && Large(k.transfers.docs["s"]) && k.transfers.docs["s"].batchId == y
  }

  lemma SettingStays(k: Books, l: Books, x: string, y: string)
    requires Setting(k, x, y) && BooksOk(l, CURRENCIES) && SameCore(k, l)
    ensures Setting(l, x, y)
  {
    hide BooksOk, StringToBigint, LedgerGrows;
    assert SameBatch(k.batches.docs[x], l.batches.docs[x]) && SameBatch(k.batches.docs[y], l.batches.docs[y]);
    assert SameTransfer(k.transfers.docs["t"], l.transfers.docs["t"])
           && SameTransfer(k.transfers.docs["s"], l.transfers.docs["s"]);
  }

  lemma OnlyTransfer(k: Books, id: string, t: string)
    requires BooksOk(k, CURRENCIES) && t in k.transfers.docs && IdsInBatch(k.transfers.docs, id) == {t}
    ensures TransfersOf(k, id) == [k.transfers.docs[t]]
  {
    hide BooksOk, ValidRepo, Pick, Records, Select, NoDuplicates;
    TransfersRepoOk(k, CURRENCIES);
    var keys := SelectExact(k.transfers, {t});
    assert keys == [t] by { OneKey(keys, t); }
    assert TransfersOf(k, id)[0] == k.transfers.docs[keys[0]];
  }

  lemma OneKey(keys: seq<string>, t: string)
    requires NoDuplicates(keys) && forall x :: x in keys <==> x == t
    ensures keys == [t]
  {
    assert t in keys;
    var last := |keys| - 1;
    assert keys[0] in keys && keys[last] in keys;
  }

  lemma SettingLists(k: Books, x: string, y: string)
    requires Setting(k, x, y)
    ensures TransfersOf(k, x) == [k.transfers.docs["t"]] && TransfersOf(k, y) == [k.transfers.docs["s"]]
    ensures k.transfers.docs["t"].transferId == "t" && k.transfers.docs["s"].transferId == "s"
    ensures k.batches.docs[x].id == x && k.batches.docs[y].id == y
  {
    hide Small, Large, TransfersOf;
    BooksKeyed(k, CURRENCIES);
    assert TransferOk(k.transfers.docs["t"], "t", k.batches.docs, CURRENCIES);
    assert TransferOk(k.transfers.docs["s"], "s", k.batches.docs, CURRENCIES);
    OnlyTransfer(k, x, "t");
    OnlyTransfer(k, y, "s");
  }

  lemma PickTwo(a: string, b: string)
    requires a != b
    ensures Pick([a, b], {a, b}) == [a, b] && Pick([a, b], {b}) == [b]
  {
    assert [a, b][1..] == [b] && [b][1..] == [];
    assert Pick([b], {a, b}) == [b] && Pick([b], {b}) == [b];
  }

  lemma RecordsTwo(docs: map<string, Batch>, a: string, b: string)
    requires a in docs && b in docs
    ensures Records(docs, [a, b]) == [docs[a], docs[b]] && Records(docs, [b]) == [docs[b]]
  {
    assert [a, b][1..] == [b] && [b][1..] == [];
    assert Records(docs, [b]) == [docs[b]];
  }

  lemma SelectTwo(k: Books, m: Matrix, a: string, b: string)
    requires k.batches.order == [a, b] && a != b && a in k.batches.docs && b in k.batches.docs
    ensures SelectedIds(k.batches.docs, m) == {a, b} ==> SelectedBatches(k, m) == [k.batches.docs[a], k.batches.docs[b]]
    ensures SelectedIds(k.batches.docs, m) == {b} ==> SelectedBatches(k, m) == [k.batches.docs[b]]
  {
    hide Pick, Records, SelectedIds;
    PickTwo(a, b);
    RecordsTwo(k.batches.docs, a, b);
  }

  // ----- one turn of the loop

  lemma JournalledIn(k: Books, b: Batch, t: Transfer)
    ensures var j := JournalTransfer(k, b, t, CURRENCIES);
            && j.books.batches == k.batches && j.batch.id == b.id && (b.accounts == [] ==> j.added)
            && (j.books.transfers == k.transfers || exists u :: j.books.transfers == Put(k.transfers, t.transferId, u))
  {
    hide PostEntry, RefreshAccounts, Put;
  }

  /** What the turn of a batch with one transfer stores. */
  lemma OneTurn(p: Progress, b: Batch, t: Transfer, mid: MatrixId)
    requires TransfersOf(p.books, b.id) == [t] && p.ok
    ensures var q := RecalculateBatch(p, b, mid, false, CURRENCIES);
            && (q.books.batches == p.books.batches || exists c :: q.books.batches == Put(p.books.batches, b.id, c))
            && (t.journalEntryId.Some? ==> q.books == p.books)
            && (q.ok && t.journalEntryId.None? && b.accounts == [] ==>
                 exists c :: q.books.batches == Put(p.books.batches, b.id, c))
            && (q.books.transfers == p.books.transfers
                || exists u :: q.books.transfers == Put(p.books.transfers, t.transferId, u))
  {
    hide TransfersOf, JournalTransfer, Put, AddBalance, StringToBigint, Decimals;
    JournalledIn(p.books, b, t);
    var w := Tally(p.books, b, p.tables, 0, 0, true);
    var u := TallyTransfer(w, t, mid, false, CURRENCIES);
    assert TallyTransfers(w, [t], mid, false, CURRENCIES) == u by {
      assert [t][1..] == [];
      assert TallyTransfers(u, [], mid, false, CURRENCIES) == u;
    }
  }

  // ----- the recalculations of the example

  lemma OneBooking(b: Batch, t: Transfer)
    requires b.currencyCode == CODE
    ensures Bookings(b, [t], false) == [Booking(t, CODE, b.state)]
  {
    assert [t][1..] == [];
    assert Bookings(b, [], false) == [];
  }

  /** The second batch alone completes, the second after the first completes, the first after the second fails. */
  lemma Completes(k: Books, m: Matrix, x: string, y: string)
    requires Setting(k, x, y)
    ensures k.batches.order == [x, y] && SelectedIds(k.batches.docs, m) == {y} ==>
              Recalculate(k, m, false, CURRENCIES).matrix.Some?
    ensures k.batches.order == [x, y] && SelectedIds(k.batches.docs, m) == {x, y} ==>
              Recalculate(k, m, false, CURRENCIES).matrix.Some?
    ensures k.batches.order == [y, x] && SelectedIds(k.batches.docs, m) == {x, y} ==>
              Recalculate(k, m, false, CURRENCIES).matrix.None?
  {
    hide BooksOk, Recalculate, SelectedIds, SelectedBatches, TransfersOf, Small, Large, EachFits, RecalculatedFacts,
         AllInBound, NobodyPaysThemselves, Bookings;
    var a, b := k.batches.docs[x], k.batches.docs[y];
    SettingLists(k, x, y);
    RecalculateCompletesExactly(k, m, false, CURRENCIES);
    OneBooking(a, k.transfers.docs["t"]);
    OneBooking(b, k.transfers.docs["s"]);
    OrderDecides(k.transfers.docs["t"], k.transfers.docs["s"], a.state, b.state);
    BookingsOfTwo(k, a, b, m.id);
    var t, s := Booking(k.transfers.docs["t"], CODE, a.state), Booking(k.transfers.docs["s"], CODE, b.state);
    assert [t] + [s] == [t, s] && [s] + [t] == [s, t];
    if k.batches.order == [x, y] {
      SelectTwo(k, m, x, y);
    } else if k.batches.order == [y, x] {
      SelectTwo(k, m, y, x);
    }
  }

  lemma BookingsOfTwo(k: Books, a: Batch, b: Batch, mid: MatrixId)
    ensures BatchesBookings(k, [b], mid, false) == Bookings(b, TransfersOf(k, b.id), false)
    ensures BatchesBookings(k, [a, b], mid, false)
            == Bookings(a, TransfersOf(k, a.id), false) + Bookings(b, TransfersOf(k, b.id), false)
    ensures BatchesBookings(k, [b, a], mid, false)
            == Bookings(b, TransfersOf(k, b.id), false) + Bookings(a, TransfersOf(k, a.id), false)
  {
    hide TransfersOf, Bookings;
    assert [a, b][1..] == [b] && [b, a][1..] == [a] && [a][1..] == [] && [b][1..] == [];
    assert BatchesBookings(k, [], mid, false) == [];
    assert BatchesBookings(k, [a], mid, false) == Bookings(a, TransfersOf(k, a.id), false);
  }

  // ----- what the two completed recalculations store

  /** The first state: nothing is journalled, the first batch is in front. */
  ghost predicate Before(k: Books, x: string, y: string)
  {
    && Setting(k, x, y) && k.batches.order == [x, y] && k.batches.docs[x].accounts == []
    && k.transfers.docs["t"].journalEntryId.None?
  }

  /** The second batch alone is recalculated. */
  ghost predicate Between(k: Books, x: string, y: string)
  {
    Before(k, x, y) && k.transfers.docs["s"].journalEntryId.Some?
  }

  lemma {:induction false} LoopOfTwo(p: Progress, a: Batch, b: Batch, mid: MatrixId)
    ensures RecalculateBatches(p, [b], mid, false, CURRENCIES)
            == if p.ok then RecalculateBatch(p, b, mid, false, CURRENCIES) else p
    ensures RecalculateBatches(p, [a, b], mid, false, CURRENCIES)
            == (var q := RecalculateBatch(p, a, mid, false, CURRENCIES);
                if !p.ok then p else if q.ok then RecalculateBatch(q, b, mid, false, CURRENCIES) else q)
  {
    hide RecalculateBatch;
    assert [a, b][1..] == [b] && [b][1..] == [];
    var q := RecalculateBatch(p, a, mid, false, CURRENCIES);
    assert RecalculateBatches(q, [b], mid, false, CURRENCIES)
        == if q.ok then RecalculateBatch(q, b, mid, false, CURRENCIES) else q;
  }

  /** Refreshing the accounts of a batch that has none leaves it as it is; in any case it stays the batch. */
  lemma RefreshTwo(a: Batch, b: Batch, l: Ledger)
    requires RefreshBatches([a, b], l, CURRENCIES).Some?
    ensures var rs := RefreshBatches([a, b], l, CURRENCIES).value;
            |rs| == 2 && SameBatch(a, rs[0]) && SameBatch(b, rs[1]) && (a.accounts == [] ==> rs[0] == a)
  {
    hide RefreshAccounts;
    assert [a, b][0] == a && [a, b][1..] == [b];
    RefreshOne(b, l);
    NoAccounts(l);
  }

  lemma NoAccounts(l: Ledger)
    ensures RefreshAccounts([], l, CURRENCIES) == Some([])
  {
  }

  lemma RefreshOne(b: Batch, l: Ledger)
    requires RefreshBatches([b], l, CURRENCIES).Some?
    ensures var rs := RefreshBatches([b], l, CURRENCIES).value; |rs| == 1 && SameBatch(b, rs[0])
  {
    hide RefreshAccounts;
    assert [b][1..] == [];
    assert RefreshBatches([], l, CURRENCIES) == Some([]);
  }

  lemma PutBack(k: Repo<string, Batch>, x: string, y: string, c: Batch)
    requires k.order == [x, y] && x != y
    ensures Put(k, y, c).order == [x, y] && Put(k, x, c).order == [y, x]
  {
    assert [x, y][1..] == [y] && [y][1..] == [];
    assert Without([y], y) == [] && Without([y], x) == [y];
  }

  /** The recalculation is the loop over the refreshed batches. */
  lemma LoopOver(k: Books, m: Matrix, rs: seq<Batch>)
    requires RefreshBatches(SelectedBatches(k, m), k.ledger, CURRENCIES) == Some(rs)
    ensures var q, r := RecalculateBatches(Progress(k, [], NoBalances, true), rs, m.id, false, CURRENCIES),
                        Recalculate(k, m, false, CURRENCIES);
            r.books == q.books && (r.matrix.Some? <==> q.ok)
  {
  }

  lemma SecondTurn(k: Books, m: Matrix, x: string, y: string)
    requires Before(k, x, y) && SelectedIds(k.batches.docs, m) == {y}
    ensures var l := Recalculate(k, m, false, CURRENCIES).books;
            && (l.batches == k.batches || exists c :: l.batches == Put(k.batches, y, c))
            && (l.transfers == k.transfers || exists u :: l.transfers == Put(k.transfers, "s", u))
  {
    hide BooksOk, Recalculate, SelectedIds, SelectedBatches, TransfersOf, RefreshBatches, RecalculateBatches,
         RecalculateBatch, Small, Large, AllListed, Selection, Put;
    SettingLists(k, x, y);
    SelectTwo(k, m, x, y);
    var keys, rs := SelectionOf(k, m, CURRENCIES);
    RefreshOne(k.batches.docs[y], k.ledger);
    LoopOver(k, m, rs);
    var p := Progress(k, [], NoBalances, true);
    assert rs == [rs[0]];
    LoopOfTwo(p, rs[0], rs[0], m.id);
    OneTurn(p, rs[0], k.transfers.docs["s"], m.id);
  }

  /** Recalculating the second batch alone journals its transfer and keeps the order of the batches. */
  lemma SecondRecalculated(k: Books, m: Matrix, x: string, y: string)
    requires Before(k, x, y) && SelectedIds(k.batches.docs, m) == {y}
    ensures Recalculate(k, m, false, CURRENCIES).matrix.Some?
            && Between(Recalculate(k, m, false, CURRENCIES).books, x, y)
  {
    hide BooksOk, Recalculate, SelectedIds, Small, Large, Fresh, Without, SameCore;
    var l := Recalculate(k, m, false, CURRENCIES).books;
    Completes(k, m, x, y);
    RecalculateKeeps(k, m, false, CURRENCIES);
    SettingStays(k, l, x, y);
    SecondTurn(k, m, x, y);
    if l.batches != k.batches {
      var c :| l.batches == Put(k.batches, y, c);
      PutBack(k.batches, x, y, c);
    }
    assert BatchJournalled(l, y);
  }

  lemma FirstTurn(k: Books, m: Matrix, x: string, y: string)
    requires Between(k, x, y) && SelectedIds(k.batches.docs, m) == {x, y}
             && Recalculate(k, m, false, CURRENCIES).matrix.Some?
    ensures exists c :: Recalculate(k, m, false, CURRENCIES).books.batches == Put(k.batches, x, c)
  {
    hide BooksOk, Recalculate, SelectedIds, SelectedBatches, TransfersOf, RefreshBatches, RecalculateBatches,
         RecalculateBatch, Small, Large, Selection, Put, Listed;
    SettingLists(k, x, y);
    SelectTwo(k, m, x, y);
    var keys, rs := SelectionOf(k, m, CURRENCIES);
    RefreshTwo(k.batches.docs[x], k.batches.docs[y], k.ledger);
    LoopOver(k, m, rs);
    var p := Progress(k, [], NoBalances, true);
    var q := RecalculateBatch(p, rs[0], m.id, false, CURRENCIES);
    assert rs == [rs[0], rs[1]];
    LoopOfTwo(p, rs[0], rs[1], m.id);
    OneTurn(p, rs[0], k.transfers.docs["t"], m.id);
    RecalculateBatchLists(p, rs[0], m.id, false, CURRENCIES);
    assert TransfersOf(q.books, y) == TransfersOf(k, y);
    OneTurn(q, rs[1], k.transfers.docs["s"], m.id);
  }

  /** Recalculating both journals the first and thereby puts its batch behind the second. */
  lemma BothRecalculated(k: Books, m: Matrix, x: string, y: string)
    requires Between(k, x, y) && SelectedIds(k.batches.docs, m) == {x, y}
    ensures Recalculate(k, m, false, CURRENCIES).matrix.Some?
    ensures Setting(Recalculate(k, m, false, CURRENCIES).books, x, y)
    ensures Recalculate(k, m, false, CURRENCIES).books.batches.order == [y, x]
  {
    hide BooksOk, Recalculate, SelectedIds, Small, Large, Fresh, Put, SameCore;
    var l := Recalculate(k, m, false, CURRENCIES).books;
    Completes(k, m, x, y);
    RecalculateKeeps(k, m, false, CURRENCIES);
    SettingStays(k, l, x, y);
    FirstTurn(k, m, x, y);
    var c :| l.batches == Put(k.batches, x, c);
    PutBack(k.batches, x, y, c);
  }

  // ----- the run

  lemma LargeReads()
    ensures StringToBigint(Cents(LARGE), 2) == Ok(LARGE) && Cents(LARGE) != ""
  {
    TheBound();
    hide StringToBigint, Printed, Bound;
    PrintThenRead(LARGE, 2);
    EmptyUnreadable(2);
  }

  function SelfPayment(who: string): TransferPayload { Payload("s", Cents(LARGE), who, who, 60_001) }

  lemma LargeValid()
    ensures Validate(SelfPayment("p"), CURRENCIES) == Done
  {
    LargeReads();
    hide StringToBigint, Printed;
  }

  lemma NamesDiffer()
    ensures BatchName("m", CODE, 0) != BatchName("m", CODE, 60_000)
    ensures IdAt(0) != IdAt(1)
  {
    hide BatchName, BatchIdentifier;
    BatchNameInjective("m", CODE, 0, "m", CODE, 60_000);
    IdentifierInjective(BatchName("m", CODE, 0), 1, BatchName("m", CODE, 60_000), 1);
  }

  lemma CreatedSelects(w: World, ids: seq<string>, m: Matrix)
    requires BooksOk(w.books, CURRENCIES) && m.kind == STATIC && m.batches == ZeroRows(BatchesByIds(w.books, ids))
    ensures SelectedIds(w.books.batches.docs, m) == Includes(ids) * w.books.batches.docs.Keys
  {
    hide BooksOk, BatchesByIds, ZeroRows, RowIds, Includes;
    FoundIds(w, ids, CURRENCIES);
    ZeroIds(BatchesByIds(w.books, ids));
    StaticSelection(w.books.batches.docs, m);
  }

  /** A static matrix over stored batches is created: the recalculation it starts with. */
  lemma CreatedOver(w: World, text: string, ids: seq<string>) returns (m: Matrix)
    requires WorldOk(w, CURRENCIES) && text != "" && Given(text) !in w.matrices.docs
             && Includes(ids) <= w.books.batches.docs.Keys
    ensures SelectedIds(w.books.batches.docs, m) == Includes(ids)
    ensures var v := Next(w, Handle(CreateStaticMatrixCmd(Some(text), ids)), CURRENCIES);
            var r := Recalculate(w.books, m, false, CURRENCIES);
            && v.books == r.books
            && (r.matrix.Some? ==>
                  && Given(text) in v.matrices.docs
                  && v.matrices.docs == w.matrices.docs[Given(text) := v.matrices.docs[Given(text)]]
                  && v.matrices.docs[Given(text)].kind == STATIC && v.matrices.docs[Given(text)].state == IDLE
                  && RowIds(v.matrices.docs[Given(text)].batches) == Includes(ids))
  {
    hide BooksOk, SequencesOk, OwnersOk, EntriesOk, LocksOk, ValidRepo, SelectedIds, Fresh, BatchesByIds, ZeroRows,
         Recalculate, SameCore, RowIds, Includes;
    m := Matrix(Given(text), STATIC, BUSY, ZeroRows(BatchesByIds(w.books, ids)), NoBalances);
    CreatedSelects(w, ids, m);
    RecalculateAndStoreEffect(w, m, m, CURRENCIES);
    var v := RecalculateAndStore(w, m, m, IDLE, CURRENCIES).world;
    if Recalculate(w.books, m, false, CURRENCIES).matrix.Some? {
      FreshAre(v.matrices.docs[m.id].batches, SelectedIds(w.books.batches.docs, m), v.books.batches.docs);
    }
  }

  lemma PutTwo(a: Batch, b: Batch)
    requires a.id != b.id
    ensures Put(Put(Repo(map[], []), a.id, a), b.id, b).order == [a.id, b.id]
  {
    var order: seq<string> := [a.id];
    assert Without(order[1..], b.id) == [];
    assert Without(order, b.id) == order;
    var none: Repo<string, Batch> := Repo(map[], []);
    assert Put(none, a.id, a).order == order;
  }

  /** Both transfers are stored in batches of their own. */
  lemma TwoStoredRun() returns (ws: seq<World>, steps: seq<Step>)
    ensures |ws| == 4 && |steps| == 3
    ensures ws[3].matrices.docs == map[]
            && ws[3].books.batches.docs == map[IdAt(0) := BatchAt(0), IdAt(1) := BatchAt(1)]
    ensures ws[3].books.batches.order == [IdAt(0), IdAt(1)]
    ensures ws[3].books.transfers.docs == map["t" := Stored("q"), "s" := NewTransfer(SelfPayment("p"), BatchAt(1))]
    ensures IsRun(ws, steps, CURRENCIES)
  {
    hide Validate, BatchName, BatchIdentifier, IsRun, NoJournalledReplays, Next, ReplaysJournalled;
    ws, steps := ConfiguredRun();
    PayloadValid();
    LargeValid();
    NamesDiffer();
    hide Cents, Printed;
    assert BatchesNamed(Configured(1).books.batches.docs, BatchName("m", CODE, 0)) == {};
    StoredInNewBatch(Configured(1), Payment("q"), 0);
    ws, steps := Extend(ws, steps, ProcessTransferCmd(Payment("q"), 0));
    assert BatchesNamed(ws[2].books.batches.docs, BatchName("m", CODE, 60_000)) == {};
    StoredInNewBatch(ws[2], SelfPayment("p"), 60_000);
    PutTwo(BatchAt(0), BatchAt(1));
    ws, steps := Extend(ws, steps, ProcessTransferCmd(SelfPayment("p"), 0));
  }

  lemma StoredIsBefore(w: World)
    requires WorldOk(w, CURRENCIES) && w.books.batches.docs == map[IdAt(0) := BatchAt(0), IdAt(1) := BatchAt(1)]
    requires w.books.batches.order == [IdAt(0), IdAt(1)]
    requires w.books.transfers.docs == map["t" := Stored("q"), "s" := NewTransfer(SelfPayment("p"), BatchAt(1))]
    ensures Before(w.books, IdAt(0), IdAt(1))
  {
    NamesDiffer();
    AmountReads();
    LargeReads();
    hide BooksOk, SequencesOk, OwnersOk, EntriesOk, LocksOk, ValidRepo, BatchName, BatchIdentifier, StringToBigint,
         Printed, Cents;
  }

  lemma Two(x: string, y: string)
    ensures Includes([y]) == {y} && Includes([x, y]) == {x, y}
  {
    assert [y][0] == y && [x, y][0] == x && [x, y][1] == y;
  }

  /** From the empty world: a matrix over two batches is created and recalculated, which journals the first of them
      and so puts it behind the other; recalculating the matrix again, with nothing done in between, fails and
      leaves it BUSY. */
  lemma RepeatExample() returns (ws: seq<World>, steps: seq<Step>, x: string, y: string)
    ensures |steps| == 6 && |ws| == 7
    ensures steps[3] == Handle(CreateStaticMatrixCmd(Some("B"), [y]))
    ensures steps[4] == Handle(CreateStaticMatrixCmd(Some("A"), [x, y]))
    ensures steps[5] == Handle(RecalculateMatrixCmd(FIRST))
    ensures FIRST in ws[5].matrices.docs && ws[5].matrices.docs[FIRST].state == IDLE
    ensures Commands.RecalculateMatrix(ws[5], FIRST, CURRENCIES).outcome == Failed(RecalculationFailed)
    ensures FIRST in ws[6].matrices.docs && ws[6].matrices.docs[FIRST].state == BUSY
    ensures IsRun(ws, steps, CURRENCIES)
  {
    hide IsRun, NoJournalledReplays, Next, WorldOk, IdAt, BatchAt, Stored, Setting, SelectedIds, RowIds,
         ReplaysJournalled, Recalculate, CurrenciesOk, Includes, BooksOk, SelfPayment;
    ws, steps := TwoStoredRun();
    x, y := IdAt(0), IdAt(1);
    Two(x, y);
    CurrenciesGood();
    RunOk(ws, steps, CURRENCIES, 3);
    StoredIsBefore(ws[3]);
    SettingKeys(ws[3].books, x, y);
    var b := CreatedOver(ws[3], "B", [y]);
    SecondRecalculated(ws[3].books, b, x, y);
    ws, steps := Extend(ws, steps, CreateStaticMatrixCmd(Some("B"), [y]));
    RunOk(ws, steps, CURRENCIES, 4);
    SettingKeys(ws[4].books, x, y);
    var a := CreatedOver(ws[4], "A", [x, y]);
    BothRecalculated(ws[4].books, a, x, y);
    ws, steps := Extend(ws, steps, CreateStaticMatrixCmd(Some("A"), [x, y]));
    RunOk(ws, steps, CURRENCIES, 5);
    SettingKeys(ws[5].books, x, y);
    LastFails(ws[5], x, y);
    ws, steps := Extend(ws, steps, RecalculateMatrixCmd(FIRST));
  }

  lemma SettingKeys(k: Books, x: string, y: string)
    requires Setting(k, x, y)
    ensures k.batches.docs.Keys == {x, y} && BooksOk(k, CURRENCIES)
  {
    hide BooksOk;
  }

  lemma LastFails(w: World, x: string, y: string)
    requires WorldOk(w, CURRENCIES) && Setting(w.books, x, y) && w.books.batches.order == [y, x]
    requires FIRST in w.matrices.docs && w.matrices.docs[FIRST].state == IDLE && w.matrices.docs[FIRST].kind == STATIC
    requires RowIds(w.matrices.docs[FIRST].batches) == {x, y}
    ensures Commands.RecalculateMatrix(w, FIRST, CURRENCIES).outcome == Failed(RecalculationFailed)
    ensures var v := Next(w, Handle(RecalculateMatrixCmd(FIRST)), CURRENCIES);
            FIRST in v.matrices.docs && v.matrices.docs[FIRST].state == BUSY
  {
    hide BooksOk, SequencesOk, OwnersOk, EntriesOk, LocksOk, ValidRepo, SelectedIds, RowIds, Recalculate, Setting,
         Storable, IdAt;
    var m := w.matrices.docs[FIRST];
    StoredIsStorable(w, FIRST, CURRENCIES);
    SettingKeys(w.books, x, y);
    StaticSelection(w.books.batches.docs, m.(state := BUSY));
    Completes(w.books, m.(state := BUSY), x, y);
  }
}
