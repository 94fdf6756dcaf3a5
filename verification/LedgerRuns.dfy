/** Ledger and transfers over whole runs: each transfer is journalled once, and what is posted is what was paid. */
module LedgerRuns {
  import opened Common
  import opened Sums
  import opened Model
  import opened Converters
  import opened MatrixTables
  import opened Repositories
  import opened Ledgers
  import opened Recalculation
  import opened BookKeeping
  import opened Exactness
  import opened Commands
  import opened Effects
  import opened BatchSequences
  import opened Protocol
  import opened Safety
  import opened Settlement
  import opened LedgerAgreement

  // ----- storing a transfer

  /** The step stores a transfer whose id is stored with a journal entry. */
  predicate ReplaysJournalled(w: World, s: Step, currencies: Currencies)
  {
    StoresTransfer(w, s, currencies) && Entered(w.books.transfers.docs, s.command.transfer.transferId)
  }

  /** A transfer that is not journalled, before and after, does not count for any party. */
  lemma StoredPostings(l: Ledger, docs: map<string, Transfer>, x: string, t: Transfer, currencies: Currencies)
    requires PostingsAgree(l, docs, currencies) && !Entered(docs, x) && t.journalEntryId.None?
    ensures PostingsAgree(l, docs[x := t], currencies)
  {
    hide DebitsHeld, CreditsHeld, Amount;
    var more := docs[x := t];
    forall who: Party, code: string ensures PostingsFor(l, more, who, code, currencies) {
      assert PostingsFor(l, docs, who, code, currencies);
      assert AmountsPaid(more, who, code, currencies) == AmountsPaid(docs, who, code, currencies);
      assert AmountsReceived(more, who, code, currencies) == AmountsReceived(docs, who, code, currencies);
    }
  }

  /** Storing a transfer keeps the journal in agreement exactly when the transfer was not journalled. */
  lemma StoredJournal(l: Ledger, docs: map<string, Transfer>, x: string, t: Transfer, batches: map<string, Batch>)
    requires JournalAgrees(l, docs, batches) && t.journalEntryId.None?
    ensures JournalAgrees(l, docs[x := t], batches) <==> !Entered(docs, x)
  {
    hide Known;
    var more := docs[x := t];
    if Entered(docs, x) {
      assert HasEntry(l, x);
      var i :| 0 <= i < |l.journal| && l.journal[i].id == x;
      assert !EntryFits(l.journal[i], l, more, batches);
    } else {
      forall i | 0 <= i < |l.journal| ensures EntryFits(l.journal[i], l, more, batches) {
        assert EntryFits(l.journal[i], l, docs, batches);
      }
      forall y | Entered(more, y) ensures HasEntry(l, y) {
        assert Entered(docs, y);
      }
    }
  }

  lemma TransferAgrees(w: World, p: TransferPayload, now: int, currencies: Currencies)
    requires WorldOk(w, currencies) && CurrenciesOk(currencies) && Agrees(w.books, currencies)
    requires ProcessTransfer(w, p, now, currencies).outcome == Done
    ensures Agrees(ProcessTransfer(w, p, now, currencies).world.books, currencies) <==>
            !Entered(w.books.transfers.docs, p.transferId)
  {
    hide BooksOk, SequencesOk, OwnersOk, ValidRepo, EntriesOk, LocksOk, AddTransfer, CurrenciesOk, Validate, Agrees,
         TransferEffect, Entered;
    var b := AddTransferExact(w.books, p, w.configs[p.settlementModel], now, currencies);
    ValidTransfer(p, currencies);
    TransferEffectAgrees(w.books, AddTransfer(w.books, p, w.configs[p.settlementModel], now), p, b, currencies);
  }

  lemma TransferEffectAgrees(k: Books, l: Books, p: TransferPayload, b: Batch, currencies: Currencies)
    requires Agrees(k, currencies) && TransferEffect(k, l, p, b)
    ensures Agrees(l, currencies) <==> !Entered(k.transfers.docs, p.transferId)
  {
    hide PostingsAgree, JournalAgrees;
    var t := NewTransfer(p, b);
    StoredJournal(k.ledger, k.transfers.docs, p.transferId, t, k.batches.docs);
    if !Entered(k.transfers.docs, p.transferId) {
      StoredPostings(k.ledger, k.transfers.docs, p.transferId, t, currencies);
      BatchesIgnored(k.ledger, l.transfers.docs, k.batches.docs, l.batches.docs);
    } else if JournalAgrees(l.ledger, l.transfers.docs, l.batches.docs) {
      JournalNotAffected(k, l);
    }
  }

  lemma JournalNotAffected(k: Books, l: Books)
    requires JournalAgrees(k.ledger, k.transfers.docs, k.batches.docs)
        && JournalAgrees(l.ledger, l.transfers.docs, l.batches.docs)
    requires l.ledger == k.ledger
    ensures forall x :: Entered(k.transfers.docs, x) ==> Entered(l.transfers.docs, x)
  {
    forall x | Entered(k.transfers.docs, x) ensures Entered(l.transfers.docs, x) {
      assert HasEntry(k.ledger, x);
      var i :| 0 <= i < |k.ledger.journal| && k.ledger.journal[i].id == x;
      assert EntryFits(l.ledger.journal[i], l.ledger, l.transfers.docs, l.batches.docs);
    }
  }

  // ----- the other commands

  lemma RecalculateAndStoreAgrees(w: World, stored: Matrix, working: Matrix, currencies: Currencies)
    requires WorldOk(w, currencies) && Agrees(w.books, currencies)
    ensures Agrees(RecalculateAndStore(w, stored, working, IDLE, currencies).world.books, currencies)
  {
    hide BooksOk, Agrees, Recalculate, SequencesOk, OwnersOk, ValidRepo, EntriesOk, LocksOk;
    RecalculateAgrees(w.books, working.(state := BUSY), false, currencies);
  }

  lemma SameRecords(k: Books, l: Books, currencies: Currencies)
    requires Agrees(k, currencies) && l.ledger == k.ledger && l.transfers == k.transfers && l.batches == k.batches
    ensures Agrees(l, currencies)
  {
    hide PostingsAgree, JournalAgrees;
  }

  lemma MovedUuids(a: map<string, Batch>, b: map<string, Batch>, c: map<string, Batch>, ids: set<string>, mv: Move,
      mid: MatrixId)
    requires SameBatches(a, b) && BatchesMoved(a, c, ids, mv, mid)
    ensures SameUuids(b, c)
  {
    forall x | x in b ensures x in c && c[x].batchUUID == b[x].batchUUID {
      assert SameBatch(a[x], b[x]);
      assert SameBatch(if x in ids then MovedOrSame(mv, mid, a[x]) else a[x], c[x]);
    }
  }

  lemma MoveAgrees(w: World, id: MatrixId, mv: Move, currencies: Currencies)
    requires WorldOk(w, currencies) && Agrees(w.books, currencies)
    ensures Agrees(MoveMatrix(w, id, mv, currencies).world.books, currencies)
  {
    hide BooksOk, SequencesOk, OwnersOk, ValidRepo, EntriesOk, LocksOk, Recalculate, Sweep, RowsToMove, MoveTargets,
         Fresh, CurrenciesKnown, BatchesMoved, MovedIds, SameBatches, PostingsAgree, JournalAgrees, Items, StoreOk,
         LedgerGrows, SameTransfers;
    if id in w.matrices.docs && w.matrices.docs[id].state == From(mv) {
      WorldStoreOk(w, currencies);
      MoveRecalculates(w, id, mv, currencies);
      RecalculateAgrees(w.books, w.matrices.docs[id].(state := BUSY), mv.Settle?, currencies);
      var r := Recalculate(w.books, w.matrices.docs[id].(state := BUSY), mv.Settle?, currencies);
      if r.matrix.Some? {
        var m1 := r.matrix.value;
        var s := Sweep(Swept(r.books.batches, [], [], true), RowsToMove(m1.batches, mv), mv, m1.id);
        MovedUuids(w.books.batches.docs, r.books.batches.docs, s.batches.docs, MoveTargets(w, id, mv), mv, id);
        BatchesIgnored(r.books.ledger, r.books.transfers.docs, r.books.batches.docs, s.batches.docs);
      }
    }
  }

  /** Ledger and transfers stay in agreement through a step exactly when it does not replay a journalled transfer. */
  lemma StepAgrees(w: World, s: Step, currencies: Currencies)
    requires WorldOk(w, currencies) && CurrenciesOk(currencies) && Agrees(w.books, currencies)
    ensures Agrees(Next(w, s, currencies).books, currencies) <==> !ReplaysJournalled(w, s, currencies)
  {
    hide WorldOk, MoveMatrix, RecalculateAndStore, MarkOutOfSync, CreateStaticMatrix, CreateDynamicMatrix,
         Commands.RecalculateMatrix, AddBatches, RemoveBatches, ProcessTransfer, CurrenciesOk, Agrees;
    if s.Handle? {
      if Recalculates(s.command) {
        var start, stored, working := RecalculatingCommand(w, s.command, currencies);
        SameRecords(w.books, start.books, currencies);
        RecalculateAndStoreAgrees(start, stored, working, currencies);
      } else if s.command.ProcessTransferCmd? {
        StoredExactlyWhenDone(w, s.command.transfer, s.command.now, currencies);
        if StoresTransfer(w, s, currencies) {
          TransferAgrees(w, s.command.transfer, s.command.now, currencies);
        }
      } else if s.command.MoveMatrixCmd? {
        MoveAgrees(w, s.command.matrixId, s.command.move, currencies);
      }
    }
  }

  // ----- runs

  ghost predicate NoJournalledReplays(ws: seq<World>, steps: seq<Step>, currencies: Currencies)
  {
    |ws| == |steps| + 1 && forall i :: 0 <= i < |steps| ==> !ReplaysJournalled(ws[i], steps[i], currencies)
  }

  lemma EmptyAgrees(currencies: Currencies)
    ensures Agrees(Empty.books, currencies)
  {
    forall who: Party, code: string ensures PostingsFor(Empty.books.ledger, map[], who, code, currencies) {
      assert DebitsHeld([], who, code) == map[] && CreditsHeld([], who, code) == map[];
      assert AmountsPaid(map[], who, code, currencies) == map[]
             && AmountsReceived(map[], who, code, currencies) == map[];
    }
  }

  /** Over every run in which no journalled transfer is replayed, ledger and transfers agree throughout. */
  lemma {:induction false} RunAgrees(ws: seq<World>, steps: seq<Step>, currencies: Currencies, i: nat)
    requires IsRun(ws, steps, currencies) && CurrenciesOk(currencies) && NoJournalledReplays(ws, steps, currencies)
             && i < |ws|
    ensures Agrees(ws[i].books, currencies)
  {
    hide WorldOk, CurrenciesOk, Agrees, Next, ReplaysJournalled;
    if i == 0 {
      EmptyAgrees(currencies);
    } else {
      RunAgrees(ws, steps, currencies, i - 1);
      RunOk(ws, steps, currencies, i - 1);
      StepAgrees(ws[i - 1], steps[i - 1], currencies);
    }
  }

  function CountEntries(journal: seq<JournalEntry>, x: string): nat
  {
    if journal == [] then 0 else (if journal[0].id == x then 1 else 0) + CountEntries(journal[1..], x)
  }

  lemma {:induction false} CountedOnce(journal: seq<JournalEntry>, x: string)
    requires forall i, j :: 0 <= i < j < |journal| ==> journal[i].id != journal[j].id
    ensures CountEntries(journal, x) == if exists i :: 0 <= i < |journal| && journal[i].id == x then 1 else 0
  {
    if journal != [] {
      var rest := journal[1..];
      assert forall i :: 0 <= i < |rest| ==> rest[i] == journal[i + 1];
      CountedOnce(rest, x);
      if exists i :: 0 <= i < |journal| && journal[i].id == x {
        var i :| 0 <= i < |journal| && journal[i].id == x;
        if i > 0 {
          assert rest[i - 1].id == x;
        }
      }
    }
  }

  /** Over every such run a transfer has at most one journal entry at any time, and has one exactly when it is
      marked as journalled. */
  lemma JournalledAtMostOnce(ws: seq<World>, steps: seq<Step>, currencies: Currencies, i: nat, x: string)
    requires IsRun(ws, steps, currencies) && CurrenciesOk(currencies) && NoJournalledReplays(ws, steps, currencies)
             && i < |ws|
    ensures CountEntries(ws[i].books.ledger.journal, x) == if Entered(ws[i].books.transfers.docs, x) then 1 else 0
  {
    hide IsRun, CurrenciesOk, NoJournalledReplays, PostingsAgree;
    RunAgrees(ws, steps, currencies, i);
    var k := ws[i].books;
    CountedOnce(k.ledger.journal, x);
    hide Known;
    if HasEntry(k.ledger, x) {
      var j :| 0 <= j < |k.ledger.journal| && k.ledger.journal[j].id == x;
      assert EntryFits(k.ledger.journal[j], k.ledger, k.transfers.docs, k.batches.docs);
    } else {
      assert !Entered(k.transfers.docs, x);
    }
  }

  /** After a recalculation that completes, every transfer of a batch it selects has exactly one journal entry. */
  lemma JournalledExactlyOnce(ws: seq<World>, steps: seq<Step>, currencies: Currencies, i: nat, m: Matrix,
      settling: bool, x: string)
    requires IsRun(ws, steps, currencies) && CurrenciesOk(currencies) && NoJournalledReplays(ws, steps, currencies)
             && i < |ws|
    requires Recalculate(ws[i].books, m, settling, currencies).matrix.Some?
    requires x in ws[i].books.transfers.docs
        && ws[i].books.transfers.docs[x].batchId in SelectedIds(ws[i].books.batches.docs, m)
    ensures CountEntries(Recalculate(ws[i].books, m, settling, currencies).books.ledger.journal, x) == 1
  {
    hide IsRun, CurrenciesOk, NoJournalledReplays, PostingsAgree, BooksOk, SequencesOk, OwnersOk, ValidRepo, EntriesOk,
         LocksOk, Recalculate, SelectedIds, Fresh, SameBatches, LedgerGrows;
    RunAgrees(ws, steps, currencies, i);
    RunOk(ws, steps, currencies, i);
    var k, l := ws[i].books, Recalculate(ws[i].books, m, settling, currencies).books;
    RecalculateAgrees(k, m, settling, currencies);
    RecalculateKeeps(k, m, settling, currencies);
    assert SameTransfer(k.transfers.docs[x], l.transfers.docs[x]);
    assert BatchJournalled(l, k.transfers.docs[x].batchId);
    assert Entered(l.transfers.docs, x);
    assert HasEntry(l.ledger, x);
    CountedOnce(l.ledger.journal, x);
  }

  // ----- totals

  ghost function PostedDebit(l: Ledger, who: Party, code: string): int
  {
    MapSum(DebitsHeld(l.accounts, who, code))
  }

  ghost function PostedCredit(l: Ledger, who: Party, code: string): int
  {
    MapSum(CreditsHeld(l.accounts, who, code))
  }

  /** Over every such run the posted debits of a participant in a currency are the journalled amounts it paid, and
      the posted credits those it received. */
  lemma PostedIsPaid(ws: seq<World>, steps: seq<Step>, currencies: Currencies, i: nat, participantId: string,
                     code: string)
    requires IsRun(ws, steps, currencies) && CurrenciesOk(currencies) && NoJournalledReplays(ws, steps, currencies)
             && i < |ws|
    ensures var k := ws[i].books;
            && PostedDebit(k.ledger, Some(participantId), code)
                == MapSum(AmountsPaid(k.transfers.docs, Some(participantId), code, currencies))
            && PostedCredit(k.ledger, Some(participantId), code)
                == MapSum(AmountsReceived(k.transfers.docs, Some(participantId), code, currencies))
  {
    hide IsRun, CurrenciesOk, NoJournalledReplays, JournalAgrees, DebitsHeld, CreditsHeld, AmountsPaid, AmountsReceived;
    RunAgrees(ws, steps, currencies, i);
    assert PostingsFor(ws[i].books.ledger, ws[i].books.transfers.docs, Some(participantId), code, currencies);
  }

  ghost predicate PaidToSelf(docs: map<string, Transfer>, x: string, code: string)
  {
    Entered(docs, x) && docs[x].currencyCode == code && docs[x].payerFspId == docs[x].payeeFspId
  }

  /** Over every such run the total posted debits of a currency equal its total posted credits exactly when no
      journalled transfer in it has one participant on both sides; otherwise the debits are larger. */
  lemma DebitsEqualCredits(ws: seq<World>, steps: seq<Step>, currencies: Currencies, i: nat, code: string)
    requires IsRun(ws, steps, currencies) && CurrenciesOk(currencies) && NoJournalledReplays(ws, steps, currencies)
             && i < |ws|
    ensures var k := ws[i].books;
            && PostedDebit(k.ledger, None, code) >= PostedCredit(k.ledger, None, code)
            && (PostedDebit(k.ledger, None, code) == PostedCredit(k.ledger, None, code) <==>
                  forall x :: x in k.transfers.docs ==> !PaidToSelf(k.transfers.docs, x, code))
  {
    hide IsRun, CurrenciesOk, NoJournalledReplays, JournalAgrees, SequencesOk, OwnersOk, ValidRepo, EntriesOk, LocksOk;
    RunAgrees(ws, steps, currencies, i);
    RunOk(ws, steps, currencies, i);
    assert PostingsFor(ws[i].books.ledger, ws[i].books.transfers.docs, None, code, currencies);
    PaidAndReceived(ws[i].books, code, currencies);
  }

  lemma PaidAndReceived(k: Books, code: string, currencies: Currencies)
    requires BooksOk(k, currencies)
    ensures var p := MapSum(AmountsPaid(k.transfers.docs, None, code, currencies));
            var r := MapSum(AmountsReceived(k.transfers.docs, None, code, currencies));
            p >= r && (p == r <==> forall x :: x in k.transfers.docs ==> !PaidToSelf(k.transfers.docs, x, code))
  {
    hide BooksOk, Amount;
    var docs := k.transfers.docs;
    AmountsPositive(k, currencies);
    var p, r := AmountsPaid(docs, None, code, currencies), AmountsReceived(docs, None, code, currencies);
    assert forall x :: x in docs ==> (x in p && x !in r <==> PaidToSelf(docs, x, code));
    assert forall x :: x in r ==> x in p && r[x] == p[x];
    assert forall x :: x in p ==> x in docs && p[x] > 0;
    hide AmountsPaid, AmountsReceived, PaidToSelf;
    LessIsLess(r, p);
    if forall x :: x in docs ==> !PaidToSelf(docs, x, code) {
      assert p.Keys <= r.Keys;
    } else {
      var x :| x in docs && PaidToSelf(docs, x, code);
      assert x in p && x !in r;
    }
  }

  lemma AmountsPositive(k: Books, currencies: Currencies)
    requires BooksOk(k, currencies)
    ensures forall x :: x in k.transfers.docs ==> Amount(k.transfers.docs[x], currencies) > 0
  {
    forall x | x in k.transfers.docs ensures Amount(k.transfers.docs[x], currencies) > 0 {
      assert TransferOk(k.transfers.docs[x], x, k.batches.docs, currencies);
    }
  }

  /** Leaving out positive terms makes a sum smaller. */
  lemma LessIsLess<K(!new)>(m: map<K, int>, n: map<K, int>)
    requires forall k :: k in m ==> k in n && m[k] == n[k]
    requires forall k :: k in n ==> n[k] > 0
    ensures MapSum(m) <= MapSum(n) && (MapSum(m) == MapSum(n) <==> n.Keys <= m.Keys)
  {
    MapSumSubset(m, n);
    if n.Keys <= m.Keys {
      assert m == n;
    } else {
      var k :| k in n && k !in m;
      MapSumRemove(n, k);
      MapSumSubset(m, n - {k});
    }
  }
}
