/** The accounts of batches: one for each participant, and one for whoever is party to a journalled transfer. */
module Accounts {
  import opened Common
  import opened Model
  import opened Converters
  import opened MatrixTables
  import opened Repositories
  import opened Ledgers
  import opened Recalculation
  import opened BookKeeping
  import opened Exactness
  import opened Completion
  import opened Commands
  import opened Effects
  import opened BatchSequences
  import opened Protocol

  // ----- in every reachable state

  /** An account of the ledger with this id, owner and currency. */
  ghost predicate InLedger(l: Ledger, id: nat, ownerId: string, code: string)
  {
    exists a :: a in l.accounts && a.id == id && a.ownerId == ownerId && a.currencyCode == code
  }

  /** In every reachable state a batch has at most one account for a participant, and each of its accounts is an
      account of that participant in the ledger, in the currency of the batch. */
  lemma OneAccountEach(ws: seq<World>, steps: seq<Step>, currencies: Currencies, i: nat, x: string, a: nat)
    requires IsRun(ws, steps, currencies) && CurrenciesOk(currencies) && i < |ws|
    requires x in ws[i].books.batches.docs && a < |ws[i].books.batches.docs[x].accounts|
    ensures var k, b := ws[i].books, ws[i].books.batches.docs[x];
            && InLedger(k.ledger, b.accounts[a].accountExtId, b.accounts[a].participantId, b.currencyCode)
            && b.accounts[a].currencyCode == b.currencyCode
            && forall c :: 0 <= c < |b.accounts| && b.accounts[c].participantId == b.accounts[a].participantId ==>
                 c == a
  {
    RunOk(ws, steps, currencies, i);
    hide SequencesOk, OwnersOk, EntriesOk, LocksOk, IsRun, CurrenciesOk;
    var k, b := ws[i].books, ws[i].books.batches.docs[x];
    assert BatchOk(b, x, k.ledger, currencies);
    KnownInLedger(k.ledger, b.accounts[a].accountExtId, b.accounts[a].participantId, b.currencyCode);
  }

  lemma KnownInLedger(l: Ledger, id: nat, ownerId: string, code: string)
    requires Known(l, id, ownerId, code)
    ensures InLedger(l, id, ownerId, code)
  {
  }

  // ----- one transfer

  function Holders(accounts: seq<BatchAccount>): set<string>
  {
    set i | 0 <= i < |accounts| :: accounts[i].participantId
  }

  lemma SameHolders(a: seq<BatchAccount>, b: seq<BatchAccount>)
    requires |a| == |b| && forall i :: 0 <= i < |a| ==> b[i].participantId == a[i].participantId
    ensures Holders(a) == Holders(b)
  {
    forall x | x in Holders(a) ensures x in Holders(b) {
      var i :| 0 <= i < |a| && a[i].participantId == x;
      assert b[i].participantId == x;
    }
  }

  lemma OpenedHolds(k: Books, b: Batch, who: string)
    ensures var o := OpenAccount(k, b, who);
            Holders(o.batch.accounts) == Holders(b.accounts) + {who} && (!o.added ==> o.batch == b)
  {
    var o := OpenAccount(k, b, who);
    match FindBatchAccount(b.accounts, who, b.currencyCode)
    case Some(a) =>
      var i :| 0 <= i < |b.accounts| && b.accounts[i] == a;
      assert b.accounts[i].participantId == who;
    case None =>
      forall x | x in Holders(b.accounts) + {who} ensures x in Holders(o.batch.accounts) {
        if x in Holders(b.accounts) {
          var i :| 0 <= i < |b.accounts| && b.accounts[i].participantId == x;
          assert o.batch.accounts[i].participantId == x;
        } else {
          assert o.batch.accounts[|b.accounts|].participantId == x;
        }
      }
  }

  lemma {:induction false} RefreshedHolds(accounts: seq<BatchAccount>, l: Ledger, currencies: Currencies)
    ensures RefreshAccounts(accounts, l, currencies).Some? ==>
              var r := RefreshAccounts(accounts, l, currencies).value;
              |r| == |accounts| && forall i :: 0 <= i < |r| ==>
                r[i].participantId == accounts[i].participantId && r[i].accountExtId == accounts[i].accountExtId
  {
    if accounts != [] {
      RefreshedHolds(accounts[1..], l, currencies);
    }
  }

  /** Journalling leaves an account for both parties; nothing was added only if both had one. */
  lemma JournalledHolds(k: Books, b: Batch, t: Transfer, currencies: Currencies)
    ensures var j := JournalTransfer(k, b, t, currencies);
            j.ok ==>
              && j.batch.id == b.id && j.books.batches == k.batches
              && Holders(j.batch.accounts) == Holders(b.accounts) + {t.payerFspId, t.payeeFspId}
              && (!j.added ==> {t.payerFspId, t.payeeFspId} <= Holders(b.accounts))
  {
    hide PostEntry, RefreshAccounts, Put, Holders;
    var payer := OpenAccount(k, b, t.payerFspId);
    var payee := OpenAccount(payer.books, payer.batch, t.payeeFspId);
    OpenedHolds(k, b, t.payerFspId);
    OpenedHolds(payer.books, payer.batch, t.payeeFspId);
    var j := JournalTransfer(k, b, t, currencies);
    if j.ok {
      RefreshedHolds(payee.batch.accounts, j.books.ledger, currencies);
      SameHolders(payee.batch.accounts, j.batch.accounts);
    }
  }

  lemma OpenedLast(k: Books, b: Batch, who: string)
    ensures var o := OpenAccount(k, b, who);
            if o.added then o.batch.accounts == b.accounts + [BatchAccount(k.nextId, who, b.currencyCode, "0", "0")]
                            && o.accountId == k.nextId && o.batch.currencyCode == b.currencyCode
            else o.batch == b
  {
  }

  /** The accounts of the batch keep their places; those that were opened come last, the one of the payer first. */
  lemma AccountsKeepPlaces(k: Books, b: Batch, t: Transfer, currencies: Currencies)
    ensures var j := JournalTransfer(k, b, t, currencies);
            j.ok ==>
              && |b.accounts| <= |j.batch.accounts| <= |b.accounts| + 2
              && (forall i :: 0 <= i < |b.accounts| ==>
                    && j.batch.accounts[i].participantId == b.accounts[i].participantId
                    && j.batch.accounts[i].accountExtId == b.accounts[i].accountExtId)
              && (|j.batch.accounts| == |b.accounts| + 1 ==>
                    j.batch.accounts[|b.accounts|].participantId in {t.payerFspId, t.payeeFspId})
              && (|j.batch.accounts| == |b.accounts| + 2 ==>
                    && j.batch.accounts[|b.accounts|].participantId == t.payerFspId
                    && j.batch.accounts[|b.accounts| + 1].participantId == t.payeeFspId)
  {
    hide PostEntry, RefreshAccounts, Put, OpenAccount;
    var payer := OpenAccount(k, b, t.payerFspId);
    OpenedLast(k, b, t.payerFspId);
    OpenedLast(payer.books, payer.batch, t.payeeFspId);
    var j := JournalTransfer(k, b, t, currencies);
    if j.ok {
      RefreshedHolds(OpenAccount(payer.books, payer.batch, t.payeeFspId).batch.accounts, j.books.ledger, currencies);
    }
  }

  // ----- the loop over the transfers of a batch that counts

  /** The stored batch has an account for everybody who has one in the loop. */
  ghost predicate Kept(k: Books, b: Batch)
  {
    b.id in k.batches.docs && Holders(b.accounts) <= Holders(k.batches.docs[b.id].accounts)
  }

  /** The other stored batches are not touched. */
  ghost predicate OnlyThis(k: Books, l: Books, id: string)
  {
    && k.batches.docs.Keys <= l.batches.docs.Keys
    && forall x :: x in k.batches.docs && x != id ==> l.batches.docs[x] == k.batches.docs[x]
  }

  lemma TurnHolds(w: Tally, t: Transfer, mid: MatrixId, settling: bool, currencies: Currencies)
    requires Kept(w.books, w.batch)
    ensures var v := TallyTransfer(w, t, mid, settling, currencies);
            && OnlyThis(w.books, v.books, w.batch.id)
            && (v.ok ==>
                  && v.batch.id == w.batch.id && Holders(w.batch.accounts) <= Holders(v.batch.accounts)
                  && (Included(v.batch, mid, settling) ==> Kept(v.books, v.batch))
                  && (t.journalEntryId.None? ==> {t.payerFspId, t.payeeFspId} <= Holders(v.batch.accounts)))
  {
    hide JournalTransfer, AddBalance, StringToBigint, Decimals, Holders, Included;
    JournalledHolds(w.books, w.batch, t, currencies);
    JournalBatches(w.books, w.batch, t, currencies);
  }

  lemma JournalBatches(k: Books, b: Batch, t: Transfer, currencies: Currencies)
    ensures var j := JournalTransfer(k, b, t, currencies); j.books.batches == k.batches && j.batch.id == b.id
  {
    hide PostEntry, RefreshAccounts, Put;
  }

  lemma {:induction false} TurnsHold(w: Tally, ts: seq<Transfer>, mid: MatrixId, settling: bool, currencies: Currencies)
    requires TallyOk(w, currencies) && w.ok && AllPending(w.books, ts, w.batch)
    requires Kept(w.books, w.batch) && Included(w.batch, mid, settling)
    ensures var v := TallyTransfers(w, ts, mid, settling, currencies);
            && OnlyThis(w.books, v.books, w.batch.id)
            && (v.ok ==>
                  && v.batch.id == w.batch.id && Kept(v.books, v.batch)
                  && Holders(w.batch.accounts) <= Holders(v.batch.accounts)
                  && forall i :: 0 <= i < |ts| && ts[i].journalEntryId.None? ==>
                       {ts[i].payerFspId, ts[i].payeeFspId} <= Holders(v.batch.accounts))
    decreases |ts|
  {
    hide TallyTransfer, TallyOk, SameCore, Holders, Kept, AllPending;
    if ts != [] {
      var u, rest := TallyTransfer(w, ts[0], mid, settling, currencies), ts[1..];
      assert Pending(w.books, ts[0], w.batch) by { FirstPending(w.books, ts, w.batch); }
      TallyTransferKeeps(w, ts[0], mid, settling, currencies);
      TurnHolds(w, ts[0], mid, settling, currencies);
      if u.ok {
        RestPending(w.books, ts, w.batch, u.books, u.batch);
        TurnsHold(u, rest, mid, settling, currencies);
        assert forall i :: 0 < i < |ts| ==> ts[i] == rest[i - 1];
      }
    }
  }

  lemma FirstPending(k: Books, ts: seq<Transfer>, b: Batch)
    requires AllPending(k, ts, b) && ts != []
    ensures Pending(k, ts[0], b)
  {
  }

  // ----- all batches

  lemma {:induction false} TurnsTouchOnly(w: Tally, ts: seq<Transfer>, mid: MatrixId, settling: bool,
                                          currencies: Currencies)
    ensures OnlyThis(w.books, TallyTransfers(w, ts, mid, settling, currencies).books, w.batch.id)
    decreases |ts|
  {
    hide TallyTransfer;
    if ts != [] && w.ok {
      TurnTouchesOnly(w, ts[0], mid, settling, currencies);
      TurnsTouchOnly(TallyTransfer(w, ts[0], mid, settling, currencies), ts[1..], mid, settling, currencies);
    }
  }

  lemma TurnTouchesOnly(w: Tally, t: Transfer, mid: MatrixId, settling: bool, currencies: Currencies)
    ensures var v := TallyTransfer(w, t, mid, settling, currencies);
            v.batch.id == w.batch.id && OnlyThis(w.books, v.books, w.batch.id)
  {
    hide JournalTransfer, AddBalance, StringToBigint, Decimals, Included;
    JournalBatches(w.books, w.batch, t, currencies);
  }

  lemma BatchTouchesOnly(p: Progress, b: Batch, mid: MatrixId, settling: bool, currencies: Currencies)
    ensures OnlyThis(p.books, RecalculateBatch(p, b, mid, settling, currencies).books, b.id)
  {
    hide TallyTransfers, TransfersOf;
    TurnsTouchOnly(Tally(p.books, b, p.tables, 0, 0, true), TransfersOf(p.books, b.id), mid, settling, currencies);
  }

  /** The transfers that are not journalled yet have both parties among the holders of the stored batch. */
  ghost predicate HoldsFor(k: Books, id: string, ts: seq<Transfer>)
  {
    && id in k.batches.docs
    && forall i :: 0 <= i < |ts| && ts[i].journalEntryId.None? ==>
         {ts[i].payerFspId, ts[i].payeeFspId} <= Holders(k.batches.docs[id].accounts)
  }

  lemma BatchHolds(p: Progress, b: Batch, mid: MatrixId, settling: bool, currencies: Currencies)
    requires BooksOk(p.books, currencies) && Listed(p.books, b) && Kept(p.books, b) && Included(b, mid, settling)
    ensures var q := RecalculateBatch(p, b, mid, settling, currencies);
            q.ok ==> HoldsFor(q.books, b.id, TransfersOf(p.books, b.id))
  {
    hide BooksOk, TransfersOf, AccountsOk, TallyTransfers, Holders, AllPending, Included;
    TransfersPending(p.books, b, currencies);
    TurnsHold(Tally(p.books, b, p.tables, 0, 0, true), TransfersOf(p.books, b.id), mid, settling, currencies);
  }

  ghost predicate AllKept(k: Books, bs: seq<Batch>)
  {
    forall i :: 0 <= i < |bs| ==> Kept(k, bs[i])
  }

  lemma RestKept(k: Books, l: Books, bs: seq<Batch>, ids: set<string>)
    requires AllKept(k, bs) && bs != [] && OnlyThis(k, l, bs[0].id) && Distinct(bs, ids)
    ensures AllKept(l, bs[1..])
  {
    hide Holders;
    var rest := bs[1..];
    forall i | 0 <= i < |rest| ensures Kept(l, rest[i]) {
      assert rest[i] == bs[i + 1] && Kept(k, bs[i + 1]);
    }
  }

  lemma {:induction false} LoopTouchesOnly(p: Progress, bs: seq<Batch>, mid: MatrixId, settling: bool,
                                           currencies: Currencies, id: string)
    requires id in p.books.batches.docs && forall i :: 0 <= i < |bs| ==> bs[i].id != id
    ensures var q := RecalculateBatches(p, bs, mid, settling, currencies);
            id in q.books.batches.docs && q.books.batches.docs[id] == p.books.batches.docs[id]
    decreases |bs|
  {
    hide RecalculateBatch;
    if bs != [] && p.ok {
      BatchTouchesOnly(p, bs[0], mid, settling, currencies);
      LoopTouchesOnly(RecalculateBatch(p, bs[0], mid, settling, currencies), bs[1..], mid, settling, currencies, id);
    }
  }

  lemma {:induction false} LoopHolds(p: Progress, bs: seq<Batch>, k: Books, ids: set<string>, mid: MatrixId,
                                     settling: bool, currencies: Currencies, i: nat)
    requires BooksOk(p.books, currencies) && p.ok && AllListed(p.books, bs) && Distinct(bs, ids) && AllKept(p.books, bs)
    requires StillListed(k, p.books, bs) && i < |bs| && Included(bs[i], mid, settling)
    ensures var q := RecalculateBatches(p, bs, mid, settling, currencies);
            q.ok ==> HoldsFor(q.books, bs[i].id, TransfersOf(k, bs[i].id))
    decreases |bs|
  {
    hide BooksOk, Listed, RecalculateBatch, SameCore, With, AllListed, TransfersOf, StillListed, OthersKept, Included,
         AllKept, Kept, OnlyThis, HoldsFor, RowOf;
    var b, rest := bs[0], bs[1..];
    var u := RecalculateBatch(p, b, mid, settling, currencies);
    FirstListed(p.books, bs);
    DistinctTail(bs, ids, mid, settling);
    RecalculateBatchKeeps(p, b, mid, settling, currencies);
    BatchTouchesOnly(p, b, mid, settling, currencies);
    RecalculateBatchLists(p, b, mid, settling, currencies);
    RestStillListed(k, p.books, u.books, bs, ids);
    if u.ok {
      if i == 0 {
        assert Kept(p.books, b) by { FirstKept(p.books, bs); }
        BatchHolds(p, b, mid, settling, currencies);
        HeldToTheEnd(u, rest, mid, settling, currencies, b.id, TransfersOf(k, b.id));
      } else {
        AllListedTail(p.books, bs);
        AllListedStays(p.books, u.books, rest);
        RestKept(p.books, u.books, bs, ids);
        LoopHolds(u, rest, k, With(ids, b, mid, settling), mid, settling, currencies, i - 1);
      }
    }
  }

  lemma FirstKept(k: Books, bs: seq<Batch>)
    requires AllKept(k, bs) && bs != []
    ensures Kept(k, bs[0])
  {
  }

  lemma HeldToTheEnd(u: Progress, rest: seq<Batch>, mid: MatrixId, settling: bool, currencies: Currencies, id: string,
                     ts: seq<Transfer>)
    requires HoldsFor(u.books, id, ts) && forall i :: 0 <= i < |rest| ==> rest[i].id != id
    ensures HoldsFor(RecalculateBatches(u, rest, mid, settling, currencies).books, id, ts)
  {
    hide RecalculateBatches, Holders;
    LoopTouchesOnly(u, rest, mid, settling, currencies, id);
  }

  /** After a recalculation that completes, the stored batch of every transfer it journalled and counted has an account
      for its payer and one for its payee. */
  lemma PartiesHaveAccounts(k: Books, m: Matrix, settling: bool, x: string, currencies: Currencies)
    requires BooksOk(k, currencies) && Recalculate(k, m, settling, currencies).matrix.Some?
    requires x in k.transfers.docs && k.transfers.docs[x].journalEntryId == None
    requires k.transfers.docs[x].batchId in CountedIds(k, m, settling)
    ensures var l, t := Recalculate(k, m, settling, currencies).books, k.transfers.docs[x];
            && t.batchId in l.batches.docs
            && var accounts := l.batches.docs[t.batchId].accounts;
               && (exists i :: 0 <= i < |accounts| && accounts[i].participantId == t.payerFspId)
               && (exists i :: 0 <= i < |accounts| && accounts[i].participantId == t.payeeFspId)
  {
    hide BooksOk, SelectedBatches, SelectedIds, RecalculateBatches, AllListed, Distinct, Listed, Selection, StillListed,
         RefreshBatches, TransfersOf, AllKept, SameBatch;
    var keys, rs := SelectionOf(k, m, currencies);
    var t := k.transfers.docs[x];
    var i := CountedAt(k, m, settling, rs, keys, t.batchId);
    SelectionCounted(k, m, rs, keys, settling);
    AllStillListed(k, rs);
    RefreshedKept(k, m, rs, currencies);
    LoopHolds(Progress(k, [], NoBalances, true), rs, k, {}, m.id, settling, currencies, i);
    var j := ListedAt(k, x, currencies);
    Among(Recalculate(k, m, settling, currencies).books, t, TransfersOf(k, t.batchId), j);
  }

  lemma CountedAt(k: Books, m: Matrix, settling: bool, rs: seq<Batch>, keys: seq<string>, id: string) returns (i: nat)
    requires Selection(k, m, rs, keys) && id in CountedIds(k, m, settling)
    ensures i < |rs| && rs[i].id == id && Included(rs[i], m.id, settling)
  {
    hide SelectedIds;
    assert id in keys;
    i :| 0 <= i < |keys| && keys[i] == id;
  }

  lemma ListedAt(k: Books, x: string, currencies: Currencies) returns (j: nat)
    requires BooksOk(k, currencies) && x in k.transfers.docs
    ensures var ts := TransfersOf(k, k.transfers.docs[x].batchId); j < |ts| && ts[j] == k.transfers.docs[x]
  {
    hide BooksOk, Pick, Records, Select, ValidRepo, NoDuplicates;
    TransfersRepoOk(k, currencies);
    var id := k.transfers.docs[x].batchId;
    var keys := SelectExact(k.transfers, IdsInBatch(k.transfers.docs, id));
    assert x in keys;
    j :| 0 <= j < |keys| && keys[j] == x;
  }

  lemma Among(l: Books, t: Transfer, ts: seq<Transfer>, j: nat)
    requires j < |ts| && ts[j] == t && t.journalEntryId.None? && HoldsFor(l, t.batchId, ts)
    ensures var accounts := l.batches.docs[t.batchId].accounts;
            && (exists i :: 0 <= i < |accounts| && accounts[i].participantId == t.payerFspId)
            && (exists i :: 0 <= i < |accounts| && accounts[i].participantId == t.payeeFspId)
  {
  }

  lemma RefreshedKept(k: Books, m: Matrix, rs: seq<Batch>, currencies: Currencies)
    requires BooksOk(k, currencies) && RefreshBatches(SelectedBatches(k, m), k.ledger, currencies) == Some(rs)
    ensures AllKept(k, rs)
  {
    hide BooksOk, SelectedBatches, SelectedIds, RefreshBatches, Holders, AllListed;
    var keys := SelectionListed(k, m, currencies);
    RefreshedSame(SelectedBatches(k, m), rs, k.ledger, currencies);
    forall i | 0 <= i < |rs| ensures Kept(k, rs[i]) {
      assert SelectedBatches(k, m)[i] == k.batches.docs[keys[i]];
    }
  }

  lemma {:induction false} RefreshedSame(bs: seq<Batch>, rs: seq<Batch>, l: Ledger, currencies: Currencies)
    requires RefreshBatches(bs, l, currencies) == Some(rs)
    ensures |rs| == |bs|
    ensures forall i :: 0 <= i < |bs| ==> rs[i].id == bs[i].id && Holders(rs[i].accounts) == Holders(bs[i].accounts)
  {
    hide RefreshAccounts, Holders;
    if bs != [] {
      RefreshedHolds(bs[0].accounts, l, currencies);
      SameHolders(bs[0].accounts, rs[0].accounts);
      RefreshedSame(bs[1..], rs[1..], l, currencies);
    }
  }
}
