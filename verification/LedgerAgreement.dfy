/** The ledger and the transfers tell the same story: what was posted is what the journalled transfers say. */
module LedgerAgreement {
  import opened Common
  import opened Sums
  import opened Model
  import opened Converters
  import opened MatrixTables
  import opened Repositories
  import opened Ledgers
  import opened Recalculation
  import opened BookKeeping

  /** One participant, or everybody. */
  type Party = Option<string>

  predicate Is(who: Party, participantId: string)
  {
    who.None? || who.value == participantId
  }

  // ----- what the accounts say

  predicate Holds(a: LedgerAccount, who: Party, code: string)
  {
    Is(who, a.ownerId) && a.currencyCode == code
  }

  function DebitsHeld(accounts: seq<LedgerAccount>, who: Party, code: string): map<int, int>
  {
    map i | 0 <= i < |accounts| && Holds(accounts[i], who, code) :: accounts[i].postedDebit
  }

  function CreditsHeld(accounts: seq<LedgerAccount>, who: Party, code: string): map<int, int>
  {
    map i | 0 <= i < |accounts| && Holds(accounts[i], who, code) :: accounts[i].postedCredit
  }

  // ----- what the journalled transfers say

  predicate Entered(docs: map<string, Transfer>, x: string)
  {
    x in docs && docs[x].journalEntryId.Some?
  }

  predicate Paid(t: Transfer, who: Party, code: string)
  {
    t.journalEntryId.Some? && Is(who, t.payerFspId) && t.currencyCode == code
  }

  predicate Received(t: Transfer, who: Party, code: string)
  {
    t.journalEntryId.Some? && Is(who, t.payeeFspId) && t.payerFspId != t.payeeFspId && t.currencyCode == code
  }

  function AmountsPaid(docs: map<string, Transfer>, who: Party, code: string, currencies: Currencies): map<string, int>
  {
    map x | x in docs && Paid(docs[x], who, code) :: Amount(docs[x], currencies)
  }

  /** An entry with the same account on both sides is only debited, so nobody receives from themselves. */
  function AmountsReceived(docs: map<string, Transfer>, who: Party, code: string, currencies: Currencies)
    : map<string, int>
  {
    map x | x in docs && Received(docs[x], who, code) :: Amount(docs[x], currencies)
  }

  ghost predicate PostingsFor(l: Ledger, docs: map<string, Transfer>, who: Party, code: string, currencies: Currencies)
  {
    && MapSum(DebitsHeld(l.accounts, who, code)) == MapSum(AmountsPaid(docs, who, code, currencies))
    && MapSum(CreditsHeld(l.accounts, who, code)) == MapSum(AmountsReceived(docs, who, code, currencies))
  }

  /** Per participant and currency, and in all: posted debits are amounts paid, posted credits amounts received. */
  ghost predicate PostingsAgree(l: Ledger, docs: map<string, Transfer>, currencies: Currencies)
  {
    forall who: Party, code: string :: PostingsFor(l, docs, who, code, currencies)
  }

  /** The entry moves the amount of the transfer from an account of its payer to one of its payee. */
  ghost predicate EntryFits(e: JournalEntry, l: Ledger, docs: map<string, Transfer>, batches: map<string, Batch>)
  {
    && Entered(docs, e.id)
    && var t := docs[e.id];
       && e.amount == t.amount && e.currencyCode == t.currencyCode
       && t.batchId in batches && e.ownerId == batches[t.batchId].batchUUID
       && Known(l, e.debitedAccountId, t.payerFspId, t.currencyCode)
       && Known(l, e.creditedAccountId, t.payeeFspId, t.currencyCode)
  }

  /** Every journalled transfer has exactly one entry, and there are no other entries. */
  ghost predicate JournalAgrees(l: Ledger, docs: map<string, Transfer>, batches: map<string, Batch>)
  {
    && (forall i, j :: 0 <= i < j < |l.journal| ==> l.journal[i].id != l.journal[j].id)
    && (forall i :: 0 <= i < |l.journal| ==> EntryFits(l.journal[i], l, docs, batches))
    && (forall x :: Entered(docs, x) ==> HasEntry(l, x))
  }

  ghost predicate HasEntry(l: Ledger, x: string)
  {
    exists i :: 0 <= i < |l.journal| && l.journal[i].id == x
  }

  ghost predicate Agrees(k: Books, currencies: Currencies)
  {
    PostingsAgree(k.ledger, k.transfers.docs, currencies) && JournalAgrees(k.ledger, k.transfers.docs, k.batches.docs)
  }

  // ----- opening accounts and posting

  lemma NewAccountHolds(accounts: seq<LedgerAccount>, a: LedgerAccount, who: Party, code: string)
    requires a.postedDebit == 0 && a.postedCredit == 0
    ensures MapSum(DebitsHeld(accounts + [a], who, code)) == MapSum(DebitsHeld(accounts, who, code))
    ensures MapSum(CreditsHeld(accounts + [a], who, code)) == MapSum(CreditsHeld(accounts, who, code))
  {
    var n := |accounts|;
    var d, c := DebitsHeld(accounts, who, code), CreditsHeld(accounts, who, code);
    var d1, c1 := DebitsHeld(accounts + [a], who, code), CreditsHeld(accounts + [a], who, code);
    if Is(who, a.ownerId) && a.currencyCode == code {
      assert d1 == d[n := 0];
      assert c1 == c[n := 0];
      MapSumInsert(d, n, 0);
      MapSumInsert(c, n, 0);
    } else {
      assert d1 == d;
      assert c1 == c;
    }
  }

  /** Posting debits exactly the account debited. */
  lemma PostDebits(accounts: seq<LedgerAccount>, debited: nat, credited: nat, amount: int, i: nat, who: Party,
                   code: string)
    requires i < |accounts| && accounts[i].id == debited
    requires forall j :: 0 <= j < |accounts| && j != i ==> accounts[j].id != debited
    ensures MapSum(DebitsHeld(PostAll(accounts, debited, credited, amount), who, code))
            == MapSum(DebitsHeld(accounts, who, code)) + (if Holds(accounts[i], who, code) then amount else 0)
  {
    var after := PostAll(accounts, debited, credited, amount);
    forall j | 0 <= j < |accounts|
      ensures Holds(after[j], who, code) <==> Holds(accounts[j], who, code)
      ensures after[j].postedDebit == accounts[j].postedDebit + if j == i then amount else 0
    {
      assert after[j] == PostTo(accounts[j], debited, credited, amount);
    }
    hide PostAll, Holds;
    var d, d1 := DebitsHeld(accounts, who, code), DebitsHeld(after, who, code);
    assert d1.Keys == d.Keys;
    if Holds(accounts[i], who, code) {
      assert d1 == d[i := d[i] + amount];
      MapSumUpdate(d, i, d[i] + amount);
    } else {
      assert d1 == d;
    }
  }

  /** Posting credits exactly the account credited, unless that is the one debited. */
  lemma PostCredits(accounts: seq<LedgerAccount>, debited: nat, credited: nat, amount: int, i: nat, who: Party,
                    code: string)
    requires i < |accounts| && accounts[i].id == credited
    requires forall j :: 0 <= j < |accounts| && j != i ==> accounts[j].id != credited
    ensures MapSum(CreditsHeld(PostAll(accounts, debited, credited, amount), who, code))
            == MapSum(CreditsHeld(accounts, who, code))
               + (if debited != credited && Holds(accounts[i], who, code) then amount else 0)
  {
    var after := PostAll(accounts, debited, credited, amount);
    forall j | 0 <= j < |accounts|
      ensures Holds(after[j], who, code) <==> Holds(accounts[j], who, code)
      ensures after[j].postedCredit == accounts[j].postedCredit + if j == i && debited != credited then amount else 0
    {
      assert after[j] == PostTo(accounts[j], debited, credited, amount);
    }
    hide PostAll, Holds;
    var c, c1 := CreditsHeld(accounts, who, code), CreditsHeld(after, who, code);
    assert c1.Keys == c.Keys;
    if debited != credited && Holds(accounts[i], who, code) {
      assert c1 == c[i := c[i] + amount];
      MapSumUpdate(c, i, c[i] + amount);
    } else {
      assert c1 == c;
    }
  }

  /** A transfer that is not journalled does not count yet. */
  lemma FilledCounts(t: Transfer, who: Party, code: string, currencies: Currencies)
    requires t.journalEntryId.None?
    ensures !Paid(t, who, code) && !Received(t, who, code)
    ensures Paid(Filled(t), who, code) <==> Is(who, t.payerFspId) && t.currencyCode == code
    ensures Received(Filled(t), who, code)
            <==> t.payerFspId != t.payeeFspId && Is(who, t.payeeFspId) && t.currencyCode == code
    ensures Amount(Filled(t), currencies) == Amount(t, currencies)
  {
  }

  /** Journalling a transfer adds its amount to what was paid and received. */
  lemma EnteredAmounts(docs: map<string, Transfer>, x: string, who: Party, code: string, currencies: Currencies)
    requires x in docs && docs[x].journalEntryId.None?
    ensures var t, more := docs[x], docs[x := Filled(docs[x])];
            && MapSum(AmountsPaid(more, who, code, currencies)) == MapSum(AmountsPaid(docs, who, code, currencies))
               + (if Is(who, t.payerFspId) && t.currencyCode == code then Amount(t, currencies) else 0)
            && MapSum(AmountsReceived(more, who, code, currencies))
               == MapSum(AmountsReceived(docs, who, code, currencies))
                  + (if t.payerFspId != t.payeeFspId && Is(who, t.payeeFspId) && t.currencyCode == code
                     then Amount(t, currencies) else 0)
  {
    hide Amount, Paid, Received, Filled, AmountsPaid, AmountsReceived;
    FilledCounts(docs[x], who, code, currencies);
    EnteredPaid(docs, x, who, code, currencies);
    EnteredReceived(docs, x, who, code, currencies);
  }

  lemma EnteredPaid(docs: map<string, Transfer>, x: string, who: Party, code: string, currencies: Currencies)
    requires x in docs && docs[x].journalEntryId.None?
    ensures var t := docs[x];
            MapSum(AmountsPaid(docs[x := Filled(t)], who, code, currencies))
            == MapSum(AmountsPaid(docs, who, code, currencies))
               + (if Paid(Filled(t), who, code) then Amount(t, currencies) else 0)
  {
    hide Amount, Paid, Filled;
    var t := docs[x];
    FilledCounts(t, who, code, currencies);
    var p, p1 := AmountsPaid(docs, who, code, currencies), AmountsPaid(docs[x := Filled(t)], who, code, currencies);
    if Paid(Filled(t), who, code) {
      assert p1 == p[x := Amount(t, currencies)];
      MapSumInsert(p, x, Amount(t, currencies));
    } else {
      assert p1 == p;
    }
  }

  lemma EnteredReceived(docs: map<string, Transfer>, x: string, who: Party, code: string, currencies: Currencies)
    requires x in docs && docs[x].journalEntryId.None?
    ensures var t := docs[x];
            MapSum(AmountsReceived(docs[x := Filled(t)], who, code, currencies))
            == MapSum(AmountsReceived(docs, who, code, currencies))
               + (if Received(Filled(t), who, code) then Amount(t, currencies) else 0)
  {
    hide Amount, Received, Filled;
    var t := docs[x];
    FilledCounts(t, who, code, currencies);
    var r := AmountsReceived(docs, who, code, currencies);
    var r1 := AmountsReceived(docs[x := Filled(t)], who, code, currencies);
    if Received(Filled(t), who, code) {
      assert r1 == r[x := Amount(t, currencies)];
      MapSumInsert(r, x, Amount(t, currencies));
    } else {
      assert r1 == r;
    }
  }

  // ----- journalling one transfer

  lemma FoundIn(accounts: seq<BatchAccount>, a: BatchAccount)
    requires FindBatchAccount(accounts, a.participantId, a.currencyCode).None?
    ensures FindBatchAccount(accounts + [a], a.participantId, a.currencyCode) == Some(a)
  {
    if accounts != [] {
      FoundIn(accounts[1..], a);
      assert (accounts + [a])[1..] == accounts[1..] + [a];
    }
  }

  /** Opening an account twice for one participant finds it again. */
  lemma OpenedAgain(k: Books, b: Batch, participantId: string)
    ensures var o := OpenAccount(k, b, participantId);
            OpenAccount(o.books, o.batch, participantId) == Opened(o.books, o.batch, o.accountId, false)
  {
    match FindBatchAccount(b.accounts, participantId, b.currencyCode)
    case Some(a) =>
    case None => FoundIn(b.accounts, BatchAccount(k.nextId, participantId, b.currencyCode, "0", "0"));
  }

  /** An account belongs to one owner. */
  lemma OneOwner(l: Ledger, nextId: nat, id: nat, p: string, q: string, c: string, e: string)
    requires LedgerOk(l, nextId) && Known(l, id, p, c) && Known(l, id, q, e)
    ensures p == q && c == e
  {
    var i :| 0 <= i < |l.accounts| && l.accounts[i].id == id && l.accounts[i].ownerId == p
        && l.accounts[i].currencyCode == c;
    var j :| 0 <= j < |l.accounts| && l.accounts[j].id == id && l.accounts[j].ownerId == q
        && l.accounts[j].currencyCode == e;
    assert i == j;
  }

  lemma OpenPostings(k: Books, b: Batch, participantId: string, docs: map<string, Transfer>, currencies: Currencies)
    requires PostingsAgree(k.ledger, docs, currencies)
    ensures PostingsAgree(OpenAccount(k, b, participantId).books.ledger, docs, currencies)
  {
    hide DebitsHeld, CreditsHeld, AmountsPaid, AmountsReceived;
    var o := OpenAccount(k, b, participantId);
    if o.added {
      forall who: Party, code: string ensures PostingsFor(o.books.ledger, docs, who, code, currencies) {
        assert PostingsFor(k.ledger, docs, who, code, currencies);
        NewAccountHolds(k.ledger.accounts, LedgerAccount(k.nextId, participantId, b.currencyCode, 0, 0), who, code);
      }
    } else {
      assert o.books.ledger == k.ledger;
    }
  }

  /** A posted entry and the journalled transfer keep the sums together. */
  lemma PostPostings(l: Ledger, nextId: nat, docs: map<string, Transfer>, x: string, debited: nat, credited: nat,
      currencies: Currencies)
    requires PostingsAgree(l, docs, currencies) && LedgerOk(l, nextId)
    requires x in docs && docs[x].journalEntryId.None? && docs[x].transferId == x
    requires Known(l, debited, docs[x].payerFspId, docs[x].currencyCode)
        && Known(l, credited, docs[x].payeeFspId, docs[x].currencyCode)
    requires debited == credited <==> docs[x].payerFspId == docs[x].payeeFspId
    ensures PostingsAgree(Ledger(PostAll(l.accounts, debited, credited, Amount(docs[x], currencies)), l.journal),
                          docs[x := Filled(docs[x])], currencies)
  {
    hide DebitsHeld, CreditsHeld, AmountsPaid, AmountsReceived, Amount, PostAll;
    var t := docs[x];
    var i :| 0 <= i < |l.accounts| && l.accounts[i].id == debited && l.accounts[i].ownerId == t.payerFspId
             && l.accounts[i].currencyCode == t.currencyCode;
    var j :| 0 <= j < |l.accounts| && l.accounts[j].id == credited && l.accounts[j].ownerId == t.payeeFspId
             && l.accounts[j].currencyCode == t.currencyCode;
    var after := Ledger(PostAll(l.accounts, debited, credited, Amount(t, currencies)), l.journal);
    var more := docs[x := Filled(t)];
    forall who: Party, code: string ensures PostingsFor(after, more, who, code, currencies) {
      assert PostingsFor(l, docs, who, code, currencies);
      PostDebits(l.accounts, debited, credited, Amount(t, currencies), i, who, code);
      PostCredits(l.accounts, debited, credited, Amount(t, currencies), j, who, code);
      EnteredAmounts(docs, x, who, code, currencies);
    }
  }

  /** The new entry is the only one for its transfer. */
  lemma AppendedJournal(l: Ledger, m: Ledger, docs: map<string, Transfer>, batches: map<string, Batch>, e: JournalEntry)
    requires JournalAgrees(l, docs, batches) && LedgerGrows(l, m) && m.journal == l.journal + [e]
    requires e.id in docs && docs[e.id].journalEntryId.None? && docs[e.id].transferId == e.id
    requires EntryFits(e, m, docs[e.id := Filled(docs[e.id])], batches)
    ensures JournalAgrees(m, docs[e.id := Filled(docs[e.id])], batches)
  {
    hide Known, LedgerGrows;
    var more := docs[e.id := Filled(docs[e.id])];
    forall i | 0 <= i < |l.journal| ensures l.journal[i].id != e.id && EntryFits(m.journal[i], m, more, batches) {
      assert EntryFits(l.journal[i], l, docs, batches);
      var t := docs[l.journal[i].id];
      KnownGrows(l, m, l.journal[i].debitedAccountId, t.payerFspId, t.currencyCode);
      KnownGrows(l, m, l.journal[i].creditedAccountId, t.payeeFspId, t.currencyCode);
    }
    forall x | Entered(more, x) ensures HasEntry(m, x) {
      if x == e.id {
        assert m.journal[|l.journal|].id == x;
      } else {
        assert Entered(docs, x);
        var i :| 0 <= i < |l.journal| && l.journal[i].id == x;
        assert m.journal[i].id == x;
      }
    }
  }

  /** Both accounts are there, belong to payer and payee, and are one exactly when those are. */
  lemma BothOpened(k: Books, b: Batch, t: Transfer, currencies: Currencies)
    requires BooksOk(k, currencies) && AccountsOk(b.accounts, k.ledger, b.currencyCode)
    ensures var payer := OpenAccount(k, b, t.payerFspId);
            var payee := OpenAccount(payer.books, payer.batch, t.payeeFspId);
            var l := payee.books.ledger;
            && LedgerOk(l, payee.books.nextId) && LedgerGrows(k.ledger, l) && l.journal == k.ledger.journal
            && Known(l, payer.accountId, t.payerFspId, b.currencyCode)
                && Known(l, payee.accountId, t.payeeFspId, b.currencyCode)
            && (payer.accountId == payee.accountId <==> t.payerFspId == t.payeeFspId)
            && payee.books.transfers == k.transfers && payee.books.batches == k.batches
  {
    hide OpenAccount, LedgerOk, Known, BooksOk, AccountsOk;
    var payer := OpenAccount(k, b, t.payerFspId);
    OpenAccountOk(k, b, t.payerFspId, currencies);
    var payee := OpenAccount(payer.books, payer.batch, t.payeeFspId);
    OpenAccountOk(payer.books, payer.batch, t.payeeFspId, currencies);
    BooksLedgerOk(payee.books, currencies);
    KnownGrows(payer.books.ledger, payee.books.ledger, payer.accountId, t.payerFspId, b.currencyCode);
    if t.payerFspId == t.payeeFspId {
      OpenedAgain(k, b, t.payerFspId);
    } else if payer.accountId == payee.accountId {
      OneOwner(payee.books.ledger, payee.books.nextId, payee.accountId, t.payerFspId, t.payeeFspId, b.currencyCode,
          b.currencyCode);
    }
  }

  lemma JournalTransferAgrees(k: Books, b: Batch, t: Transfer, currencies: Currencies)
    requires BooksOk(k, currencies) && AccountsOk(b.accounts, k.ledger, b.currencyCode) && Agrees(k, currencies)
    requires b.id in k.batches.docs && SameBatch(k.batches.docs[b.id], b)
    requires Pending(k, t, b) && t.journalEntryId.None?
    ensures Agrees(JournalTransfer(k, b, t, currencies).books, currencies)
  {
    hide BooksOk, AccountsOk, OpenAccount, PostEntry, LedgerOk, Known, LedgerGrows, PostingsAgree, JournalAgrees,
         RefreshAccounts, StringToBigint, Decimals, Amount;
    PendingOk(k, b, t, currencies);
    PostOk(k, b, t, currencies);
    BothOpened(k, b, t, currencies);
    JournalOk(k, b, t, currencies);
    var payer := OpenAccount(k, b, t.payerFspId);
    var payee := OpenAccount(payer.books, payer.batch, t.payeeFspId);
    OpenPostings(k, b, t.payerFspId, k.transfers.docs, currencies);
    OpenPostings(payer.books, payer.batch, t.payeeFspId, k.transfers.docs, currencies);
    PostPostings(payee.books.ledger, payee.books.nextId, k.transfers.docs, t.transferId, payer.accountId,
        payee.accountId, currencies);
    var e := EntryFor(b, t, payer.accountId, payee.accountId);
    var l := PostEntry(payee.books.ledger, e, currencies).value;
    PostedLedger(payee.books.ledger, e, t, currencies);
    KnownGrows(payee.books.ledger, l, payer.accountId, t.payerFspId, b.currencyCode);
    KnownGrows(payee.books.ledger, l, payee.accountId, t.payeeFspId, b.currencyCode);
    AppendedJournal(k.ledger, l, k.transfers.docs, k.batches.docs, e);
    JournalIgnored(Ledger(l.accounts, payee.books.ledger.journal), l, k.transfers.docs[t.transferId := Filled(t)],
                   currencies);
  }

  lemma JournalIgnored(l: Ledger, m: Ledger, docs: map<string, Transfer>, currencies: Currencies)
    requires PostingsAgree(l, docs, currencies) && l.accounts == m.accounts
    ensures PostingsAgree(m, docs, currencies)
  {
    hide DebitsHeld, CreditsHeld, AmountsPaid, AmountsReceived;
    forall who: Party, code: string ensures PostingsFor(m, docs, who, code, currencies) {
      assert PostingsFor(l, docs, who, code, currencies);
    }
  }

  lemma PostedLedger(l: Ledger, e: JournalEntry, t: Transfer, currencies: Currencies)
    requires e.amount == t.amount && e.currencyCode == t.currencyCode && PostEntry(l, e, currencies).Some?
    ensures PostEntry(l, e, currencies)
            == Some(Ledger(PostAll(l.accounts, e.debitedAccountId, e.creditedAccountId, Amount(t, currencies)),
                l.journal + [e]))
    ensures LedgerGrows(l, PostEntry(l, e, currencies).value)
  {
    hide StringToBigint, Decimals;
  }

  // ----- the loops

  /** Entries name their batch by its unique id, which nothing changes. */
  ghost predicate SameUuids(a: map<string, Batch>, b: map<string, Batch>)
  {
    forall id :: id in a ==> id in b && b[id].batchUUID == a[id].batchUUID
  }

  lemma BatchesIgnored(l: Ledger, docs: map<string, Transfer>, a: map<string, Batch>, b: map<string, Batch>)
    requires JournalAgrees(l, docs, a) && SameUuids(a, b)
    ensures JournalAgrees(l, docs, b)
  {
    hide Known, HasEntry;
    forall i | 0 <= i < |l.journal| ensures EntryFits(l.journal[i], l, docs, b) {
      assert EntryFits(l.journal[i], l, docs, a);
    }
  }

  lemma TallyTransferAgrees(w: Tally, t: Transfer, mid: MatrixId, settling: bool, currencies: Currencies)
    requires TallyOk(w, currencies) && w.ok && Pending(w.books, t, w.batch) && Agrees(w.books, currencies)
    ensures Agrees(TallyTransfer(w, t, mid, settling, currencies).books, currencies)
  {
    hide BooksOk, AccountsOk, AddBalance, StringToBigint, Decimals, JournalTransfer, PostingsAgree, JournalAgrees,
         SameTransfers, LedgerGrows;
    JournalIfNeededOk(w, t, currencies);
    if t.journalEntryId.None? {
      JournalTransferAgrees(w.books, w.batch, t, currencies);
    }
    var j := JournalIfNeeded(w.books, w.batch, t, currencies);
    BatchesIgnored(j.books.ledger, j.books.transfers.docs, j.books.batches.docs,
        Put(j.books.batches, j.batch.id, j.batch).docs);
  }

  lemma {:induction false} TallyTransfersAgree(w: Tally, ts: seq<Transfer>, mid: MatrixId, settling: bool,
      currencies: Currencies)
    requires TallyOk(w, currencies) && w.ok && AllPending(w.books, ts, w.batch) && Agrees(w.books, currencies)
    ensures Agrees(TallyTransfers(w, ts, mid, settling, currencies).books, currencies)
    decreases |ts|
  {
    hide TallyTransfer, TallyOk, SameCore, SameBatch, Agrees;
    if ts != [] {
      assert Pending(w.books, ts[0], w.batch);
      TallyTransferKeeps(w, ts[0], mid, settling, currencies);
      TallyTransferAgrees(w, ts[0], mid, settling, currencies);
      var u := TallyTransfer(w, ts[0], mid, settling, currencies);
      if u.ok {
        RestPending(w.books, ts, w.batch, u.books, u.batch);
        TallyTransfersAgree(u, ts[1..], mid, settling, currencies);
      }
    }
  }

  lemma RecalculateBatchAgrees(p: Progress, b: Batch, mid: MatrixId, settling: bool, currencies: Currencies)
    requires BooksOk(p.books, currencies) && Listed(p.books, b) && Agrees(p.books, currencies)
    ensures Agrees(RecalculateBatch(p, b, mid, settling, currencies).books, currencies)
  {
    hide BooksOk, AllPending, TransfersOf, AccountsOk, Agrees, TallyTransfers;
    TransfersPending(p.books, b, currencies);
    TallyTransfersAgree(Tally(p.books, b, p.tables, 0, 0, true), TransfersOf(p.books, b.id), mid, settling, currencies);
  }

  lemma {:induction false} RecalculateBatchesAgree(p: Progress, bs: seq<Batch>, mid: MatrixId, settling: bool,
      currencies: Currencies)
    requires BooksOk(p.books, currencies) && p.ok && AllListed(p.books, bs) && Agrees(p.books, currencies)
    ensures Agrees(RecalculateBatches(p, bs, mid, settling, currencies).books, currencies)
    decreases |bs|
  {
    hide BooksOk, Listed, RecalculateBatch, Agrees, SameCore;
    if bs != [] {
      assert Listed(p.books, bs[0]);
      RecalculateBatchKeeps(p, bs[0], mid, settling, currencies);
      RecalculateBatchAgrees(p, bs[0], mid, settling, currencies);
      var u := RecalculateBatch(p, bs[0], mid, settling, currencies);
      if u.ok {
        AllListedTail(p.books, bs);
        AllListedStays(p.books, u.books, bs[1..]);
        RecalculateBatchesAgree(u, bs[1..], mid, settling, currencies);
      }
    }
  }

  /** Every recalculation, completed or not, keeps ledger and transfers together. */
  lemma RecalculateAgrees(k: Books, m: Matrix, settling: bool, currencies: Currencies)
    requires BooksOk(k, currencies) && Agrees(k, currencies)
    ensures Agrees(Recalculate(k, m, settling, currencies).books, currencies)
  {
    hide BooksOk, Listed, SelectedBatches, RecalculateBatches, Agrees;
    var keys := SelectionListed(k, m, currencies);
    var bs := SelectedBatches(k, m);
    RefreshBatchesOk(k, bs, currencies);
    RecalculateBatchesAgree(Progress(k, [], NoBalances, true), RefreshBatches(bs, k.ledger, currencies).value, m.id,
        settling, currencies);
  }
}
