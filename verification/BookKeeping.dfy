/** What every recalculation keeps: the records stay consistent, and apart from batch accounts, journal
    entries and the ledger nothing changes. */
module BookKeeping {
  import opened Common
  import opened Model
  import opened Converters
  import opened MatrixTables
  import opened Repositories
  import opened Ledgers
  import opened Recalculation

  ghost predicate Known(l: Ledger, id: nat, ownerId: string, currencyCode: string)
  {
    exists i :: 0 <= i < |l.accounts| && l.accounts[i].id == id && l.accounts[i].ownerId == ownerId
                && l.accounts[i].currencyCode == currencyCode
  }

  ghost predicate LedgerOk(l: Ledger, nextId: nat)
  {
    && (forall i :: 0 <= i < |l.accounts| ==> l.accounts[i].id < nextId)
    && (forall i, j :: 0 <= i < j < |l.accounts| ==> l.accounts[i].id != l.accounts[j].id)
  }

  ghost predicate OnePerParticipant(accounts: seq<BatchAccount>)
  {
    forall i, j :: 0 <= i < j < |accounts| ==> accounts[i].participantId != accounts[j].participantId
  }

  /** The accounts of a batch are accounts of their participants in the ledger, one for each. */
  ghost predicate AccountsOk(accounts: seq<BatchAccount>, l: Ledger, currencyCode: string)
  {
    && OnePerParticipant(accounts)
    && forall i :: 0 <= i < |accounts| ==>
         accounts[i].currencyCode == currencyCode
         && Known(l, accounts[i].accountExtId, accounts[i].participantId, currencyCode)
  }

  ghost predicate BatchOk(b: Batch, id: string, l: Ledger, currencies: Currencies)
  {
    b.id == id && b.currencyCode in currencies && AccountsOk(b.accounts, l, b.currencyCode)
  }

  /** The amount of a transfer in the smallest unit of its currency. */
  function Amount(t: Transfer, currencies: Currencies): int
  {
    match StringToBigint(t.amount, Decimals(currencies, t.currencyCode))
    case Ok(v) => v
    case Err(_) => 0
  }

  ghost predicate TransferOk(t: Transfer, x: string, batches: map<string, Batch>, currencies: Currencies)
  {
    && t.transferId == x
    && t.batchId in batches && t.batchName == batches[t.batchId].batchName
    && t.currencyCode == batches[t.batchId].currencyCode
    && StringToBigint(t.amount, Decimals(currencies, t.currencyCode)).Ok? && Amount(t, currencies) > 0
    && (t.journalEntryId.Some? ==> t.journalEntryId == Some(x))
  }

  ghost predicate BooksOk(k: Books, currencies: Currencies)
  {
    && ValidRepo(k.batches) && ValidRepo(k.transfers)
    && LedgerOk(k.ledger, k.nextId)
    && (forall id :: id in k.batches.docs ==> BatchOk(k.batches.docs[id], id, k.ledger, currencies))
    && (forall x :: x in k.transfers.docs ==> TransferOk(k.transfers.docs[x], x, k.batches.docs, currencies))
  }

  // ----- what stays the same

  /** Only the accounts of the batch may differ. */
  predicate SameBatch(b: Batch, c: Batch)
  {
    c == b.(accounts := c.accounts)
  }

  /** Only a missing journal entry may have been filled in. */
  predicate SameTransfer(t: Transfer, u: Transfer)
  {
    u == t.(journalEntryId := u.journalEntryId) && (t.journalEntryId.Some? ==> u == t)
  }

  ghost predicate SameBatches(a: map<string, Batch>, b: map<string, Batch>)
  {
    a.Keys == b.Keys && forall id :: id in a ==> SameBatch(a[id], b[id])
  }

  ghost predicate SameTransfers(a: map<string, Transfer>, b: map<string, Transfer>)
  {
    a.Keys == b.Keys && forall x :: x in a ==> SameTransfer(a[x], b[x])
  }

  /** Accounts are only added, and keep their owner and currency. */
  ghost predicate LedgerGrows(l: Ledger, m: Ledger)
  {
    && |l.accounts| <= |m.accounts|
    && forall i :: 0 <= i < |l.accounts| ==>
         m.accounts[i].id == l.accounts[i].id && m.accounts[i].ownerId == l.accounts[i].ownerId
         && m.accounts[i].currencyCode == l.accounts[i].currencyCode
  }

  ghost predicate SameCore(k: Books, l: Books)
  {
    && SameBatches(k.batches.docs, l.batches.docs)
    && SameTransfers(k.transfers.docs, l.transfers.docs)
    && k.nextId <= l.nextId && LedgerGrows(k.ledger, l.ledger)
  }

  lemma SameCoreTransitive(a: Books, b: Books, c: Books)
    requires SameCore(a, b) && SameCore(b, c)
    ensures SameCore(a, c)
  {
    forall id | id in a.batches.docs ensures SameBatch(a.batches.docs[id], c.batches.docs[id]) {
      assert SameBatch(a.batches.docs[id], b.batches.docs[id]);
      assert SameBatch(b.batches.docs[id], c.batches.docs[id]);
    }
    forall x | x in a.transfers.docs ensures SameTransfer(a.transfers.docs[x], c.transfers.docs[x]) {
      assert SameTransfer(a.transfers.docs[x], b.transfers.docs[x]);
      assert SameTransfer(b.transfers.docs[x], c.transfers.docs[x]);
    }
  }

  // ----- the ledger grows

  lemma KnownGrows(l: Ledger, m: Ledger, id: nat, ownerId: string, currencyCode: string)
    requires LedgerGrows(l, m) && Known(l, id, ownerId, currencyCode)
    ensures Known(m, id, ownerId, currencyCode)
  {
    var i :| 0 <= i < |l.accounts| && l.accounts[i].id == id && l.accounts[i].ownerId == ownerId
             && l.accounts[i].currencyCode == currencyCode;
    assert m.accounts[i].id == id;
  }

  lemma AccountsOkGrows(accounts: seq<BatchAccount>, l: Ledger, m: Ledger, currencyCode: string)
    requires LedgerGrows(l, m) && AccountsOk(accounts, l, currencyCode)
    ensures AccountsOk(accounts, m, currencyCode)
  {
    forall i | 0 <= i < |accounts| ensures Known(m, accounts[i].accountExtId, accounts[i].participantId, currencyCode) {
      KnownGrows(l, m, accounts[i].accountExtId, accounts[i].participantId, currencyCode);
    }
  }

  /** A larger ledger keeps the books consistent. */
  lemma BooksOkGrows(k: Books, m: Ledger, nextId: nat, currencies: Currencies)
    requires BooksOk(k, currencies) && LedgerGrows(k.ledger, m) && LedgerOk(m, nextId)
    ensures BooksOk(k.(ledger := m, nextId := nextId), currencies)
  {
    hide Known, ValidRepo, TransferOk;
    forall id | id in k.batches.docs ensures BatchOk(k.batches.docs[id], id, m, currencies) {
      AccountsOkGrows(k.batches.docs[id].accounts, k.ledger, m, k.batches.docs[id].currencyCode);
    }
  }

  // ----- opening accounts

  lemma {:induction false} NotFound(accounts: seq<BatchAccount>, participantId: string, currencyCode: string)
    requires FindBatchAccount(accounts, participantId, currencyCode).None?
    ensures forall i :: 0 <= i < |accounts| && accounts[i].currencyCode == currencyCode ==>
              accounts[i].participantId != participantId
  {
    if accounts != [] {
      var rest := accounts[1..];
      NotFound(rest, participantId, currencyCode);
      assert forall i :: 0 < i < |accounts| ==> accounts[i] == rest[i - 1];
    }
  }

  lemma OpenAccountOk(k: Books, b: Batch, participantId: string, currencies: Currencies)
    requires BooksOk(k, currencies) && AccountsOk(b.accounts, k.ledger, b.currencyCode)
    ensures var o := OpenAccount(k, b, participantId);
            && BooksOk(o.books, currencies) && LedgerGrows(k.ledger, o.books.ledger)
            && o.books.batches == k.batches && o.books.transfers == k.transfers && k.nextId <= o.books.nextId
            && o.books.ledger.journal == k.ledger.journal
            && SameBatch(b, o.batch) && (!o.added ==> o.batch == b)
            && AccountsOk(o.batch.accounts, o.books.ledger, b.currencyCode)
            && Known(o.books.ledger, o.accountId, participantId, b.currencyCode)
  {
    var o := OpenAccount(k, b, participantId);
    match FindBatchAccount(b.accounts, participantId, b.currencyCode)
    case Some(a) =>
      var i :| 0 <= i < |b.accounts| && b.accounts[i] == a;
      assert b.accounts[i].participantId == participantId;
    case None =>
      var n := |k.ledger.accounts|;
      NotFound(b.accounts, participantId, b.currencyCode);
      assert o.books.ledger.accounts[n].id == k.nextId;
      BooksOkGrows(k, o.books.ledger, k.nextId + 1, currencies);
      AccountsOkGrows(b.accounts, k.ledger, o.books.ledger, b.currencyCode);
      assert Known(o.books.ledger, k.nextId, participantId, b.currencyCode);
  }

  lemma {:induction false} FoundWhenKnown(accounts: seq<LedgerAccount>, i: nat)
    requires i < |accounts|
    ensures FindAccount(accounts, accounts[i].id).Some?
  {
    assert accounts[i] in accounts;
  }

  /** Known accounts can always be refreshed, and only their balances change. */
  lemma {:induction false} RefreshOk(accounts: seq<BatchAccount>, l: Ledger, currencyCode: string,
                                     currencies: Currencies)
    requires AccountsOk(accounts, l, currencyCode)
    ensures RefreshAccounts(accounts, l, currencies).Some?
    ensures AccountsOk(RefreshAccounts(accounts, l, currencies).value, l, currencyCode)
    ensures var r := RefreshAccounts(accounts, l, currencies).value;
            |r| == |accounts| && forall i :: 0 <= i < |r| ==> r[i].participantId == accounts[i].participantId
  {
    hide Printed, Decimals, FindAccount;
    if accounts != [] {
      assert Known(l, accounts[0].accountExtId, accounts[0].participantId, currencyCode);
      var i :| 0 <= i < |l.accounts| && l.accounts[i].id == accounts[0].accountExtId;
      FoundWhenKnown(l.accounts, i);
      RefreshOk(accounts[1..], l, currencyCode, currencies);
    }
  }

  // ----- journalling one transfer

  lemma PostEntryOk(l: Ledger, nextId: nat, e: JournalEntry, currencies: Currencies)
    requires LedgerOk(l, nextId)
    ensures PostEntry(l, e, currencies).Some? <==> StringToBigint(e.amount, Decimals(currencies, e.currencyCode)).Ok?
    ensures PostEntry(l, e, currencies).Some? ==>
              LedgerGrows(l, PostEntry(l, e, currencies).value) && LedgerOk(PostEntry(l, e, currencies).value, nextId)
  {
    hide StringToBigint;
  }

  /** Storing a transfer with its journal entry keeps the books. */
  lemma StoreJournalled(k: Books, x: string, t1: Transfer, currencies: Currencies)
    requires BooksOk(k, currencies) && x in k.transfers.docs && SameTransfer(k.transfers.docs[x], t1)
    requires t1.journalEntryId == Some(x)
    ensures BooksOk(k.(transfers := Put(k.transfers, x, t1)), currencies)
    ensures SameCore(k, k.(transfers := Put(k.transfers, x, t1)))
  {
    hide StringToBigint, BatchOk;
    PutValid(k.transfers, x, t1);
    var t := k.transfers.docs[x];
    assert TransferOk(t, x, k.batches.docs, currencies);
    assert t1 == t.(journalEntryId := Some(x));
    assert Amount(t1, currencies) == Amount(t, currencies);
    assert TransferOk(t1, x, k.batches.docs, currencies);
  }

  ghost predicate TallyOk(w: Tally, currencies: Currencies)
  {
    && BooksOk(w.books, currencies)
    && w.batch.id in w.books.batches.docs && SameBatch(w.books.batches.docs[w.batch.id], w.batch)
    && AccountsOk(w.batch.accounts, w.books.ledger, w.batch.currencyCode)
  }

  ghost predicate Pending(k: Books, t: Transfer, b: Batch)
  {
    t.transferId in k.transfers.docs && k.transfers.docs[t.transferId] == t && t.batchId == b.id
  }

  /** Both accounts are opened and the entry is posted. */
  lemma PostOk(k: Books, b: Batch, t: Transfer, currencies: Currencies)
    requires BooksOk(k, currencies) && AccountsOk(b.accounts, k.ledger, b.currencyCode)
    requires StringToBigint(t.amount, Decimals(currencies, b.currencyCode)).Ok?
    ensures var payer := OpenAccount(k, b, t.payerFspId);
            var payee := OpenAccount(payer.books, payer.batch, t.payeeFspId);
            var posted := PostEntry(payee.books.ledger, EntryFor(b, t, payer.accountId, payee.accountId), currencies);
            && posted.Some? && BooksOk(payee.books.(ledger := posted.value), currencies)
            && payee.books.batches == k.batches && payee.books.transfers == k.transfers
            && k.nextId <= payee.books.nextId
            && LedgerGrows(k.ledger, posted.value)
            && SameBatch(b, payee.batch) && (!payer.added && !payee.added ==> payee.batch == b)
            && AccountsOk(payee.batch.accounts, posted.value, b.currencyCode)
  {
    hide StringToBigint, OpenAccount, PostEntry, LedgerOk, Known, ValidRepo, BooksOk, RefreshAccounts, Decimals;
    var payer := OpenAccount(k, b, t.payerFspId);
    OpenAccountOk(k, b, t.payerFspId, currencies);
    var payee := OpenAccount(payer.books, payer.batch, t.payeeFspId);
    OpenAccountOk(payer.books, payer.batch, t.payeeFspId, currencies);
    var e := EntryFor(b, t, payer.accountId, payee.accountId);
    BooksLedgerOk(payee.books, currencies);
    PostEntryOk(payee.books.ledger, payee.books.nextId, e, currencies);
    var l := PostEntry(payee.books.ledger, e, currencies).value;
    BooksOkGrows(payee.books, l, payee.books.nextId, currencies);
    AccountsOkGrows(payee.batch.accounts, payee.books.ledger, l, b.currencyCode);
  }

  /** A journal entry can always be made for a stored transfer, and only that transfer is updated. */
  lemma JournalOk(k: Books, b: Batch, t: Transfer, currencies: Currencies)
    requires BooksOk(k, currencies) && AccountsOk(b.accounts, k.ledger, b.currencyCode)
    requires b.id in k.batches.docs && SameBatch(k.batches.docs[b.id], b)
    requires Pending(k, t, b) && t.journalEntryId.None?
    ensures var j := JournalTransfer(k, b, t, currencies);
            && j.ok && BooksOk(j.books, currencies) && SameCore(k, j.books)
            && j.books.batches == k.batches && SameBatch(b, j.batch)
            && AccountsOk(j.batch.accounts, j.books.ledger, b.currencyCode)
            && j.books.transfers == Put(k.transfers, t.transferId, t.(journalEntryId := Some(t.transferId)))
  {
    hide StringToBigint, OpenAccount, PostEntry, LedgerOk, Known, ValidRepo, BooksOk, RefreshAccounts, Decimals,
         TransferOk, AccountsOk, LedgerGrows;
    PendingOk(k, b, t, currencies);
    PostOk(k, b, t, currencies);
    var payer := OpenAccount(k, b, t.payerFspId);
    var payee := OpenAccount(payer.books, payer.batch, t.payeeFspId);
    var l := PostEntry(payee.books.ledger, EntryFor(b, t, payer.accountId, payee.accountId), currencies).value;
    var k1, t1 := payee.books.(ledger := l), t.(journalEntryId := Some(t.transferId));
    StoreJournalled(k1, t.transferId, t1, currencies);
    RefreshOk(payee.batch.accounts, l, b.currencyCode, currencies);
    SameCoreTransitive(k, k1, k1.(transfers := Put(k.transfers, t.transferId, t1)));
  }

  lemma PendingOk(k: Books, b: Batch, t: Transfer, currencies: Currencies)
    requires BooksOk(k, currencies) && Pending(k, t, b)
    requires b.id in k.batches.docs && SameBatch(k.batches.docs[b.id], b)
    ensures t.batchName == b.batchName && t.currencyCode == b.currencyCode
    ensures StringToBigint(t.amount, Decimals(currencies, b.currencyCode)).Ok? && Amount(t, currencies) > 0
  {
    assert TransferOk(t, t.transferId, k.batches.docs, currencies);
  }

  lemma BooksLedgerOk(k: Books, currencies: Currencies)
    requires BooksOk(k, currencies)
    ensures LedgerOk(k.ledger, k.nextId)
  {
  }

  // ----- the loop over the transfers of a batch

  function Filled(t: Transfer): Transfer
  {
    t.(journalEntryId := Some(t.transferId))
  }

  lemma JournalIfNeededOk(w: Tally, t: Transfer, currencies: Currencies)
    requires TallyOk(w, currencies) && Pending(w.books, t, w.batch)
    ensures var j := JournalIfNeeded(w.books, w.batch, t, currencies);
            && j.ok && BooksOk(j.books, currencies) && SameCore(w.books, j.books)
            && j.books.batches == w.books.batches && SameBatch(w.batch, j.batch)
            && AccountsOk(j.batch.accounts, j.books.ledger, w.batch.currencyCode)
            && j.books.transfers.docs == w.books.transfers.docs[t.transferId := Filled(t)]
  {
    hide JournalTransfer, BooksOk;
    if t.journalEntryId.None? {
      JournalOk(w.books, w.batch, t, currencies);
    } else {
      PendingFilled(w.books, w.batch, t, currencies);
    }
  }

  lemma PendingFilled(k: Books, b: Batch, t: Transfer, currencies: Currencies)
    requires BooksOk(k, currencies) && Pending(k, t, b) && t.journalEntryId.Some?
    ensures Filled(t) == t && k.transfers.docs == k.transfers.docs[t.transferId := Filled(t)]
  {
    assert TransferOk(t, t.transferId, k.batches.docs, currencies);
  }

  /** Storing a batch with new accounts keeps the books. */
  lemma StoreAccounts(k: Books, b: Batch, currencies: Currencies)
    requires BooksOk(k, currencies) && b.id in k.batches.docs && SameBatch(k.batches.docs[b.id], b)
    requires AccountsOk(b.accounts, k.ledger, b.currencyCode)
    ensures BooksOk(k.(batches := Put(k.batches, b.id, b)), currencies)
    ensures SameCore(k, k.(batches := Put(k.batches, b.id, b)))
  {
    hide AccountsOk, StringToBigint, Decimals;
    PutValid(k.batches, b.id, b);
    var docs := Put(k.batches, b.id, b).docs;
    assert BatchOk(k.batches.docs[b.id], b.id, k.ledger, currencies);
    forall x | x in k.transfers.docs ensures TransferOk(k.transfers.docs[x], x, docs, currencies) {
      assert TransferOk(k.transfers.docs[x], x, k.batches.docs, currencies);
    }
  }

  /** One turn of the loop keeps the books whatever becomes of the tables. */
  lemma TallyTransferKeeps(w: Tally, t: Transfer, mid: MatrixId, settling: bool, currencies: Currencies)
    requires TallyOk(w, currencies) && w.ok && Pending(w.books, t, w.batch)
    ensures var v := TallyTransfer(w, t, mid, settling, currencies);
            && TallyOk(v, currencies) && SameCore(w.books, v.books) && SameBatch(w.batch, v.batch)
            && v.books.transfers.docs == w.books.transfers.docs[t.transferId := Filled(t)]
  {
    hide AddBalance, StringToBigint, JournalIfNeeded, BooksOk, AccountsOk, SameCore, Decimals;
    JournalIfNeededOk(w, t, currencies);
    var j := JournalIfNeeded(w.books, w.batch, t, currencies);
    if j.added {
      StoreAccounts(j.books, j.batch, currencies);
      SameCoreTransitive(w.books, j.books, j.books.(batches := Put(j.books.batches, j.batch.id, j.batch)));
    }
  }

  ghost predicate AllPending(k: Books, ts: seq<Transfer>, b: Batch)
  {
    && (forall i :: 0 <= i < |ts| ==> Pending(k, ts[i], b))
    && (forall i, j :: 0 <= i < j < |ts| ==> ts[i].transferId != ts[j].transferId)
  }

  lemma RestPending(k: Books, ts: seq<Transfer>, b: Batch, l: Books, c: Batch)
    requires AllPending(k, ts, b) && ts != [] && SameBatch(b, c)
    requires l.transfers.docs == k.transfers.docs[ts[0].transferId := Filled(ts[0])]
    ensures AllPending(l, ts[1..], c)
  {
    var rest := ts[1..];
    assert forall i :: 0 <= i < |rest| ==> rest[i] == ts[i + 1];
    forall i | 0 <= i < |rest| ensures Pending(l, rest[i], c) {
      assert Pending(k, ts[i + 1], b);
    }
  }

  /** The loop over the transfers keeps the books, and when it completes all of them are journalled. */
  lemma {:induction false} TallyTransfersKeep(w: Tally, ts: seq<Transfer>, mid: MatrixId, settling: bool,
      currencies: Currencies)
    requires TallyOk(w, currencies) && w.ok && AllPending(w.books, ts, w.batch)
    ensures var v := TallyTransfers(w, ts, mid, settling, currencies);
            && TallyOk(v, currencies) && SameCore(w.books, v.books) && SameBatch(w.batch, v.batch)
            && (v.ok ==> AllJournalled(v.books, ts))
    decreases |ts|
  {
    hide TallyTransfer, TallyOk, SameCore, SameBatch;
    if ts == [] {
      SameCoreReflexive(w);
    } else {
      var u := TallyTransfer(w, ts[0], mid, settling, currencies);
      assert Pending(w.books, ts[0], w.batch);
      TallyTransferKeeps(w, ts[0], mid, settling, currencies);
      if u.ok {
        RestPending(w.books, ts, w.batch, u.books, u.batch);
        TallyTransfersKeep(u, ts[1..], mid, settling, currencies);
        var v := TallyTransfers(u, ts[1..], mid, settling, currencies);
        SameCoreTransitive(w.books, u.books, v.books);
        SameBatchTransitive(w.batch, u.batch, v.batch);
        JournalledStays(ts, u.books, v.books);
      }
    }
  }

  ghost predicate AllJournalled(k: Books, ts: seq<Transfer>)
  {
    forall i :: 0 <= i < |ts| ==>
      ts[i].transferId in k.transfers.docs && k.transfers.docs[ts[i].transferId].journalEntryId.Some?
  }

  lemma JournalledStays(ts: seq<Transfer>, u: Books, v: Books)
    requires ts != [] && ts[0].transferId in u.transfers.docs && u.transfers.docs[ts[0].transferId].journalEntryId.Some?
    requires SameCore(u, v)
    ensures AllJournalled(v, ts[1..]) ==> AllJournalled(v, ts)
  {
    assert SameTransfer(u.transfers.docs[ts[0].transferId], v.transfers.docs[ts[0].transferId]);
    var rest := ts[1..];
    assert forall i :: 0 < i < |ts| ==> ts[i] == rest[i - 1];
  }

  lemma SameCoreReflexive(w: Tally)
    ensures SameCore(w.books, w.books) && SameBatch(w.batch, w.batch)
  {
  }

  lemma SameBatchTransitive(a: Batch, b: Batch, c: Batch)
    requires SameBatch(a, b) && SameBatch(b, c)
    ensures SameBatch(a, c)
  {
  }

  // ----- the loop over the batches

  ghost predicate Listed(k: Books, b: Batch)
  {
    b.id in k.batches.docs && SameBatch(k.batches.docs[b.id], b) && AccountsOk(b.accounts, k.ledger, b.currencyCode)
  }

  ghost predicate AllListed(k: Books, bs: seq<Batch>)
  {
    forall i :: 0 <= i < |bs| ==> Listed(k, bs[i])
  }

  lemma ListedStays(k: Books, l: Books, b: Batch)
    requires Listed(k, b) && SameCore(k, l)
    ensures Listed(l, b)
  {
    assert SameBatch(k.batches.docs[b.id], l.batches.docs[b.id]);
    AccountsOkGrows(b.accounts, k.ledger, l.ledger, b.currencyCode);
  }

  lemma AllListedStays(k: Books, l: Books, bs: seq<Batch>)
    requires AllListed(k, bs) && SameCore(k, l)
    ensures AllListed(l, bs)
  {
    forall i | 0 <= i < |bs| ensures Listed(l, bs[i]) {
      ListedStays(k, l, bs[i]);
    }
  }

  ghost predicate Lists(ts: seq<Transfer>, x: string)
  {
    exists i :: 0 <= i < |ts| && ts[i].transferId == x
  }

  ghost predicate ListsBatch(k: Books, ts: seq<Transfer>, batchId: string)
  {
    forall x :: x in k.transfers.docs && k.transfers.docs[x].batchId == batchId ==> Lists(ts, x)
  }

  lemma StoredUnderItsId(k: Books, x: string, currencies: Currencies)
    requires BooksOk(k, currencies) && x in k.transfers.docs
    ensures k.transfers.docs[x].transferId == x
  {
    assert TransferOk(k.transfers.docs[x], x, k.batches.docs, currencies);
  }

  lemma TransfersRepoOk(k: Books, currencies: Currencies)
    requires BooksOk(k, currencies)
    ensures ValidRepo(k.transfers) && ValidRepo(k.batches)
  {
  }

  /** The transfers of a batch are listed once each, as stored. */
  lemma TransfersPending(k: Books, b: Batch, currencies: Currencies)
    requires BooksOk(k, currencies)
    ensures AllPending(k, TransfersOf(k, b.id), b) && ListsBatch(k, TransfersOf(k, b.id), b.id)
  {
    hide BooksOk, Pick, Records, Select, ValidRepo, NoDuplicates;
    TransfersRepoOk(k, currencies);
    var keys := SelectExact(k.transfers, IdsInBatch(k.transfers.docs, b.id));
    var ts := TransfersOf(k, b.id);
    assert |ts| == |keys|;
    forall i | 0 <= i < |ts| ensures ts[i].transferId == keys[i] && Pending(k, ts[i], b) {
      assert keys[i] in keys;
      StoredUnderItsId(k, keys[i], currencies);
    }
    KeysApart(keys);
    forall x | x in k.transfers.docs && k.transfers.docs[x].batchId == b.id ensures Lists(ts, x) {
      assert x in keys;
      var i :| 0 <= i < |keys| && keys[i] == x;
      assert ts[i].transferId == x;
    }
  }

  lemma KeysApart(keys: seq<string>)
    requires NoDuplicates(keys)
    ensures forall i, j :: 0 <= i < j < |keys| ==> keys[i] != keys[j]
  {
  }

  ghost predicate BatchJournalled(k: Books, batchId: string)
  {
    forall x :: x in k.transfers.docs && k.transfers.docs[x].batchId == batchId ==>
      k.transfers.docs[x].journalEntryId.Some?
  }

  lemma BatchJournalledStays(k: Books, l: Books, batchId: string)
    requires BatchJournalled(k, batchId) && SameCore(k, l)
    ensures BatchJournalled(l, batchId)
  {
    forall x | x in l.transfers.docs && l.transfers.docs[x].batchId == batchId
      ensures l.transfers.docs[x].journalEntryId.Some?
    {
      assert SameTransfer(k.transfers.docs[x], l.transfers.docs[x]);
    }
  }

  lemma JournalledBatch(k: Books, l: Books, ts: seq<Transfer>, batchId: string)
    requires SameCore(k, l) && AllJournalled(l, ts)
    requires ListsBatch(k, ts, batchId)
    ensures BatchJournalled(l, batchId)
  {
    forall x | x in l.transfers.docs && l.transfers.docs[x].batchId == batchId
      ensures l.transfers.docs[x].journalEntryId.Some?
    {
      assert SameTransfer(k.transfers.docs[x], l.transfers.docs[x]);
      assert Lists(ts, x);
      var i :| 0 <= i < |ts| && ts[i].transferId == x;
    }
  }

  /** One batch: the books are kept, and when it completes its transfers are journalled and its row is fresh. */
  lemma RecalculateBatchKeeps(p: Progress, b: Batch, mid: MatrixId, settling: bool, currencies: Currencies)
    requires BooksOk(p.books, currencies) && Listed(p.books, b)
    ensures var q := RecalculateBatch(p, b, mid, settling, currencies);
            && BooksOk(q.books, currencies) && SameCore(p.books, q.books)
            && (q.ok ==> BatchJournalled(q.books, b.id) && |q.rows| == |p.rows| + 1 && q.rows[..|p.rows|] == p.rows
                         && q.rows[|p.rows|].id == b.id && q.rows[|p.rows|].state == b.state)
  {
    hide BatchOk, TransferOk, ValidRepo, LedgerOk, AllPending, AllJournalled, TransfersOf, AccountsOk;
    assert BatchOk(p.books.batches.docs[b.id], b.id, p.books.ledger, currencies);
    CurrencyKnown(p.books, b, currencies);
    var ts, w := TransfersOf(p.books, b.id), Tally(p.books, b, p.tables, 0, 0, true);
    TransfersPending(p.books, b, currencies);
    TallyTransfersKeep(w, ts, mid, settling, currencies);
    var v := TallyTransfers(w, ts, mid, settling, currencies);
    if v.ok {
      JournalledBatch(p.books, v.books, ts, b.id);
    }
  }

  lemma CurrencyKnown(k: Books, b: Batch, currencies: Currencies)
    requires BooksOk(k, currencies) && Listed(k, b)
    ensures b.currencyCode in currencies
  {
    assert BatchOk(k.batches.docs[b.id], b.id, k.ledger, currencies);
  }

  // ----- the whole recalculation

  /** The rows of a recalculated matrix name these batches with their states, in this order. */
  ghost predicate RowsFor(rows: seq<MatrixBatch>, bs: seq<Batch>)
  {
    |rows| == |bs| && forall i :: 0 <= i < |bs| ==> rows[i].id == bs[i].id && rows[i].state == bs[i].state
  }

  lemma {:induction false} RecalculateBatchesKeep(p: Progress, bs: seq<Batch>, done: seq<Batch>, mid: MatrixId,
      settling: bool, currencies: Currencies)
    requires BooksOk(p.books, currencies) && p.ok && AllListed(p.books, bs)
    requires RowsFor(p.rows, done) && forall b :: b in done ==> BatchJournalled(p.books, b.id)
    ensures var q := RecalculateBatches(p, bs, mid, settling, currencies);
            && BooksOk(q.books, currencies) && SameCore(p.books, q.books)
            && (q.ok ==> RowsFor(q.rows, done + bs) && forall b :: b in done + bs ==> BatchJournalled(q.books, b.id))
    decreases |bs|
  {
    hide BooksOk, Listed, BatchJournalled, RecalculateBatch;
    if bs == [] {
      assert done + bs == done;
      SameCoreReflexive(Tally(p.books, Batch(0, "", 0, "", "", "", 0, OPEN, None, []), p.tables, 0, 0, true));
    } else {
      var b, rest := bs[0], bs[1..];
      assert Listed(p.books, b);
      RecalculateBatchKeeps(p, b, mid, settling, currencies);
      var u := RecalculateBatch(p, b, mid, settling, currencies);
      if u.ok {
        AllListedTail(p.books, bs);
        AllListedStays(p.books, u.books, rest);
        forall c | c in done ensures BatchJournalled(u.books, c.id) { BatchJournalledStays(p.books, u.books, c.id); }
        RowsForMore(p.rows, u.rows, done, b);
        RecalculateBatchesKeep(u, rest, done + [b], mid, settling, currencies);
        SameCoreTransitive(p.books, u.books, RecalculateBatches(u, rest, mid, settling, currencies).books);
        assert done + [b] + rest == done + bs;
      }
    }
  }

  lemma AllListedTail(k: Books, bs: seq<Batch>)
    requires AllListed(k, bs) && bs != []
    ensures AllListed(k, bs[1..])
  {
    var rest := bs[1..];
    forall i | 0 <= i < |rest| ensures Listed(k, rest[i]) {
      assert Listed(k, bs[i + 1]);
    }
  }

  lemma RowsForMore(rows: seq<MatrixBatch>, more: seq<MatrixBatch>, done: seq<Batch>, b: Batch)
    requires RowsFor(rows, done) && |more| == |rows| + 1 && more[..|rows|] == rows
    requires more[|rows|].id == b.id && more[|rows|].state == b.state
    ensures RowsFor(more, done + [b])
  {
    forall i | 0 <= i < |rows| ensures more[i].id == done[i].id && more[i].state == done[i].state {
      assert more[i] == more[..|rows|][i];
    }
  }

  lemma {:induction false} RefreshBatchesOk(k: Books, bs: seq<Batch>, currencies: Currencies)
    requires AllListed(k, bs)
    ensures RefreshBatches(bs, k.ledger, currencies).Some?
    ensures var rs := RefreshBatches(bs, k.ledger, currencies).value;
            AllListed(k, rs) && |rs| == |bs| && forall i :: 0 <= i < |bs| ==> SameBatch(bs[i], rs[i])
  {
    hide Known;
    if bs != [] {
      assert Listed(k, bs[0]);
      RefreshOk(bs[0].accounts, k.ledger, bs[0].currencyCode, currencies);
      AllListedTail(k, bs);
      RefreshBatchesOk(k, bs[1..], currencies);
    }
  }

  lemma StoredBatchListed(k: Books, id: string, currencies: Currencies)
    requires BooksOk(k, currencies) && id in k.batches.docs
    ensures Listed(k, k.batches.docs[id]) && k.batches.docs[id].id == id
  {
    assert BatchOk(k.batches.docs[id], id, k.ledger, currencies);
  }

  /** The selected batches, once each. */
  lemma SelectionListed(k: Books, m: Matrix, currencies: Currencies) returns (keys: seq<string>)
    requires BooksOk(k, currencies)
    ensures keys == Pick(k.batches.order, SelectedIds(k.batches.docs, m))
    ensures NoDuplicates(keys) && forall id :: id in keys <==> id in SelectedIds(k.batches.docs, m)
    ensures |SelectedBatches(k, m)| == |keys| && AllListed(k, SelectedBatches(k, m))
    ensures forall i :: 0 <= i < |keys| ==>
              keys[i] in k.batches.docs && SelectedBatches(k, m)[i] == k.batches.docs[keys[i]]
                                            && SelectedBatches(k, m)[i].id == keys[i]
  {
    hide BooksOk, Select, Pick, Records, Listed, ValidRepo, NoDuplicates;
    TransfersRepoOk(k, currencies);
    keys := SelectExact(k.batches, SelectedIds(k.batches.docs, m));
    forall i | 0 <= i < |keys|
      ensures Listed(k, SelectedBatches(k, m)[i]) && SelectedBatches(k, m)[i].id == keys[i]
    {
      StoredBatchListed(k, keys[i], currencies);
    }
    forall id | id in SelectedIds(k.batches.docs, m) ensures id in keys {}
  }

  /** The list of a matrix agrees with the stored batches: the ids are these, once each, with their states. */
  ghost predicate Fresh(rows: seq<MatrixBatch>, ids: set<string>, docs: map<string, Batch>)
  {
    && (forall i, j :: 0 <= i < j < |rows| ==> rows[i].id != rows[j].id)
    && (forall i :: 0 <= i < |rows| ==> rows[i].id in docs && rows[i].state == docs[rows[i].id].state)
    && RowIds(rows) == ids
  }

  /** A recalculation keeps the books; when it completes, the matrix lists exactly the selected batches with
      their stored states, and every transfer of theirs is journalled. */
  lemma RecalculateKeeps(k: Books, m: Matrix, settling: bool, currencies: Currencies)
    requires BooksOk(k, currencies)
    ensures var r := Recalculate(k, m, settling, currencies);
            && BooksOk(r.books, currencies) && SameCore(k, r.books)
            && (r.matrix.Some? ==>
                  && r.matrix.value == m.(batches := r.matrix.value.batches, tables := r.matrix.value.tables)
                  && Fresh(r.matrix.value.batches, SelectedIds(k.batches.docs, m), r.books.batches.docs)
                  && forall id :: id in SelectedIds(k.batches.docs, m) ==> BatchJournalled(r.books, id))
  {
    hide BooksOk, SelectedBatches, SelectedIds, RecalculateBatches, BatchJournalled, Fresh, SameCore, RefreshBatches;
    var rs := SelectionKeeps(k, m, settling, currencies);
  }

  /** The loop of a recalculation over the selected batches. */
  lemma SelectionKeeps(k: Books, m: Matrix, settling: bool, currencies: Currencies) returns (rs: seq<Batch>)
    requires BooksOk(k, currencies)
    ensures RefreshBatches(SelectedBatches(k, m), k.ledger, currencies) == Some(rs)
    ensures var p := RecalculateBatches(Progress(k, [], NoBalances, true), rs, m.id, settling, currencies);
            && BooksOk(p.books, currencies) && SameCore(k, p.books)
            && (p.ok ==>
                  && Fresh(p.rows, SelectedIds(k.batches.docs, m), p.books.batches.docs)
                  && forall id :: id in SelectedIds(k.batches.docs, m) ==> BatchJournalled(p.books, id))
  {
    hide BooksOk, SelectedBatches, SelectedIds, RecalculateBatches, BatchJournalled, Listed, AllListed, Fresh, SameCore,
         NoDuplicates, RefreshBatches, RowsFor;
    var keys := SelectionListed(k, m, currencies);
    var bs := SelectedBatches(k, m);
    RefreshBatchesOk(k, bs, currencies);
    rs := RefreshBatches(bs, k.ledger, currencies).value;
    NoRowsYet();
    RecalculateBatchesKeep(Progress(k, [], NoBalances, true), rs, [], m.id, settling, currencies);
    assert [] + rs == rs;
    var p := RecalculateBatches(Progress(k, [], NoBalances, true), rs, m.id, settling, currencies);
    if p.ok {
      FreshRows(p.rows, rs, keys, k, p.books, SelectedIds(k.batches.docs, m));
      AllSelected(rs, keys, SelectedIds(k.batches.docs, m), p.books);
    }
  }

  lemma NoRowsYet()
    ensures RowsFor([], [])
  {
  }

  lemma AllSelected(rs: seq<Batch>, keys: seq<string>, ids: set<string>, l: Books)
    requires |rs| == |keys| && forall i :: 0 <= i < |keys| ==> rs[i].id == keys[i]
    requires forall id :: id in keys <==> id in ids
    requires forall b :: b in rs ==> BatchJournalled(l, b.id)
    ensures forall id :: id in ids ==> BatchJournalled(l, id)
  {
    hide BatchJournalled;
    forall id | id in ids ensures BatchJournalled(l, id) {
      var i :| 0 <= i < |keys| && keys[i] == id;
      assert rs[i] in rs;
    }
  }

  lemma FreshRows(rows: seq<MatrixBatch>, rs: seq<Batch>, keys: seq<string>, k: Books, l: Books, ids: set<string>)
    requires RowsFor(rows, rs) && |rs| == |keys| && NoDuplicates(keys) && SameCore(k, l)
    requires forall i :: 0 <= i < |keys| ==>
            keys[i] in k.batches.docs && SameBatch(k.batches.docs[keys[i]], rs[i]) && rs[i].id == keys[i]
    requires forall id :: id in keys <==> id in ids
    ensures Fresh(rows, ids, l.batches.docs)
  {
    forall i | 0 <= i < |rows|
      ensures rows[i].id in l.batches.docs && rows[i].state == l.batches.docs[rows[i].id].state
    {
      assert SameBatch(k.batches.docs[keys[i]], l.batches.docs[keys[i]]);
    }
    forall id | id in ids ensures id in RowIds(rows) {
      var i :| 0 <= i < |keys| && keys[i] == id;
      assert rows[i].id == id;
    }
    forall id | id in RowIds(rows) ensures id in ids {
      var i :| 0 <= i < |rows| && rows[i].id == id;
      assert keys[i] in keys;
    }
  }
}
