/** A list of records with distinct keys is one way to hold a keyed collection. */
module KeyedLists {
  import opened Common
  import opened Repositories

  function Keys<K, V>(list: seq<V>, key: V -> K): (r: seq<K>)
    ensures |r| == |list| && forall i :: 0 <= i < |list| ==> r[i] == key(list[i])
  {
    seq(|list|, i requires 0 <= i < |list| => key(list[i]))
  }

  function Docs<K(==), V>(list: seq<V>, key: V -> K): map<K, V>
  {
    if list == [] then map[] else Docs(list[1..], key)[key(list[0]) := list[0]]
  }

  /** The keyed collection this list holds. */
  function RepoOf<K(==), V>(list: seq<V>, key: V -> K): Repo<K, V>
  {
    Repo(Docs(list, key), Keys(list, key))
  }

  ghost predicate DistinctKeys<K, V>(list: seq<V>, key: V -> K)
  {
    forall i, j :: 0 <= i < j < |list| ==> key(list[i]) != key(list[j])
  }

  lemma {:induction false} DocsHold<K(!new), V(!new)>(list: seq<V>, key: V -> K)
    requires DistinctKeys(list, key)
    ensures forall v :: v in list ==> key(v) in Docs(list, key) && Docs(list, key)[key(v)] == v
    ensures forall k :: k in Docs(list, key) ==> Docs(list, key)[k] in list && key(Docs(list, key)[k]) == k
  {
    if list != [] {
      var rest := list[1..];
      assert forall i :: 0 <= i < |rest| ==> rest[i] == list[i + 1];
      DocsHold(rest, key);
      forall v | v in rest ensures key(v) != key(list[0]) {
        var i :| 0 <= i < |rest| && rest[i] == v;
        assert key(list[i + 1]) != key(list[0]);
      }
      assert list == [list[0]] + rest;
    }
  }

  lemma {:induction false} WhereMembers<V(!new)>(list: seq<V>, p: V -> bool)
    ensures forall v :: v in Where(list, p) <==> v in list && p(v)
  {
    if list != [] {
      WhereMembers(list[1..], p);
      assert list == [list[0]] + list[1..];
    }
  }

  lemma {:induction false} DroppedKeys<K(!new), V(!new)>(list: seq<V>, key: V -> K, k: K, p: V -> bool)
    requires forall u :: u in list ==> (p(u) <==> key(u) != k)
    ensures Keys(Where(list, p), key) == Without(Keys(list, key), k)
  {
    if list != [] {
      var ks, rest := Keys(list, key), list[1..];
      assert forall u :: u in rest ==> u in list;
      DroppedKeys(rest, key, k, p);
      assert ks[1..] == Keys(rest, key);
      assert list[0] in list && ks[0] == key(list[0]);
      assert Without(ks, k) == (if ks[0] == k then [] else [ks[0]]) + Without(ks[1..], k);
    }
  }

  lemma KeysDistinct<K(!new), V(!new)>(list: seq<V>, key: V -> K)
    ensures DistinctKeys(list, key) <==> NoDuplicates(Keys(list, key))
  {
    var ks := Keys(list, key);
    if NoDuplicates(ks) {
      forall i, j | 0 <= i < j < |list| ensures key(list[i]) != key(list[j]) {
        assert ks[i] != ks[j];
      }
    }
  }

  /** Filtering and pushing replaces the record with this key, at the end of the list. */
  lemma StoreRefinesPut<K(!new), V(!new)>(list: seq<V>, key: V -> K, v: V, p: V -> bool)
    requires DistinctKeys(list, key) && forall u :: u in list ==> (p(u) <==> key(u) != key(v))
    ensures var more := Where(list, p) + [v];
            DistinctKeys(more, key) && RepoOf(more, key) == Put(RepoOf(list, key), key(v), v)
  {
    var kept := Where(list, p);
    var more := kept + [v];
    DroppedKeys(list, key, key(v), p);
    WhereMembers(list, p);
    KeysDistinct(list, key);
    WithoutNoDuplicates(Keys(list, key), key(v));
    KeysDistinct(kept, key);
    assert forall i :: 0 <= i < |kept| ==> kept[i] in kept;
    assert Keys(more, key) == Keys(kept, key) + [key(v)];
    PushedDocs(list, kept, key, v);
  }

  /** The documents after dropping the one with this key and pushing the new one. */
  lemma PushedDocs<K(!new), V(!new)>(list: seq<V>, kept: seq<V>, key: V -> K, v: V)
    requires DistinctKeys(list, key) && DistinctKeys(kept + [v], key)
    requires forall u :: u in kept <==> u in list && key(u) != key(v)
    ensures Docs(kept + [v], key) == Docs(list, key)[key(v) := v]
  {
    var more := kept + [v];
    DocsHold(list, key);
    DocsHold(more, key);
    hide DistinctKeys, Docs;
    var before, after := Docs(list, key), Docs(more, key);
    assert forall x :: x in more <==> x in kept || x == v;
    forall k ensures k in after <==> k in before || k == key(v) {
      if k in before && k != key(v) {
        assert before[k] in kept;
      }
      if k == key(v) {
        assert v in more;
      }
    }
    forall k | k in after ensures after[k] == before[key(v) := v][k] {
      if k == key(v) {
        assert v in more;
      } else {
        assert after[k] in list;
      }
    }
    assert after == before[key(v) := v];
  }

  lemma ListIsValid<K(!new), V(!new)>(list: seq<V>, key: V -> K)
    requires DistinctKeys(list, key)
    ensures ValidRepo(RepoOf(list, key))
  {
    KeysDistinct(list, key);
    DocsHold(list, key);
    var ks := Keys(list, key);
    forall k | k in ks ensures k in Docs(list, key) {
      var i :| 0 <= i < |ks| && ks[i] == k;
      assert list[i] in list;
    }
    forall k | k in Docs(list, key) ensures k in ks {
      var i :| 0 <= i < |list| && list[i] == Docs(list, key)[k];
      assert ks[i] == k;
    }
  }

  /** `filter`: the records that pass, in list order. */
  function Where<V>(list: seq<V>, p: V -> bool): seq<V>
  {
    if list == [] then [] else (if p(list[0]) then [list[0]] else []) + Where(list[1..], p)
  }

  lemma {:induction false} WhereRecords<K(!new),
      V(!new)>(list: seq<V>, key: V -> K, p: V -> bool, wanted: set<K>, docs: map<K, V>)
    requires forall v :: v in list ==> key(v) in docs && docs[key(v)] == v && (p(v) <==> key(v) in wanted)
    ensures Where(list, p) == Records(docs, Pick(Keys(list, key), wanted))
  {
    if list != [] {
      var ks, rest := Keys(list, key), list[1..];
      WhereRecords(rest, key, p, wanted, docs);
      assert ks[1..] == Keys(rest, key);
      assert list[0] in list && ks[0] == key(list[0]);
      if p(list[0]) {
        assert Pick(ks, wanted) == [ks[0]] + Pick(ks[1..], wanted);
        assert Pick(ks, wanted)[1..] == Pick(ks[1..], wanted);
      } else {
        assert Pick(ks, wanted) == Pick(ks[1..], wanted);
      }
    }
  }

  /** Filtering the list is selecting from the collection. */
  lemma FilterRefinesSelect<K(!new), V(!new)>(list: seq<V>, key: V -> K, p: V -> bool, wanted: set<K>)
    requires DistinctKeys(list, key)
    requires forall v :: v in list ==> (p(v) <==> key(v) in wanted)
    ensures Where(list, p) == Select(RepoOf(list, key), wanted)
  {
    DocsHold(list, key);
    WhereRecords(list, key, p, wanted, Docs(list, key));
  }

  lemma {:induction false} WhereAppend<V>(list: seq<V>, v: V, p: V -> bool)
    ensures Where(list + [v], p) == Where(list, p) + if p(v) then [v] else []
  {
    if list == [] {
      assert list + [v] == [v];
    } else {
      WhereAppend(list[1..], v, p);
      assert (list + [v])[1..] == list[1..] + [v];
    }
  }

  /** One more turn of a loop over a list. */
  lemma NextTurn<V>(list: seq<V>, i: nat, p: V -> bool)
    requires i < |list|
    ensures list[..i + 1] == list[..i] + [list[i]]
    ensures Where(list[..i + 1], p) == Where(list[..i], p) + if p(list[i]) then [list[i]] else []
  {
    assert list[..i + 1] == list[..i] + [list[i]];
    WhereAppend(list[..i], list[i], p);
  }
}

/** packages/shared-mocks-lib/src/repo: the stores, which keep their records in one list each. */
module Stores {
  import opened Common
  import opened Model
  import opened Repositories
  import opened KeyedLists
  import opened Recalculation
  import opened Commands

  function BatchKey(b: Batch): string { b.id }

  function TransferKey(t: Transfer): string { t.transferId }

  function MatrixKey(m: Matrix): MatrixId { m.id }

  lemma CriteriaOf(b: Batch, from: int, to: int, model: string, currencyCodes: seq<string>, batchStatuses: seq<string>)
    ensures MatchesCriteria(b, DYNAMIC(from, to, currencyCodes, model, batchStatuses)) <==>
              && from <= b.timestamp <= to && (model == "" || model == b.settlementModel)
              && (currencyCodes == [] || b.currencyCode in currencyCodes)
              && (batchStatuses == [] || StateName(b.state) in batchStatuses)
  {
  }

  class SettlementBatchRepo {
    var batches: seq<Batch>

    ghost predicate Valid()
      reads this
    {
      DistinctKeys(batches, BatchKey)
    }

    function View(): Repo<string, Batch>
      reads this
    {
      RepoOf(batches, BatchKey)
    }

    constructor ()
      ensures Valid() && View() == Repo(map[], [])
    {
      batches := [];
    }

    method UpdateBatch(b: Batch)
      requires Valid()
      modifies this
      ensures Valid() && View() == Put(old(View()), b.id, b)
    {
      var list, kept := batches, [];
      ghost var p := (u: Batch) => u.id != b.id;
      StoreRefinesPut(list, BatchKey, b, p);
      for i := 0 to |list|
        invariant kept == Where(list[..i], p)
      {
        NextTurn(list, i, p);
        if list[i].id != b.id {
          kept := kept + [list[i]];
        }
      }
      assert list[..|list|] == list;
      batches := kept + [b];
    }

    method StoreNewBatch(b: Batch)
      requires Valid()
      modifies this
      ensures Valid() && View() == Put(old(View()), b.id, b)
    {
      UpdateBatch(b);
    }

    method GetBatch(id: string) returns (r: Option<Batch>)
      requires Valid()
      ensures r == Find(View(), id)
    {
      DocsHold(batches, BatchKey);
      for i := 0 to |batches|
        invariant forall j :: 0 <= j < i ==> batches[j].id != id
      {
        if batches[i].id == id {
          assert batches[i] in batches;
          return Some(batches[i]);
        }
      }
      return None;
    }

    method GetBatchesByName(name: string) returns (r: seq<Batch>)
      requires Valid()
      ensures r == Select(View(), BatchesNamed(View().docs, name))
    {
      ghost var p := (u: Batch) => u.batchName == name;
      DocsHold(batches, BatchKey);
      FilterRefinesSelect(batches, BatchKey, p, BatchesNamed(View().docs, name));
      r := [];
      for i := 0 to |batches|
        invariant r == Where(batches[..i], p)
      {
        NextTurn(batches, i, p);
        if name == batches[i].batchName {
          r := r + [batches[i]];
        }
      }
      assert batches[..|batches|] == batches;
    }

    method GetBatchesByIds(ids: seq<string>) returns (r: seq<Batch>)
      requires Valid()
      ensures r == Select(View(), Includes(ids))
    {
      ghost var p := (u: Batch) => u.id in ids;
      FilterRefinesSelect(batches, BatchKey, p, Includes(ids));
      r := [];
      for i := 0 to |batches|
        invariant r == Where(batches[..i], p)
      {
        NextTurn(batches, i, p);
        if batches[i].id in ids {
          r := r + [batches[i]];
        }
      }
      assert batches[..|batches|] == batches;
    }

    method GetBatchesByCriteria(from: int, to: int, model: string, currencyCodes: seq<string>,
                                batchStatuses: seq<string>)
      returns (r: seq<Batch>)
      requires Valid()
      ensures var kind := DYNAMIC(from, to, currencyCodes, model, batchStatuses);
              r == Select(View(), set id | id in View().docs && MatchesCriteria(View().docs[id], kind))
    {
      ghost var kind := DYNAMIC(from, to, currencyCodes, model, batchStatuses);
      ghost var p := (u: Batch) => MatchesCriteria(u, kind);
      DocsHold(batches, BatchKey);
      hide MatchesFixed, MatchesStatus, StateName, Select;
      FilterRefinesSelect(batches, BatchKey, p, set id | id in View().docs && MatchesCriteria(View().docs[id], kind));
      r := [];
      for i := 0 to |batches|
        invariant r == Where(batches[..i], p)
      {
        NextTurn(batches, i, p);
        var b := batches[i];
        CriteriaOf(b, from, to, model, currencyCodes, batchStatuses);
        var currencyMatch := currencyCodes == [] || b.currencyCode in currencyCodes;
        var modelMatch := model == "" || model == b.settlementModel;
        var statusMatch := batchStatuses == [] || StateName(b.state) in batchStatuses;
        if from <= b.timestamp <= to && modelMatch && currencyMatch && statusMatch {
          r := r + [b];
        }
      }
      assert batches[..|batches|] == batches;
    }
  }

  class SettlementBatchTransferRepo {
    var list: seq<Transfer>

    ghost predicate Valid()
      reads this
    {
      DistinctKeys(list, TransferKey)
    }

    function View(): Repo<string, Transfer>
      reads this
    {
      RepoOf(list, TransferKey)
    }

    constructor ()
      ensures Valid() && View() == Repo(map[], [])
    {
      list := [];
    }

    method StoreBatchTransfer(t: Transfer)
      requires Valid()
      modifies this
      ensures Valid() && View() == Put(old(View()), t.transferId, t)
    {
      var all, kept := list, [];
      ghost var p := (u: Transfer) => u.transferId != t.transferId;
      StoreRefinesPut(all, TransferKey, t, p);
      for i := 0 to |all|
        invariant kept == Where(all[..i], p)
      {
        NextTurn(all, i, p);
        if all[i].transferId != t.transferId {
          kept := kept + [all[i]];
        }
      }
      assert all[..|all|] == all;
      list := kept + [t];
    }

    method GetAllTransfersByBatchId(batchId: string) returns (r: seq<Transfer>)
      requires Valid()
      ensures r == Select(View(), IdsInBatch(View().docs, batchId))
    {
      ghost var p := (u: Transfer) => u.batchId == batchId;
      DocsHold(list, TransferKey);
      FilterRefinesSelect(list, TransferKey, p, IdsInBatch(View().docs, batchId));
      r := [];
      for i := 0 to |list|
        invariant r == Where(list[..i], p)
      {
        NextTurn(list, i, p);
        if list[i].batchId == batchId {
          r := r + [list[i]];
        }
      }
      assert list[..|list|] == list;
    }
  }

  /** The inner loop over the batches of a matrix, left at the first hit. */
  method ListsBatch(rows: seq<MatrixBatch>, id: string) returns (r: bool)
    ensures r <==> id in RowIds(rows)
  {
    for i := 0 to |rows|
      invariant forall j :: 0 <= j < i ==> rows[j].id != id
    {
      if rows[i].id == id {
        return true;
      }
    }
    return false;
  }

  class SettlementMatrixRequestRepo {
    var matrixRequests: seq<Matrix>

    ghost predicate Valid()
      reads this
    {
      DistinctKeys(matrixRequests, MatrixKey)
    }

    function View(): Repo<MatrixId, Matrix>
      reads this
    {
      RepoOf(matrixRequests, MatrixKey)
    }

    constructor ()
      ensures Valid() && View() == Repo(map[], [])
    {
      matrixRequests := [];
    }

    method StoreMatrix(m: Matrix)
      requires Valid()
      modifies this
      ensures Valid() && View() == Put(old(View()), m.id, m)
    {
      var all, kept := matrixRequests, [];
      ghost var p := (u: Matrix) => u.id != m.id;
      StoreRefinesPut(all, MatrixKey, m, p);
      for i := 0 to |all|
        invariant kept == Where(all[..i], p)
      {
        NextTurn(all, i, p);
        if all[i].id != m.id {
          kept := kept + [all[i]];
        }
      }
      assert all[..|all|] == all;
      matrixRequests := kept + [m];
    }

    method GetMatrixById(id: MatrixId) returns (r: Option<Matrix>)
      requires Valid()
      ensures r == Find(View(), id)
    {
      DocsHold(matrixRequests, MatrixKey);
      for i := 0 to |matrixRequests|
        invariant forall j :: 0 <= j < i ==> matrixRequests[j].id != id
      {
        if matrixRequests[i].id == id {
          assert matrixRequests[i] in matrixRequests;
          return Some(matrixRequests[i]);
        }
      }
      return None;
    }

    method GetIdleMatricesWithBatchId(batchId: string) returns (r: seq<Matrix>)
      requires Valid()
      ensures r == IdleWith(View(), batchId)
    {
      ghost var p := (u: Matrix) => u.state == IDLE && batchId in RowIds(u.batches);
      DocsHold(matrixRequests, MatrixKey);
      FilterRefinesSelect(matrixRequests, MatrixKey, p,
        set id | id in View().docs && View().docs[id].state == IDLE && batchId in RowIds(View().docs[id].batches));
      r := [];
      for i := 0 to |matrixRequests|
        invariant r == Where(matrixRequests[..i], p)
      {
        NextTurn(matrixRequests, i, p);
        if matrixRequests[i].state == IDLE {
          var listed := ListsBatch(matrixRequests[i].batches, batchId);
          if listed {
            r := r + [matrixRequests[i]];
          }
        }
      }
      assert matrixRequests[..|matrixRequests|] == matrixRequests;
    }
  }
}
