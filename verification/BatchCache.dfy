/** packages/infrastructure-lib/src/mongo_settlement_batch_repo.ts: a collection with an expiring cache before it. */
module BatchCache {
  import opened Common
  import opened Model

  /** The collection, keyed by its unique index, and the two kinds of cache entries. */
  datatype Cached = Cached(collection: map<string, Batch>, byId: map<string, Batch>, byName: map<string, Batch>)

  datatype Op =
    | StoreNew(batch: Batch)
    | Update(batch: Batch)
    | Get(id: string)
    | Expire(id: string)
    | ExpireName(name: string)

  /** What the caller sees: a batch or none, that it was stored, or the duplicate key error. */
  datatype Answer = Got(batch: Option<Batch>) | Stored | DuplicateKey

  function SetToCache(c: Cached, b: Batch): Cached
  {
    c.(byId := c.byId[b.id := b], byName := c.byName[b.batchName := b])
  }

  function Apply(c: Cached, op: Op): (Cached, Answer)
  {
    match op
    case StoreNew(b) =>
      if b.id in c.collection then (c, DuplicateKey)
      else (SetToCache(c.(collection := c.collection[b.id := b]), b), Stored)
    case Update(b) =>
      var changed := if b.id in c.collection then c.collection[b.id := b] else c.collection;
      (SetToCache(c.(collection := changed), b), Stored)
    case Get(id) =>
      if id in c.byId then (c, Got(Some(c.byId[id])))
      else if id !in c.collection then (c, Got(None))
      else (SetToCache(c, c.collection[id]), Got(Some(c.collection[id])))
    case Expire(id) => (c.(byId := c.byId - {id}), Stored)
    case ExpireName(name) => (c.(byName := c.byName - {name}), Stored)
  }

  /** The same store without a cache. */
  function ApplyPlain(m: map<string, Batch>, op: Op): (map<string, Batch>, Answer)
  {
    match op
    case StoreNew(b) => if b.id in m then (m, DuplicateKey) else (m[b.id := b], Stored)
    case Update(b) => (if b.id in m then m[b.id := b] else m, Stored)
    case Get(id) => (m, Got(if id in m then Some(m[id]) else None))
    case Expire(_) => (m, Stored)
    case ExpireName(_) => (m, Stored)
  }

  ghost predicate Keyed(m: map<string, Batch>)
  {
    forall id :: id in m ==> m[id].id == id
  }

  /** Every entry under an id is the stored document. */
  ghost predicate InAgreement(c: Cached)
  {
    Keyed(c.collection) && forall id :: id in c.byId ==> id in c.collection && c.byId[id] == c.collection[id]
  }

  /** Updating a batch that is not stored changes nothing in the collection but still fills the cache. */
  predicate Misses(m: map<string, Batch>, op: Op)
  {
    op.Update? && op.batch.id !in m
  }

  /** One operation keeps cache and collection in agreement exactly when it is not an update of a batch that is
      not stored; either way the collection is as without a cache, and the answer is the same. */
  lemma StepKeepsAgreement(c: Cached, op: Op)
    requires InAgreement(c)
    ensures var (after, answer) := Apply(c, op);
            && (after.collection, answer) == ApplyPlain(c.collection, op)
            && (InAgreement(after) <==> !Misses(c.collection, op))
  {
    var (after, answer) := Apply(c, op);
    if Misses(c.collection, op) {
      assert op.batch.id in after.byId;
    }
  }

  /** Afterwards the cache holds this batch, under its id and under its name. */
  ghost predicate Holds(c: Cached, b: Batch)
  {
    b.id in c.byId && c.byId[b.id] == b && b.batchName in c.byName && c.byName[b.batchName] == b
  }

  /** Storing and updating a batch leave it in the cache, and so does reading one that was not there; an entry under
      an id that is found is not written again, and one that runs out is gone. */
  lemma CacheFilled(c: Cached, op: Op)
    requires InAgreement(c)
    ensures var after := Apply(c, op).0;
            && (op.StoreNew? && op.batch.id !in c.collection ==> Holds(after, op.batch))
            && (op.StoreNew? && op.batch.id in c.collection ==> after == c)
            && (op.Update? ==> Holds(after, op.batch))
            && (op.Get? && op.id in c.byId ==> after == c)
            && (op.Get? && op.id !in c.byId && op.id in c.collection ==> Holds(after, c.collection[op.id]))
            && (op.Get? && op.id !in c.byId && op.id !in c.collection ==> after == c)
            && (op.Expire? ==> after == c.(byId := c.byId - {op.id}))
            && (op.ExpireName? ==> after == c.(byName := c.byName - {op.name}))
  {
  }

  function Answers(c: Cached, ops: seq<Op>): seq<Answer>
    decreases |ops|
  {
    if ops == [] then [] else
      var (after, answer) := Apply(c, ops[0]);
      [answer] + Answers(after, ops[1..])
  }

  function PlainAnswers(m: map<string, Batch>, ops: seq<Op>): seq<Answer>
    decreases |ops|
  {
    if ops == [] then [] else
      var (after, answer) := ApplyPlain(m, ops[0]);
      [answer] + PlainAnswers(after, ops[1..])
  }

  predicate AnyMisses(m: map<string, Batch>, ops: seq<Op>)
    decreases |ops|
  {
    ops != [] && (Misses(m, ops[0]) || AnyMisses(ApplyPlain(m, ops[0]).0, ops[1..]))
  }

  /** Any operations in any order, with entries expiring at any time, answer as the store without a cache would,
      as long as only stored batches are updated. */
  lemma {:induction false} CacheIsInvisible(c: Cached, ops: seq<Op>)
    requires InAgreement(c) && !AnyMisses(c.collection, ops)
    ensures Answers(c, ops) == PlainAnswers(c.collection, ops)
    decreases |ops|
  {
    if ops != [] {
      StepKeepsAgreement(c, ops[0]);
      CacheIsInvisible(Apply(c, ops[0]).0, ops[1..]);
    }
  }

  /** A missed update shows: reading the batch back finds it in the cache until the entry expires. */
  lemma MissedUpdateShows(c: Cached, b: Batch)
    requires InAgreement(c) && b.id !in c.collection
    ensures Answers(c, [Update(b), Get(b.id)]) == [Stored, Got(Some(b))]
    ensures PlainAnswers(c.collection, [Update(b), Get(b.id)]) == [Stored, Got(None)]
    ensures Answers(c, [Update(b), Expire(b.id), Get(b.id)]) == [Stored, Stored, Got(None)]
  {
    var ops, late := [Update(b), Get(b.id)], [Update(b), Expire(b.id), Get(b.id)];
    var c1 := Apply(c, ops[0]).0;
    assert ops[1..] == [Get(b.id)] && ops[1..][1..] == [];
    assert Answers(c1, [Get(b.id)]) == [Got(Some(b))] + Answers(Apply(c1, Get(b.id)).0, []);
    assert PlainAnswers(c.collection, [Get(b.id)]) == [Got(None)] + PlainAnswers(c.collection, []);
    assert late[1..] == [Expire(b.id), Get(b.id)] && late[1..][1..] == [Get(b.id)] && late[1..][1..][1..] == [];
    var c2 := Apply(c1, late[1]).0;
    assert Answers(c2, [Get(b.id)]) == [Got(None)] + Answers(Apply(c2, Get(b.id)).0, []);
    assert Answers(c1, late[1..]) == [Stored] + Answers(c2, late[1..][1..]);
  }

  class MongoSettlementBatchRepo {
    var collection: map<string, Batch>
    var redisById: map<string, Batch>
    var redisByName: map<string, Batch>

    function View(): Cached
      reads this
    {
      Cached(collection, redisById, redisByName)
    }

    constructor ()
      ensures View() == Cached(map[], map[], map[])
    {
      collection, redisById, redisByName := map[], map[], map[];
    }

    method SetInCache(b: Batch)
      modifies this
      ensures View() == SetToCache(old(View()), b)
    {
      redisById := redisById[b.id := b];
      redisByName := redisByName[b.batchName := b];
    }

    method StoreNewBatch(b: Batch) returns (answer: Answer)
      modifies this
      ensures (View(), answer) == Apply(old(View()), StoreNew(b))
      ensures old(InAgreement(View())) ==> InAgreement(View())
    {
      if old(InAgreement(View())) {
        StepKeepsAgreement(View(), StoreNew(b));
      }
      if b.id in collection {
        return DuplicateKey;
      }
      collection := collection[b.id := b];
      SetInCache(b);
      answer := Stored;
    }

    method UpdateBatch(b: Batch)
      modifies this
      ensures View() == Apply(old(View()), Update(b)).0
      ensures old(InAgreement(View())) ==> (InAgreement(View()) <==> b.id in old(collection))
    {
      if old(InAgreement(View())) {
        StepKeepsAgreement(View(), Update(b));
      }
      if b.id in collection {
        collection := collection[b.id := b];
      }
      SetInCache(b);
    }

    method GetBatch(id: string) returns (r: Option<Batch>)
      modifies this
      ensures (View(), Got(r)) == Apply(old(View()), Get(id))
      ensures old(InAgreement(View())) ==>
                InAgreement(View()) && collection == old(collection)
                && r == if id in collection then Some(collection[id]) else None
    {
      if old(InAgreement(View())) {
        StepKeepsAgreement(View(), Get(id));
      }
      if id in redisById {
        return Some(redisById[id]);
      }
      if id !in collection {
        return None;
      }
      var batch := collection[id];
      SetInCache(batch);
      return Some(batch);
    }

    /** An entry runs out. */
    method ExpireEntry(id: string)
      modifies this
      ensures View() == Apply(old(View()), Expire(id)).0
      ensures old(InAgreement(View())) ==> InAgreement(View())
    {
      redisById := redisById - {id};
    }
  }
}
