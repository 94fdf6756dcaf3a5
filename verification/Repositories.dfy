/** Collections of records as the repositories keep them: one record per id, listed in the order in which
    the records were last written, as the filter-and-push of the repository mocks leaves them. */
module Repositories {
  import opened Common

  datatype Repo<K(==), V> = Repo(docs: map<K, V>, order: seq<K>)

  function Without<K(==)>(s: seq<K>, k: K): seq<K>
  {
    if s == [] then [] else (if s[0] == k then [] else [s[0]]) + Without(s[1..], k)
  }

  /** Replaces the record with this id, or adds it, at the end of the list. */
  function Put<K(==), V>(r: Repo<K, V>, k: K, v: V): Repo<K, V>
  {
    Repo(r.docs[k := v], Without(r.order, k) + [k])
  }

  function Find<K(==), V>(r: Repo<K, V>, k: K): Option<V>
  {
    if k in r.docs then Some(r.docs[k]) else None
  }

  ghost predicate NoDuplicates<K>(s: seq<K>)
  {
    forall i, j :: 0 <= i < j < |s| ==> s[i] != s[j]
  }

  ghost predicate ValidRepo<K, V>(r: Repo<K, V>)
  {
    NoDuplicates(r.order) && (forall k :: k in r.order ==> k in r.docs) && (forall k :: k in r.docs ==> k in r.order)
  }

  /** The listed keys that are wanted, in list order. */
  function Pick<K(==)>(order: seq<K>, wanted: set<K>): seq<K>
  {
    if order == [] then [] else (if order[0] in wanted then [order[0]] else []) + Pick(order[1..], wanted)
  }

  /** The records of the wanted keys, in list order. */
  function Records<K(==), V>(docs: map<K, V>, keys: seq<K>): seq<V>
  {
    if keys == [] then [] else (if keys[0] in docs then [docs[keys[0]]] else []) + Records(docs, keys[1..])
  }

  function Select<K(==), V>(r: Repo<K, V>, wanted: set<K>): seq<V>
  {
    Records(r.docs, Pick(r.order, wanted))
  }

  // ----- laws

  lemma {:induction false} WithoutMembers<K(!new)>(s: seq<K>, k: K)
    ensures forall x :: x in Without(s, k) <==> x in s && x != k
  {
    if s != [] {
      WithoutMembers(s[1..], k);
      assert s == [s[0]] + s[1..];
    }
  }

  lemma {:induction false} WithoutNoDuplicates<K(!new)>(s: seq<K>, k: K)
    requires NoDuplicates(s)
    ensures NoDuplicates(Without(s, k))
  {
    if s != [] {
      var rest := s[1..];
      assert forall i :: 0 <= i < |rest| ==> rest[i] == s[i + 1];
      WithoutNoDuplicates(rest, k);
      WithoutMembers(rest, k);
      HeadNotInTail(s);
    }
  }

  lemma HeadNotInTail<K(!new)>(s: seq<K>)
    requires NoDuplicates(s) && s != []
    ensures s[0] !in s[1..] && NoDuplicates(s[1..])
  {
    var rest := s[1..];
    assert forall i :: 0 <= i < |rest| ==> rest[i] == s[i + 1];
  }

  lemma PutValid<K(!new), V>(r: Repo<K, V>, k: K, v: V)
    requires ValidRepo(r)
    ensures ValidRepo(Put(r, k, v))
  {
    WithoutMembers(r.order, k);
    WithoutNoDuplicates(r.order, k);
    var w := Without(r.order, k);
    assert forall i :: 0 <= i < |w| ==> w[i] in w;
  }

  lemma {:induction false} PickMembers<K(!new)>(order: seq<K>, wanted: set<K>)
    ensures forall k :: k in Pick(order, wanted) <==> k in order && k in wanted
  {
    if order != [] {
      PickMembers(order[1..], wanted);
      assert order == [order[0]] + order[1..];
    }
  }

  lemma {:induction false} PickNoDuplicates<K(!new)>(order: seq<K>, wanted: set<K>)
    requires NoDuplicates(order)
    ensures NoDuplicates(Pick(order, wanted))
  {
    if order != [] {
      HeadNotInTail(order);
      PickNoDuplicates(order[1..], wanted);
      PickMembers(order[1..], wanted);
    }
  }

  lemma {:induction false} RecordsAre<K(!new), V>(docs: map<K, V>, keys: seq<K>)
    requires forall k :: k in keys ==> k in docs
    ensures |Records(docs, keys)| == |keys|
    ensures forall i :: 0 <= i < |keys| ==> Records(docs, keys)[i] == docs[keys[i]]
  {
    if keys != [] {
      RecordsAre(docs, keys[1..]);
      assert keys == [keys[0]] + keys[1..];
    }
  }

  /** A selection lists every wanted record once: `keys` are the ids of the listed records. */
  lemma SelectExact<K(!new), V>(r: Repo<K, V>, wanted: set<K>) returns (keys: seq<K>)
    requires ValidRepo(r)
    ensures keys == Pick(r.order, wanted)
    ensures NoDuplicates(keys) && |Select(r, wanted)| == |keys|
    ensures forall k :: k in keys <==> k in r.docs && k in wanted
    ensures forall i :: 0 <= i < |keys| ==> keys[i] in r.docs && Select(r, wanted)[i] == r.docs[keys[i]]
  {
    keys := Pick(r.order, wanted);
    PickMembers(r.order, wanted);
    PickNoDuplicates(r.order, wanted);
    RecordsAre(r.docs, keys);
  }
}
