/** Maps rebuilt from a log of writes and deletions: last write wins. */
module Replay {
  import opened Options

  datatype Op<K, V> = Put(key: K, value: V) | Del(key: K)

  function Apply<K, V>(m: map<K, V>, op: Op<K, V>): map<K, V> {
    match op
    case Put(k, v) => m[k := v]
    case Del(k) => m - {k}
  }

  function Replayed<K, V>(m: map<K, V>, ops: seq<Op<K, V>>): map<K, V> {
    if ops == [] then m else Apply(Replayed(m, ops[..|ops| - 1]), ops[|ops| - 1])
  }

  function Get<K, V>(m: map<K, V>, k: K): Option<V> {
    if k in m then Some(m[k]) else None
  }

  /** The last operation on a key. */
  function LastFor<K(==), V>(ops: seq<Op<K, V>>, k: K): Option<Op<K, V>> {
    if ops == [] then None
    else if ops[|ops| - 1].key == k then Some(ops[|ops| - 1])
    else LastFor(ops[..|ops| - 1], k)
  }

  function Effect<K, V>(op: Option<Op<K, V>>): Option<V> {
    if op.Some? && op.value.Put? then Some(op.value.value) else None
  }

  /** Only the last operation on a key matters for that key. */
  lemma {:induction false} ReplayedAt<K, V>(m: map<K, V>, ops: seq<Op<K, V>>, k: K)
    ensures Get(Replayed(m, ops), k) == if LastFor(ops, k).None? then Get(m, k) else Effect(LastFor(ops, k))
  {
    if ops != [] {
      ReplayedAt(m, ops[..|ops| - 1], k);
    }
  }

  lemma {:induction false} ReplayedAppend<K, V>(m: map<K, V>, a: seq<Op<K, V>>, b: seq<Op<K, V>>)
    ensures Replayed(m, a + b) == Replayed(Replayed(m, a), b)
  {
    if b == [] {
      assert a + b == a;
    } else {
      var n := |b| - 1;
      ReplayedAppend(m, a, b[..n]);
      assert (a + b)[..|a| + n] == a + b[..n];
    }
  }

  lemma SameLookups<K, V>(m: map<K, V>, m': map<K, V>)
    requires forall k :: Get(m, k) == Get(m', k)
    ensures m == m'
  {
    forall k
      ensures k in m <==> k in m'
      ensures k in m ==> m[k] == m'[k]
    {
      assert Get(m, k) == Get(m', k);
    }
  }

  /** Replaying a batch a second time changes nothing. */
  lemma ReplayTwice<K(!new), V>(m: map<K, V>, ops: seq<Op<K, V>>)
    ensures Replayed(Replayed(m, ops), ops) == Replayed(m, ops)
  {
    var once, twice := Replayed(m, ops), Replayed(Replayed(m, ops), ops);
    forall k
      ensures Get(twice, k) == Get(once, k)
    {
      ReplayedAt(m, ops, k);
      ReplayedAt(once, ops, k);
    }
    SameLookups(twice, once);
  }

  lemma LastForSnoc<K, V>(ops: seq<Op<K, V>>, op: Op<K, V>, k: K)
    ensures LastFor(ops + [op], k) == if op.key == k then Some(op) else LastFor(ops, k)
  {
    assert (ops + [op])[..|ops|] == ops;
  }

  /** The last operation on a key is in the list, and no later one is on that key. */
  lemma {:induction false} LastForIs<K, V>(ops: seq<Op<K, V>>, k: K, i: nat)
    requires i < |ops| && ops[i].key == k
    requires forall j :: i < j < |ops| ==> ops[j].key != k
    ensures LastFor(ops, k) == Some(ops[i])
  {
    if i < |ops| - 1 {
      LastForIs(ops[..|ops| - 1], k, i);
    }
  }

  lemma {:induction false} LastForFound<K, V>(ops: seq<Op<K, V>>, k: K) returns (i: nat)
    requires LastFor(ops, k).Some?
    ensures i < |ops| && ops[i] == LastFor(ops, k).value && ops[i].key == k
    ensures forall j :: i < j < |ops| ==> ops[j].key != k
  {
    if ops[|ops| - 1].key == k {
      i := |ops| - 1;
    } else {
      i := LastForFound(ops[..|ops| - 1], k);
    }
  }

  lemma {:induction false} LastForNone<K, V>(ops: seq<Op<K, V>>, k: K)
    ensures LastFor(ops, k).None? <==> forall i :: 0 <= i < |ops| ==> ops[i].key != k
  {
    if ops != [] {
      var n := |ops| - 1;
      LastForNone(ops[..n], k);
      assert forall i :: 0 <= i < n ==> ops[..n][i] == ops[i];
    }
  }
}
