/** When the replica and the cluster agree, key by key and as a whole, whatever was lost. */
module Agreement {
  import opened Options
  import opened Replay
  import opened Inventory
  import opened InventoryLaws

  ghost predicate About(p: Pipe, k: Key, i: nat) {
    i < |p.callbacks| && SourceKey(p.callbacks[i]) == k
  }

  /** The cluster has the object: its last callback is the upsert `i`. */
  ghost predicate Live(p: Pipe, k: Key, i: nat) {
    About(p, k, i) && p.callbacks[i].Upserted? && forall j: nat :: i < j ==> !About(p, k, j)
  }

  /** The upsert `i` reached an applied batch and no later callback on the key did. */
  ghost predicate Standing(p: Pipe, k: Key, i: nat) {
    && About(p, k, i) && p.callbacks[i].Upserted? && Survived(p, i)
    && forall j: nat :: i < j && About(p, k, j) ==> !Survived(p, j)
  }

  function PayloadOf(cb: Callback): Payload
    requires cb.Upserted?
  {
    Mapped(cb.kind, cb.obj)
  }

  /** What is left standing is what the cluster has, and what the cluster has is left standing. */
  ghost predicate InStep(p: Pipe, k: Key) {
    && (forall j: nat :: Standing(p, k, j) ==> exists i: nat :: Live(p, k, i) && PayloadOf(p.callbacks[i]) == PayloadOf(p.callbacks[j]))
    && ((exists i: nat :: Live(p, k, i)) ==> exists j: nat :: Standing(p, k, j))
  }

  /** An applied event says what its callback meant. */
  lemma AppliedSays(p: Pipe, n: nat)
    requires OrderInv(p) && n < |Reached(p)|
    ensures var e := Reached(p)[n];
      && e.timestamp < |p.callbacks| && Survived(p, e.timestamp)
      && Ops(Reached(p))[n] == SourceOp(p.callbacks[e.timestamp])
      && SourceOp(p.callbacks[e.timestamp]).key == SourceKey(p.callbacks[e.timestamp])
  {
    ReachedInOrder(p);
    var e := Reached(p)[n];
    EventSaysCallback(p.clusterId, p.callbacks[e.timestamp], e.timestamp);
    assert e in Reached(p);
  }

  lemma AppliedOrdered(p: Pipe, m: nat, n: nat)
    requires OrderInv(p) && m < n < |Reached(p)|
    ensures Reached(p)[m].timestamp < Reached(p)[n].timestamp
  {
    ReachedInOrder(p);
  }

  /** A standing upsert is what the replica has. */
  lemma StandingShows(p: Pipe, k: Key, i: nat)
    requires OrderInv(p) && ReplicaInv(p) && Standing(p, k, i)
    ensures Get(p.replica, k) == Some(PayloadOf(p.callbacks[i]))
  {
    var es := Reached(p);
    ReachedInOrder(p);
    var n :| 0 <= n < |es| && es[n].timestamp == i;
    AppliedSays(p, n);
    forall m | n < m < |es|
      ensures Ops(es)[m].key != k
    {
      AppliedSays(p, m);
      var t := es[m].timestamp;
      assert i < t && (About(p, k, t) ==> !Survived(p, t));
    }
    LastForIs(Ops(es), k, n);
    ReplayedAt(map[], Ops(es), k);
  }

  /** What the replica has comes from a standing upsert. */
  lemma ReplicaFrom(p: Pipe, k: Key) returns (i: nat)
    requires OrderInv(p) && ReplicaInv(p) && k in p.replica
    ensures Standing(p, k, i) && p.replica[k] == PayloadOf(p.callbacks[i])
  {
    var es := Reached(p);
    ReplayedAt(map[], Ops(es), k);
    assert Get(p.replica, k) == Some(p.replica[k]);
    var n := LastForFound(Ops(es), k);
    AppliedSays(p, n);
    i := es[n].timestamp;
    forall j: nat | i < j && About(p, k, j)
      ensures !Survived(p, j)
    {
      NoneLater(p, k, n, j);
    }
  }

  /** When event `n` is the last applied one on the key, no later callback on the key survived. */
  lemma NoneLater(p: Pipe, k: Key, n: nat, j: nat)
    requires OrderInv(p) && n < |Reached(p)| && About(p, k, j) && Reached(p)[n].timestamp < j
    requires forall m :: n < m < |Reached(p)| ==> Ops(Reached(p))[m].key != k
    ensures !Survived(p, j)
  {
    forall m | 0 <= m < |Reached(p)|
      ensures Reached(p)[m].timestamp != j
    {
      if m < n {
        AppliedOrdered(p, m, n);
      } else if n < m {
        AppliedSays(p, m);
      }
    }
  }

  lemma LiveShows(p: Pipe, k: Key, i: nat)
    requires Live(p, k, i)
    ensures Get(Source(p.callbacks), k) == Some(PayloadOf(p.callbacks[i]))
  {
    var ops := SourceOps(p.callbacks);
    forall j | i < j < |ops|
      ensures ops[j].key != k
    {
      assert !About(p, k, j);
    }
    LastForIs(ops, k, i);
    ReplayedAt(map[], ops, k);
  }

  lemma ClusterFrom(p: Pipe, k: Key) returns (i: nat)
    requires k in Source(p.callbacks)
    ensures Live(p, k, i) && Source(p.callbacks)[k] == PayloadOf(p.callbacks[i])
  {
    var ops := SourceOps(p.callbacks);
    ReplayedAt(map[], ops, k);
    assert Get(Source(p.callbacks), k) == Some(Source(p.callbacks)[k]);
    i := LastForFound(ops, k);
    forall j: nat | i < j
      ensures !About(p, k, j)
    {
      assert j < |ops| ==> ops[j].key == SourceKey(p.callbacks[j]);
    }
  }

  /** In every run and for every key, whatever its last callback was: replica and cluster agree on the key
      if and only if no upsert is left standing that the cluster does not have as it is, and the cluster's
      object, if there is one, is left standing.  So after a deletion they agree exactly when no applied
      upsert is without a later applied event. */
  lemma AgreesExactly(clusterId: string, actions: seq<Action>, k: Key)
    ensures var p := Exec(clusterId, actions);
      Get(p.replica, k) == Get(Source(p.callbacks), k) <==> InStep(p, k)
  {
    var p := Exec(clusterId, actions);
    Always(clusterId, actions);
    AgreementAt(p, k);
  }

  lemma AgreementAt(p: Pipe, k: Key)
    requires OrderInv(p) && ReplicaInv(p)
    ensures Get(p.replica, k) == Get(Source(p.callbacks), k) <==> InStep(p, k)
  {
    if InStep(p, k) {
      InStepAgrees(p, k);
    }
    if Get(p.replica, k) == Get(Source(p.callbacks), k) {
      AgreementIsInStep(p, k);
    }
  }

  lemma InStepAgrees(p: Pipe, k: Key)
    requires OrderInv(p) && ReplicaInv(p) && InStep(p, k)
    ensures Get(p.replica, k) == Get(Source(p.callbacks), k)
  {
    if k in p.replica {
      var j := ReplicaFrom(p, k);
      var i: nat :| Live(p, k, i) && PayloadOf(p.callbacks[i]) == PayloadOf(p.callbacks[j]);
      LiveShows(p, k, i);
    } else if k in Source(p.callbacks) {
      var i := ClusterFrom(p, k);
      var j: nat :| Standing(p, k, j);
      StandingShows(p, k, j);
    }
  }

  lemma AgreementIsInStep(p: Pipe, k: Key)
    requires OrderInv(p) && ReplicaInv(p) && Get(p.replica, k) == Get(Source(p.callbacks), k)
    ensures InStep(p, k)
  {
    forall j: nat | Standing(p, k, j)
      ensures exists i: nat :: Live(p, k, i) && PayloadOf(p.callbacks[i]) == PayloadOf(p.callbacks[j])
    {
      StandingShows(p, k, j);
      var i := ClusterFrom(p, k);
    }
    if i: nat :| Live(p, k, i) {
      LiveShows(p, k, i);
      var j := ReplicaFrom(p, k);
    }
  }

  /** What agreement is worth to a reader of the replica: for an object the cluster has and a key in step, the
      replica holds that object's own metadata and fields, as last reported. */
  lemma ObjectShows(clusterId: string, actions: seq<Action>, k: Key, i: nat)
    requires Live(Exec(clusterId, actions), k, i) && InStep(Exec(clusterId, actions), k)
    ensures var p := Exec(clusterId, actions);
      var o := p.callbacks[i].obj;
      && k in p.replica && Describes(p.replica[k], k.kind, o)
      && Field(p.replica[k], "uid") == o.uid && Field(p.replica[k], "resourceVersion") == o.resourceVersion
      && (k.kind == "pod" && "phase" in o.fields ==> Field(p.replica[k], "phase") == o.fields["phase"])
  {
    var p := Exec(clusterId, actions);
    AgreesExactly(clusterId, actions, k);
    LiveShows(p, k, i);
    MappedDescribes(k.kind, p.callbacks[i].obj);
  }

  /** The replica as a whole is the cluster if and only if every key is in step. */
  lemma ReplicaIsClusterExactly(clusterId: string, actions: seq<Action>)
    ensures var p := Exec(clusterId, actions);
      p.replica == Source(p.callbacks) <==> forall k :: InStep(p, k)
  {
    var p := Exec(clusterId, actions);
    forall k
      ensures Get(p.replica, k) == Get(Source(p.callbacks), k) <==> InStep(p, k)
    {
      AgreesExactly(clusterId, actions, k);
    }
    if forall k :: InStep(p, k) {
      SameLookups(p.replica, Source(p.callbacks));
    }
  }

  /** When the last callback on a key is a deletion or a tombstone, they disagree exactly when an upsert is
      left standing: an applied one whose successors on the key were all dropped, lost or skipped. */
  lemma GhostExactly(clusterId: string, actions: seq<Action>, i: nat)
    requires LastCallback(Exec(clusterId, actions).callbacks, i) && !Exec(clusterId, actions).callbacks[i].Upserted?
    ensures var p := Exec(clusterId, actions);
      var k := SourceKey(p.callbacks[i]);
      Get(p.replica, k) != Get(Source(p.callbacks), k) <==> exists j: nat :: Standing(p, k, j)
  {
    var p := Exec(clusterId, actions);
    AgreesExactly(clusterId, actions, SourceKey(p.callbacks[i]));
    NotLive(p, i);
  }

  lemma NotLive(p: Pipe, i: nat)
    requires LastCallback(p.callbacks, i) && !p.callbacks[i].Upserted?
    ensures forall j: nat :: !Live(p, SourceKey(p.callbacks[i]), j)
  {
    assert About(p, SourceKey(p.callbacks[i]), i);
  }
}
