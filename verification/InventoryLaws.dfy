/** Order, conservation, bounds, agreement of the replica and draining, for every interleaving. */
module InventoryLaws {
  import opened Options
  import opened Replay
  import opened Inventory

  // ---- Order ----

  /** The events are what enqueue built from some of the callbacks, in callback order. */
  ghost predicate FromCallbacks(clusterId: string, events: seq<Event>, callbacks: seq<Callback>) {
    && (forall i :: 0 <= i < |events| ==>
          events[i].timestamp < |callbacks|
          && EventOf(clusterId, callbacks[events[i].timestamp], events[i].timestamp) == Some(events[i]))
    && (forall i, j :: 0 <= i < j < |events| ==> events[i].timestamp < events[j].timestamp)
  }

  ghost predicate OrderInv(p: Pipe) {
    && Events(p.sent) + Flying(p) + p.batch + p.queue == p.accepted
    && FromCallbacks(p.clusterId, p.accepted, p.callbacks)
  }

  lemma EventsSnoc(sent: seq<Sent>, s: Sent)
    ensures Events(sent + [s]) == Events(sent) + s.events
    ensures AppliedEvents(sent + [s]) == AppliedEvents(sent) + if s.applied then s.events else []
  {
    assert (sent + [s])[..|sent|] == sent;
  }

  lemma FromCallbacksGrows(clusterId: string, events: seq<Event>, callbacks: seq<Callback>, cb: Callback)
    requires FromCallbacks(clusterId, events, callbacks)
    ensures FromCallbacks(clusterId, events, callbacks + [cb])
    ensures !cb.Lost? ==>
      FromCallbacks(clusterId, events + [EventOf(clusterId, cb, |callbacks|).value], callbacks + [cb])
  {
    forall i | 0 <= i < |events|
      ensures (callbacks + [cb])[events[i].timestamp] == callbacks[events[i].timestamp]
    {
    }
  }

  lemma OfferKeepsOrder(p: Pipe, cb: Callback)
    requires OrderInv(p)
    ensures OrderInv(DoOffer(p, cb))
  {
    FromCallbacksGrows(p.clusterId, p.accepted, p.callbacks, cb);
    var front := Events(p.sent) + Flying(p) + p.batch;
    var e := EventOf(p.clusterId, cb, |p.callbacks|);
    if e.Some? {
      assert front + (p.queue + [e.value]) == (front + p.queue) + [e.value];
    }
  }

  lemma MoveHead<T>(a: seq<T>, b: seq<T>, q: seq<T>)
    requires q != []
    ensures a + b + q == a + (b + [q[0]]) + q[1..]
  {
    assert b + q == b + [q[0]] + q[1..];
  }

  lemma TakeKeepsOrder(p: Pipe)
    requires OrderInv(p) && p.inflight.None? && p.queue != []
    ensures OrderInv(DoTake(p))
  {
    var p' := DoTake(p);
    var sent, b := Events(p.sent), p.batch + [p.queue[0]];
    MoveHead(sent, p.batch, p.queue);
    assert sent + [] == sent;
    if p'.inflight.Some? {
      assert Events(p'.sent) + Flying(p') + p'.batch == sent + b;
    }
  }

  lemma ConcludeKeepsOrder(p: Pipe)
    requires OrderInv(p) && p.inflight.Some?
    ensures OrderInv(DoConclude(p))
  {
    EventsSnoc(p.sent, Sent(p.inflight.value, p.answered, p.landed));
    MoveFlight(Events(p.sent), Flying(p), p.batch, p.queue);
  }

  lemma MoveFlight<T>(a: seq<T>, b: seq<T>, c: seq<T>, d: seq<T>)
    ensures (a + b) + [] + c + d == a + b + c + d
    ensures a + b + c + d == (a + b) + (c + d) == a + (b + c + d)
  {
  }

  lemma OrderStep(p: Pipe, a: Action)
    requires OrderInv(p)
    ensures OrderInv(Step(p, a))
  {
    match a
    case Offer(cb) => OfferKeepsOrder(p, cb);
    case Take =>
      if p.inflight.None? && p.queue != [] {
        TakeKeepsOrder(p);
      }
    case Tick =>
      if p.inflight.None? && p.batch != [] {
        assert Events(p.sent) + [] + p.batch + p.queue == Events(p.sent) + p.batch + [] + p.queue;
      }
    case Try(_) =>
    case Conclude =>
      if p.inflight.Some? {
        ConcludeKeepsOrder(p);
      }
  }

  // ---- Conservation and bounds ----

  /** Callbacks that reach the queue's select. */
  function Offered(callbacks: seq<Callback>): nat {
    if callbacks == [] then 0
    else Offered(callbacks[..|callbacks| - 1]) + if callbacks[|callbacks| - 1].Lost? then 0 else 1
  }

  function Usable(callbacks: seq<Callback>): seq<Callback> {
    if callbacks == [] then []
    else Usable(callbacks[..|callbacks| - 1]) + if callbacks[|callbacks| - 1].Lost? then [] else [callbacks[|callbacks| - 1]]
  }

  /** Events in batches whose send succeeded, or failed. */
  function Count(sent: seq<Sent>, acked: bool): nat {
    if sent == [] then 0
    else Count(sent[..|sent| - 1], acked) + if sent[|sent| - 1].acked == acked then |sent[|sent| - 1].events| else 0
  }

  function FailedSends(sent: seq<Sent>): nat {
    if sent == [] then 0
    else FailedSends(sent[..|sent| - 1]) + if sent[|sent| - 1].acked then 0 else 1
  }

  ghost predicate CountInv(p: Pipe) {
    && Offered(p.callbacks) == |p.accepted| + p.dropped
    && |Events(p.sent)| == Count(p.sent, true) + Count(p.sent, false)
    && p.syncs == Count(p.sent, true)
    && p.failures == p.dropped + FailedSends(p.sent)
    && Count(p.sent, false) <= BATCH_SIZE * FailedSends(p.sent)
  }

  ghost predicate SizeInv(p: Pipe) {
    && |p.queue| <= QUEUE_CAPACITY && |p.batch| < BATCH_SIZE
    && (p.inflight.Some? ==> 1 <= |p.inflight.value| <= BATCH_SIZE && p.batch == [])
    && (p.answered ==> p.landed) && (p.landed ==> p.inflight.Some?)
    && (forall i :: 0 <= i < |p.sent| ==> 1 <= |p.sent[i].events| <= BATCH_SIZE && (p.sent[i].acked ==> p.sent[i].applied))
  }

  lemma SizeStep(p: Pipe, a: Action)
    requires SizeInv(p)
    ensures SizeInv(Step(p, a))
  {
  }

  lemma CountsSnoc(sent: seq<Sent>, s: Sent)
    ensures Count(sent + [s], true) == Count(sent, true) + if s.acked then |s.events| else 0
    ensures Count(sent + [s], false) == Count(sent, false) + if s.acked then 0 else |s.events|
    ensures FailedSends(sent + [s]) == FailedSends(sent) + if s.acked then 0 else 1
  {
    assert (sent + [s])[..|sent|] == sent;
  }

  lemma OfferedSnoc(callbacks: seq<Callback>, cb: Callback)
    ensures Offered(callbacks + [cb]) == Offered(callbacks) + if cb.Lost? then 0 else 1
    ensures Usable(callbacks + [cb]) == Usable(callbacks) + if cb.Lost? then [] else [cb]
    ensures SourceOps(callbacks + [cb]) == SourceOps(callbacks) + [SourceOp(cb)]
  {
    assert (callbacks + [cb])[..|callbacks|] == callbacks;
  }

  lemma CountConclude(p: Pipe)
    requires CountInv(p) && SizeInv(p) && p.inflight.Some?
    ensures CountInv(DoConclude(p))
  {
    var s := Sent(p.inflight.value, p.answered, p.landed);
    CountsSnoc(p.sent, s);
    EventsSnoc(p.sent, s);
  }

  lemma CountOffer(p: Pipe, cb: Callback)
    requires CountInv(p)
    ensures CountInv(DoOffer(p, cb))
  {
    OfferedSnoc(p.callbacks, cb);
    OfferAccounts(p, cb);
  }

  lemma OfferAccounts(p: Pipe, cb: Callback)
    ensures var p' := DoOffer(p, cb);
      && p'.sent == p.sent && p'.syncs == p.syncs && p'.callbacks == p.callbacks + [cb]
      && |p'.accepted| + p'.dropped == |p.accepted| + p.dropped + (if cb.Lost? then 0 else 1)
      && p'.failures - p'.dropped == p.failures - p.dropped
  {
  }

  /** Receives, ticks and attempts account for nothing. */
  lemma QuietAccounts(p: Pipe, a: Action)
    requires a.Take? || a.Tick? || a.Try?
    ensures var p' := Step(p, a);
      && p'.callbacks == p.callbacks && p'.accepted == p.accepted && p'.dropped == p.dropped
      && p'.sent == p.sent && p'.syncs == p.syncs && p'.failures == p.failures
  {
  }

  lemma CountQuiet(p: Pipe, a: Action)
    requires CountInv(p) && (a.Take? || a.Tick? || a.Try?)
    ensures CountInv(Step(p, a))
  {
    QuietAccounts(p, a);
  }

  lemma CountStep(p: Pipe, a: Action)
    requires CountInv(p) && SizeInv(p)
    ensures CountInv(Step(p, a))
  {
    match a
    case Offer(cb) => CountOffer(p, cb);
    case Conclude =>
      if p.inflight.Some? {
        CountConclude(p);
      }
    case _ => CountQuiet(p, a);
  }

  // ---- The replica ----

  ghost predicate ReplicaInv(p: Pipe) {
    p.replica == Replayed(map[], Ops(Reached(p)))
  }

  lemma OpsAppend(a: seq<Event>, b: seq<Event>)
    ensures Ops(a + b) == Ops(a) + Ops(b)
  {
  }

  /** However often the batch in flight gets through, it is applied once. */
  lemma ReplicaTry(p: Pipe, attempt: Attempt)
    requires ReplicaInv(p) && p.inflight.Some?
    ensures ReplicaInv(DoTry(p, attempt))
  {
    var done, events := AppliedEvents(p.sent), p.inflight.value;
    OpsAppend(done, events);
    ReplayedAppend(map[], Ops(done), Ops(events));
    ReplayTwice(Replayed(map[], Ops(done)), Ops(events));
    assert done + [] == done;
  }

  /** When the send returns its events stay reached, or stay lost. */
  lemma ConcludeReaches(p: Pipe)
    requires p.inflight.Some?
    ensures Reached(DoConclude(p)) == Reached(p)
  {
    EventsSnoc(p.sent, Sent(p.inflight.value, p.answered, p.landed));
    assert AppliedEvents(DoConclude(p).sent) + [] == AppliedEvents(DoConclude(p).sent);
  }

  lemma ReplicaStep(p: Pipe, a: Action)
    requires ReplicaInv(p) && SizeInv(p)
    ensures ReplicaInv(Step(p, a))
  {
    match a
    case Try(attempt) =>
      if p.inflight.Some? && !p.answered {
        ReplicaTry(p, attempt);
      }
    case Conclude =>
      if p.inflight.Some? {
        ConcludeReaches(p);
      }
    case _ => ReachedKept(p, a);
  }

  lemma ReachedKept(p: Pipe, a: Action)
    requires SizeInv(p) && (a.Offer? || a.Take? || a.Tick?)
    ensures Reached(Step(p, a)) == Reached(p) && Step(p, a).replica == p.replica
  {
  }

  ghost predicate Inv(p: Pipe) {
    OrderInv(p) && SizeInv(p) && CountInv(p) && ReplicaInv(p)
  }

  lemma {:induction false} OrderAlways(clusterId: string, actions: seq<Action>)
    ensures OrderInv(Exec(clusterId, actions))
  {
    if actions != [] {
      var n := |actions| - 1;
      OrderAlways(clusterId, actions[..n]);
      OrderStep(Exec(clusterId, actions[..n]), actions[n]);
    }
  }

  lemma {:induction false} SizeAlways(clusterId: string, actions: seq<Action>)
    ensures SizeInv(Exec(clusterId, actions)) && Exec(clusterId, actions).clusterId == clusterId
  {
    if actions != [] {
      var n := |actions| - 1;
      SizeAlways(clusterId, actions[..n]);
      SizeStep(Exec(clusterId, actions[..n]), actions[n]);
    }
  }

  lemma {:induction false} CountAlways(clusterId: string, actions: seq<Action>)
    ensures CountInv(Exec(clusterId, actions))
  {
    if actions != [] {
      var n := |actions| - 1;
      CountAlways(clusterId, actions[..n]);
      SizeAlways(clusterId, actions[..n]);
      CountStep(Exec(clusterId, actions[..n]), actions[n]);
    }
  }

  lemma {:induction false} ReplicaAlways(clusterId: string, actions: seq<Action>)
    ensures ReplicaInv(Exec(clusterId, actions))
  {
    if actions == [] {
      assert Replayed(map[], Ops([])) == map[];
    } else {
      var n := |actions| - 1;
      ReplicaAlways(clusterId, actions[..n]);
      SizeAlways(clusterId, actions[..n]);
      ReplicaStep(Exec(clusterId, actions[..n]), actions[n]);
    }
  }

  lemma Always(clusterId: string, actions: seq<Action>)
    ensures Inv(Exec(clusterId, actions)) && Exec(clusterId, actions).clusterId == clusterId
  {
    OrderAlways(clusterId, actions);
    SizeAlways(clusterId, actions);
    CountAlways(clusterId, actions);
    ReplicaAlways(clusterId, actions);
  }

  // ---- Main results ----

  /** At every point of every interleaving the batches handed to send, the one in flight, the current
      batch and the queue, in that order, are the accepted events; and the accepted events are a
      subsequence of what the callbacks offered, in callback order. */
  lemma FifoAlways(clusterId: string, actions: seq<Action>)
    ensures var p := Exec(clusterId, actions);
      && Events(p.sent) + Flying(p) + p.batch + p.queue == p.accepted
      && FromCallbacks(clusterId, p.accepted, p.callbacks)
  {
    Always(clusterId, actions);
  }

  /** Every offered event is delivered, lost in a failed send, dropped, in flight, batched or queued; the
      two counters say how many; and no more than 200 events are missing per counted failure. */
  lemma NothingUnaccounted(clusterId: string, actions: seq<Action>)
    ensures var p := Exec(clusterId, actions);
      && Offered(p.callbacks) ==
           p.syncs + Count(p.sent, false) + p.dropped + |Flying(p)| + |p.batch| + |p.queue|
      && p.failures == p.dropped + FailedSends(p.sent)
      && Offered(p.callbacks) - p.syncs - |Flying(p)| - |p.batch| - |p.queue| <= BATCH_SIZE * p.failures
  {
    Always(clusterId, actions);
  }

  /** The queue holds at most 4096 events, the batch fewer than 200 whenever the consumer selects, and
      every send carries 1 to 200 events. */
  lemma Bounded(clusterId: string, actions: seq<Action>)
    ensures var p := Exec(clusterId, actions);
      && |p.queue| <= 4096 && |p.batch| < 200
      && (p.inflight.Some? ==> 1 <= |p.inflight.value| <= 200 && p.batch == [])
      && forall i :: 0 <= i < |p.sent| ==> 1 <= |p.sent[i].events| <= 200
  {
    Always(clusterId, actions);
  }

  /** The queue is longer by one event, which says what the callback meant. */
  predicate Joins(was: seq<Event>, now: seq<Event>, cb: Callback, time: nat) {
    |now| == |was| + 1 && was <= now && OpOf(now[|was|]) == SourceOp(cb) && now[|was|].timestamp == time
  }

  /** A usable callback is dropped and counted exactly when the queue holds 4096 events; otherwise its event
      joins the end of the queue.  One without an object leaves no trace but itself. */
  lemma DropsExactly(clusterId: string, actions: seq<Action>, cb: Callback)
    ensures var p, q := Exec(clusterId, actions), Exec(clusterId, actions + [Offer(cb)]);
      && q.callbacks == p.callbacks + [cb] && q.batch == p.batch && q.sent == p.sent && q.replica == p.replica
      && q.dropped == p.dropped + (if !cb.Lost? && |p.queue| == 4096 then 1 else 0)
      && q.failures == p.failures + (if !cb.Lost? && |p.queue| == 4096 then 1 else 0)
      && (cb.Lost? || |p.queue| == 4096 ==> q.queue == p.queue)
      && (!cb.Lost? && |p.queue| < 4096 ==> Joins(p.queue, q.queue, cb, |p.callbacks|))
  {
    var p := Exec(clusterId, actions);
    SizeAlways(clusterId, actions);
    ExecFromSnoc(Init(clusterId), actions, Offer(cb));
    if !cb.Lost? {
      EventSaysCallback(p.clusterId, cb, |p.callbacks|);
    }
  }

  /** A receive starts a send exactly when it brings the batch to 200 events. */
  lemma SendsWhenFull(clusterId: string, actions: seq<Action>)
    requires Exec(clusterId, actions).inflight.None? && Exec(clusterId, actions).queue != []
    ensures var p, q := Exec(clusterId, actions), Exec(clusterId, actions + [Take]);
      && q.queue == p.queue[1..] && q.sent == p.sent
      && (|p.batch| < 199 ==> q.inflight.None? && q.batch == p.batch + [p.queue[0]])
      && (|p.batch| == 199 ==> q.inflight == Some(p.batch + [p.queue[0]]) && q.batch == [])
  {
    SizeAlways(clusterId, actions);
    ExecFromSnoc(Init(clusterId), actions, Take);
  }

  /** The events of applied batches keep the order of the accepted ones. */
  lemma {:induction false} AppliedFromCallbacks(clusterId: string, sent: seq<Sent>, callbacks: seq<Callback>)
    requires FromCallbacks(clusterId, Events(sent), callbacks)
    ensures FromCallbacks(clusterId, AppliedEvents(sent), callbacks)
    ensures forall e :: e in AppliedEvents(sent) ==> e in Events(sent)
  {
    if sent != [] {
      var n := |sent| - 1;
      var before, last := Events(sent[..n]), sent[n].events;
      PrefixFromCallbacks(clusterId, before, last, callbacks);
      AppliedFromCallbacks(clusterId, sent[..n], callbacks);
      if sent[n].applied {
        var kept := AppliedEvents(sent[..n]);
        forall i, j | 0 <= i < j < |kept + last|
          ensures (kept + last)[i].timestamp < (kept + last)[j].timestamp
        {
          if i < |kept| <= j {
            assert kept[i] in kept;
            var k :| 0 <= k < |before| && before[k] == kept[i];
            assert (before + last)[k] == kept[i] && (before + last)[|before| + (j - |kept|)] == (kept + last)[j];
          }
        }
      }
    }
  }

  lemma PrefixFromCallbacks(clusterId: string, a: seq<Event>, b: seq<Event>, callbacks: seq<Callback>)
    requires FromCallbacks(clusterId, a + b, callbacks)
    ensures FromCallbacks(clusterId, a, callbacks) && FromCallbacks(clusterId, b, callbacks)
  {
    assert forall i :: 0 <= i < |a| ==> (a + b)[i] == a[i];
    assert forall i :: 0 <= i < |b| ==> (a + b)[|a| + i] == b[i];
  }

  lemma ReachedInOrder(p: Pipe)
    requires OrderInv(p)
    ensures FromCallbacks(p.clusterId, Reached(p), p.callbacks)
  {
    MoveFlight(Events(p.sent), Flying(p), p.batch, p.queue);
    var all := if p.landed then p.sent + [Sent(Flying(p), false, true)] else p.sent;
    var rest := if p.landed then p.batch + p.queue else Flying(p) + p.batch + p.queue;
    EventsSnoc(p.sent, Sent(Flying(p), false, true));
    assert AppliedEvents(p.sent) + [] == AppliedEvents(p.sent);
    SentInOrder(p, all, rest);
  }

  lemma SentInOrder(p: Pipe, all: seq<Sent>, rest: seq<Event>)
    requires FromCallbacks(p.clusterId, Events(all) + rest, p.callbacks)
    ensures FromCallbacks(p.clusterId, AppliedEvents(all), p.callbacks)
  {
    PrefixFromCallbacks(p.clusterId, Events(all), rest, p.callbacks);
    AppliedFromCallbacks(p.clusterId, all, p.callbacks);
  }

  /** Callback `i` is the last one for its key. */
  predicate LastCallback(callbacks: seq<Callback>, i: nat) {
    i < |callbacks| && forall j :: i < j < |callbacks| ==> SourceKey(callbacks[j]) != SourceKey(callbacks[i])
  }

  /** Callback `i` became an event of a batch that the control plane has applied, acknowledged or not. */
  predicate Survived(p: Pipe, i: nat) {
    exists e :: e in Reached(p) && e.timestamp == i
  }

  lemma SourceAt(callbacks: seq<Callback>, i: nat)
    requires LastCallback(callbacks, i)
    ensures Get(Source(callbacks), SourceKey(callbacks[i])) == Effect(Some(SourceOp(callbacks[i])))
  {
    var k := SourceKey(callbacks[i]);
    LastForIs(SourceOps(callbacks), k, i);
    ReplayedAt(map[], SourceOps(callbacks), k);
  }

  /** For every key whose last callback reached an applied batch, the replica agrees with the cluster on
      that key, whatever was dropped, lost or discarded before. */
  lemma SurvivorAgrees(clusterId: string, actions: seq<Action>, i: nat)
    requires LastCallback(Exec(clusterId, actions).callbacks, i) && Survived(Exec(clusterId, actions), i)
    ensures var p := Exec(clusterId, actions);
      Get(p.replica, SourceKey(p.callbacks[i])) == Get(Source(p.callbacks), SourceKey(p.callbacks[i]))
  {
    var p := Exec(clusterId, actions);
    Always(clusterId, actions);
    SurvivorIsLast(p, i);
    SourceAt(p.callbacks, i);
    ReplayedAt(map[], Ops(Reached(p)), SourceKey(p.callbacks[i]));
  }

  lemma SurvivorIsLast(p: Pipe, i: nat)
    requires OrderInv(p) && LastCallback(p.callbacks, i) && Survived(p, i)
    ensures LastFor(Ops(Reached(p)), SourceKey(p.callbacks[i])) == Some(SourceOp(p.callbacks[i]))
  {
    var es := Reached(p);
    ReachedInOrder(p);
    var n :| 0 <= n < |es| && es[n].timestamp == i;
    assert !p.callbacks[i].Lost?;
    EventSaysCallback(p.clusterId, p.callbacks[i], i);
    forall j | n < j < |es|
      ensures Ops(es)[j].key != SourceKey(p.callbacks[i])
    {
      var t := es[j].timestamp;
      assert t > i && !p.callbacks[t].Lost?;
      EventSaysCallback(p.clusterId, p.callbacks[t], t);
    }
    LastForIs(Ops(es), SourceKey(p.callbacks[i]), n);
  }

  /** An upsert is recognisable when no earlier callback for its key carried the same payload, as
      resourceVersion sees to. */
  predicate NewVersion(callbacks: seq<Callback>, i: nat)
    requires i < |callbacks|
  {
    callbacks[i].Upserted? &&
    forall j :: 0 <= j < i && callbacks[j].Upserted? && SourceKey(callbacks[j]) == SourceKey(callbacks[i])
      ==> Mapped(callbacks[j].kind, callbacks[j].obj) != Mapped(callbacks[i].kind, callbacks[i].obj)
  }

  /** When the last callback for a key is an upsert of a new version, the replica agrees on that key
      exactly if that very event survived. */
  lemma AgreesExactlyIfSurvived(clusterId: string, actions: seq<Action>, i: nat)
    requires LastCallback(Exec(clusterId, actions).callbacks, i) && NewVersion(Exec(clusterId, actions).callbacks, i)
    ensures var p := Exec(clusterId, actions);
      Get(p.replica, SourceKey(p.callbacks[i])) == Get(Source(p.callbacks), SourceKey(p.callbacks[i]))
      <==> Survived(p, i)
  {
    var p := Exec(clusterId, actions);
    var k := SourceKey(p.callbacks[i]);
    Always(clusterId, actions);
    SourceAt(p.callbacks, i);
    ReplayedAt(map[], Ops(Reached(p)), k);
    if Survived(p, i) {
      SurvivorAgrees(clusterId, actions, i);
    } else if Get(p.replica, k) == Get(Source(p.callbacks), k) {
      AgreementNeedsSurvival(p, i);
    }
  }

  lemma AgreementNeedsSurvival(p: Pipe, i: nat)
    requires OrderInv(p) && LastCallback(p.callbacks, i) && NewVersion(p.callbacks, i)
    requires Effect(LastFor(Ops(Reached(p)), SourceKey(p.callbacks[i]))) == Effect(Some(SourceOp(p.callbacks[i])))
    ensures Survived(p, i)
  {
    var es, k := Reached(p), SourceKey(p.callbacks[i]);
    ReachedInOrder(p);
    var n := LastForFound(Ops(es), k);
    var t := es[n].timestamp;
    assert !p.callbacks[t].Lost?;
    EventSaysCallback(p.clusterId, p.callbacks[t], t);
    assert SourceKey(p.callbacks[t]) == k && OpOf(es[n]) == SourceOp(p.callbacks[t]);
    assert t <= i;
    assert t == i;
    assert es[n] in es;
  }

  // ---- Runs without losses ----

  ghost predicate NoLosses(p: Pipe) {
    p.dropped == 0 && forall i :: 0 <= i < |p.sent| ==> p.sent[i].applied
  }

  /** With nothing dropped, the accepted events mean the usable callbacks, one for one. */
  ghost predicate CompleteInv(p: Pipe) {
    p.dropped == 0 ==> Ops(p.accepted) == SourceOps(Usable(p.callbacks))
  }

  lemma OpsSnoc(events: seq<Event>, e: Event)
    ensures Ops(events + [e]) == Ops(events) + [OpOf(e)]
  {
  }

  lemma CompleteOffer(p: Pipe, cb: Callback)
    requires CompleteInv(p)
    ensures CompleteInv(DoOffer(p, cb))
  {
    OfferedSnoc(p.callbacks, cb);
    var p' := DoOffer(p, cb);
    if p'.dropped == 0 && !cb.Lost? {
      EventSaysCallback(p.clusterId, cb, |p.callbacks|);
      var e := EventOf(p.clusterId, cb, |p.callbacks|).value;
      assert p'.accepted == p.accepted + [e] && p'.callbacks == p.callbacks + [cb];
      OpsSnoc(p.accepted, e);
      OfferedSnoc(Usable(p.callbacks), cb);
    }
  }

  lemma {:induction false} CompleteAlways(clusterId: string, actions: seq<Action>)
    ensures CompleteInv(Exec(clusterId, actions))
  {
    if actions != [] {
      var n := |actions| - 1;
      CompleteAlways(clusterId, actions[..n]);
      CompleteStep(Exec(clusterId, actions[..n]), actions[n]);
    }
  }

  lemma CompleteStep(p: Pipe, a: Action)
    requires CompleteInv(p)
    ensures CompleteInv(Step(p, a))
  {
    match a
    case Offer(cb) => CompleteOffer(p, cb);
    case Conclude =>
    case _ => QuietAccounts(p, a);
  }

  lemma {:induction false} AllApplied(sent: seq<Sent>)
    requires forall i :: 0 <= i < |sent| ==> sent[i].applied
    ensures AppliedEvents(sent) == Events(sent)
  {
    if sent != [] {
      AllApplied(sent[..|sent| - 1]);
    }
  }

  lemma {:induction false} UsableAll(callbacks: seq<Callback>)
    requires forall i :: 0 <= i < |callbacks| ==> !callbacks[i].Lost?
    ensures Usable(callbacks) == callbacks
  {
    if callbacks != [] {
      UsableAll(callbacks[..|callbacks| - 1]);
    }
  }

  /** With no event lost so far, replaying what is in flight, batched and queued on top of the replica
      rebuilds the cluster exactly, provided every tombstone carried its object. */
  lemma PendingCompletesReplica(clusterId: string, actions: seq<Action>)
    requires NoLosses(Exec(clusterId, actions))
    requires forall i :: 0 <= i < |Exec(clusterId, actions).callbacks| ==> !Exec(clusterId, actions).callbacks[i].Lost?
    ensures var p := Exec(clusterId, actions);
      Replayed(p.replica, Ops(Flying(p) + p.batch + p.queue)) == Source(p.callbacks)
  {
    var p := Exec(clusterId, actions);
    Always(clusterId, actions);
    CompleteAlways(clusterId, actions);
    AllApplied(p.sent);
    UsableAll(p.callbacks);
    PendingReplayed(p);
  }

  /** The batch in flight may already have been applied: applying it again makes no difference. */
  lemma PendingReplayed(p: Pipe)
    requires OrderInv(p) && ReplicaInv(p) && AppliedEvents(p.sent) == Events(p.sent)
    ensures Replayed(p.replica, Ops(Flying(p) + p.batch + p.queue)) == Replayed(map[], Ops(p.accepted))
  {
    var done, flying, later := Ops(Events(p.sent)), Ops(Flying(p)), Ops(p.batch + p.queue);
    var base := Replayed(map[], done);
    SplitOps(p.accepted, Events(p.sent), Flying(p), p.batch, p.queue);
    ReplayedAppend(map[], done, flying + later);
    ReplayedAppend(base, flying, later);
    ReplayTwice(base, flying);
    ReachedReplay(p);
    ReplayedAppend(p.replica, flying, later);
  }

  lemma ReachedReplay(p: Pipe)
    requires ReplicaInv(p)
    ensures var base := Replayed(map[], Ops(AppliedEvents(p.sent)));
      p.replica == if p.landed then Replayed(base, Ops(Flying(p))) else base
  {
    var done := AppliedEvents(p.sent);
    if p.landed {
      OpsAppend(done, Flying(p));
      ReplayedAppend(map[], Ops(done), Ops(Flying(p)));
    } else {
      assert done + [] == done;
    }
  }

  lemma SplitOps(all: seq<Event>, a: seq<Event>, b: seq<Event>, c: seq<Event>, d: seq<Event>)
    requires a + b + c + d == all
    ensures Ops(all) == Ops(a) + (Ops(b) + Ops(c + d))
    ensures Ops(b + c + d) == Ops(b) + Ops(c + d)
  {
    assert all == a + (b + (c + d)) && b + c + d == b + (c + d);
    OpsAppend(a, b + (c + d));
    OpsAppend(b, c + d);
  }

  /** A key whose last callback is a tombstone without an object, although it was last upserted. */
  ghost predicate Orphan(callbacks: seq<Callback>, k: Key) {
    && LastFor(SourceOps(Usable(callbacks)), k).Some? && LastFor(SourceOps(Usable(callbacks)), k).value.Put?
    && LastFor(SourceOps(callbacks), k) == Some(Del(k))
  }

  /** Unusable tombstones are the one silent loss: with no event lost and everything delivered, the
      replica is the cluster if and only if no key was orphaned by such a tombstone. */
  lemma OnlyTombstonesAreSilent(clusterId: string, actions: seq<Action>)
    requires NoLosses(Exec(clusterId, actions))
    requires var p := Exec(clusterId, actions); p.inflight.None? && p.batch == [] && p.queue == []
    ensures var p := Exec(clusterId, actions);
      p.replica == Source(p.callbacks) <==> forall k :: !Orphan(p.callbacks, k)
  {
    var p := Exec(clusterId, actions);
    Always(clusterId, actions);
    CompleteAlways(clusterId, actions);
    AllApplied(p.sent);
    assert p.accepted == Events(p.sent);
    ReachedReplay(p);
    var usable := SourceOps(Usable(p.callbacks));
    assert p.replica == Replayed(map[], usable);
    forall k
      ensures Get(p.replica, k) == Get(Source(p.callbacks), k) <==> !Orphan(p.callbacks, k)
    {
      ReplayedAt(map[], usable, k);
      ReplayedAt(map[], SourceOps(p.callbacks), k);
      OrphanOrSame(p.callbacks, k);
    }
    if forall k :: !Orphan(p.callbacks, k) {
      SameLookups(p.replica, Source(p.callbacks));
    }
  }

  /** Either the unusable tombstones do not have the last word on the key, or that word is a deletion. */
  ghost predicate SkippedAt(callbacks: seq<Callback>, k: Key) {
    || LastFor(SourceOps(callbacks), k) == LastFor(SourceOps(Usable(callbacks)), k)
    || LastFor(SourceOps(callbacks), k) == Some(Del(k))
  }

  lemma SkippedSnoc(callbacks: seq<Callback>, cb: Callback, k: Key)
    requires SkippedAt(callbacks, k)
    ensures SkippedAt(callbacks + [cb], k)
  {
    OfferedSnoc(callbacks, cb);
    LastForSnoc(SourceOps(callbacks), SourceOp(cb), k);
    if !cb.Lost? {
      OfferedSnoc(Usable(callbacks), cb);
      LastForSnoc(SourceOps(Usable(callbacks)), SourceOp(cb), k);
    } else {
      assert Usable(callbacks) + [] == Usable(callbacks);
    }
  }

  lemma {:induction false} OrphanOrSame(callbacks: seq<Callback>, k: Key)
    ensures SkippedAt(callbacks, k)
  {
    if callbacks != [] {
      var n := |callbacks| - 1;
      OrphanOrSame(callbacks[..n], k);
      SkippedSnoc(callbacks[..n], callbacks[n], k);
      assert callbacks == callbacks[..n] + [callbacks[n]];
    }
  }

  /** A run in which everything was acknowledged, nothing was counted as failed, and the replica still
      holds a pod that the cluster no longer has. */
  lemma SilentLoss(clusterId: string, o: Object)
    ensures exists actions :: var p := Exec(clusterId, actions);
      && p.failures == 0 && p.inflight.None? && p.batch == [] && p.queue == []
      && Key("pod", o.namespace, o.name) in p.replica && Key("pod", o.namespace, o.name) !in Source(p.callbacks)
  {
    var actions := PodDelivered(clusterId, o);
    var p := Exec(clusterId, actions);
    var lost := Callback.Lost("pod", o.namespace, o.name);
    ExecFromSnoc(Init(clusterId), actions, Offer(lost));
    var q := Exec(clusterId, actions + [Offer(lost)]);
    assert q.callbacks == [Upserted("pod", o), lost] && q.replica == p.replica;
    GoneFromSource(q.callbacks, lost);
  }

  lemma PodDelivered(clusterId: string, o: Object) returns (actions: seq<Action>)
    ensures var p := Exec(clusterId, actions);
      && p.failures == 0 && p.inflight.None? && p.batch == [] && p.queue == [] && !p.answered
      && p.callbacks == [Upserted("pod", o)] && Key("pod", o.namespace, o.name) in p.replica
  {
    var up := Upserted("pod", o);
    var sent := PodSent(clusterId, o);
    var e := EventOf(clusterId, up, 0).value;
    actions := sent + [Try(Acknowledged)] + [Conclude];
    ExecFromSnoc(Init(clusterId), sent, Try(Acknowledged));
    ExecFromSnoc(Init(clusterId), sent + [Try(Acknowledged)], Conclude);
    EventReplayed(clusterId, up);
  }

  lemma EventReplayed(clusterId: string, cb: Callback)
    requires cb.Upserted?
    ensures SourceKey(cb) in Replayed(map[], Ops([EventOf(clusterId, cb, 0).value]))
  {
    var e := EventOf(clusterId, cb, 0).value;
    EventSaysCallback(clusterId, cb, 0);
    LastForIs(Ops([e]), SourceKey(cb), 0);
    ReplayedAt(map[], Ops([e]), SourceKey(cb));
  }

  /** A run in which a deletion was offered, batched and sent, no attempt got through, and the pipeline is
      empty again: one failure is counted, and the replica keeps the deleted pod. */
  lemma LostDeletion(clusterId: string, o: Object)
    ensures exists actions :: var p := Exec(clusterId, actions);
      && p.failures == 1 && p.inflight.None? && p.batch == [] && p.queue == []
      && Key("pod", o.namespace, o.name) in p.replica && Key("pod", o.namespace, o.name) !in Source(p.callbacks)
  {
    var actions := PodDelivered(clusterId, o);
    var up, gone := Upserted("pod", o), Deleted("pod", o);
    var more := DeletionFails(clusterId, actions, gone);
    GoneFromSource([up, gone], gone);
    assert Exec(clusterId, more).callbacks == [up, gone];
  }

  lemma GoneFromSource(callbacks: seq<Callback>, cb: Callback)
    requires callbacks != [] && callbacks[|callbacks| - 1] == cb && !cb.Upserted?
    ensures SourceKey(cb) !in Source(callbacks)
  {
    assert LastCallback(callbacks, |callbacks| - 1);
    SourceAt(callbacks, |callbacks| - 1);
    assert Get(Source(callbacks), SourceKey(cb)) == None;
  }

  lemma DeletionFails(clusterId: string, actions: seq<Action>, cb: Callback) returns (more: seq<Action>)
    requires cb.Deleted?
    requires var p := Exec(clusterId, actions); p.inflight.None? && p.batch == [] && p.queue == [] && !p.answered
    ensures var p, q := Exec(clusterId, actions), Exec(clusterId, more);
      && q.inflight.None? && q.batch == [] && q.queue == [] && q.replica == p.replica
      && q.callbacks == p.callbacks + [cb] && q.failures == p.failures + 1
  {
    var p := Exec(clusterId, actions);
    var p1 := DoOffer(p, cb);
    var e := EventOf(p.clusterId, cb, |p.callbacks|).value;
    assert p1.queue == [e];
    var p2 := DoTake(p1);
    assert p2.batch == [e] && p2.queue == [];
    FourSteps(clusterId, actions, Offer(cb), Take, Tick, Conclude);
    more := actions + [Offer(cb)] + [Take] + [Tick] + [Conclude];
  }

  lemma FourSteps(clusterId: string, actions: seq<Action>, a: Action, b: Action, c: Action, d: Action)
    ensures Exec(clusterId, actions + [a] + [b] + [c] + [d])
         == Step(Step(Step(Step(Exec(clusterId, actions), a), b), c), d)
  {
    ExecFromSnoc(Init(clusterId), actions, a);
    ExecFromSnoc(Init(clusterId), actions + [a], b);
    ExecFromSnoc(Init(clusterId), actions + [a] + [b], c);
    ExecFromSnoc(Init(clusterId), actions + [a] + [b] + [c], d);
  }

  lemma PodSent(clusterId: string, o: Object) returns (actions: seq<Action>)
    ensures var p := Exec(clusterId, actions);
      && p.failures == 0 && p.batch == [] && p.queue == [] && p.sent == [] && p.replica == map[]
      && p.callbacks == [Upserted("pod", o)] && !p.landed && !p.answered
      && p.inflight == Some([EventOf(clusterId, Upserted("pod", o), 0).value])
  {
    var up := Upserted("pod", o);
    var e := EventOf(clusterId, up, 0).value;
    var p0 := Init(clusterId);
    var p1 := DoOffer(p0, up);
    assert p1.queue == [e] && p1.callbacks == [up];
    var p2 := DoTake(p1);
    assert p2.batch == [e] && p2.queue == [] && p2.inflight.None?;
    var p3 := DoTick(p2);
    assert ExecFrom(p0, []) == p0;
    ExecFromSnoc(p0, [], Offer(up));
    assert Step(p0, Offer(up)) == p1;
    ExecFromSnoc(p0, [] + [Offer(up)], Take);
    assert Step(p1, Take) == p2;
    ExecFromSnoc(p0, [] + [Offer(up)] + [Take], Tick);
    assert Step(p2, Tick) == p3;
    actions := [] + [Offer(up)] + [Take] + [Tick];
  }
}
