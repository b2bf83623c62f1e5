/** The inventory delta pipeline of internal/inventory/inventory.go as a step system.

    Informer callbacks offer events to a bounded queue; one consumer batches and sends them; the sends
    are retried underneath (internal/registration/client.go).  Callbacks interleave freely with the
    consumer, also while a send is in progress.  The replica is what a control plane that replays
    delivered events would hold; it is part of the specification only.
 */
module Inventory {
  import opened Options
  import opened Replay

  const QUEUE_CAPACITY: nat := 4096
  const BATCH_SIZE: nat := 200

  /** A watched object: its metadata and the rest, as field values by name. */
  datatype Object = Object(name: string, namespace: string, uid: string, resourceVersion: string,
                           labels: string, fields: map<string, string>)

  type Payload = map<string, string>

  datatype Key = Key(kind: string, namespace: string, name: string)

  datatype Event = Event(clusterId: string, kind: string, operation: string, resourceVersion: string,
                         payload: Payload, timestamp: nat)

  /** What an informer reports.  A deletion the informer missed arrives as a tombstone, with the last
      known object (`Stale`) or without a usable one (`Lost`). */
  datatype Callback =
    | Upserted(kind: string, obj: Object)
    | Deleted(kind: string, obj: Object)
    | Stale(kind: string, obj: Object)
    | Lost(kind: string, namespace: string, name: string)

  // ---- Events ----

  function MetaObj(o: Object): Payload {
    map["name" := o.name, "namespace" := o.namespace, "uid" := o.uid,
        "resourceVersion" := o.resourceVersion, "labels" := o.labels]
  }

  /** The fields a kind's mapper adds to the metadata. */
  function Extras(kind: string): set<string> {
    if kind == "pod" then {"phase", "nodeName"}
    else if kind == "node" then {"version"}
    else if kind == "deployment" then {"replicas", "availableReplicas"}
    else if kind == "service" then {"type"}
    else if kind == "ingress" then {"class"}
    else {}
  }

  function Mapped(kind: string, o: Object): Payload {
    MetaObj(o) + map f | f in Extras(kind) :: if f in o.fields then o.fields[f] else ""
  }

  /** The event enqueue builds, unless there is no usable object. */
  function EventOf(clusterId: string, cb: Callback, now: nat): Option<Event> {
    match cb
    case Lost(_, _, _) => None
    case Upserted(kind, o) => Some(Event(clusterId, kind, "upsert", o.resourceVersion, Mapped(kind, o), now))
    case _ =>
      Some(Event(clusterId, cb.kind, "delete", cb.obj.resourceVersion,
                 map["name" := cb.obj.name, "namespace" := cb.obj.namespace, "uid" := cb.obj.uid], now))
  }

  function Field(p: Payload, f: string): string {
    if f in p then p[f] else ""
  }

  function KeyOf(e: Event): Key {
    Key(e.kind, Field(e.payload, "namespace"), Field(e.payload, "name"))
  }

  function OpOf(e: Event): Op<Key, Payload> {
    if e.operation == "delete" then Del(KeyOf(e)) else Put(KeyOf(e), e.payload)
  }

  function SourceKey(cb: Callback): Key {
    match cb
    case Lost(kind, namespace, name) => Key(kind, namespace, name)
    case _ => Key(cb.kind, cb.obj.namespace, cb.obj.name)
  }

  /** What the callback means for the watched objects. */
  function SourceOp(cb: Callback): Op<Key, Payload> {
    match cb
    case Upserted(kind, o) => Put(SourceKey(cb), Mapped(kind, o))
    case _ => Del(SourceKey(cb))
  }

  /** No mapper overwrites the name or the namespace, so an event says what its callback meant. */
  lemma EventSaysCallback(clusterId: string, cb: Callback, now: nat)
    requires !cb.Lost?
    ensures EventOf(clusterId, cb, now).Some?
    ensures var e := EventOf(clusterId, cb, now).value;
      KeyOf(e) == SourceKey(cb) && OpOf(e) == SourceOp(cb) && e.timestamp == now && e.clusterId == clusterId
  {
    if cb.Upserted? {
      MetadataSurvives(cb.kind, cb.obj);
      assert "upsert" != "delete";
    }
  }

  lemma MetadataSurvives(kind: string, o: Object)
    ensures Field(Mapped(kind, o), "name") == o.name
    ensures Field(Mapped(kind, o), "namespace") == o.namespace
  {
    var name, namespace := "name", "namespace";
    assert |name| == 4 && |namespace| == 9;
    assert name != "type" by {
      assert name[0] == 'n';
    }
    assert namespace != "nodeName" && namespace !in Extras(kind) && name !in Extras(kind);
  }

  predicate HasField(p: Payload, f: string, v: string) {
    f in p && p[f] == v
  }

  /** A field of the watched object; one that is not set reads as empty. */
  function Own(o: Object, f: string): string {
    if f in o.fields then o.fields[f] else ""
  }

  const METADATA: set<string> := {"name", "namespace", "uid", "resourceVersion", "labels"}

  /** What a consumer finds in the payload of an object of this kind: its metadata, what its kind adds, and
      nothing else. */
  predicate Describes(p: Payload, kind: string, o: Object) {
    && HasField(p, "name", o.name) && HasField(p, "namespace", o.namespace) && HasField(p, "uid", o.uid)
    && HasField(p, "resourceVersion", o.resourceVersion) && HasField(p, "labels", o.labels)
    && if kind == "pod" then Adds(p, o, {"phase", "nodeName"})
       else if kind == "node" then Adds(p, o, {"version"})
       else if kind == "deployment" then Adds(p, o, {"replicas", "availableReplicas"})
       else if kind == "service" then Adds(p, o, {"type"})
       else if kind == "ingress" then Adds(p, o, {"class"})
       else Adds(p, o, {})
  }

  predicate Adds(p: Payload, o: Object, fields: set<string>) {
    p.Keys == METADATA + fields && forall f :: f in fields ==> HasField(p, f, Own(o, f))
  }

  /** No field that a kind adds is called like a metadata field. */
  lemma ExtrasApart(kind: string)
    ensures Extras(kind) !! METADATA
  {
    assert |"name"| == 4 && |"namespace"| == 9 && |"uid"| == 3 && |"resourceVersion"| == 15 && |"labels"| == 6;
    assert |"phase"| == 5 && |"nodeName"| == 8 && |"version"| == 7 && |"replicas"| == 8;
    assert |"availableReplicas"| == 17 && |"type"| == 4 && |"class"| == 5;
    assert "name"[0] == 'n' && "type"[0] == 't';
  }

  lemma MetaFields(o: Object)
    ensures var m := MetaObj(o);
      && m.Keys == METADATA && HasField(m, "name", o.name) && HasField(m, "namespace", o.namespace)
      && HasField(m, "uid", o.uid) && HasField(m, "resourceVersion", o.resourceVersion) && HasField(m, "labels", o.labels)
  {
    assert |"name"| == 4 && |"namespace"| == 9 && |"uid"| == 3 && |"resourceVersion"| == 15 && |"labels"| == 6;
  }

  /** An upsert carries the object: every metadata field, every field its kind adds, and under no other name. */
  lemma UpsertCarries(clusterId: string, kind: string, o: Object, now: nat)
    ensures EventOf(clusterId, Upserted(kind, o), now).Some?
    ensures var e := EventOf(clusterId, Upserted(kind, o), now).value;
      && e.clusterId == clusterId && e.kind == kind && e.operation == "upsert" && e.timestamp == now
      && e.resourceVersion == o.resourceVersion && Describes(e.payload, kind, o)
      && (kind == "pod" ==> HasField(e.payload, "phase", Own(o, "phase")) && HasField(e.payload, "nodeName", Own(o, "nodeName")))
  {
    MappedDescribes(kind, o);
  }

  lemma MappedDescribes(kind: string, o: Object)
    ensures Describes(Mapped(kind, o), kind, o)
    ensures Mapped(kind, o).Keys == METADATA + Extras(kind)
  {
    ExtrasApart(kind);
    MetaFields(o);
    MappedFields(kind, o);
  }

  lemma MappedFields(kind: string, o: Object)
    ensures Mapped(kind, o).Keys == MetaObj(o).Keys + Extras(kind)
    ensures forall f :: f in Extras(kind) ==> HasField(Mapped(kind, o), f, Own(o, f))
    ensures forall f, v :: f !in Extras(kind) && HasField(MetaObj(o), f, v) ==> HasField(Mapped(kind, o), f, v)
  {
  }

  /** A deletion, also one that was missed and is known by its tombstone, carries name, namespace and uid and
      nothing else. */
  lemma DeleteCarries(clusterId: string, cb: Callback, now: nat)
    requires cb.Deleted? || cb.Stale?
    ensures EventOf(clusterId, cb, now).Some?
    ensures var e := EventOf(clusterId, cb, now).value;
      && e.clusterId == clusterId && e.kind == cb.kind && e.operation == "delete" && e.timestamp == now
      && e.resourceVersion == cb.obj.resourceVersion && e.payload.Keys == {"name", "namespace", "uid"}
      && HasField(e.payload, "name", cb.obj.name) && HasField(e.payload, "namespace", cb.obj.namespace)
      && HasField(e.payload, "uid", cb.obj.uid)
  {
    assert |"name"| == 4 && |"namespace"| == 9 && |"uid"| == 3;
  }

  function Ops(events: seq<Event>): seq<Op<Key, Payload>> {
    seq(|events|, i requires 0 <= i < |events| => OpOf(events[i]))
  }

  function SourceOps(callbacks: seq<Callback>): seq<Op<Key, Payload>> {
    seq(|callbacks|, i requires 0 <= i < |callbacks| => SourceOp(callbacks[i]))
  }

  /** The watched objects, by key. */
  function Source(callbacks: seq<Callback>): map<Key, Payload> {
    Replayed(map[], SourceOps(callbacks))
  }

  // ---- Delivery ----

  /** One attempt of a retried post: not applied, applied but reported as failed, or acknowledged. */
  datatype Attempt = NotApplied | Unacknowledged | Acknowledged

  /** Retry stops at the first acknowledgement. */
  function Acked(attempts: seq<Attempt>): bool {
    attempts != [] && (attempts[0].Acknowledged? || Acked(attempts[1..]))
  }

  function Applied(attempts: seq<Attempt>): bool {
    attempts != [] && (!attempts[0].NotApplied? || Applied(attempts[1..]))
  }

  /** The replica after the attempts, each of which may apply the batch again. */
  function Delivered(replica: map<Key, Payload>, ops: seq<Op<Key, Payload>>, attempts: seq<Attempt>): map<Key, Payload>
    decreases |attempts|
  {
    if attempts == [] then replica
    else match attempts[0]
      case NotApplied => Delivered(replica, ops, attempts[1..])
      case Unacknowledged => Delivered(Replayed(replica, ops), ops, attempts[1..])
      case Acknowledged => Replayed(replica, ops)
  }

  /** However often a batch is retried, and whatever was applied without being acknowledged, the replica
      is as if the batch had been applied once, or not at all when no attempt got through; and an
      acknowledged batch was applied. */
  lemma {:induction false} RetriesApplyOnce(replica: map<Key, Payload>, ops: seq<Op<Key, Payload>>, attempts: seq<Attempt>)
    ensures Delivered(replica, ops, attempts) == if Applied(attempts) then Replayed(replica, ops) else replica
    ensures Acked(attempts) ==> Applied(attempts)
    decreases |attempts|
  {
    if attempts != [] {
      match attempts[0]
      case NotApplied => RetriesApplyOnce(replica, ops, attempts[1..]);
      case Unacknowledged =>
        RetriesApplyOnce(Replayed(replica, ops), ops, attempts[1..]);
        ReplayTwice(replica, ops);
      case Acknowledged =>
    }
  }

  // ---- The step system ----

  datatype Sent = Sent(events: seq<Event>, acked: bool, applied: bool)

  datatype Pipe = Pipe(
    clusterId: string,
    callbacks: seq<Callback>,      // everything the informers reported
    accepted: seq<Event>,          // everything the queue took, in order
    dropped: nat,                  // events refused by the full queue
    queue: seq<Event>, batch: seq<Event>,
    inflight: Option<seq<Event>>,  // the batch being sent
    landed: bool,                  // some attempt to send it was applied
    answered: bool,                // and acknowledged
    sent: seq<Sent>, replica: map<Key, Payload>,
    syncs: nat, failures: nat)

  /** Conclude is the return of the send, with success if an attempt was acknowledged and else by giving up. */
  datatype Action = Offer(cb: Callback) | Take | Tick | Try(attempt: Attempt) | Conclude

  function Init(clusterId: string): Pipe {
    Pipe(clusterId, [], [], 0, [], [], None, false, false, [], map[], 0, 0)
  }

  function DoOffer(p: Pipe, cb: Callback): Pipe {
    var e := EventOf(p.clusterId, cb, |p.callbacks|);
    var p' := p.(callbacks := p.callbacks + [cb]);
    if e.None? then p'
    else if |p.queue| < QUEUE_CAPACITY then
      p'.(accepted := p.accepted + [e.value], queue := p.queue + [e.value])
    else p'.(dropped := p.dropped + 1, failures := p.failures + 1)
  }

  /** The select picks the queue: append, and start a send when the batch is full. */
  function DoTake(p: Pipe): Pipe
    requires p.queue != []
  {
    var b := p.batch + [p.queue[0]];
    var p' := p.(queue := p.queue[1..]);
    if |b| >= BATCH_SIZE then p'.(batch := [], inflight := Some(b)) else p'.(batch := b)
  }

  function DoTick(p: Pipe): Pipe {
    if p.batch != [] then p.(batch := [], inflight := Some(p.batch)) else p
  }

  /** One attempt to post the batch in flight. */
  function DoTry(p: Pipe, attempt: Attempt): Pipe
    requires p.inflight.Some?
  {
    match attempt
    case NotApplied => p
    case Unacknowledged => p.(replica := Replayed(p.replica, Ops(p.inflight.value)), landed := true)
    case Acknowledged => p.(replica := Replayed(p.replica, Ops(p.inflight.value)), landed := true, answered := true)
  }

  /** The send returns and is counted. */
  function DoConclude(p: Pipe): Pipe
    requires p.inflight.Some?
  {
    var p' := p.(inflight := None, landed := false, answered := false,
                 sent := p.sent + [Sent(p.inflight.value, p.answered, p.landed)]);
    if p.answered then p'.(syncs := p.syncs + |p.inflight.value|) else p'.(failures := p.failures + 1)
  }

  /** The consumer selects only between sends, and an acknowledged send is not tried again; an action that
      is not possible is skipped. */
  function Step(p: Pipe, a: Action): Pipe {
    match a
    case Offer(cb) => DoOffer(p, cb)
    case Take => if p.inflight.None? && p.queue != [] then DoTake(p) else p
    case Tick => if p.inflight.None? then DoTick(p) else p
    case Try(attempt) => if p.inflight.Some? && !p.answered then DoTry(p, attempt) else p
    case Conclude => if p.inflight.Some? then DoConclude(p) else p
  }

  function ExecFrom(p: Pipe, actions: seq<Action>): Pipe {
    if actions == [] then p else Step(ExecFrom(p, actions[..|actions| - 1]), actions[|actions| - 1])
  }

  function Exec(clusterId: string, actions: seq<Action>): Pipe {
    ExecFrom(Init(clusterId), actions)
  }

  lemma ExecFromSnoc(p: Pipe, actions: seq<Action>, a: Action)
    ensures ExecFrom(p, actions + [a]) == Step(ExecFrom(p, actions), a)
  {
    assert (actions + [a])[..|actions|] == actions;
  }

  function Events(sent: seq<Sent>): seq<Event> {
    if sent == [] then [] else Events(sent[..|sent| - 1]) + sent[|sent| - 1].events
  }

  function AppliedEvents(sent: seq<Sent>): seq<Event> {
    if sent == [] then []
    else AppliedEvents(sent[..|sent| - 1]) + if sent[|sent| - 1].applied then sent[|sent| - 1].events else []
  }

  function Flying(p: Pipe): seq<Event> {
    if p.inflight.Some? then p.inflight.value else []
  }

  /** The events the control plane has applied, each batch once: also those of the batch in flight as soon as
      one attempt got through. */
  function Reached(p: Pipe): seq<Event> {
    AppliedEvents(p.sent) + if p.landed then Flying(p) else []
  }

  // ---- Whole sends ----

  function Tries(attempts: seq<Attempt>): seq<Action> {
    if attempts == [] then [] else Tries(attempts[..|attempts| - 1]) + [Try(attempts[|attempts| - 1])]
  }

  /** A fresh send tried with these attempts: the replica is what delivery says, and the send counts as
      acknowledged and as applied exactly when some attempt was. */
  lemma {:induction false} TriesDeliver(p: Pipe, attempts: seq<Attempt>)
    requires p.inflight.Some? && !p.landed && !p.answered
    ensures var q := ExecFrom(p, Tries(attempts));
      q == p.(replica := if Applied(attempts) then Replayed(p.replica, Ops(p.inflight.value)) else p.replica,
              landed := Applied(attempts), answered := Acked(attempts))
  {
    if attempts != [] {
      var before, last := attempts[..|attempts| - 1], attempts[|attempts| - 1];
      TriesDeliver(p, before);
      AttemptsSnoc(before, last);
      assert before + [last] == attempts;
      ReplayTwice(p.replica, Ops(p.inflight.value));
      ExecFromSnoc(p, Tries(before), Try(last));
    }
  }

  lemma {:induction false} AttemptsSnoc(attempts: seq<Attempt>, a: Attempt)
    ensures Acked(attempts + [a]) <==> Acked(attempts) || a.Acknowledged?
    ensures Applied(attempts + [a]) <==> Applied(attempts) || !a.NotApplied?
    ensures Acked(attempts) ==> Applied(attempts)
  {
    if attempts != [] {
      AttemptsSnoc(attempts[1..], a);
      assert (attempts + [a])[1..] == attempts[1..] + [a];
    }
  }

  /** The send as a whole: what the retried post delivers, one entry in the past, one counter. */
  lemma SendDelivers(p: Pipe, attempts: seq<Attempt>)
    requires p.inflight.Some? && !p.landed && !p.answered
    ensures var q := ExecFrom(p, Tries(attempts) + [Conclude]);
      && q.inflight.None? && q.replica == Delivered(p.replica, Ops(p.inflight.value), attempts)
      && q.sent == p.sent + [Sent(p.inflight.value, Acked(attempts), Applied(attempts))]
  {
    TriesDeliver(p, attempts);
    RetriesApplyOnce(p.replica, Ops(p.inflight.value), attempts);
    ExecFromSnoc(p, Tries(attempts), Conclude);
  }
}
