/** The runner of internal/inventory/inventory.go over its channel and its batch buffer, proved to take
    steps of the pipeline.

    The batch is a slice of capacity 200: a shared array and a length.  `send` hands that very array to
    the client and installs a fresh one, and the abstract view reads every array ever sent, so that a
    later append to a sent array would show as a changed past.
 */
module InventoryCode {
  import opened Options
  import opened Replay
  import opened Inventory
  import opened InventoryLaws
  import opened Draining
  import States

  /** A slice handed to the client, and what became of it. */
  datatype Record = Record(buf: array<Event>, len: nat, acked: bool, applied: bool)

  ghost predicate Fits(r: Record) {
    r.len <= r.buf.Length
  }

  datatype Pick = PickDone | PickQueue | PickTicker

  /** One attempt of a send, and the callbacks that ran before it. */
  datatype Post = Post(during: seq<Callback>, attempt: Attempt)

  /** What the select picked and the callbacks that ran before it; and if that starts a send, its attempts and
      the callbacks between the last of them and the return of the send. */
  datatype Choice = Choice(before: seq<Callback>, pick: Pick, posts: seq<Post>, after: seq<Callback>)

  function OfferAll(p: Pipe, cbs: seq<Callback>): Pipe {
    if cbs == [] then p else Step(OfferAll(p, cbs[..|cbs| - 1]), Offer(cbs[|cbs| - 1]))
  }

  function Picked(p: Pipe, pick: Pick): Pipe {
    match pick
    case PickDone => p
    case PickQueue => Step(p, Take)
    case PickTicker => Step(p, Tick)
  }

  /** The attempts of a send, up to the first acknowledgement, with callbacks in between. */
  function Posted(p: Pipe, posts: seq<Post>): Pipe
    decreases |posts|
  {
    if posts == [] then p
    else
      var p' := Step(OfferAll(p, posts[0].during), Try(posts[0].attempt));
      if posts[0].attempt.Acknowledged? then p' else Posted(p', posts[1..])
  }

  /** What one turn of the loop must make of the pipeline: the callbacks, the picked case, and the whole
      send it starts, if it starts one, before anything else is picked. */
  function Turn(p: Pipe, c: Choice): Pipe {
    Served(Picked(OfferAll(p, c.before), c.pick), c)
  }

  function Served(p: Pipe, c: Choice): Pipe {
    if p.inflight.None? then p else Step(OfferAll(Posted(p, c.posts), c.after), Conclude)
  }

  /** The turns of a script, up to the end of the context. */
  function Turns(p: Pipe, script: seq<Choice>): Pipe
    decreases |script|
  {
    if script == [] then p
    else if script[0].pick.PickDone? then Turn(p, script[0])
    else Turns(Turn(p, script[0]), script[1..])
  }

  // ---- Turns only add to what was sent ----

  lemma StepSent(p: Pipe, a: Action)
    ensures p.sent <= Step(p, a).sent
    ensures !a.Conclude? ==> Step(p, a).sent == p.sent
  {
  }

  lemma {:induction false} OffersKeepSent(p: Pipe, cbs: seq<Callback>)
    ensures OfferAll(p, cbs).sent == p.sent
  {
    if cbs != [] {
      OffersKeepSent(p, cbs[..|cbs| - 1]);
      StepSent(OfferAll(p, cbs[..|cbs| - 1]), Offer(cbs[|cbs| - 1]));
    }
  }

  lemma {:induction false} PostsKeepSent(p: Pipe, posts: seq<Post>)
    ensures Posted(p, posts).sent == p.sent
    decreases |posts|
  {
    if posts != [] {
      OffersKeepSent(p, posts[0].during);
      StepSent(OfferAll(p, posts[0].during), Try(posts[0].attempt));
      PostsKeepSent(Step(OfferAll(p, posts[0].during), Try(posts[0].attempt)), posts[1..]);
    }
  }

  lemma TurnKeepsSent(p: Pipe, c: Choice)
    ensures p.sent <= Turn(p, c).sent
  {
    var p' := Picked(OfferAll(p, c.before), c.pick);
    OffersKeepSent(p, c.before);
    PickSent(OfferAll(p, c.before), c.pick);
    if p'.inflight.Some? {
      PostsKeepSent(p', c.posts);
      OffersKeepSent(Posted(p', c.posts), c.after);
      StepSent(OfferAll(Posted(p', c.posts), c.after), Conclude);
    }
  }

  lemma PickSent(p: Pipe, pick: Pick)
    ensures Picked(p, pick).sent == p.sent
  {
    match pick
    case PickDone =>
    case PickQueue => StepSent(p, Take);
    case PickTicker => StepSent(p, Tick);
  }

  lemma {:induction false} TurnsKeepSent(p: Pipe, script: seq<Choice>)
    ensures p.sent <= Turns(p, script).sent
    decreases |script|
  {
    if script != [] {
      TurnKeepsSent(p, script[0]);
      TurnsKeepSent(Turn(p, script[0]), script[1..]);
    }
  }

  // ---- What a turn comes to ----

  function Attempts(posts: seq<Post>): seq<Attempt> {
    seq(|posts|, i requires 0 <= i < |posts| => posts[i].attempt)
  }

  /** The callbacks that run during the attempts that are made. */
  function HeardDuring(posts: seq<Post>): seq<Callback> {
    if posts == [] then []
    else posts[0].during + if posts[0].attempt.Acknowledged? then [] else HeardDuring(posts[1..])
  }

  /** Between `p` and `q` there were these callbacks, and the consumer did nothing. */
  ghost predicate OnlyHeard(p: Pipe, q: Pipe, cbs: seq<Callback>) {
    && q.callbacks == p.callbacks + cbs && p.queue <= q.queue && q.batch == p.batch
    && q.inflight == p.inflight && q.sent == p.sent
  }

  lemma OfferHeard(p: Pipe, cb: Callback)
    ensures var q := Step(p, Offer(cb)); OnlyHeard(p, q, [cb]) && q.landed == p.landed && q.answered == p.answered
  {
  }

  lemma OnlyHeardTwice(p: Pipe, q: Pipe, r: Pipe, a: seq<Callback>, b: seq<Callback>)
    requires OnlyHeard(p, q, a) && OnlyHeard(q, r, b)
    ensures OnlyHeard(p, r, a + b)
  {
  }

  lemma {:induction false} OffersOnlyHeard(p: Pipe, cbs: seq<Callback>)
    ensures var q := OfferAll(p, cbs); OnlyHeard(p, q, cbs) && q.landed == p.landed && q.answered == p.answered
  {
    if cbs != [] {
      var n := |cbs| - 1;
      OffersOnlyHeard(p, cbs[..n]);
      OfferHeard(OfferAll(p, cbs[..n]), cbs[n]);
      OnlyHeardTwice(p, OfferAll(p, cbs[..n]), OfferAll(p, cbs), cbs[..n], [cbs[n]]);
      assert cbs[..n] + [cbs[n]] == cbs;
    }
  }

  lemma {:induction false} OffersSound(p: Pipe, cbs: seq<Callback>)
    requires OrderInv(p) && SizeInv(p)
    ensures OrderInv(OfferAll(p, cbs)) && SizeInv(OfferAll(p, cbs))
  {
    if cbs != [] {
      var n := |cbs| - 1;
      OffersSound(p, cbs[..n]);
      OrderStep(OfferAll(p, cbs[..n]), Offer(cbs[n]));
      SizeStep(OfferAll(p, cbs[..n]), Offer(cbs[n]));
    }
  }

  lemma OffersHeard(p: Pipe, cbs: seq<Callback>)
    requires OrderInv(p) && SizeInv(p)
    ensures var q := OfferAll(p, cbs);
      && OnlyHeard(p, q, cbs) && q.landed == p.landed && q.answered == p.answered && OrderInv(q) && SizeInv(q)
      && (cbs == [] ==> q == p)
  {
    OffersOnlyHeard(p, cbs);
    OffersSound(p, cbs);
  }

  /** One attempt, after the callbacks that ran before it. */
  lemma PostHeard(p: Pipe, post: Post)
    requires OrderInv(p) && SizeInv(p) && p.inflight.Some? && !p.answered
    ensures var q := Step(OfferAll(p, post.during), Try(post.attempt));
      && OnlyHeard(p, q, post.during) && OrderInv(q) && SizeInv(q)
      && q.landed == (p.landed || !post.attempt.NotApplied?) && q.answered == post.attempt.Acknowledged?
      && (post.during == [] ==> q.queue == p.queue && q.accepted == p.accepted)
  {
    OffersHeard(p, post.during);
    TryHeard(OfferAll(p, post.during), post.attempt);
  }

  lemma TryHeard(p: Pipe, attempt: Attempt)
    requires OrderInv(p) && SizeInv(p) && p.inflight.Some? && !p.answered
    ensures var q := Step(p, Try(attempt));
      && q.callbacks == p.callbacks && q.queue == p.queue && q.accepted == p.accepted && q.batch == p.batch
      && q.inflight == p.inflight && q.sent == p.sent && OrderInv(q) && SizeInv(q)
      && q.landed == (p.landed || !attempt.NotApplied?) && q.answered == attempt.Acknowledged?
  {
    OrderStep(p, Try(attempt));
    SizeStep(p, Try(attempt));
  }

  /** The attempts leave the batch in flight, landed if one was applied and answered if one was acknowledged. */
  lemma {:induction false} PostsHeard(p: Pipe, posts: seq<Post>)
    requires OrderInv(p) && SizeInv(p) && p.inflight.Some? && !p.answered
    ensures var q := Posted(p, posts);
      && OnlyHeard(p, q, HeardDuring(posts)) && OrderInv(q) && SizeInv(q)
      && q.landed == (p.landed || Applied(Attempts(posts))) && q.answered == Acked(Attempts(posts))
    ensures (forall i :: 0 <= i < |posts| ==> posts[i].during == []) ==>
      Posted(p, posts).queue == p.queue && Posted(p, posts).accepted == p.accepted
    decreases |posts|
  {
    if posts != [] {
      var q := Step(OfferAll(p, posts[0].during), Try(posts[0].attempt));
      PostHeard(p, posts[0]);
      assert Attempts(posts)[1..] == Attempts(posts[1..]);
      assert posts[0].during + [] == posts[0].during;
      if !posts[0].attempt.Acknowledged? {
        PostsHeard(q, posts[1..]);
        OnlyHeardTwice(p, q, Posted(p, posts), posts[0].during, HeardDuring(posts[1..]));
      }
    }
  }

  /** The whole of a send that has just started: one entry in the past, saying what its attempts came to. */
  lemma SendHeard(p: Pipe, c: Choice)
    requires OrderInv(p) && SizeInv(p) && p.inflight.Some? && !p.landed
    ensures var q := Step(OfferAll(Posted(p, c.posts), c.after), Conclude);
      && q.callbacks == p.callbacks + (HeardDuring(c.posts) + c.after) && p.queue <= q.queue && q.batch == p.batch
      && q.inflight.None? && q.sent == p.sent + [Sent(p.inflight.value, Acked(Attempts(c.posts)), Applied(Attempts(c.posts)))]
      && OrderInv(q) && SizeInv(q)
    ensures HushedSend(c) ==>
      var q := Step(OfferAll(Posted(p, c.posts), c.after), Conclude); q.queue == p.queue && q.accepted == p.accepted
  {
    var posted := Posted(p, c.posts);
    var heard := OfferAll(posted, c.after);
    PostsHeard(p, c.posts);
    OffersHeard(posted, c.after);
    OnlyHeardTwice(p, posted, heard, HeardDuring(c.posts), c.after);
    ConcludeHeard(heard);
  }

  lemma ConcludeHeard(p: Pipe)
    requires OrderInv(p) && SizeInv(p) && p.inflight.Some?
    ensures var q := Step(p, Conclude);
      && OrderInv(q) && SizeInv(q) && q.inflight.None? && q.sent == p.sent + [Sent(p.inflight.value, p.answered, p.landed)]
      && q.callbacks == p.callbacks && q.queue == p.queue && q.batch == p.batch && q.accepted == p.accepted
  {
    OrderStep(p, Conclude);
    SizeStep(p, Conclude);
  }

  predicate HushedSend(c: Choice) {
    c.after == [] && forall i :: 0 <= i < |c.posts| ==> c.posts[i].during == []
  }

  /** Nothing is reported during the turn. */
  predicate Hushed(c: Choice) {
    c.before == [] && HushedSend(c)
  }

  /** A ticker turn with a batch sends that batch, whole, and starts the next one. */
  lemma TickerTurn(p: Pipe, c: Choice)
    requires OrderInv(p) && SizeInv(p) && p.inflight.None? && c.pick.PickTicker? && p.batch != []
    ensures var q := Turn(p, c);
      && q.batch == [] && q.inflight.None? && p.queue <= q.queue
      && q.sent == p.sent + [Sent(p.batch, Acked(Attempts(c.posts)), Applied(Attempts(c.posts)))]
      && q.callbacks == p.callbacks + c.before + (HeardDuring(c.posts) + c.after)
  {
    OffersHeard(p, c.before);
    var picked := Step(OfferAll(p, c.before), Tick);
    OrderStep(OfferAll(p, c.before), Tick);
    SizeStep(OfferAll(p, c.before), Tick);
    SendHeard(picked, c);
  }

  /** A queue turn receives the oldest queued event: it joins the batch, which is sent when that makes 200. */
  lemma QueueTurn(p: Pipe, c: Choice)
    requires OrderInv(p) && SizeInv(p) && p.inflight.None? && c.pick.PickQueue? && p.queue != []
    ensures var q, b := Turn(p, c), p.batch + [p.queue[0]];
      && q.inflight.None? && p.queue[1..] <= q.queue
      && (|b| < 200 ==> q.batch == b && q.sent == p.sent && q.callbacks == p.callbacks + c.before)
      && (|b| == 200 ==> q.batch == [] && q.callbacks == p.callbacks + c.before + (HeardDuring(c.posts) + c.after))
      && (|b| == 200 ==> q.sent == p.sent + [Sent(b, Acked(Attempts(c.posts)), Applied(Attempts(c.posts)))])
  {
    OffersHeard(p, c.before);
    var heard := OfferAll(p, c.before);
    var picked := Step(heard, Take);
    OrderStep(heard, Take);
    SizeStep(heard, Take);
    assert heard.queue[0] == p.queue[0] && p.queue[1..] <= heard.queue[1..];
    if picked.inflight.Some? {
      SendHeard(picked, c);
    }
  }

  /** Any other turn is its callbacks and nothing else: the end of the context, a tick without a batch, or a
      queue that stayed empty. */
  lemma IdleTurn(p: Pipe, c: Choice)
    requires OrderInv(p) && SizeInv(p) && p.inflight.None?
    requires c.pick.PickDone? || (c.pick.PickTicker? && p.batch == []) || (c.pick.PickQueue? && p.queue == [] && c.before == [])
    ensures OnlyHeard(p, Turn(p, c), c.before)
  {
    OffersHeard(p, c.before);
  }

  /** After the end of the context nothing more is picked and no callback is heard. */
  lemma {:induction false} DoneEnds(p: Pipe, script: seq<Choice>, c: Choice, rest: seq<Choice>)
    requires c.pick.PickDone?
    ensures Turns(p, script + [c] + rest) == Turns(p, script + [c])
    decreases |script|
  {
    if script == [] {
      assert ([c] + rest)[0] == c && [] + [c] + rest == [c] + rest && [] + [c] == [c];
    } else {
      assert (script + [c] + rest)[1..] == script[1..] + [c] + rest && (script + [c])[1..] == script[1..] + [c];
      if !script[0].pick.PickDone? {
        DoneEnds(Turn(p, script[0]), script[1..], c, rest);
      }
    }
  }

  function Offers(cbs: seq<Callback>): seq<Action> {
    seq(|cbs|, i requires 0 <= i < |cbs| => Offer(cbs[i]))
  }

  /** Neither list has a receive or a tick that the other has not. */
  predicate SamePicks(a: seq<Action>, b: seq<Action>) {
    Takes(a) == Takes(b) && Ticks(a) == Ticks(b)
  }

  /** How often a script picks the ticker before the end of the context. */
  function TickerPicks(script: seq<Choice>): nat {
    if script == [] || script[0].pick.PickDone? then 0
    else (if script[0].pick.PickTicker? then 1 else 0) + TickerPicks(script[1..])
  }

  // ---- Scripts that empty the pipeline ----

  function QueuePicks(script: seq<Choice>): nat {
    if script == [] then 0 else (if script[0].pick.PickQueue? then 1 else 0) + QueuePicks(script[1..])
  }

  /** A script in which nothing more is reported, the context lives, and the queue is picked at least so often
      before a last tick. */
  ghost predicate Empties(script: seq<Choice>, queued: nat) {
    && script != [] && script[|script| - 1].pick.PickTicker? && QueuePicks(script) >= queued
    && forall i :: 0 <= i < |script| ==> Hushed(script[i]) && !script[i].pick.PickDone?
  }

  lemma HushedTurn(p: Pipe, c: Choice)
    requires OrderInv(p) && SizeInv(p) && p.inflight.None? && Hushed(c) && !c.pick.PickDone?
    ensures var q := Turn(p, c);
      && OrderInv(q) && SizeInv(q) && q.inflight.None? && q.accepted == p.accepted
      && |q.queue| == |p.queue| - (if c.pick.PickQueue? && p.queue != [] then 1 else 0)
      && (c.pick.PickTicker? ==> q.batch == [])
  {
    var a := if c.pick.PickQueue? then Take else Tick;
    HushedPick(p, a);
    OffersHeard(p, c.before);
    if Step(p, a).inflight.Some? {
      SendHeard(Step(p, a), c);
    }
  }

  lemma HushedPick(p: Pipe, a: Action)
    requires OrderInv(p) && SizeInv(p) && p.inflight.None? && (a.Take? || a.Tick?)
    ensures var q := Step(p, a);
      && OrderInv(q) && SizeInv(q) && !q.landed && q.accepted == p.accepted
      && |q.queue| == |p.queue| - (if a.Take? && p.queue != [] then 1 else 0)
      && (a.Tick? ==> q.batch == [])
  {
    OrderStep(p, a);
    SizeStep(p, a);
  }

  /** Whatever the order of picks and whatever the sends come to, such a script leaves queue and batch empty and
      has sent every accepted event, in order. */
  lemma {:induction false} ScriptEmpties(p: Pipe, script: seq<Choice>)
    requires OrderInv(p) && SizeInv(p) && p.inflight.None? && Empties(script, |p.queue|)
    ensures var q := Turns(p, script);
      q.queue == [] && q.batch == [] && q.inflight.None? && Events(q.sent) == p.accepted == q.accepted
    decreases |script|
  {
    var q := Turn(p, script[0]);
    HushedTurn(p, script[0]);
    if |script| > 1 {
      assert forall i :: 0 <= i < |script| - 1 ==> script[1..][i] == script[i + 1];
      ScriptEmpties(q, script[1..]);
    } else {
      assert script[1..] == [] && QueuePicks([]) == 0;
      assert Events(q.sent) + [] + [] + [] == Events(q.sent);
    }
  }

  // ---- Offers, as updates ----

  lemma OfferAccepted(p: Pipe, cb: Callback, e: Event)
    requires EventOf(p.clusterId, cb, |p.callbacks|) == Some(e) && |p.queue| < QUEUE_CAPACITY
    ensures DoOffer(p, cb) == p.(callbacks := p.callbacks + [cb], accepted := p.accepted + [e], queue := p.queue + [e])
  {
  }

  lemma OfferDropped(p: Pipe, cb: Callback, e: Event)
    requires EventOf(p.clusterId, cb, |p.callbacks|) == Some(e) && |p.queue| >= QUEUE_CAPACITY
    ensures DoOffer(p, cb) == p.(callbacks := p.callbacks + [cb], dropped := p.dropped + 1, failures := p.failures + 1)
  {
  }

  class Runner {
    const clusterId: string
    const metrics: States.Metrics
    var queue: seq<Event>
    var buf: array<Event>
    var n: nat
    var payload: array?<Event>
    var payloadLen: nat
    /** Stands for time.Now: one tick per callback. */
    var clock: nat

    ghost var callbacks: seq<Callback>
    ghost var accepted: seq<Event>
    ghost var dropped: nat
    ghost var history: seq<Record>
    ghost var replica: map<Key, Payload>
    ghost var landed: bool
    ghost var answered: bool

    ghost function Buffers(): set<object>
      reads this
    {
      (set r | r in history :: r.buf as object) + {buf, metrics} + (if payload != null then var p: array<Event> := payload; {p} else {})
    }

    ghost function SentView(hs: seq<Record>): seq<Sent>
      requires forall r :: r in hs ==> Fits(r)
      reads set r | r in hs :: r.buf
    {
      if hs == [] then []
      else
        var last := hs[|hs| - 1];
        assert last in hs && Fits(last);
        SentView(hs[..|hs| - 1]) + [Sent(last.buf[..last.len], last.acked, last.applied)]
    }

    ghost predicate Valid()
      reads this, Buffers()
    {
      && clock == |callbacks| && buf.Length == BATCH_SIZE && n < BATCH_SIZE
      && (payload != null ==> payload != buf && payloadLen <= payload.Length)
      && (payload == null ==> !landed && !answered)
      && (forall r :: r in history ==> Fits(r) && r.buf != buf && r.buf != payload)
    }

    ghost function View(): Pipe
      requires Valid()
      reads this, Buffers()
    {
      Pipe(clusterId, callbacks, accepted, dropped, queue, buf[..n],
           if payload != null then Some(payload[..payloadLen]) else None, landed, answered,
           SentView(history), replica, metrics.inventorySyncs, metrics.inventoryFailures)
    }

    constructor (clusterId: string, metrics: States.Metrics)
      requires metrics.inventorySyncs == metrics.inventoryFailures == 0
      ensures Valid() && View() == Init(clusterId) && this.metrics == metrics && fresh(buf)
    {
      this.clusterId, this.metrics := clusterId, metrics;
      queue, buf, n, payload, payloadLen := [], new Event[BATCH_SIZE], 0, null, 0;
      clock, callbacks, accepted, dropped, history, replica := 0, [], [], 0, [], map[];
      landed, answered := false, false;
    }

    /** An informer callback. */
    method Enqueue(cb: Callback)
      requires Valid()
      modifies this, metrics
      ensures Valid() && View() == Step(old(View()), Offer(cb))
      ensures buf == old(buf) && payload == old(payload) && history == old(history) && answered == old(answered)
    {
      match EventOf(clusterId, cb, clock) {
        case None => Skip(cb);
        case Some(e) =>
          if |queue| < QUEUE_CAPACITY {
            Push(cb, e);
          } else {
            Drop(cb, e);
          }
      }
    }

    method Skip(cb: Callback)
      requires Valid() && EventOf(clusterId, cb, clock).None?
      modifies this`callbacks, this`clock
      ensures Valid() && View() == DoOffer(old(View()), cb)
    {
      callbacks, clock := callbacks + [cb], clock + 1;
      SentFrame(history);
    }

    method Push(cb: Callback, e: Event)
      requires Valid() && EventOf(clusterId, cb, clock) == Some(e) && |queue| < QUEUE_CAPACITY
      modifies this`callbacks, this`clock, this`queue, this`accepted
      ensures Valid() && View() == DoOffer(old(View()), cb)
    {
      OfferAccepted(View(), cb, e);
      callbacks, clock := callbacks + [cb], clock + 1;
      queue, accepted := queue + [e], accepted + [e];
      SentFrame(history);
    }

    /** The queue is full: the event is lost and counted. */
    method Drop(cb: Callback, e: Event)
      requires Valid() && EventOf(clusterId, cb, clock) == Some(e) && |queue| >= QUEUE_CAPACITY
      modifies this`callbacks, this`clock, this`dropped, metrics
      ensures Valid() && View() == DoOffer(old(View()), cb)
    {
      OfferDropped(View(), cb, e);
      callbacks, clock, dropped := callbacks + [cb], clock + 1, dropped + 1;
      metrics.inventoryFailures := metrics.inventoryFailures + 1;
      SentFrame(history);
    }

    /** Views of the past depend only on the arrays. */
    twostate lemma SentFrame(hs: seq<Record>)
      requires forall r :: r in hs ==> Fits(r) && unchanged(r.buf)
      ensures SentView(hs) == old(SentView(hs))
    {
      if hs != [] {
        SentFrame(hs[..|hs| - 1]);
      }
    }

    /** The first half of send: take the slice, leave a fresh one. */
    method Detach()
      requires clock == |callbacks| && buf.Length == BATCH_SIZE && 0 < n <= BATCH_SIZE && payload == null
      requires forall r :: r in history ==> Fits(r) && r.buf != buf
      modifies this
      ensures Valid() && payload == old(buf) && payloadLen == old(n) && n == 0 && fresh(buf)
      ensures unchanged(`queue) && unchanged(`callbacks) && unchanged(`accepted) && unchanged(`dropped)
      ensures unchanged(`history) && unchanged(`replica) && unchanged(`landed) && unchanged(`answered)
    {
      payload, payloadLen := buf, n;
      buf := new Event[BATCH_SIZE];
      n := 0;
      assert forall r :: r in history ==> r.buf != buf;
    }

    /** The select picked the queue. */
    method Receive()
      requires Valid() && payload == null && queue != []
      modifies this, buf
      ensures Valid() && View() == Step(old(View()), Take)
      ensures history == old(history) && answered == old(answered)
      ensures fresh({buf} - {old(buf)})
    {
      var ev := queue[0];
      queue := queue[1..];
      buf[n] := ev;
      n := n + 1;
      assert buf[..n] == old(buf[..n]) + [ev];
      if n >= BATCH_SIZE {
        Detach();
      }
      SentFrame(history);
    }

    /** The select picked the ticker. */
    method OnTick()
      requires Valid() && payload == null
      modifies this
      ensures Valid() && View() == Step(old(View()), Tick)
      ensures history == old(history) && answered == old(answered)
      ensures fresh({buf} - {old(buf)})
    {
      if n > 0 {
        Detach();
      }
      SentFrame(history);
    }

    /** One attempt to post the payload. */
    method Post(attempt: Attempt) returns (ok: bool)
      requires Valid() && payload != null && !answered
      modifies this`replica, this`landed, this`answered
      ensures Valid() && View() == Step(old(View()), Try(attempt))
      ensures ok == answered == attempt.Acknowledged?
    {
      ok := attempt.Acknowledged?;
      if !attempt.NotApplied? {
        replica, landed := Replayed(replica, Ops(payload[..payloadLen])), true;
      }
      answered := ok;
      SentFrame(history);
    }

    /** internal/registration/client.go, retry around the post, with callbacks running in between. */
    method Retry(posts: seq<Post>, ghost done: seq<Action>) returns (ok: bool, ghost log: seq<Action>)
      requires Valid() && payload != null && !answered && View() == Exec(clusterId, done)
      modifies this, metrics
      ensures Valid() && View() == Exec(clusterId, log) && done <= log
      ensures View() == Posted(old(View()), posts) && ok == answered && SamePicks(done, log)
      ensures buf == old(buf) && payload == old(payload) && history == old(history)
    {
      ok, log := false, done;
      ghost var p := View();
      var i := 0;
      while i < |posts| && !ok
        invariant 0 <= i <= |posts| && Valid() && View() == Exec(clusterId, log) && ok == answered
        invariant done <= log && SamePicks(done, log)
        invariant buf == old(buf) && payload == old(payload) && history == old(history)
        invariant if ok then View() == Posted(p, posts) else Posted(View(), posts[i..]) == Posted(p, posts)
        decreases |posts| - i
      {
        assert posts[i..][0] == posts[i] && posts[i..][1..] == posts[i + 1..];
        log := Callbacks(posts[i].during, log);
        ok := Post(posts[i].attempt);
        ExecFromSnoc(Init(clusterId), log, Try(posts[i].attempt));
        CountsAppend(log, Try(posts[i].attempt));
        log := log + [Try(posts[i].attempt)];
        i := i + 1;
      }
    }

    /** The counter. */
    method Count(ok: bool)
      requires Valid() && payload != null
      modifies metrics
      ensures Valid() && buf[..n] == old(buf[..n])
      ensures metrics.inventoryFailures == old(metrics.inventoryFailures) + if ok then 0 else 1
      ensures metrics.inventorySyncs == old(metrics.inventorySyncs) + if ok then payloadLen else 0
      ensures SentView(history) == old(SentView(history)) && payload[..payloadLen] == old(payload[..payloadLen])
    {
      if !ok {
        metrics.inventoryFailures := metrics.inventoryFailures + 1;
      } else {
        metrics.inventorySyncs := metrics.inventorySyncs + payloadLen;
      }
      SentFrame(history);
    }

    /** The end of send: what was posted is counted and becomes part of the past. */
    method Conclude(ok: bool)
      requires Valid() && payload != null && ok == answered
      modifies this, metrics
      ensures Valid() && View() == Step(old(View()), Action.Conclude) && payload == null
      ensures buf == old(buf) && old(history) <= history
    {
      Count(ok);
      Retire(ok);
    }

    method Retire(acked: bool)
      requires Valid() && payload != null
      modifies this`history, this`payload, this`landed, this`answered
      ensures Valid() && payload == null && !landed && !answered
      ensures buf[..n] == old(buf[..n]) && old(history) <= history
      ensures SentView(history) == old(SentView(history)) + [Sent(old(payload[..payloadLen]), acked, old(landed))]
    {
      history := history + [Record(payload, payloadLen, acked, landed)];
      payload, landed, answered := null, false, false;
    }

    /** The rest of send: the retried post, then its counter. */
    method Send(posts: seq<Post>, after: seq<Callback>, ghost done: seq<Action>) returns (ghost log: seq<Action>)
      requires Valid() && payload != null && !answered && View() == Exec(clusterId, done)
      modifies this, metrics
      ensures Valid() && payload == null && View() == Exec(clusterId, log) && done <= log
      ensures View() == Step(OfferAll(Posted(old(View()), posts), after), Action.Conclude) && SamePicks(done, log)
      ensures buf == old(buf) && old(history) <= history
    {
      var ok;
      ok, log := Retry(posts, done);
      log := Callbacks(after, log);
      Conclude(ok);
      ExecFromSnoc(Init(clusterId), log, Action.Conclude);
      CountsAppend(log, Action.Conclude);
      log := log + [Action.Conclude];
    }

    method Hear(cb: Callback, ghost done: seq<Action>) returns (ghost log: seq<Action>)
      requires Valid() && View() == Exec(clusterId, done)
      modifies this, metrics
      ensures Valid() && View() == Exec(clusterId, log) && log == done + [Offer(cb)] && SamePicks(done, log)
      ensures View() == Step(old(View()), Offer(cb))
      ensures buf == old(buf) && payload == old(payload) && history == old(history) && answered == old(answered)
    {
      Enqueue(cb);
      ExecFromSnoc(Init(clusterId), done, Offer(cb));
      CountsAppend(done, Offer(cb));
      log := done + [Offer(cb)];
    }

    /** Any number of callbacks, at a point where the consumer is elsewhere. */
    method Callbacks(cbs: seq<Callback>, ghost done: seq<Action>) returns (ghost log: seq<Action>)
      requires Valid() && View() == Exec(clusterId, done)
      modifies this, metrics
      ensures Valid() && View() == Exec(clusterId, log) && log == done + Offers(cbs) && SamePicks(done, log)
      ensures View() == OfferAll(old(View()), cbs)
      ensures buf == old(buf) && payload == old(payload) && history == old(history) && answered == old(answered)
    {
      log := done;
      ghost var p := View();
      for i := 0 to |cbs|
        invariant Valid() && View() == Exec(clusterId, log) && log == done + Offers(cbs[..i]) && SamePicks(done, log)
        invariant View() == OfferAll(p, cbs[..i])
        invariant buf == old(buf) && payload == old(payload) && history == old(history) && answered == old(answered)
      {
        log := Hear(cbs[i], log);
        assert cbs[..i + 1][..i] == cbs[..i] && Offers(cbs[..i + 1]) == Offers(cbs[..i]) + [Offer(cbs[i])];
      }
      assert cbs[..|cbs|] == cbs;
    }

    /** What the select picked, up to the send it may start. */
    method Select(pick: Pick, ghost done: seq<Action>) returns (ghost log: seq<Action>)
      requires Valid() && payload == null && View() == Exec(clusterId, done)
      modifies this, buf
      ensures Valid() && View() == Exec(clusterId, log) && View() == Picked(old(View()), pick)
      ensures pick.PickTicker? ==> log == done + [Tick]
      ensures pick.PickQueue? && old(queue) != [] ==> log == done + [Take]
      ensures pick.PickDone? || (pick.PickQueue? && old(queue) == []) ==> log == done
      ensures history == old(history) && answered == old(answered) && fresh({buf} - {old(buf)})
    {
      log := done;
      if pick == PickQueue && queue != [] {
        Receive();
        ExecFromSnoc(Init(clusterId), log, Take);
        log := log + [Take];
      } else if pick == PickTicker {
        OnTick();
        ExecFromSnoc(Init(clusterId), log, Tick);
        log := log + [Tick];
      }
    }

    /** One turn of the select loop. */
    method TakeTurn(c: Choice, ghost done: seq<Action>) returns (ghost log: seq<Action>)
      requires Valid() && payload == null && View() == Exec(clusterId, done)
      modifies this, metrics, buf
      ensures Valid() && payload == null && View() == Exec(clusterId, log) && done + Offers(c.before) <= log
      ensures View() == Turn(old(View()), c)
      ensures c.pick.PickTicker? ==> done + Offers(c.before) + [Tick] <= log
      ensures c.pick.PickQueue? && old(queue) != [] ==> done + Offers(c.before) + [Take] <= log && Takes(log) == Takes(done) + 1
      ensures c.pick.PickDone? ==> log == done + Offers(c.before)
      ensures Ticks(log) == Ticks(done) + if c.pick.PickTicker? then 1 else 0
      ensures old(history) <= history && fresh({buf} - {old(buf)})
    {
      OffersOnlyHeard(View(), c.before);
      log := Callbacks(c.before, done);
      if c.pick == PickDone {
        return;
      }
      log := Act(c, log);
    }

    /** What the select picked, and the send it starts, if it starts one. */
    method Act(c: Choice, ghost done: seq<Action>) returns (ghost log: seq<Action>)
      requires Valid() && payload == null && View() == Exec(clusterId, done)
      modifies this, metrics, buf
      ensures Valid() && payload == null && View() == Exec(clusterId, log) && done <= log
      ensures View() == Served(Picked(old(View()), c.pick), c)
      ensures c.pick.PickTicker? ==> done + [Tick] <= log
      ensures c.pick.PickQueue? && old(queue) != [] ==> done + [Take] <= log && Takes(log) == Takes(done) + 1
      ensures Ticks(log) == Ticks(done) + if c.pick.PickTicker? then 1 else 0
      ensures old(history) <= history && fresh({buf} - {old(buf)})
    {
      CountsAppend(done, Take);
      CountsAppend(done, Tick);
      log := Select(c.pick, done);
      if payload != null {
        log := Send(c.posts, c.after, log);
      }
    }

    /** The select loop.  `script` says what the environment does; running out of it, like PickDone, is
        the end of the context.  The loop makes of the pipeline exactly what the script's turns make of
        it, the execution is a run, what was sent stays as it was sent, and a quiet script that picks the queue
        often enough before a last tick leaves nothing unsent. */
    method Flush(script: seq<Choice>, ghost done: seq<Action>) returns (ghost log: seq<Action>)
      requires Valid() && payload == null && View() == Exec(clusterId, done)
      modifies this, metrics, buf
      ensures Valid() && payload == null && View() == Exec(clusterId, log) && done <= log
      ensures View() == Turns(old(View()), script) && old(View()).sent <= View().sent && Inv(View())
      ensures Ticks(log) == Ticks(done) + TickerPicks(script)
      ensures Empties(script, |old(queue)|) ==>
        queue == [] && View().batch == [] && Events(View().sent) == accepted == old(accepted)
      ensures old(history) <= history && fresh({buf} - {old(buf)})
    {
      log := done;
      ghost var p := View();
      TurnsKeepSent(p, script);
      Always(clusterId, done);
      if Empties(script, |queue|) {
        ScriptEmpties(p, script);
      }
      var i := 0;
      while i < |script|
        invariant 0 <= i <= |script| && Valid() && payload == null && View() == Exec(clusterId, log) && done <= log
        invariant Turns(View(), script[i..]) == Turns(p, script)
        invariant Ticks(log) + TickerPicks(script[i..]) == Ticks(done) + TickerPicks(script)
        invariant old(history) <= history && fresh({buf} - {old(buf)})
        decreases |script| - i
      {
        var c := script[i];
        assert script[i..][0] == c && script[i..][1..] == script[i + 1..];
        log := TakeTurn(c, log);
        i := i + 1;
        if c.pick == PickDone {
          Always(clusterId, log);
          return;
        }
      }
      assert script[i..] == [];
      Always(clusterId, log);
    }
  }
}
