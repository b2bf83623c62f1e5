/** What the consumer of the inventory pipeline does once the producers are quiet, for every schedule and
    every outcome of every send.
 */
module Draining {
  import opened Inventory
  import opened InventoryLaws

  /** Decreases with every step the consumer really takes. */
  function Backlog(p: Pipe): nat {
    3 * |p.queue| + 2 * Batched(p) + InFlight(p)
  }

  /** 1 while there is a batch, or a send in flight. */
  function Batched(p: Pipe): nat {
    if p.batch != [] then 1 else 0
  }

  function InFlight(p: Pipe): nat {
    if p.inflight.Some? then 1 else 0
  }

  predicate Empty(p: Pipe) {
    p.queue == [] && p.batch == [] && p.inflight.None?
  }

  /** The consumer gets on: it receives, starts a send or ends one.  An attempt of a send is none of these;
      how many are made is up to the backoff. */
  predicate Effective(p: Pipe, a: Action) {
    match a
    case Take => p.inflight.None? && p.queue != []
    case Tick => p.inflight.None? && p.batch != []
    case Conclude => p.inflight.Some?
    case _ => false
  }

  /** Nothing that counts for the backlog is different. */
  predicate SameWork(p: Pipe, q: Pipe) {
    q.queue == p.queue && q.batch == p.batch && q.inflight == p.inflight && q.sent == p.sent && q.callbacks == p.callbacks
  }

  /** What an effective step does to queue, batch and flight. */
  lemma EffectiveStep(p: Pipe, a: Action)
    requires SizeInv(p) && Effective(p, a)
    ensures var p' := Step(p, a);
      && p'.callbacks == p.callbacks
      && p'.queue == (if a.Take? then p.queue[1..] else p.queue)
      && (a.Take? ==> Batched(p') + InFlight(p') == 1)
      && (a.Tick? ==> Batched(p') == 0 && InFlight(p') == 1)
      && (a.Conclude? ==> Batched(p') == Batched(p) && InFlight(p') == 0)
      && |p'.sent| == |p.sent| + (if a.Conclude? then 1 else 0)
  {
  }

  lemma IdleStep(p: Pipe, a: Action)
    requires !a.Offer? && !Effective(p, a)
    ensures SameWork(p, Step(p, a))
    ensures !a.Try? ==> Step(p, a) == p
  {
  }

  /** With the producers quiet every effective step shortens the backlog, no other lengthens it, some step is
      effective while there is any, and an empty backlog means empty queue, batch and flight. */
  lemma BacklogShrinks(p: Pipe, a: Action)
    requires SizeInv(p)
    ensures Effective(p, a) ==> Backlog(Step(p, a)) < Backlog(p)
    ensures !a.Offer? && !Effective(p, a) ==> SameWork(p, Step(p, a)) && Backlog(Step(p, a)) == Backlog(p)
    ensures Backlog(p) > 0 ==> Effective(p, Take) || Effective(p, Tick) || Effective(p, Conclude)
    ensures Backlog(p) == 0 <==> Empty(p)
  {
    if Effective(p, a) {
      EffectiveStep(p, a);
    } else if !a.Offer? {
      IdleStep(p, a);
    }
  }

  // ---- Quiet schedules ----

  ghost predicate Quiet(actions: seq<Action>) {
    forall i :: 0 <= i < |actions| ==> !actions[i].Offer?
  }

  /** The actions of a schedule that really happened. */
  function Effects(p: Pipe, actions: seq<Action>): seq<Action> {
    if actions == [] then []
    else
      var n := |actions| - 1;
      Effects(p, actions[..n]) + if Effective(ExecFrom(p, actions[..n]), actions[n]) then [actions[n]] else []
  }

  function Takes(actions: seq<Action>): nat {
    if actions == [] then 0 else Takes(actions[..|actions| - 1]) + if actions[|actions| - 1].Take? then 1 else 0
  }

  function Ticks(actions: seq<Action>): nat {
    if actions == [] then 0 else Ticks(actions[..|actions| - 1]) + if actions[|actions| - 1].Tick? then 1 else 0
  }

  function Conclusions(actions: seq<Action>): nat {
    if actions == [] then 0 else Conclusions(actions[..|actions| - 1]) + if actions[|actions| - 1].Conclude? then 1 else 0
  }

  lemma CountsAppend(a: seq<Action>, x: Action)
    ensures Takes(a + [x]) == Takes(a) + if x.Take? then 1 else 0
    ensures Ticks(a + [x]) == Ticks(a) + if x.Tick? then 1 else 0
    ensures Conclusions(a + [x]) == Conclusions(a) + if x.Conclude? then 1 else 0
  {
    assert (a + [x])[..|a|] == a;
  }

  /** One more action of a quiet schedule: it happened or it did not. */
  lemma EffectsSnoc(p: Pipe, actions: seq<Action>, a: Action)
    ensures ExecFrom(p, actions + [a]) == Step(ExecFrom(p, actions), a)
    ensures Effects(p, actions + [a]) == Effects(p, actions) + if Effective(ExecFrom(p, actions), a) then [a] else []
  {
    assert (actions + [a])[..|actions|] == actions;
  }

  /** What holds of a quiet run so far: `e` is what happened between `p` and `q`. */
  ghost predicate Progress(p: Pipe, e: seq<Action>, q: Pipe) {
    && SizeInv(q) && q.callbacks == p.callbacks
    && Takes(e) + |q.queue| == |p.queue| && q.queue == p.queue[Takes(e)..]
    && |e| + Backlog(q) <= Backlog(p)
    && |q.sent| == |p.sent| + Conclusions(e)
    && (p.queue == [] ==> Ticks(e) + Batched(q) == Batched(p) && Conclusions(e) + InFlight(q) == InFlight(p) + Ticks(e))
  }

  lemma ProgressStep(p: Pipe, e: seq<Action>, q: Pipe, a: Action)
    requires Progress(p, e, q) && Effective(q, a)
    ensures Progress(p, e + [a], Step(q, a))
  {
    CountsAppend(e, a);
    SizeStep(q, a);
    EffectiveStep(q, a);
    BacklogShrinks(q, a);
  }

  lemma ProgressStart(p: Pipe)
    requires SizeInv(p)
    ensures Progress(p, [], p)
  {
  }

  lemma ProgressNext(p: Pipe, actions: seq<Action>, a: Action)
    requires !a.Offer? && Progress(p, Effects(p, actions), ExecFrom(p, actions))
    ensures Progress(p, Effects(p, actions + [a]), ExecFrom(p, actions + [a]))
  {
    var q, e := ExecFrom(p, actions), Effects(p, actions);
    EffectsSnoc(p, actions, a);
    if Effective(q, a) {
      ProgressStep(p, e, q, a);
    } else {
      IdleStep(q, a);
      SizeStep(q, a);
      assert e + [] == e;
    }
  }

  lemma {:induction false} ProgressAlways(p: Pipe, actions: seq<Action>)
    requires SizeInv(p) && Quiet(actions)
    ensures Progress(p, Effects(p, actions), ExecFrom(p, actions))
  {
    if actions == [] {
      ProgressStart(p);
    } else {
      var n := |actions| - 1;
      ProgressAlways(p, actions[..n]);
      ProgressNext(p, actions[..n], actions[n]);
      assert actions[..n] + [actions[n]] == actions;
    }
  }

  // ---- Main results ----

  /** In every quiet schedule, whatever its sends come to: the receives so far and the queue left are
      together the queue there was, of which the queue left is the end; every effective step is paid for by
      the backlog, so there are at most that many; and until all is empty some step is possible. */
  lemma QuietRun(p: Pipe, actions: seq<Action>)
    requires SizeInv(p) && Quiet(actions)
    ensures var q, e := ExecFrom(p, actions), Effects(p, actions);
      && Takes(e) + |q.queue| == |p.queue| && q.queue == p.queue[Takes(e)..]
      && |e| + Backlog(q) <= Backlog(p)
      && |q.sent| == |p.sent| + Conclusions(e)
      && (Empty(q) || Effective(q, Take) || Effective(q, Tick) || Effective(q, Conclude))
  {
    ProgressAlways(p, actions);
    BacklogShrinks(ExecFrom(p, actions), Take);
  }

  /** Once the queue is empty, any quiet continuation has no effective receive and at most one effective
      tick; and everything is empty exactly when the batch left, if any, has been ticked and every send
      has ended. */
  lemma QuietTail(p: Pipe, actions: seq<Action>)
    requires SizeInv(p) && Quiet(actions) && p.queue == []
    ensures var q, e := ExecFrom(p, actions), Effects(p, actions);
      && Takes(e) == 0 && Ticks(e) <= Batched(p) <= 1 && Conclusions(e) <= InFlight(p) + Ticks(e)
      && (Empty(q) <==> Ticks(e) == Batched(p) && Conclusions(e) == InFlight(p) + Batched(p))
  {
    ProgressAlways(p, actions);
  }

  /** Every quiet schedule that empties the queue: it received each queued event once, and from there on
      one tick at most and the sends under way are all that is left to do. */
  lemma QuietDrain(p: Pipe, receives: seq<Action>, rest: seq<Action>)
    requires SizeInv(p) && Quiet(receives) && Quiet(rest) && ExecFrom(p, receives).queue == []
    ensures var m := ExecFrom(p, receives);
      var q, e := ExecFrom(m, rest), Effects(m, rest);
      && Takes(Effects(p, receives)) == |p.queue|
      && Takes(e) == 0 && Ticks(e) <= Batched(m) && q.callbacks == p.callbacks
      && (Empty(q) <==> Ticks(e) == Batched(m) && Conclusions(e) == InFlight(m) + Batched(m))
  {
    ProgressAlways(p, receives);
    QuietTail(ExecFrom(p, receives), rest);
    ProgressAlways(ExecFrom(p, receives), rest);
  }

  /** Send number `i` came to what `outcome(i)` says, for every send from number `first` on. */
  ghost predicate AsSaid(sent: seq<Sent>, outcome: nat -> seq<Attempt>, first: nat) {
    forall i: nat :: first <= i < |sent| ==> sent[i].acked == Acked(outcome(i)) && sent[i].applied == Applied(outcome(i))
  }

  /** Such schedules exist whatever the sends come to: from any state and for any attempts `outcome(i)` of
      each send `i` yet to start, some schedule drains the pipeline with just these sends. */
  lemma Drains(p: Pipe, outcome: nat -> seq<Attempt>) returns (actions: seq<Action>)
    requires SizeInv(p)
    ensures var q := ExecFrom(p, actions);
      Quiet(actions) && Empty(q) && q.callbacks == p.callbacks && AsSaid(q.sent, outcome, |p.sent| + InFlight(p))
    ensures Takes(Effects(p, actions)) == |p.queue| && Ticks(actions) <= 1
  {
    actions := DrainQueue(p, outcome, |p.queue|);
    var q := ExecFrom(p, actions);
    if q.batch != [] {
      EffectiveStep(q, Tick);
      SizeStep(q, Tick);
      EffectsSnoc(p, actions, Tick);
      CountsAppend(actions, Tick);
      actions := Settle(p, actions + [Tick], outcome, |p.sent| + InFlight(p));
    }
    ProgressAlways(p, actions);
  }

  lemma {:induction false} DrainQueue(p: Pipe, outcome: nat -> seq<Attempt>, n: nat) returns (actions: seq<Action>)
    requires SizeInv(p) && n <= |p.queue|
    ensures Quiet(actions) && Ticks(actions) == 0
    ensures var q := ExecFrom(p, actions);
      && SizeInv(q) && |q.queue| == |p.queue| - n && q.inflight.None?
      && |q.sent| >= |p.sent| + InFlight(p) && AsSaid(q.sent, outcome, |p.sent| + InFlight(p))
  {
    var first := |p.sent| + InFlight(p);
    if n == 0 {
      actions := Settle(p, [], outcome, first);
    } else {
      actions := DrainQueue(p, outcome, n - 1);
      var q := ExecFrom(p, actions);
      EffectiveStep(q, Take);
      SizeStep(q, Take);
      EffectsSnoc(p, actions, Take);
      CountsAppend(actions, Take);
      actions := Settle(p, actions + [Take], outcome, first);
    }
  }

  /** The end of the send in flight, if there is one, after its attempts. */
  lemma Settle(p: Pipe, actions: seq<Action>, outcome: nat -> seq<Attempt>, first: nat) returns (more: seq<Action>)
    requires Quiet(actions) && SizeInv(ExecFrom(p, actions))
    requires var q := ExecFrom(p, actions);
      first <= |q.sent| + InFlight(q) && AsSaid(q.sent, outcome, first) && (q.landed ==> |q.sent| < first)
    ensures Quiet(more) && Ticks(more) == Ticks(actions)
    ensures var q, q' := ExecFrom(p, actions), ExecFrom(p, more);
      && SizeInv(q') && q'.inflight.None? && q'.queue == q.queue
      && (q.inflight.None? ==> q'.batch == q.batch) && (q.inflight.Some? ==> q'.batch == [])
      && first <= |q'.sent| && AsSaid(q'.sent, outcome, first)
  {
    var q := ExecFrom(p, actions);
    var attempts := outcome(|q.sent|);
    more := Attempted(p, actions, attempts);
    var q' := ExecFrom(p, more);
    ExecFromSnoc(p, more, Conclude);
    CountsAppend(more, Conclude);
    ConcludeSettles(q, q', attempts);
    more := more + [Conclude];
  }

  /** Between `q` and `q'` the batch in flight was tried with these attempts and nothing else was done. */
  ghost predicate Tried(q: Pipe, q': Pipe, attempts: seq<Attempt>) {
    && SameWork(q, q')
    && (q.inflight.Some? && !q.landed ==> q'.landed == Applied(attempts) && q'.answered == Acked(attempts))
  }

  lemma ConcludeSettles(q: Pipe, q': Pipe, attempts: seq<Attempt>)
    requires SizeInv(q') && Tried(q, q', attempts)
    ensures var r := Step(q', Conclude);
      && SizeInv(r) && r.inflight.None? && r.queue == q.queue && r.batch == q.batch
      && (q.inflight.None? ==> r.sent == q.sent)
      && (q.inflight.Some? ==> |r.sent| == |q.sent| + 1 && r.sent[..|q.sent|] == q.sent)
      && (q.inflight.Some? && !q.landed ==>
            r.sent[|q.sent|].acked == Acked(attempts) && r.sent[|q.sent|].applied == Applied(attempts))
  {
    SizeStep(q', Conclude);
  }

  lemma {:induction false} Attempted(p: Pipe, actions: seq<Action>, attempts: seq<Attempt>) returns (more: seq<Action>)
    requires Quiet(actions) && SizeInv(ExecFrom(p, actions))
    ensures Quiet(more) && Ticks(more) == Ticks(actions)
    ensures SizeInv(ExecFrom(p, more)) && Tried(ExecFrom(p, actions), ExecFrom(p, more), attempts)
  {
    more := actions;
    if attempts == [] {
      FreshSend(ExecFrom(p, more));
    } else {
      var n := |attempts| - 1;
      more := Attempted(p, actions, attempts[..n]);
      var a := Try(attempts[n]);
      ExecFromSnoc(p, more, a);
      CountsAppend(more, a);
      OneMore(ExecFrom(p, actions), ExecFrom(p, more), attempts[..n], attempts[n]);
      more := more + [a];
      assert attempts[..n] + [attempts[n]] == attempts;
    }
  }

  lemma FreshSend(q: Pipe)
    requires SizeInv(q)
    ensures Tried(q, q, [])
  {
  }

  lemma OneMore(q: Pipe, q': Pipe, attempts: seq<Attempt>, attempt: Attempt)
    requires SizeInv(q') && Tried(q, q', attempts)
    ensures SizeInv(Step(q', Try(attempt))) && Tried(q, Step(q', Try(attempt)), attempts + [attempt])
  {
    IdleStep(q', Try(attempt));
    SizeStep(q', Try(attempt));
    AttemptsSnoc(attempts, attempt);
  }
}
