/** What the heartbeats tell the control plane about the state machine. */
module HeartbeatReports {
  import opened States
  import opened Registration
  import opened Lifecycle
  import opened LifecycleInvariants

  /** The reports are states read off the trace at positions that never go back. */
  ghost predicate Sampled(reports: seq<AgentState>, trace: seq<AgentState>) {
    reports == [] ||
    exists p :: 0 <= p < |trace| && trace[p] == reports[|reports| - 1] && Sampled(reports[..|reports| - 1], trace[..p + 1])
  }

  lemma {:induction false} SampledGrows(reports: seq<AgentState>, trace: seq<AgentState>, longer: seq<AgentState>)
    requires Sampled(reports, trace) && trace <= longer
    ensures Sampled(reports, longer)
  {
    if reports != [] {
      var p :| 0 <= p < |trace| && trace[p] == reports[|reports| - 1] && Sampled(reports[..|reports| - 1], trace[..p + 1]);
      assert trace[..p + 1] == longer[..p + 1] && longer[p] == trace[p];
    }
  }

  lemma SampledNow(reports: seq<AgentState>, trace: seq<AgentState>)
    requires Sampled(reports, trace) && trace != []
    ensures Sampled(reports + [trace[|trace| - 1]], trace)
  {
    var p := |trace| - 1;
    var more := reports + [trace[p]];
    assert more[..|more| - 1] == reports && trace[..p + 1] == trace;
  }

  /** The reports with the one about to be posted. */
  function Observed(h: Heart): seq<AgentState> {
    if h.pc.Post? then h.reports + [h.pc.reported] else h.reports
  }

  /** Every round is a success, a failed post, or a failed collection. */
  predicate Accounted(h: Heart) {
    && h.sent + h.failed == |h.reports| + h.uncollected && h.sent <= |h.reports|
  }

  /** The machine's state is the last one notified. */
  predicate LastIs(l: Life) {
    l.state == if l.trace == [] then PendingKey else l.trace[|l.trace| - 1]
  }

  ghost predicate ReportInv(s: Sys) {
    && Sampled(Observed(s.heart), s.life.trace)
    && LastIs(s.life)
    && Accounted(s.heart)
  }

  lemma LifeFrame(s: Sys, a: Action)
    requires ShapeInv(s) && !a.HeartStep?
    ensures Observed(Step(s, a).heart) == Observed(s.heart)
    ensures Accounted(s.heart) ==> Accounted(Step(s, a).heart)
  {
  }

  lemma RequestKeepsLast(l: Life, who: Actor, next: AgentState)
    ensures LastIs(l) ==> LastIs(Request(l, who, next))
    ensures l.trace <= Request(l, who, next).trace
  {
  }

  /** The heartbeat's own variables and the trace, step by step. */
  lemma HeartMoves(s: Sys, input: HeartInput)
    requires HeartEnabled(s, input)
    ensures var h, h' := s.heart, DoHeart(s, input).heart;
      && (Accounted(h) ==> Accounted(h'))
      && Observed(h') == Observed(h) + (if h.pc.Observe? then [s.life.state] else [])
  {
    assert Observed(s.heart) + [] == Observed(s.heart);
  }

  lemma HeartLife(s: Sys, input: HeartInput)
    requires HeartEnabled(s, input)
    ensures DoHeart(s, input).life == if s.heart.pc.Degrade? then Request(s.life, HeartbeatLoop, Degraded) else s.life
  {
  }

  lemma ReportsHeart(s: Sys, input: HeartInput)
    requires ReportInv(s) && HeartEnabled(s, input) && s.life.trace != []
    ensures ReportInv(DoHeart(s, input))
  {
    var seen := Observed(s.heart);
    HeartMoves(s, input);
    HeartLife(s, input);
    if s.heart.pc.Observe? {
      SampledNow(seen, s.life.trace);
    } else {
      RequestKeepsLast(s.life, HeartbeatLoop, Degraded);
      assert seen + [] == seen;
      SampledGrows(seen, s.life.trace, DoHeart(s, input).life.trace);
    }
  }

  lemma ReportsOther(s: Sys, a: Action)
    requires ReportInv(s) && ShapeInv(s) && !a.HeartStep?
    ensures ReportInv(Step(s, a))
  {
    LifeFrame(s, a);
    LastKept(s, a);
    SampledGrows(Observed(s.heart), s.life.trace, Step(s, a).life.trace);
  }

  lemma LastKept(s: Sys, a: Action)
    requires !a.HeartStep? && LastIs(s.life)
    ensures LastIs(Step(s, a).life) && s.life.trace <= Step(s, a).life.trace
  {
    if a.TunnelStep? && Enabled(s, a) && Requesting(s.tun.pc) {
      RequestKeepsLast(s.life, TunnelLoop, Requested(s.tun.pc));
    }
  }

  lemma {:induction false} ReportsAlways(cfg: Config, schedule: seq<Action>)
    ensures ReportInv(Exec(cfg, schedule))
  {
    if schedule != [] {
      var n := |schedule| - 1;
      var s, a := Exec(cfg, schedule[..n]), schedule[n];
      ReportsAlways(cfg, schedule[..n]);
      ShapeAlways(cfg, schedule[..n]);
      if a.HeartStep? {
        if Enabled(s, a) {
          ReportsHeart(s, a.heart);
        }
      } else {
        ReportsOther(s, a);
      }
    }
  }

  /** In every run the reported states were really notified, and in that order: the reports never go back in
      time.  The failures are exactly the reports that could not be posted and the rounds without health data. */
  lemma ReportsFollowTheTrace(cfg: Config, schedule: seq<Action>)
    ensures var s := Exec(cfg, schedule);
      && Sampled(s.heart.reports, s.life.trace)
      && s.heart.sent + s.heart.failed == |s.heart.reports| + s.heart.uncollected
      && s.heart.sent <= |s.heart.reports| && s.heart.uncollected <= s.heart.failed
      && forall r :: r in s.heart.reports ==> r != PendingKey && r in s.life.trace
  {
    var s := Exec(cfg, schedule);
    ReportsAlways(cfg, schedule);
    if s.heart.pc.Post? {
      Unpost(s.heart.reports, s.heart.pc.reported, s.life.trace);
    }
    SampledMembers(s.heart.reports, s.life.trace);
    NeverPending(cfg, schedule);
  }

  lemma Unpost(reports: seq<AgentState>, last: AgentState, trace: seq<AgentState>)
    requires Sampled(reports + [last], trace)
    ensures Sampled(reports, trace)
  {
    var more := reports + [last];
    var p :| 0 <= p < |trace| && trace[p] == last && Sampled(more[..|more| - 1], trace[..p + 1]);
    assert more[..|more| - 1] == reports;
    SampledGrows(reports, trace[..p + 1], trace);
  }

  lemma {:induction false} SampledMembers(reports: seq<AgentState>, trace: seq<AgentState>)
    requires Sampled(reports, trace)
    ensures forall r :: r in reports ==> r in trace
  {
    if reports != [] {
      var n := |reports| - 1;
      var p :| 0 <= p < |trace| && trace[p] == reports[n] && Sampled(reports[..n], trace[..p + 1]);
      SampledMembers(reports[..n], trace[..p + 1]);
      assert reports == reports[..n] + [reports[n]];
    }
  }

  /** PENDING_KEY is never notified, and so never reported. */
  lemma {:induction false} NeverPending(cfg: Config, schedule: seq<Action>)
    ensures PendingKey !in Exec(cfg, schedule).life.trace
  {
    if schedule != [] {
      var n := |schedule| - 1;
      NeverPending(cfg, schedule[..n]);
      TraceStep(Exec(cfg, schedule[..n]), schedule[n]);
    }
  }

  // ---- Rounds ----

  datatype Round = Posted | PostLost | NoHealth

  /** The action ends a heartbeat round in this way. */
  predicate EndsRound(s: Sys, a: Action, r: Round) {
    match r
    case Posted => s.heart.pc.Post? && a == HeartStep(PostOk)
    case PostLost => s.heart.pc.Post? && a == HeartStep(PostFailed)
    case NoHealth => s.heart.pc.Collect? && a == HeartStep(HealthFailed)
  }

  function Rounds(cfg: Config, schedule: seq<Action>, r: Round): nat {
    if schedule == [] then 0
    else
      var n := |schedule| - 1;
      Rounds(cfg, schedule[..n], r) + if EndsRound(Exec(cfg, schedule[..n]), schedule[n], r) then 1 else 0
  }

  /** The machine's states at the moments the heartbeat looked at it. */
  function Looks(cfg: Config, schedule: seq<Action>): seq<AgentState> {
    if schedule == [] then []
    else
      var n := |schedule| - 1;
      var s := Exec(cfg, schedule[..n]);
      Looks(cfg, schedule[..n]) + if s.heart.pc.Observe? && schedule[n] == HeartStep(Beat) then [s.life.state] else []
  }

  ghost predicate RoundsOk(h: Heart, posted: nat, lost: nat, unhealthy: nat, looks: seq<AgentState>) {
    && h.sent == posted && h.failed == lost + unhealthy && h.uncollected == unhealthy
    && |h.reports| == posted + lost && Observed(h) == looks
  }

  lemma RoundsStep(s: Sys, a: Action, posted: nat, lost: nat, unhealthy: nat, looks: seq<AgentState>)
    requires ShapeInv(s) && RoundsOk(s.heart, posted, lost, unhealthy, looks)
    ensures RoundsOk(Step(s, a).heart, posted + (if EndsRound(s, a, Posted) then 1 else 0),
                     lost + (if EndsRound(s, a, PostLost) then 1 else 0),
                     unhealthy + (if EndsRound(s, a, NoHealth) then 1 else 0),
                     looks + if s.heart.pc.Observe? && a == HeartStep(Beat) then [s.life.state] else [])
  {
    assert looks + [] == looks;
    if !a.HeartStep? {
      HeartFrame(s, a);
    } else if Enabled(s, a) {
      HeartMoves(s, a.heart);
      HeartCounts(s, a.heart);
    }
  }

  lemma HeartFrame(s: Sys, a: Action)
    requires ShapeInv(s) && !a.HeartStep?
    ensures var h, h' := s.heart, Step(s, a).heart;
      h'.sent == h.sent && h'.failed == h.failed && h'.uncollected == h.uncollected && h'.reports == h.reports && Observed(h') == Observed(h)
  {
  }

  lemma HeartCounts(s: Sys, input: HeartInput)
    requires HeartEnabled(s, input)
    ensures var h, h', a := s.heart, DoHeart(s, input).heart, HeartStep(input);
      && h'.sent == h.sent + (if EndsRound(s, a, Posted) then 1 else 0)
      && h'.failed == h.failed + (if EndsRound(s, a, PostLost) || EndsRound(s, a, NoHealth) then 1 else 0)
      && h'.uncollected == h.uncollected + (if EndsRound(s, a, NoHealth) then 1 else 0)
      && |h'.reports| == |h.reports| + (if EndsRound(s, a, Posted) || EndsRound(s, a, PostLost) then 1 else 0)
  {
  }

  lemma {:induction false} RoundsAlways(cfg: Config, schedule: seq<Action>)
    ensures RoundsOk(Exec(cfg, schedule).heart, Rounds(cfg, schedule, Posted), Rounds(cfg, schedule, PostLost),
                     Rounds(cfg, schedule, NoHealth), Looks(cfg, schedule))
  {
    if schedule != [] {
      var n := |schedule| - 1;
      RoundsAlways(cfg, schedule[..n]);
      ShapeAlways(cfg, schedule[..n]);
      RoundsStep(Exec(cfg, schedule[..n]), schedule[n], Rounds(cfg, schedule[..n], Posted),
                 Rounds(cfg, schedule[..n], PostLost), Rounds(cfg, schedule[..n], NoHealth), Looks(cfg, schedule[..n]));
    }
  }

  /** In every run each report is the machine's state at the moment of its own round's look, in order; the
      successes are the rounds whose post succeeded, and the failures the other rounds that ended. */
  lemma ReportsAreLooks(cfg: Config, schedule: seq<Action>)
    ensures var h, looks := Exec(cfg, schedule).heart, Looks(cfg, schedule);
      && h.reports <= looks && |looks| == |h.reports| + (if h.pc.Post? then 1 else 0)
      && h.sent == Rounds(cfg, schedule, Posted)
      && h.failed == Rounds(cfg, schedule, PostLost) + Rounds(cfg, schedule, NoHealth)
      && |h.reports| == Rounds(cfg, schedule, Posted) + Rounds(cfg, schedule, PostLost)
  {
    RoundsAlways(cfg, schedule);
  }

  ghost predicate OnlyLastRevoked(trace: seq<AgentState>) {
    forall k :: 0 <= k < |trace| - 1 ==> trace[k] != Revoked
  }

  lemma {:induction false} RevokedReportsStay(reports: seq<AgentState>, trace: seq<AgentState>, i: nat, j: nat)
    requires Sampled(reports, trace) && i <= j < |reports| && reports[i] == Revoked
    requires OnlyLastRevoked(trace)
    ensures reports[j] == Revoked
  {
    var n := |reports| - 1;
    var p :| 0 <= p < |trace| && trace[p] == reports[n] && Sampled(reports[..n], trace[..p + 1]);
    if j < n {
      RevokedReportsStay(reports[..n], trace[..p + 1], i, j);
    } else if i < n {
      SampledMembers(reports[..n], trace[..p + 1]);
      assert reports[..n][i] == Revoked;
      assert Revoked in trace[..p + 1];
      var k :| 0 <= k < p + 1 && trace[..p + 1][k] == Revoked;
      assert trace[k] == Revoked && k == |trace| - 1;
    }
  }

  /** A step notifies at most one state, and none out of REVOKED. */
  lemma TraceStep(s: Sys, a: Action)
    ensures var l, l' := s.life, Step(s, a).life;
      l'.trace == l.trace || (l.state != Revoked && l'.state != PendingKey && l'.trace == l.trace + [l'.state])
  {
  }

  lemma OnlyLastRevokedStep(s: Sys, a: Action)
    requires OnlyLastRevoked(s.life.trace) && LastIs(s.life)
    ensures OnlyLastRevoked(Step(s, a).life.trace)
  {
    TraceStep(s, a);
    var t, t' := s.life.trace, Step(s, a).life.trace;
    if t' != t {
      assert forall k :: 0 <= k < |t| ==> t'[k] == t[k];
    }
  }

  lemma {:induction false} RevokedIsLast(cfg: Config, schedule: seq<Action>)
    ensures OnlyLastRevoked(Exec(cfg, schedule).life.trace)
  {
    if schedule != [] {
      var n := |schedule| - 1;
      RevokedIsLast(cfg, schedule[..n]);
      ReportsAlways(cfg, schedule[..n]);
      OnlyLastRevokedStep(Exec(cfg, schedule[..n]), schedule[n]);
    }
  }

  /** In every run, once REVOKED has been reported every later report says REVOKED too. */
  lemma RevokedReportIsFinal(cfg: Config, schedule: seq<Action>, i: nat, j: nat)
    requires i <= j < |Exec(cfg, schedule).heart.reports| && Exec(cfg, schedule).heart.reports[i] == Revoked
    ensures Exec(cfg, schedule).heart.reports[j] == Revoked
  {
    ReportsFollowTheTrace(cfg, schedule);
    RevokedIsLast(cfg, schedule);
    RevokedReportsStay(Exec(cfg, schedule).heart.reports, Exec(cfg, schedule).life.trace, i, j);
  }
}
