/** What a revoke envelope does to the rest of a run. */
module Revocation {
  import opened States
  import opened Registration
  import opened Lifecycle
  import opened TraceLanguage
  import opened LifecycleInvariants

  /** Tunnel steps left until the loop has returned, once the key is revoked. */
  function Remaining(pc: TunnelPc): nat {
    match pc
    case TunnelDone => 0
    case CheckState => 1
    case LoopHead => 2
    case Backoff => 3
    case CheckRevoked => 4
    case MarkDisconnected => 5
    case CountReconnect => 6
    case GaugeDown => 7
    case _ => 8
  }

  /** How many steps of a schedule the tunnel loop really takes. */
  function TunnelMoves(s: Sys, schedule: seq<Action>): nat
    decreases |schedule|
  {
    if schedule == [] then 0
    else (if schedule[0].TunnelStep? && Enabled(s, schedule[0]) then 1 else 0)
         + TunnelMoves(Step(s, schedule[0]), schedule[1..])
  }

  /** The facts a revoked agent keeps. */
  ghost predicate Frozen(s: Sys, s': Sys) {
    && s'.life.state == s.life.state && s'.life.trace == s.life.trace
    && s'.tun.dials == s.tun.dials && s'.tun.conns == s.tun.conns && s'.tun.received == s.tun.received
    && s'.tun.token == s.tun.token && s'.tun.reg == s.tun.reg
    && |s'.crew.tasks| == |s.crew.tasks|
  }

  lemma RevokedTunnelStep(s: Sys, input: TunnelInput)
    requires ShapeInv(s) && s.life.state == Revoked && TunnelEnabled(s, input)
    ensures Frozen(s, DoTunnel(s, input))
    ensures Remaining(DoTunnel(s, input).tun.pc) < Remaining(s.tun.pc) <= 7
  {
    assert TunnelAt(s.tun.pc, Read(s.life.trace).value.open, Read(s.life.trace).value.rounds != []);
  }

  lemma RevokedOtherStep(s: Sys, a: Action)
    requires ShapeInv(s) && s.life.state == Revoked && !a.TunnelStep?
    ensures Frozen(s, Step(s, a)) && Step(s, a).tun == s.tun
  {
    if !a.Main? {
      TunnelFrame(s, a);
    }
  }

  lemma {:induction false} RevokedRun(s: Sys, more: seq<Action>)
    requires ShapeInv(s) && s.life.state == Revoked
    ensures Frozen(s, ExecFrom(s, more))
    ensures TunnelMoves(s, more) + Remaining(ExecFrom(s, more).tun.pc) <= Remaining(s.tun.pc)
    decreases |more|
  {
    if more != [] {
      var a := more[0];
      ShapeStep(s, a);
      if a.TunnelStep? {
        if Enabled(s, a) {
          RevokedTunnelStep(s, a.tunnel);
        }
      } else {
        RevokedOtherStep(s, a);
      }
      RevokedRun(Step(s, a), more[1..]);
    }
  }

  /** The key is revoked exactly when a revoke envelope was read, up to the transition that follows the read. */
  ghost predicate RevokeSeen(s: Sys) {
    && (Revoke in s.tun.received <==> s.life.state == Revoked || s.tun.pc.Revoking?)
    && (s.main.AwaitSignal? || s.tun.received == [])
  }

  lemma RevokeSeenTunnel(s: Sys, input: TunnelInput)
    requires ShapeInv(s) && RevokeSeen(s) && TunnelEnabled(s, input)
    ensures RevokeSeen(DoTunnel(s, input))
  {
    var s' := DoTunnel(s, input);
    assert TunnelAt(s.tun.pc, Read(s.life.trace).value.open, Read(s.life.trace).value.rounds != []);
    if s.tun.pc.Reading? {
      assert s'.tun.received == s.tun.received + [input.envelope];
      assert Revoke in s'.tun.received <==> Revoke in s.tun.received || input.envelope == Revoke;
    } else {
      assert s'.tun.received == s.tun.received;
    }
  }

  lemma {:induction false} RevokeSeenAlways(cfg: Config, schedule: seq<Action>)
    ensures RevokeSeen(Exec(cfg, schedule))
  {
    if schedule != [] {
      var n := |schedule| - 1;
      var s, a := Exec(cfg, schedule[..n]), schedule[n];
      RevokeSeenAlways(cfg, schedule[..n]);
      ShapeAlways(cfg, schedule[..n]);
      if Enabled(s, a) {
        match a
        case TunnelStep(input) => RevokeSeenTunnel(s, input);
        case Main(input) => ShapeMain(s, input);
        case HeartStep(input) => HeartbeatOnlyDegrades(cfg, schedule[..n], input); ExecSnoc(cfg, schedule[..n], a); TunnelFrame(s, a);
        case _ => TunnelFrame(s, a);
      }
    }
  }

  /** Once a revoke envelope has been read: no continuation dials, reads, changes a credential or starts
      a command again, the tunnel loop takes at most eight more steps, and its first one makes the
      machine REVOKED for good. */
  lemma RevocationIsFinal(cfg: Config, schedule: seq<Action>, more: seq<Action>)
    requires Revoke in Exec(cfg, schedule).tun.received
    ensures var s, s' := Exec(cfg, schedule), Exec(cfg, schedule + more);
      && s'.tun.dials == s.tun.dials && s'.tun.received == s.tun.received
      && s'.tun.token == s.tun.token && s'.tun.reg == s.tun.reg && |s'.crew.tasks| == |s.crew.tasks|
      && TunnelMoves(s, more) + Remaining(s'.tun.pc) <= 8
      && (TunnelMoves(s, more) > 0 || s.life.state == Revoked ==> s'.life.state == Revoked)
  {
    RevokeSeenAlways(cfg, schedule);
    ShapeAlways(cfg, schedule);
    ExecAppend(cfg, schedule, more);
    RevokedOrRevoking(Exec(cfg, schedule), more);
  }

  /** The step the tunnel loop takes next on its way out. */
  function WayOut(pc: TunnelPc): TunnelInput {
    if pc.Backoff? then TimerFired else Go
  }

  /** Until the loop has returned it can take that step, in any state and whoever else runs. */
  lemma WayOutIsOpen(s: Sys)
    requires ShapeInv(s) && (s.life.state == Revoked || s.tun.pc.Revoking?) && !s.tun.pc.TunnelDone?
    ensures TunnelEnabled(s, WayOut(s.tun.pc))
  {
    assert TunnelAt(s.tun.pc, Read(s.life.trace).value.open, Read(s.life.trace).value.rounds != []);
  }

  /** After a revoke envelope the tunnel loop is never stuck: at every point of every continuation it has
      returned or can take its next step, of which there are at most eight; taking them ends it. */
  lemma RevokedLoopReturns(cfg: Config, schedule: seq<Action>)
    returns (more: seq<Action>)
    requires Revoke in Exec(cfg, schedule).tun.received
    ensures var s := Exec(cfg, schedule);
      s.tun.pc.TunnelDone? || Enabled(s, TunnelStep(WayOut(s.tun.pc)))
    ensures |more| <= 8 && Exec(cfg, schedule + more).tun.pc.TunnelDone?
  {
    var s := Exec(cfg, schedule);
    RevokeSeenAlways(cfg, schedule);
    ShapeAlways(cfg, schedule);
    if !s.tun.pc.TunnelDone? {
      WayOutIsOpen(s);
    }
    more := LeaveRun(s);
    ExecAppend(cfg, schedule, more);
  }

  lemma {:induction false} LeaveRun(s: Sys) returns (more: seq<Action>)
    requires ShapeInv(s) && (s.life.state == Revoked || s.tun.pc.Revoking?)
    ensures |more| <= Remaining(s.tun.pc) && ExecFrom(s, more).tun.pc.TunnelDone?
    decreases Remaining(s.tun.pc)
  {
    if s.tun.pc.TunnelDone? {
      more := [];
    } else {
      var a := TunnelStep(WayOut(s.tun.pc));
      WayOutIsOpen(s);
      LeaveStep(s);
      ShapeStep(s, a);
      var rest := LeaveRun(Step(s, a));
      more := [a] + rest;
    }
  }

  lemma LeaveStep(s: Sys)
    requires ShapeInv(s) && (s.life.state == Revoked || s.tun.pc.Revoking?)
    requires !s.tun.pc.TunnelDone? && TunnelEnabled(s, WayOut(s.tun.pc))
    ensures var s' := DoTunnel(s, WayOut(s.tun.pc));
      s'.life.state == Revoked && Remaining(s'.tun.pc) < Remaining(s.tun.pc)
  {
    if s.life.state == Revoked {
      RevokedTunnelStep(s, WayOut(s.tun.pc));
    } else {
      RevokingStep(s);
    }
  }

  /** What a continuation leaves alone, how far the tunnel loop can still go, and when the machine is REVOKED. */
  ghost predicate Settling(s: Sys, s': Sys, moves: nat) {
    && s'.tun.dials == s.tun.dials && s'.tun.received == s.tun.received
    && s'.tun.token == s.tun.token && s'.tun.reg == s.tun.reg && |s'.crew.tasks| == |s.crew.tasks|
    && moves + Remaining(s'.tun.pc) <= 8
    && (moves > 0 || s.life.state == Revoked ==> s'.life.state == Revoked)
  }

  lemma RevokingStep(s: Sys)
    requires ShapeInv(s) && s.tun.pc.Revoking?
    ensures var s' := DoTunnel(s, Go);
      && s'.life.state == Revoked && Remaining(s'.tun.pc) <= 7 && s'.crew == s.crew
      && s'.tun == s.tun.(pc := GaugeDown)
  {
    assert TunnelAt(s.tun.pc, Read(s.life.trace).value.open, Read(s.life.trace).value.rounds != []);
  }

  lemma {:induction false} RevokedOrRevoking(s: Sys, more: seq<Action>)
    requires ShapeInv(s) && (s.life.state == Revoked || s.tun.pc.Revoking?)
    ensures Settling(s, ExecFrom(s, more), TunnelMoves(s, more))
    decreases |more|
  {
    if s.life.state == Revoked {
      RevokedRun(s, more);
      assert Remaining(s.tun.pc) <= 8;
    } else if more != [] {
      var a := more[0];
      ShapeStep(s, a);
      if a == TunnelStep(Go) {
        RevokingStep(s);
        RevokedRun(Step(s, a), more[1..]);
      } else {
        RevokingWaits(s, a);
        RevokedOrRevoking(Step(s, a), more[1..]);
      }
    }
  }

  lemma RevokingWaits(s: Sys, a: Action)
    requires ShapeInv(s) && s.tun.pc.Revoking? && a != TunnelStep(Go)
    ensures Step(s, a).tun == s.tun && |Step(s, a).crew.tasks| == |s.crew.tasks|
    ensures !(a.TunnelStep? && Enabled(s, a))
  {
    if !a.TunnelStep? && !a.Main? {
      TunnelFrame(s, a);
    }
  }

  /** Revocation does not silence the heartbeat: the next round still posts, and reports REVOKED. */
  lemma RevokedHeartbeatStillReports(cfg: Config, schedule: seq<Action>)
    requires Exec(cfg, schedule).life.state == Revoked && Exec(cfg, schedule).heart.pc.Collect?
    ensures var s := Exec(cfg, schedule);
      var s' := Exec(cfg, schedule + [HeartStep(HealthOk), HeartStep(Beat), HeartStep(PostOk)]);
      && s'.heart.reports == s.heart.reports + [Revoked]
      && s'.heart.sent == s.heart.sent + 1 && s'.life == s.life
  {
    var s := Exec(cfg, schedule);
    ExecAppend(cfg, schedule, [HeartStep(HealthOk), HeartStep(Beat), HeartStep(PostOk)]);
    var s1 := Step(s, HeartStep(HealthOk));
    var s2 := Step(s1, HeartStep(Beat));
    var s3 := Step(s2, HeartStep(PostOk));
    assert ExecFrom(s2, [HeartStep(PostOk)]) == s3;
    assert ExecFrom(s1, [HeartStep(Beat), HeartStep(PostOk)]) == ExecFrom(s2, [HeartStep(PostOk)]);
  }
}
