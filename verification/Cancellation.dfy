/** What the end of the context does to the tunnel loop, and what ends the loop and each connection. */
module Cancellation {
  import opened States
  import opened Registration
  import opened Lifecycle
  import opened LifecycleInvariants

  // ---- After the end of the context ----

  /** 1 while the loop has passed its test of the context and has not dialled yet. */
  function OnTheWay(pc: TunnelPc): nat {
    if pc.CheckState? || pc.Connect? || pc.Dial? then 1 else 0
  }

  lemma CancelledMove(t: Tunnel, cfg: Config, state: AgentState, input: TunnelInput)
    requires TunnelReady(t.pc, true, input)
    ensures var t' := MoveTunnel(t, cfg, state, true, input);
      |t'.dials| + OnTheWay(t'.pc) <= |t.dials| + OnTheWay(t.pc)
  {
  }

  lemma CancelledStep(s: Sys, a: Action)
    requires s.cancelled && s.main.AwaitSignal?
    ensures var s' := Step(s, a);
      s'.cancelled && s'.main.AwaitSignal? && |s'.tun.dials| + OnTheWay(s'.tun.pc) <= |s.tun.dials| + OnTheWay(s.tun.pc)
  {
    if a.TunnelStep? && Enabled(s, a) {
      CancelledMove(s.tun, s.cfg, s.life.state, a.tunnel);
    } else if !a.TunnelStep? && !a.Main? {
      TunnelFrame(s, a);
    }
  }

  lemma {:induction false} CancelledRun(s: Sys, more: seq<Action>)
    requires s.cancelled && s.main.AwaitSignal?
    ensures var s' := ExecFrom(s, more);
      s'.cancelled && |s'.tun.dials| + OnTheWay(s'.tun.pc) <= |s.tun.dials| + OnTheWay(s.tun.pc)
    decreases |more|
  {
    if more != [] {
      CancelledStep(s, more[0]);
      CancelledRun(Step(s, more[0]), more[1..]);
    }
  }

  /** Once the context has ended no continuation of a run with a started tunnel dials more than once, and none
      dials at all unless the loop had just passed its test of the context. */
  lemma CancelledDialsAtMostOnce(cfg: Config, schedule: seq<Action>, more: seq<Action>)
    requires Exec(cfg, schedule).cancelled && !Exec(cfg, schedule).tun.pc.TunnelNotStarted?
    ensures var s, s' := Exec(cfg, schedule), Exec(cfg, schedule + more);
      && |s'.tun.dials| <= |s.tun.dials| + 1
      && (!s.tun.pc.CheckState? && !s.tun.pc.Connect? && !s.tun.pc.Dial? ==> |s'.tun.dials| <= |s.tun.dials|)
  {
    ShapeAlways(cfg, schedule);
    ExecAppend(cfg, schedule, more);
    CancelledRun(Exec(cfg, schedule), more);
  }

  // ---- What ends the loop ----

  lemma EndStep(s: Sys, a: Action)
    requires s.tun.pc.TunnelDone? ==> s.cancelled || s.life.state == Revoked
    ensures Step(s, a).tun.pc.TunnelDone? ==> Step(s, a).cancelled || Step(s, a).life.state == Revoked
  {
    if a.TunnelStep? && Enabled(s, a) {
      EndMove(s.tun, s.cfg, s.life.state, s.cancelled, a.tunnel);
    } else if !a.TunnelStep? && !a.Main? {
      TunnelFrame(s, a);
    }
  }

  lemma EndMove(t: Tunnel, cfg: Config, state: AgentState, cancelled: bool, input: TunnelInput)
    requires TunnelReady(t.pc, cancelled, input)
    ensures MoveTunnel(t, cfg, state, cancelled, input).pc.TunnelDone? ==>
      !Requesting(t.pc) && (cancelled || state == Revoked)
  {
  }

  /** The tunnel loop gives up for no other reason than the end of the context or a revoked key. */
  lemma {:induction false} LoopEndsOnlyWhen(cfg: Config, schedule: seq<Action>)
    ensures var s := Exec(cfg, schedule); s.tun.pc.TunnelDone? ==> s.cancelled || s.life.state == Revoked
  {
    if schedule != [] {
      var n := |schedule| - 1;
      LoopEndsOnlyWhen(cfg, schedule[..n]);
      EndStep(Exec(cfg, schedule[..n]), schedule[n]);
    }
  }

  // ---- What an envelope leads to ----

  /** A failed read and a revocation end the connection and nothing else does; a rotation is applied; a
      well-formed command starts one goroutine for that very request, and nothing else starts one. */
  lemma EnvelopeLeads(cfg: Config, schedule: seq<Action>, e: Envelope)
    requires Exec(cfg, schedule).tun.pc.Reading?
    ensures var s, s' := Exec(cfg, schedule), Exec(cfg, schedule + [TunnelStep(Incoming(e))]);
      && s'.tun.received == s.tun.received + [e]
      && (s'.tun.pc.GaugeDown? <==> e == ReadFailed) && (s'.tun.pc.Revoking? <==> e == Revoke)
      && (s'.tun.pc.ApplyToken? <==> e.CredentialRotation?)
      && (e.CredentialRotation? ==> s'.tun.pc.pending == e.rotation)
      && (s'.tun.pc.Reading? <==> e.Command? || e.BadCommand? || e.BadRotation? || e.Unknown?)
      && (e.Command? ==> |s'.crew.tasks| == |s.crew.tasks| + 1 && s.crew.tasks <= s'.crew.tasks
                         && s'.crew.tasks[|s.crew.tasks|].req == e.req && s'.crew.tasks[|s.crew.tasks|].pc.SendStatus?)
      && (!e.Command? ==> s'.crew.tasks == s.crew.tasks)
  {
    ExecSnoc(cfg, schedule, TunnelStep(Incoming(e)));
  }
}
