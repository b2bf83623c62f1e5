/** Building runs one step at a time. */
module Reachability {
  import opened States
  import opened Registration
  import opened Lifecycle
  import Commands

  ghost predicate Reachable(cfg: Config, s: Sys) {
    exists schedule :: Exec(cfg, schedule) == s
  }

  lemma ReachStep(cfg: Config, s: Sys, a: Action) returns (s': Sys)
    requires Reachable(cfg, s)
    ensures s' == Step(s, a) && Reachable(cfg, s')
  {
    var schedule :| Exec(cfg, schedule) == s;
    ExecSnoc(cfg, schedule, a);
    s' := Step(s, a);
    assert Exec(cfg, schedule + [a]) == s';
  }

  lemma ReachTunnel(cfg: Config, s: Sys, input: TunnelInput) returns (s': Sys)
    requires Reachable(cfg, s) && TunnelEnabled(s, input)
    ensures s' == DoTunnel(s, input) && Reachable(cfg, s')
  {
    s' := ReachStep(cfg, s, TunnelStep(input));
  }

  lemma ReachMain(cfg: Config, s: Sys, input: MainInput) returns (s': Sys)
    requires Reachable(cfg, s) && MainEnabled(s, input)
    ensures s' == DoMain(s, input) && Reachable(cfg, s')
  {
    s' := ReachStep(cfg, s, Main(input));
  }

  lemma ReachHeart(cfg: Config, s: Sys, input: HeartInput) returns (s': Sys)
    requires Reachable(cfg, s) && HeartEnabled(s, input)
    ensures s' == DoHeart(s, input) && Reachable(cfg, s')
  {
    s' := ReachStep(cfg, s, HeartStep(input));
  }

  lemma ReachWork(cfg: Config, s: Sys, i: nat, outcome: Commands.Outcome) returns (s': Sys)
    requires Reachable(cfg, s) && i < |s.crew.tasks| && !s.crew.tasks[i].pc.Finished?
    ensures s' == DoWork(s, i, outcome) && Reachable(cfg, s')
  {
    s' := ReachStep(cfg, s, Work(i, outcome));
  }

  /** Boot, to the point where all loops have been started. */
  lemma BootRun(cfg: Config, out: Response) returns (s: Sys)
    ensures Reachable(cfg, s) && s.life.trace == [Registered] && s.crew == Crew([], [], 0, 0)
    ensures s.tun.pc.LoopHead? && s.heart.pc.Collect? && !s.cancelled && s.life.state == Registered
  {
    assert Exec(cfg, []) == Init(cfg);
    s := ReachMain(cfg, Init(cfg), Proceed);
    s := ReachMain(cfg, s, RegisterOk(out));
    s := ReachMain(cfg, s, Proceed);
    s := ReachMain(cfg, s, CapabilitiesOk);
    s := SpawnRun(cfg, s);
  }

  /** The three loops are started one after the other. */
  lemma SpawnRun(cfg: Config, s: Sys) returns (s': Sys)
    requires Reachable(cfg, s) && s.main.SpawnHeartbeat?
    ensures Reachable(cfg, s') && s'.main.AwaitSignal? && s'.inventory
    ensures s'.life == s.life && s'.crew == s.crew && s'.cancelled == s.cancelled
    ensures s'.tun.pc.LoopHead? && s'.heart.pc.Collect?
  {
    s' := ReachMain(cfg, s, Proceed);
    s' := ReachMain(cfg, s', Proceed);
    s' := ReachMain(cfg, s', Proceed);
  }

  /** From the loop head to the dial. */
  lemma ConnectRun(cfg: Config, s: Sys) returns (s': Sys)
    requires Reachable(cfg, s) && s.tun.pc.LoopHead? && !s.cancelled && s.life.state in {Registered, Offline}
    ensures Reachable(cfg, s') && s'.tun.pc.Dial? && s'.crew == s.crew && s'.heart == s.heart && !s'.cancelled
    ensures s'.life.state == Connecting && s'.life.trace == s.life.trace + [Connecting]
  {
    s' := ReachTunnel(cfg, s, Go);
    s' := ReachTunnel(cfg, s', Go);
    s' := ReachTunnel(cfg, s', Go);
  }

  /** From a successful dial to the read loop. */
  lemma OnlineRun(cfg: Config, s: Sys) returns (s': Sys)
    requires Reachable(cfg, s) && s.tun.pc.Dial? && !s.cancelled && s.life.state in {Connecting, Degraded}
    ensures Reachable(cfg, s') && s'.tun.pc.Reading? && s'.crew == s.crew && s'.heart == s.heart && !s'.cancelled
    ensures s'.life.state == Online && s'.life.trace == s.life.trace + [Online]
  {
    s' := LinkRun(cfg, s);
    s' := ReachTunnel(cfg, s', Go);
    s' := ReachTunnel(cfg, s', Go);
  }

  /** From a successful dial to the request for ONLINE. */
  lemma LinkRun(cfg: Config, s: Sys) returns (s': Sys)
    requires Reachable(cfg, s) && s.tun.pc.Dial?
    ensures Reachable(cfg, s') && s'.tun.pc.GoOnline? && s'.crew == s.crew && s'.heart == s.heart
    ensures s'.cancelled == s.cancelled && s'.life == s.life
  {
    s' := ReachTunnel(cfg, s, DialOk);
    s' := ReachTunnel(cfg, s', Go);
    s' := ReachTunnel(cfg, s', Go);
  }

  /** A heartbeat round whose health collection fails. */
  lemma DegradeRun(cfg: Config, s: Sys) returns (s': Sys)
    requires Reachable(cfg, s) && s.heart.pc.Collect? && s.life.state in {Connecting, Online}
    ensures Reachable(cfg, s') && s'.heart.pc.Collect? && s'.tun == s.tun && s'.cancelled == s.cancelled
    ensures s'.life.state == Degraded && s'.life.trace == s.life.trace + [Degraded]
  {
    s' := ReachHeart(cfg, s, HealthFailed);
    s' := ReachHeart(cfg, s', Beat);
    s' := ReachHeart(cfg, s', Tick);
  }

  /** From a failed dial back to the loop head. */
  lemma FailedDialRun(cfg: Config, s: Sys) returns (s': Sys)
    requires Reachable(cfg, s) && s.tun.pc.Dial? && s.life.state in {Connecting, Degraded}
    ensures Reachable(cfg, s') && s'.tun.pc.LoopHead? && s'.heart == s.heart && s'.cancelled == s.cancelled
    ensures s'.life.state == Offline && s'.life.trace == s.life.trace + [Offline]
  {
    s' := ReachTunnel(cfg, s, DialFailed);
    s' := OfflineRun(cfg, s');
  }

  /** From a broken connection back to the loop head. */
  lemma BrokenRun(cfg: Config, s: Sys) returns (s': Sys)
    requires Reachable(cfg, s) && s.tun.pc.Reading? && s.life.state in {Online, Degraded}
    ensures Reachable(cfg, s') && s'.tun.pc.LoopHead? && s'.heart == s.heart && s'.cancelled == s.cancelled
    ensures s'.life.state == Offline && s'.life.trace == s.life.trace + [Offline]
  {
    s' := ReachTunnel(cfg, s, Incoming(ReadFailed));
    s' := ReachTunnel(cfg, s', Go);
    s' := OfflineRun(cfg, s');
  }

  lemma OfflineRun(cfg: Config, s: Sys) returns (s': Sys)
    requires Reachable(cfg, s) && s.tun.pc.CountReconnect? && s.life.state in {Connecting, Online, Degraded}
    ensures Reachable(cfg, s') && s'.tun.pc.LoopHead? && s'.heart == s.heart && s'.cancelled == s.cancelled
    ensures s'.life.state == Offline && s'.life.trace == s.life.trace + [Offline]
  {
    s' := CleanupRun(cfg, s);
    s' := ReachTunnel(cfg, s', Go);
    s' := ReachTunnel(cfg, s', TimerFired);
  }

  lemma CleanupRun(cfg: Config, s: Sys) returns (s': Sys)
    requires Reachable(cfg, s) && s.tun.pc.CountReconnect? && s.life.state in {Connecting, Online, Degraded}
    ensures Reachable(cfg, s') && s'.tun.pc.GoOffline? && s'.heart == s.heart && s'.cancelled == s.cancelled && s'.life == s.life
  {
    s' := ReachTunnel(cfg, s, Go);
    s' := ReachTunnel(cfg, s', Go);
    s' := ReachTunnel(cfg, s', Go);
  }

  lemma RevokeRun(cfg: Config, s: Sys) returns (s': Sys)
    requires Reachable(cfg, s) && s.tun.pc.Reading? && s.life.state in {Online, Degraded}
    ensures Reachable(cfg, s') && s'.life.trace == s.life.trace + [Revoked]
  {
    s' := ReachTunnel(cfg, s, Incoming(Revoke));
    s' := ReachTunnel(cfg, s', Go);
  }
}
