/** The agent's code over its shared objects, and the proof that every one of its executions is a run
    of the step system.

    `Run`, `ConnectAndServe`, `Once`, `HeartbeatRun`, `ExecuteCommand` and `Start` follow the source's
    control flow.  Before each atomic operation they call `Yield`, where any other goroutine may take
    any number of steps.  What the environment decides (the other goroutines' steps, dial and read
    outcomes, timers) comes from `future`; when it is used up the context is cancelled and reads fail,
    so every loop ends.
 */
module AgentCode {
  import opened Options
  import opened States
  import opened Registration
  import opened Lifecycle
  import opened LifecycleInvariants
  import opened TraceLanguage
  import Commands

  datatype Thread = MainThread | TunnelThread | HeartThread | CommandThread(i: nat)

  predicate Mine(self: Thread, a: Action) {
    match self
    case MainThread => a.Main?
    case TunnelThread => a.TunnelStep?
    case HeartThread => a.HeartStep?
    case CommandThread(i) => a.Work? && a.task == i
  }

  /** The goroutine has been started. */
  predicate Started(self: Thread, s: Sys) {
    match self
    case MainThread => true
    case TunnelThread => s.main.AwaitSignal?
    case HeartThread => !s.heart.pc.HeartNotStarted?
    case CommandThread(i) => i < |s.crew.tasks|
  }

  /** What only the goroutine itself writes. */
  predicate SameOwn(self: Thread, s: Sys, s': Sys) {
    match self
    case MainThread => s'.main == s.main && s'.response == s.response
    case TunnelThread => s'.tun == s.tun && s'.main == s.main
    case HeartThread => s'.heart == s.heart
    case CommandThread(i) => i < |s.crew.tasks| <= |s'.crew.tasks| && s'.crew.tasks[i] == s.crew.tasks[i]
  }

  lemma OthersKeepOwn(self: Thread, s: Sys, a: Action)
    requires ShapeInv(s) && Started(self, s) && !Mine(self, a)
    ensures SameOwn(self, s, Step(s, a)) && Started(self, Step(s, a))
  {
    if !a.TunnelStep? && !a.Main? {
      TunnelFrame(s, a);
    } else if a.TunnelStep? && Enabled(s, a) {
      TunnelKeepsResponse(s, a.tunnel);
      TunnelKeepsOthers(s, a.tunnel);
    }
  }

  lemma TunnelKeepsOthers(s: Sys, input: TunnelInput)
    requires TunnelEnabled(s, input)
    ensures DoTunnel(s, input).heart == s.heart && DoTunnel(s, input).cancelled == s.cancelled
    ensures s.crew.tasks <= DoTunnel(s, input).crew.tasks
  {
  }

  lemma CancelStays(s: Sys, a: Action)
    ensures s.cancelled || a == Cancel ==> Step(s, a).cancelled
  {
    if a.TunnelStep? && Enabled(s, a) {
      TunnelKeepsOthers(s, a.tunnel);
    }
  }

  /** Entry `i` of a history: the first state is the initial one, each next state is a step. */
  ghost predicate Joined(cfg: Config, states: seq<Sys>, log: seq<Action>, i: nat)
    requires i <= |log| < |states|
  {
    && (i == 0 ==> states[0] == Init(cfg))
    && (i < |log| ==> states[i + 1] == Step(states[i], log[i]))
  }

  /** A behaviour of the step system: the states it passes through under a schedule. */
  ghost predicate Behaviour(cfg: Config, states: seq<Sys>, log: seq<Action>) {
    && |states| == |log| + 1
    && forall i {:trigger Joined(cfg, states, log, i)} :: 0 <= i <= |log| ==> Joined(cfg, states, log, i)
  }

  lemma {:induction false} BehaviourIsExec(cfg: Config, states: seq<Sys>, log: seq<Action>)
    requires Behaviour(cfg, states, log)
    ensures states[|log|] == Exec(cfg, log)
    decreases |log|
  {
    if log == [] {
      assert Joined(cfg, states, log, 0);
    } else {
      var n := |log| - 1;
      var states', log' := states[..n + 1], log[..n];
      forall i {:trigger Joined(cfg, states', log', i)} | 0 <= i <= n
        ensures Joined(cfg, states', log', i)
      {
        assert Joined(cfg, states, log, i);
      }
      BehaviourIsExec(cfg, states', log');
      assert Joined(cfg, states, log, n);
    }
  }

  lemma BehaviourSnoc(cfg: Config, states: seq<Sys>, log: seq<Action>, a: Action)
    requires Behaviour(cfg, states, log)
    ensures Behaviour(cfg, states + [Step(states[|log|], a)], log + [a])
  {
    var states', log' := states + [Step(states[|log|], a)], log + [a];
    forall i {:trigger Joined(cfg, states', log', i)} | 0 <= i <= |log'|
      ensures Joined(cfg, states', log', i)
    {
      if i <= |log| {
        assert Joined(cfg, states, log, i);
      }
    }
  }

  /** One moment of the environment: steps of other goroutines, then the outcomes on offer. */
  datatype Moment = Moment(others: seq<Action>, ok: bool, envelope: Envelope, stop: bool, outcome: Commands.Outcome)

  /** The envelopes that end a connection. */
  predicate Ends(e: Envelope) {
    e.ReadFailed? || e.Revoke?
  }

  const LAST_MOMENT := Moment([Cancel], false, ReadFailed, true, Commands.Failure("context canceled"))

  class Agent {
    const cfg: Config
    const machine: Machine
    const metrics: Metrics
    const tokens: TokenStore

    var future: seq<Moment>
    var cancelled: bool

    // cmd/agent/main.go
    var mainPc: MainPc
    var response: Response
    var inventoryRunning: bool
    // internal/websocket/manager.go
    var tunPc: TunnelPc
    var reg: Response
    var connected: bool
    var conn: Option<nat>
    var conns: nat
    // internal/heartbeat/heartbeat.go
    var heartPc: HeartPc
    // internal/executor/executor.go, one entry per goroutine
    var tasks: seq<Task>

    ghost var rejected: seq<Rejection>
    ghost var dials: seq<DialRecord>
    ghost var received: seq<Envelope>
    ghost var reports: seq<AgentState>
    ghost var uncollected: nat
    ghost var messages: seq<Message>
    /** The schedule executed so far, and the states it led through. */
    ghost var log: seq<Action>
    ghost var states: seq<Sys>

    ghost function View(): Sys
      reads this, machine, metrics, tokens
    {
      Sys(cfg, mainPc, cancelled, response,
          Life(machine.state, metrics.agentState, machine.notified, rejected),
          Tunnel(tunPc, reg, tokens.token, connected, metrics.tunnelConnected, metrics.tunnelReconnects,
                 conns, conn, dials, received),
          Heart(heartPc, metrics.heartbeats, metrics.heartbeatFailures, reports, uncollected),
          Crew(tasks, messages, metrics.commands, metrics.commandFailures), inventoryRunning)
    }

    /** The concrete state is entry `i` of the history. */
    ghost predicate Shows(i: nat)
      requires i < |states|
      reads this, machine, metrics, tokens
    {
      View() == states[i]
    }

    /** The history is a behaviour and the concrete state is its last entry.  The trigger keeps the
        comparison out of proofs that do not name it. */
    ghost predicate Valid()
      reads this, machine, metrics, tokens
    {
      && machine.onChange == metrics && Behaviour(cfg, states, log)
      && forall i {:trigger Shows(i)} :: i == |log| ==> Shows(i)
    }

    /** Exactly action `a` was taken, and where it left its own goroutine. */
    twostate predicate Took(a: Action)
      reads this
    {
      log == old(log) + [a] && old(states) <= states && future == old(future) && (a != Cancel ==> cancelled == old(cancelled))
    }

    twostate predicate MainTook(input: MainInput, next: MainPc)
      reads this
    {
      Took(Main(input)) && mainPc == next
    }

    twostate predicate TunnelTook(input: TunnelInput, next: TunnelPc)
      reads this
    {
      Took(TunnelStep(input)) && tunPc == next && mainPc == old(mainPc)
    }

    twostate predicate HeartTook(input: HeartInput, next: HeartPc)
      reads this
    {
      Took(HeartStep(input)) && heartPc == next
    }

    twostate predicate WorkTook(i: nat, outcome: Commands.Outcome, next: TaskPc)
      requires i < old(|tasks|)
      reads this
    {
      Took(Work(i, outcome)) && tasks == old(tasks)[i := old(tasks)[i].(pc := next)]
    }

    /** What the heartbeat loop has to show: successes, failures, reports. */
    ghost function Tally(): (nat, nat, seq<AgentState>)
      reads this, metrics
    {
      (metrics.heartbeats, metrics.heartbeatFailures, reports)
    }

    /** What the tunnel loop has to show: dials, successful dials, envelopes. */
    ghost function Link(): (seq<DialRecord>, nat, seq<Envelope>)
      reads this
    {
      (dials, conns, received)
    }

    /** What the environment offers next. */
    function NextMoment(): Moment
      reads this
    {
      if future == [] then LAST_MOMENT else future[0]
    }

    constructor (cfg: Config, future: seq<Moment>)
      ensures Valid() && log == [] && mainPc.InitGauge? && this.future == future && this.cfg == cfg
      ensures fresh(machine) && fresh(metrics) && fresh(tokens)
    {
      this.cfg, this.future := cfg, future;
      var now: int := *;
      var m := new Metrics();
      metrics := m;
      machine := new Machine(m, now);
      tokens := new TokenStore();
      cancelled, mainPc, response := false, InitGauge, NO_RESPONSE;
      tunPc, reg, connected, conn, conns := TunnelNotStarted, NO_RESPONSE, false, None, 0;
      heartPc, tasks, inventoryRunning, uncollected := HeartNotStarted, [], false, 0;
      rejected, dials, received, reports, messages, log := [], [], [], [], [], [];
      states := [Init(cfg)];
    }

    lemma ViewIsExec()
      requires Valid()
      ensures View() == Exec(cfg, log)
    {
      assert Shows(|log|);
      BehaviourIsExec(cfg, states, log);
    }

    /** Records that action `a` was taken from the last entry of the history. */
    ghost method Log(before: Sys, a: Action)
      requires machine.onChange == metrics && Behaviour(cfg, states, log)
      requires before == states[|log|] && Leads(before, a, View())
      modifies this`log, this`states
      ensures Valid() && log == old(log) + [a] && old(states) <= states
    {
      assert Taken(a);
      BehaviourSnoc(cfg, states, log, a);
      states, log := states + [View()], log + [a];
    }

    ghost method LogMain(before: Sys, input: MainInput)
      requires machine.onChange == metrics && Behaviour(cfg, states, log) && before == states[|log|]
      requires MainEnabled(before, input) && View() == DoMain(before, input)
      modifies this`log, this`states
      ensures Valid() && log == old(log) + [Main(input)] && old(states) <= states
    {
      StepLeads(before, Main(input));
      Log(before, Main(input));
    }

    ghost method LogTunnel(before: Sys, input: TunnelInput)
      requires machine.onChange == metrics && Behaviour(cfg, states, log) && before == states[|log|]
      requires TunnelEnabled(before, input) && View() == DoTunnel(before, input)
      modifies this`log, this`states
      ensures Valid() && log == old(log) + [TunnelStep(input)] && old(states) <= states
    {
      StepLeads(before, TunnelStep(input));
      Log(before, TunnelStep(input));
    }

    ghost method LogHeart(before: Sys, input: HeartInput)
      requires machine.onChange == metrics && Behaviour(cfg, states, log) && before == states[|log|]
      requires HeartEnabled(before, input) && View() == DoHeart(before, input)
      modifies this`log, this`states
      ensures Valid() && log == old(log) + [HeartStep(input)] && old(states) <= states
    {
      StepLeads(before, HeartStep(input));
      Log(before, HeartStep(input));
    }

    ghost method LogWork(before: Sys, i: nat, outcome: Commands.Outcome)
      requires machine.onChange == metrics && Behaviour(cfg, states, log) && before == states[|log|]
      requires i < |before.crew.tasks| && !before.crew.tasks[i].pc.Finished? && View() == DoWork(before, i, outcome)
      modifies this`log, this`states
      ensures Valid() && log == old(log) + [Work(i, outcome)] && old(states) <= states
    {
      StepLeads(before, Work(i, outcome));
      Log(before, Work(i, outcome));
    }

    method Transition(who: Actor, next: AgentState, why: string)
      requires machine.onChange == metrics
      modifies machine, metrics, this`rejected
      ensures View() == old(View()).(life := Request(old(View()).life, who, next))
    {
      var now: int := *;
      var reply := machine.Transition(next, why, now);
      match reply
      case Accepted =>
      case Invalid(from, to) => rejected := rejected + [Rejection(who, from, to)];
    }

    // ---- Atomic operations of the boot sequence ----

    method WriteFirstGauge()
      requires Valid() && mainPc.InitGauge?
      modifies this`mainPc, metrics`agentState, this`log, this`states
      ensures Valid() && MainTook(Proceed, Register)
    {
      assert Shows(|log|);
      ghost var before := View();
      var s := machine.GetSnapshot();
      metrics.SetState(Label(s.state));
      mainPc := Register;
      LogMain(before, Proceed);
    }

    method RegisterReply(out: Option<Response>)
      requires Valid() && mainPc.Register?
      modifies this`mainPc, this`response, this`reg, tokens, this`log, this`states
      ensures Valid() && if out.Some? then MainTook(RegisterOk(out.value), RequestRegistered) else MainTook(RegisterFailed, Exited)
    {
      match out
      case None => RegisterFails();
      case Some(r) => RegisterSucceeds(r);
    }

    method RegisterFails()
      requires Valid() && mainPc.Register?
      modifies this`mainPc, this`log, this`states
      ensures Valid() && MainTook(RegisterFailed, Exited)
    {
      assert Shows(|log|);
      ghost var before := View();
      mainPc := Exited;
      LogMain(before, RegisterFailed);
    }

    method RegisterSucceeds(r: Response)
      requires Valid() && mainPc.Register?
      modifies this`mainPc, this`response, this`reg, tokens, this`log, this`states
      ensures Valid() && MainTook(RegisterOk(r), RequestRegistered)
    {
      var out := r;
      if out.webSocketUrl == "" {
        out := out.(webSocketUrl := out.wsEndpoint);
      }
      StoreReply(r, out);
    }

    /** The token and the completed reply are stored. */
    method StoreReply(r: Response, out: Response)
      requires Valid() && mainPc.Register? && out == Completed(r)
      modifies this`mainPc, this`response, this`reg, tokens, this`log, this`states
      ensures Valid() && MainTook(RegisterOk(r), RequestRegistered)
    {
      assert Shows(|log|);
      ghost var before := View();
      response, reg, mainPc := out, out, RequestRegistered;
      tokens.Set(r.jwt);
      RegisterLeads(before, r, out);
      Log(before, Main(RegisterOk(r)));
    }

    method MarkRegistered()
      requires Valid() && mainPc.RequestRegistered?
      modifies this`mainPc, this`rejected, machine, metrics, this`log, this`states
      ensures Valid() && MainTook(Proceed, PostCapabilities)
    {
      assert Shows(|log|);
      ghost var before := View();
      Transition(Boot, Registered, "cluster registered");
      mainPc := PostCapabilities;
      LogMain(before, Proceed);
    }

    method CapabilitiesReply(ok: bool)
      requires Valid() && mainPc.PostCapabilities?
      modifies this`mainPc, this`log, this`states
      ensures Valid() && if ok then MainTook(CapabilitiesOk, SpawnHeartbeat) else MainTook(CapabilitiesFailed, Exited)
    {
      assert Shows(|log|);
      ghost var before := View();
      mainPc := if ok then SpawnHeartbeat else Exited;
      LogMain(before, if ok then CapabilitiesOk else CapabilitiesFailed);
    }

    method StartHeartbeat()
      requires Valid() && mainPc.SpawnHeartbeat?
      modifies this`mainPc, this`heartPc, this`log, this`states
      ensures Valid() && MainTook(Proceed, SpawnInventory)
    {
      assert Shows(|log|);
      ghost var before := View();
      heartPc, mainPc := Collect, SpawnInventory;
      LogMain(before, Proceed);
    }

    method StartInventory()
      requires Valid() && mainPc.SpawnInventory?
      modifies this`mainPc, this`inventoryRunning, this`log, this`states
      ensures Valid() && MainTook(Proceed, SpawnTunnel) && inventoryRunning
    {
      assert Shows(|log|);
      ghost var before := View();
      inventoryRunning, mainPc := true, SpawnTunnel;
      LogMain(before, Proceed);
    }

    method StartTunnel()
      requires Valid() && mainPc.SpawnTunnel?
      modifies this`mainPc, this`tunPc, this`log, this`states
      ensures Valid() && MainTook(Proceed, AwaitSignal)
    {
      assert Shows(|log|);
      ghost var before := View();
      tunPc, mainPc := LoopHead, AwaitSignal;
      LogMain(before, Proceed);
    }

    // ---- Atomic operations of the tunnel loop ----

    method ContextDone() returns (done: bool)
      requires Valid() && tunPc.LoopHead?
      modifies this`tunPc, this`log, this`states
      ensures Valid() && done == old(cancelled) && TunnelTook(Go, if done then TunnelDone else CheckState)
    {
      assert Shows(|log|);
      ghost var before := View();
      done := cancelled;
      tunPc := if done then TunnelDone else CheckState;
      LogTunnel(before, Go);
    }

    method IsRevoked() returns (revoked: bool)
      requires Valid() && (tunPc.CheckState? || tunPc.CheckRevoked?)
      modifies this`tunPc, this`log, this`states
      ensures revoked <==> old(machine.state) == Revoked
      ensures Valid()
      ensures TunnelTook(Go, if old(tunPc).CheckState? then if revoked then TunnelDone else Connect
                             else if revoked then Backoff else GoOffline)
    {
      assert Shows(|log|);
      ghost var before := View();
      var s := machine.GetSnapshot();
      revoked := s.state == Revoked;
      tunPc := if tunPc.CheckState? then if revoked then TunnelDone else Connect
               else if revoked then Backoff else GoOffline;
      LogTunnel(before, Go);
    }

    /** The four requests the tunnel loop makes, all of whose results it discards. */
    method RequestState(next: AgentState, why: string)
      requires Valid()
      requires match next
        case Connecting => tunPc.Connect?
        case Online => tunPc.GoOnline?
        case Revoked => tunPc.Revoking?
        case Offline => tunPc.GoOffline?
        case _ => false
      modifies this`tunPc, this`rejected, machine, metrics, this`log, this`states
      ensures Valid()
      ensures TunnelTook(Go, match next { case Connecting => Dial case Online => GaugeUp case Revoked => GaugeDown case _ => Backoff })
    {
      assert Shows(|log|);
      ghost var before := View();
      Transition(TunnelLoop, next, why);
      tunPc := match next
        case Connecting => Dial
        case Online => GaugeUp
        case Revoked => GaugeDown
        case _ => Backoff;
      LogTunnel(before, Go);
    }

    method DialEndpoint(ok: bool)
      requires Valid() && tunPc.Dial?
      modifies this`tunPc, this`dials, this`conns, this`log, this`states
      ensures Valid() && if ok then TunnelTook(DialOk, StoreConn) else TunnelTook(DialFailed, CountReconnect)
      ensures |dials| == |old(dials)| + 1 && old(dials) <= dials && conns == old(conns) + if ok then 1 else 0
    {
      var endpoint := TunnelURL(reg);
      if endpoint == "" {
        endpoint := DerivedEndpoint(cfg);
      }
      var bearer := tokens.Get();
      if ok {
        DialSucceeds(endpoint, bearer);
      } else {
        DialFails(endpoint, bearer);
      }
    }

    method DialSucceeds(endpoint: string, bearer: string)
      requires Valid() && tunPc.Dial? && endpoint == DialAddress(cfg, reg) && bearer == tokens.token
      modifies this`tunPc, this`dials, this`conns, this`log, this`states
      ensures Valid() && TunnelTook(DialOk, StoreConn)
      ensures dials == old(dials) + [DialRecord(endpoint, bearer, reg.clusterId)] && conns == old(conns) + 1
    {
      assert Shows(|log|);
      ghost var before := View();
      dials, conns, tunPc := dials + [DialRecord(endpoint, bearer, reg.clusterId)], conns + 1, StoreConn;
      DialLeads(before);
      Log(before, TunnelStep(DialOk));
    }

    method DialFails(endpoint: string, bearer: string)
      requires Valid() && tunPc.Dial? && endpoint == DialAddress(cfg, reg) && bearer == tokens.token
      modifies this`tunPc, this`dials, this`log, this`states
      ensures Valid() && TunnelTook(DialFailed, CountReconnect)
      ensures dials == old(dials) + [DialRecord(endpoint, bearer, reg.clusterId)]
    {
      assert Shows(|log|);
      ghost var before := View();
      dials, tunPc := dials + [DialRecord(endpoint, bearer, reg.clusterId)], CountReconnect;
      LogTunnel(before, DialFailed);
    }

    method StoreConnection()
      requires Valid() && tunPc.StoreConn?
      modifies this`tunPc, this`conn, this`log, this`states
      ensures Valid() && TunnelTook(Go, MarkConnected)
    {
      assert Shows(|log|);
      ghost var before := View();
      conn, tunPc := Some(if conns == 0 then 0 else conns - 1), MarkConnected;
      LogTunnel(before, Go);
    }

    method StoreConnected(value: bool)
      requires Valid() && (if value then tunPc.MarkConnected? else tunPc.MarkDisconnected?)
      modifies this`tunPc, this`connected, this`log, this`states
      ensures Valid() && TunnelTook(Go, if value then GoOnline else CheckRevoked)
    {
      assert Shows(|log|);
      ghost var before := View();
      connected, tunPc := value, if value then GoOnline else CheckRevoked;
      LogTunnel(before, Go);
    }

    method SetTunnelGauge(up: bool)
      requires Valid() && (if up then tunPc.GaugeUp? else tunPc.GaugeDown?)
      modifies this`tunPc, metrics`tunnelConnected, this`log, this`states
      ensures Valid() && TunnelTook(Go, if up then Reading else CountReconnect)
    {
      assert Shows(|log|);
      ghost var before := View();
      metrics.tunnelConnected := if up then 1 else 0;
      tunPc := if up then Reading else CountReconnect;
      LogTunnel(before, Go);
    }

    /** ReadJSON and the dispatch on the envelope's type. */
    method Receive(e: Envelope)
      requires Valid() && tunPc.Reading?
      modifies this`tunPc, this`received, this`tasks, this`log, this`states
      ensures Valid() && TunnelTook(Incoming(e), AfterRead(e)) && received == old(received) + [e]
    {
      match e {
        case ReadFailed => Heed(e, GaugeDown);
        case Command(req) => Spawn(req);
        case CredentialRotation(rotation) => Heed(e, ApplyToken(rotation));
        case Revoke => Heed(e, Revoking);
        case _ => Heed(e, Reading);
      }
    }

    method Heed(e: Envelope, next: TunnelPc)
      requires Valid() && tunPc.Reading? && !e.Command? && next == AfterRead(e)
      modifies this`tunPc, this`received, this`log, this`states
      ensures Valid() && TunnelTook(Incoming(e), next) && received == old(received) + [e]
    {
      assert Shows(|log|);
      ghost var before := View();
      received, tunPc := received + [e], next;
      ReadLeads(before, e);
      Log(before, TunnelStep(Incoming(e)));
    }

    /** A well-formed command: its goroutine is started, and reading goes on. */
    method Spawn(req: Commands.Request)
      requires Valid() && tunPc.Reading?
      modifies this`received, this`tasks, this`log, this`states
      ensures Valid() && TunnelTook(Incoming(Command(req)), Reading) && received == old(received) + [Command(req)]
    {
      assert Shows(|log|);
      ghost var before := View();
      tasks := tasks + [Task(req, if conns == 0 then 0 else conns - 1, SendStatus)];
      received := received + [Command(req)];
      ReadLeads(before, Command(req));
      Log(before, TunnelStep(Incoming(Command(req))));
    }

    method ApplyRotation(rotation: Rotation)
      requires Valid() && tunPc == ApplyToken(rotation)
      modifies this`tunPc, tokens, this`log, this`states
      ensures Valid() && TunnelTook(Go, ApplyEndpoint(rotation))
    {
      assert Shows(|log|);
      ghost var before := View();
      if rotation.jwt != "" {
        tokens.Set(rotation.jwt);
      }
      tunPc := ApplyEndpoint(rotation);
      LogTunnel(before, Go);
    }

    method UpdateEndpoint(rotation: Rotation)
      requires Valid() && tunPc == ApplyEndpoint(rotation)
      modifies this`tunPc, this`reg, this`log, this`states
      ensures Valid() && TunnelTook(Go, Reading)
    {
      assert Shows(|log|);
      ghost var before := View();
      var next := reg;
      if rotation.wsEndpoint != "" {
        next := next.(wsEndpoint := rotation.wsEndpoint);
        next := next.(webSocketUrl := rotation.wsEndpoint);
      }
      reg, tunPc := next, Reading;
      RotateLeads(before, rotation);
      Log(before, TunnelStep(Go));
    }

    method CountTunnelReconnect()
      requires Valid() && tunPc.CountReconnect?
      modifies this`tunPc, metrics`tunnelReconnects, this`log, this`states
      ensures Valid() && TunnelTook(Go, MarkDisconnected)
    {
      assert Shows(|log|);
      ghost var before := View();
      metrics.tunnelReconnects := metrics.tunnelReconnects + 1;
      tunPc := MarkDisconnected;
      LogTunnel(before, Go);
    }

    /** The select between ctx.Done and the backoff timer. */
    method AwaitBackoff(stop: bool) returns (done: bool)
      requires Valid() && tunPc.Backoff?
      modifies this`tunPc, this`log, this`states
      ensures Valid() && done == (stop && old(cancelled))
      ensures if done then TunnelTook(CtxDone, TunnelDone) else TunnelTook(TimerFired, LoopHead)
    {
      assert Shows(|log|);
      ghost var before := View();
      done := stop && cancelled;
      tunPc := if done then TunnelDone else LoopHead;
      LogTunnel(before, if done then CtxDone else TimerFired);
    }

    // ---- Atomic operations of the heartbeat loop ----

    method CollectHealth(ok: bool)
      requires Valid() && heartPc.Collect?
      modifies this`heartPc, this`uncollected, metrics`heartbeatFailures, this`log, this`states
      ensures Valid() && if ok then HeartTook(HealthOk, Observe) else HeartTook(HealthFailed, Degrade)
      ensures Tally() == (old(Tally().0), old(Tally().1) + if ok then 0 else 1, old(reports))
    {
      assert Shows(|log|);
      ghost var before := View();
      if ok {
        heartPc := Observe;
      } else {
        metrics.heartbeatFailures := metrics.heartbeatFailures + 1;
        heartPc, uncollected := Degrade, uncollected + 1;
      }
      LogHeart(before, if ok then HealthOk else HealthFailed);
    }

    method RequestDegraded()
      requires Valid() && heartPc.Degrade?
      modifies this`heartPc, this`rejected, machine, metrics, this`log, this`states
      ensures Valid() && HeartTook(Beat, Wait)
      ensures Tally() == old(Tally())
    {
      assert Shows(|log|);
      ghost var before := View();
      Transition(HeartbeatLoop, Degraded, "kubernetes health collection failed");
      heartPc := Wait;
      LogHeart(before, Beat);
    }

    method ObserveState() returns (observed: AgentState)
      requires Valid() && heartPc.Observe?
      modifies this`heartPc, this`log, this`states
      ensures Valid() && HeartTook(Beat, Post(observed))
    {
      assert Shows(|log|);
      ghost var before := View();
      var s := machine.GetSnapshot();
      observed := s.state;
      heartPc := Post(observed);
      LogHeart(before, Beat);
    }

    method PostHeartbeat(reported: AgentState, ok: bool)
      requires Valid() && heartPc == Post(reported)
      modifies this`heartPc, this`reports, metrics`heartbeats, metrics`heartbeatFailures, this`log, this`states
      ensures Valid() && HeartTook(if ok then PostOk else PostFailed, Wait)
      ensures Tally() == (old(Tally().0) + if ok then 1 else 0, old(Tally().1) + if ok then 0 else 1, old(reports) + [reported])
    {
      if ok {
        PostSucceeds(reported);
      } else {
        PostFails(reported);
      }
    }

    method PostSucceeds(reported: AgentState)
      requires Valid() && heartPc == Post(reported)
      modifies this`heartPc, this`reports, metrics`heartbeats, this`log, this`states
      ensures Valid() && HeartTook(PostOk, Wait)
      ensures metrics.heartbeats == old(metrics.heartbeats) + 1 && reports == old(reports) + [reported]
    {
      assert Shows(|log|);
      ghost var before := View();
      reports, heartPc := reports + [reported], Wait;
      metrics.heartbeats := metrics.heartbeats + 1;
      PostLeads(before, true);
      Log(before, HeartStep(PostOk));
    }

    method PostFails(reported: AgentState)
      requires Valid() && heartPc == Post(reported)
      modifies this`heartPc, this`reports, metrics`heartbeatFailures, this`log, this`states
      ensures Valid() && HeartTook(PostFailed, Wait)
      ensures metrics.heartbeatFailures == old(metrics.heartbeatFailures) + 1 && reports == old(reports) + [reported]
    {
      assert Shows(|log|);
      ghost var before := View();
      reports, heartPc := reports + [reported], Wait;
      metrics.heartbeatFailures := metrics.heartbeatFailures + 1;
      PostLeads(before, false);
      Log(before, HeartStep(PostFailed));
    }

    method AwaitTick(stop: bool) returns (done: bool)
      requires Valid() && heartPc.Wait?
      modifies this`heartPc, this`log, this`states
      ensures Valid() && done == (stop && old(cancelled))
      ensures if done then HeartTook(Stop, HeartDone) else HeartTook(Tick, Collect)
    {
      assert Shows(|log|);
      ghost var before := View();
      done := stop && cancelled;
      heartPc := if done then HeartDone else Collect;
      LogHeart(before, if done then Stop else Tick);
    }

    // ---- Atomic operations of a command goroutine ----

    method SendRunning(i: nat, ghost outcome: Commands.Outcome)
      requires Valid() && i < |tasks| && tasks[i].pc.SendStatus?
      modifies this`messages, this`tasks, this`log, this`states
      ensures Valid() && WorkTook(i, outcome, Execute)
    {
      assert Shows(|log|);
      ghost var before := View();
      messages := messages + [Message(i, conn, Status(tasks[i].req.requestId, response.clusterId))];
      tasks := tasks[i := tasks[i].(pc := Execute)];
      LogWork(before, i, outcome);
    }

    method RunCommand(i: nat, outcome: Commands.Outcome) returns (r: Commands.Response)
      requires Valid() && i < |tasks| && tasks[i].pc.Execute?
      modifies this`tasks, metrics`commands, metrics`commandFailures, this`log, this`states
      ensures r == Commands.Execute(response.clusterId, old(tasks)[i].req, outcome)
      ensures Valid() && WorkTook(i, outcome, SendResult(r))
    {
      r := Commands.Execute(response.clusterId, tasks[i].req, outcome);
      CountAndAnswer(i, outcome, r);
    }

    /** One of the two counters moves. */
    method CountAndAnswer(i: nat, ghost outcome: Commands.Outcome, r: Commands.Response)
      requires Valid() && i < |tasks| && tasks[i].pc.Execute?
      requires r == Commands.Execute(response.clusterId, tasks[i].req, outcome)
      modifies this`tasks, metrics`commands, metrics`commandFailures, this`log, this`states
      ensures Valid() && WorkTook(i, outcome, SendResult(r))
      ensures metrics.commandFailures == old(metrics.commandFailures) + if r.status == "failed" then 1 else 0
      ensures metrics.commands == old(metrics.commands) + if r.status == "failed" then 0 else 1
    {
      assert Shows(|log|);
      ghost var before := View();
      var failed := r.status == "failed";
      tasks := tasks[i := tasks[i].(pc := SendResult(r))];
      metrics.commandFailures := metrics.commandFailures + if failed then 1 else 0;
      metrics.commands := metrics.commands + if failed then 0 else 1;
      RunLeads(before, i, outcome, r);
      Log(before, Work(i, outcome));
    }

    method SendAnswer(i: nat, r: Commands.Response, ghost outcome: Commands.Outcome)
      requires Valid() && i < |tasks| && tasks[i].pc == SendResult(r)
      modifies this`messages, this`tasks, this`log, this`states
      ensures Valid() && WorkTook(i, outcome, Finished(r))
    {
      assert Shows(|log|);
      ghost var before := View();
      messages := messages + [Message(i, conn, Result(r))];
      tasks := tasks[i := tasks[i].(pc := Finished(r))];
      LogWork(before, i, outcome);
    }

    // ---- Interference ----

    method CancelContext()
      requires Valid()
      modifies this`cancelled, this`log, this`states
      ensures Valid() && Took(Cancel)
    {
      assert Shows(|log|);
      ghost var before := View();
      cancelled := true;
      StepLeads(before, Cancel);
      Log(before, Cancel);
    }

    /** The next atomic operation of the goroutine that `a` belongs to, if it is ready for it. */
    method PerformTunnel(input: TunnelInput)
      requires Valid() && TunnelReady(tunPc, cancelled, input)
      modifies this, machine, metrics, tokens
      ensures Valid() && Took(TunnelStep(input))
    {
      match tunPc {
        case LoopHead => var _ := ContextDone();
        case CheckState => var _ := IsRevoked();
        case Connect => RequestState(Connecting, "opening secure websocket tunnel");
        case Dial => DialEndpoint(input.DialOk?);
        case StoreConn => StoreConnection();
        case MarkConnected => StoreConnected(true);
        case GoOnline => RequestState(Online, "websocket connected");
        case GaugeUp => SetTunnelGauge(true);
        case Reading => Receive(input.envelope);
        case ApplyToken(r) => ApplyRotation(r);
        case ApplyEndpoint(r) => UpdateEndpoint(r);
        case Revoking => RequestState(Revoked, "agent key revoked");
        case GaugeDown => SetTunnelGauge(false);
        case CountReconnect => CountTunnelReconnect();
        case MarkDisconnected => StoreConnected(false);
        case CheckRevoked => var _ := IsRevoked();
        case GoOffline => RequestState(Offline, "websocket disconnected");
        case Backoff => var _ := AwaitBackoff(input.CtxDone?);
      }
    }

    method PerformHeart(input: HeartInput)
      requires Valid() && HeartReady(heartPc, cancelled, input)
      modifies this, machine, metrics
      ensures Valid() && Took(HeartStep(input))
    {
      match heartPc {
        case Collect => CollectHealth(input.HealthOk?);
        case Degrade => RequestDegraded();
        case Observe => var _ := ObserveState();
        case Post(reported) => PostHeartbeat(reported, input.PostOk?);
        case Wait => var _ := AwaitTick(input.Stop?);
      }
    }

    method PerformMain(input: MainInput)
      requires Valid() && MainReady(mainPc, input)
      modifies this, machine, metrics, tokens
      ensures Valid() && Took(Main(input))
    {
      match mainPc {
        case InitGauge => WriteFirstGauge();
        case Register => RegisterReply(if input.RegisterOk? then Some(input.response) else None);
        case RequestRegistered => MarkRegistered();
        case PostCapabilities => CapabilitiesReply(input.CapabilitiesOk?);
        case SpawnHeartbeat => StartHeartbeat();
        case SpawnInventory => StartInventory();
        case SpawnTunnel => StartTunnel();
      }
    }

    method PerformWork(i: nat, outcome: Commands.Outcome)
      requires Valid() && i < |tasks| && !tasks[i].pc.Finished?
      modifies this, metrics
      ensures Valid() && Took(Work(i, outcome))
    {
      match tasks[i].pc {
        case SendStatus => SendRunning(i, outcome);
        case Execute => var _ := RunCommand(i, outcome);
        case SendResult(r) => SendAnswer(i, r, outcome);
      }
    }

    /** One action of the step system, by the operation it stands for. */
    method Perform(a: Action)
      requires Valid()
      modifies this, machine, metrics, tokens
      ensures Valid() && if Enabled(old(View()), a) then Took(a) else View() == old(View()) && log == old(log) && future == old(future)
    {
      match a {
        case Cancel => CancelContext();
        case Main(input) =>
          if MainReady(mainPc, input) {
            PerformMain(input);
          }
        case TunnelStep(input) =>
          if TunnelReady(tunPc, cancelled, input) {
            PerformTunnel(input);
          }
        case HeartStep(input) =>
          if HeartReady(heartPc, cancelled, input) {
            PerformHeart(input);
          }
        case Work(i, outcome) =>
          if i < |tasks| && !tasks[i].pc.Finished? {
            PerformWork(i, outcome);
          }
      }
    }

    /** An action taken is a step of the view. */
    twostate lemma TookIsStep(a: Action)
      requires old(Valid()) && Valid() && Took(a)
      ensures View() == Step(old(View()), a)
    {
      assert old(Shows(|log|)) && Shows(|log|);
      assert Joined(cfg, states, log, old(|log|));
    }

    method PerformStep(a: Action)
      requires Valid()
      modifies this, machine, metrics, tokens
      ensures Valid() && future == old(future) && old(log) <= log && View() == Step(old(View()), a)
    {
      ghost var enabled := Enabled(View(), a);
      Perform(a);
      if enabled {
        TookIsStep(a);
      }
    }

    /** A step of another goroutine leaves one's own variables alone. */
    method PerformOther(self: Thread, a: Action)
      requires Valid() && Started(self, View()) && !Mine(self, a)
      modifies this, machine, metrics, tokens
      ensures Valid() && Started(self, View()) && SameOwn(self, old(View()), View())
      ensures old(log) <= log && future == old(future)
      ensures old(cancelled) || a == Cancel ==> cancelled
    {
      ViewIsExec();
      ShapeAlways(cfg, log);
      OthersKeepOwn(self, View(), a);
      CancelStays(View(), a);
      PerformStep(a);
    }

    /** Between two atomic operations of one goroutine the others take any steps they are ready for. */
    method Yield(self: Thread) returns (m: Moment)
      requires Valid() && Started(self, View())
      modifies this, machine, metrics, tokens
      ensures Valid() && Started(self, View()) && SameOwn(self, old(View()), View()) && old(log) <= log
      ensures old(cancelled) ==> cancelled
      ensures old(future) != [] ==> m == old(future)[0] && future == old(future)[1..]
      ensures old(future) == [] ==> m == LAST_MOMENT && future == [] && cancelled
    {
      assert Shows(|log|);
      m := LAST_MOMENT;
      if future != [] {
        m, future := future[0], future[1..];
      }
      ghost var f, l, own := future, log, View();
      for k := 0 to |m.others|
        invariant Valid() && Started(self, View()) && SameOwn(self, own, View()) && future == f && l <= log
        invariant old(cancelled) || (k == 1 && m == LAST_MOMENT) ==> cancelled
      {
        var a := m.others[k];
        if !Mine(self, a) {
          PerformOther(self, a);
        }
      }
    }

    method CommandYield(i: nat) returns (m: Moment)
      requires Valid() && i < |tasks|
      modifies this, machine, metrics, tokens
      ensures Valid() && i < |tasks| && tasks[i] == old(tasks)[i] && old(log) <= log
    {
      m := Yield(CommandThread(i));
    }

    method MainYield() returns (m: Moment)
      requires Valid()
      modifies this, machine, metrics, tokens
      ensures Valid() && mainPc == old(mainPc) && old(log) <= log
      ensures old(cancelled) ==> cancelled
      ensures if old(future) == [] then future == [] && cancelled && m == LAST_MOMENT else |future| < |old(future)|
    {
      m := Yield(MainThread);
    }

    method TunnelYield() returns (m: Moment)
      requires Valid() && mainPc.AwaitSignal?
      modifies this, machine, metrics, tokens
      ensures Valid() && tunPc == old(tunPc) && mainPc == old(mainPc) && old(log) <= log
      ensures old(cancelled) ==> cancelled
      ensures if old(future) == [] then future == [] && cancelled && m == LAST_MOMENT else |future| < |old(future)|
      ensures m == old(NextMoment()) && Link() == old(Link())
    {
      m := Yield(TunnelThread);
    }

    method HeartYield() returns (m: Moment)
      requires Valid() && !heartPc.HeartNotStarted?
      modifies this, machine, metrics, tokens
      ensures Valid() && heartPc == old(heartPc) && old(log) <= log
      ensures old(cancelled) ==> cancelled
      ensures if old(future) == [] then future == [] && cancelled && m == LAST_MOMENT else |future| < |old(future)|
      ensures m == old(NextMoment()) && Tally() == old(Tally())
    {
      m := Yield(HeartThread);
    }

    // ---- The source's control flow ----

    /** internal/websocket/manager.go, Run.  On return the whole execution is a run of the step system,
        whose results then hold of the objects themselves. */
    method Run()
      requires Valid() && tunPc.LoopHead?
      modifies this, machine, metrics, tokens
      ensures Valid() && tunPc.TunnelDone? && old(log) <= log
      ensures machine.state in {Registered, Offline, Revoked}
      ensures !connected && metrics.tunnelConnected == 0 && metrics.tunnelReconnects == |dials|
      ensures forall r :: r in rejected ==> r.who == HeartbeatLoop
    {
      TunnelStarted();
      while true
        invariant Valid() && tunPc.LoopHead? && mainPc.AwaitSignal? && old(log) <= log
        decreases |future|
      {
        var goOn := LoopGuard();
        if !goOn {
          break;
        }
        var m := TunnelYield();
        RequestState(Connecting, "opening secure websocket tunnel");
        ConnectAndServe();
        Disconnected();
        m := TunnelYield();
        var done := AwaitBackoff(m.stop);
        if done {
          break;
        }
      }
      TunnelFinished();
    }

    /** The two tests at the head of Run's loop: the context, then the revoked state. */
    method LoopGuard() returns (goOn: bool)
      requires Valid() && tunPc.LoopHead? && mainPc.AwaitSignal?
      modifies this, machine, metrics, tokens
      ensures Valid() && mainPc.AwaitSignal? && old(log) <= log
      ensures if goOn then tunPc.Connect? else tunPc.TunnelDone?
      ensures old(cancelled) ==> cancelled
      ensures goOn ==> |future| < |old(future)|
    {
      var m := TunnelYield();
      var done := ContextDone();
      if done {
        return false;
      }
      m := TunnelYield();
      var revoked := IsRevoked();
      return !revoked;
    }

    /** The error branch of Run, which every return of connectAndServe takes. */
    method Disconnected()
      requires Valid() && tunPc.CountReconnect? && mainPc.AwaitSignal?
      modifies this, machine, metrics, tokens
      ensures Valid() && tunPc.Backoff? && mainPc.AwaitSignal? && old(log) <= log
      ensures |future| <= |old(future)| && (old(cancelled) ==> cancelled)
    {
      var m := TunnelYield();
      CountTunnelReconnect();
      m := TunnelYield();
      StoreConnected(false);
      OfflineUnlessRevoked();
    }

    method OfflineUnlessRevoked()
      requires Valid() && tunPc.CheckRevoked? && mainPc.AwaitSignal?
      modifies this, machine, metrics, tokens
      ensures Valid() && tunPc.Backoff? && mainPc.AwaitSignal? && old(log) <= log
      ensures |future| <= |old(future)| && (old(cancelled) ==> cancelled)
    {
      var m := TunnelYield();
      var revoked := IsRevoked();
      if !revoked {
        m := TunnelYield();
        RequestState(Offline, "websocket disconnected");
      }
    }

    lemma TunnelFinished()
      requires Valid() && tunPc.TunnelDone?
      ensures machine.state in {Registered, Offline, Revoked}
      ensures !connected && metrics.tunnelConnected == 0 && metrics.tunnelReconnects == |dials|
      ensures forall r :: r in rejected ==> r.who == HeartbeatLoop
    {
      ViewIsExec();
      StateFollowsProgramPoint(cfg, log);
      GaugeAndLinkAlways(cfg, log);
      OnlyHeartbeatIsRefused(cfg, log);
    }

    lemma TunnelStarted()
      requires Valid() && !tunPc.TunnelNotStarted?
      ensures mainPc.AwaitSignal?
    {
      ViewIsExec();
      ShapeAlways(cfg, log);
    }

    /** internal/websocket/manager.go, connectAndServe.  Every way out is an error return, so the loop in
        Run always goes on to count a reconnect. */
    method ConnectAndServe()
      requires Valid() && tunPc.Dial? && mainPc.AwaitSignal?
      modifies this, machine, metrics, tokens
      ensures Valid() && tunPc.CountReconnect? && mainPc.AwaitSignal? && old(log) <= log
      ensures |future| <= |old(future)| && (old(cancelled) ==> cancelled)
      ensures |dials| == |old(dials)| + 1 && old(dials) <= dials && conns == old(conns) + (if old(NextMoment()).ok then 1 else 0)
      ensures if old(NextMoment()).ok then old(received) < received else received == old(received)
    {
      var m := TunnelYield();
      DialEndpoint(m.ok);
      if !m.ok {
        return;
      }
      Open();
      Serve();
      m := TunnelYield();
      SetTunnelGauge(false);
    }

    /** From the dial to the read loop. */
    method Open()
      requires Valid() && tunPc.StoreConn? && mainPc.AwaitSignal?
      modifies this, machine, metrics, tokens
      ensures Valid() && tunPc.Reading? && mainPc.AwaitSignal? && old(log) <= log
      ensures |future| <= |old(future)| && (old(cancelled) ==> cancelled)
      ensures Link() == old(Link())
    {
      var m := TunnelYield();
      StoreConnection();
      m := TunnelYield();
      StoreConnected(true);
      GoUp();
    }

    /** The request for ONLINE, then the gauge. */
    method GoUp()
      requires Valid() && tunPc.GoOnline? && mainPc.AwaitSignal?
      modifies this, machine, metrics, tokens
      ensures Valid() && tunPc.Reading? && mainPc.AwaitSignal? && old(log) <= log
      ensures |future| <= |old(future)| && (old(cancelled) ==> cancelled)
      ensures Link() == old(Link())
    {
      var m := TunnelYield();
      RequestState(Online, "websocket connected");
      m := TunnelYield();
      SetTunnelGauge(true);
    }

    /** The read loop, up to the deferred calls: it ends with the first failed read or revocation. */
    method Serve()
      requires Valid() && tunPc.Reading? && mainPc.AwaitSignal?
      modifies this, machine, metrics, tokens
      ensures Valid() && tunPc.GaugeDown? && mainPc.AwaitSignal? && old(log) <= log
      ensures |future| <= |old(future)| && (old(cancelled) ==> cancelled)
      ensures dials == old(dials) && conns == old(conns)
      ensures old(received) < received && Ends(received[|received| - 1])
      ensures forall i :: |old(received)| <= i < |received| - 1 ==> !Ends(received[i])
    {
      while true
        invariant Valid() && tunPc.Reading? && mainPc.AwaitSignal? && old(log) <= log
        invariant |future| <= |old(future)| && (old(cancelled) ==> cancelled)
        invariant dials == old(dials) && conns == old(conns) && old(received) <= received
        invariant forall i :: |old(received)| <= i < |received| ==> !Ends(received[i])
        decreases |future|
      {
        var goOn := ServeOne();
        if !goOn {
          break;
        }
      }
    }

    /** One turn of the read loop, with the envelope the environment offers. */
    method ServeOne() returns (goOn: bool)
      requires Valid() && tunPc.Reading? && mainPc.AwaitSignal?
      modifies this, machine, metrics, tokens
      ensures Valid() && mainPc.AwaitSignal? && old(log) <= log && if goOn then tunPc.Reading? else tunPc.GaugeDown?
      ensures |future| <= |old(future)| && (old(cancelled) ==> cancelled)
      ensures goOn ==> |future| < |old(future)|
      ensures goOn == !Ends(old(NextMoment()).envelope)
      ensures Link() == (old(dials), old(conns), old(received) + [old(NextMoment()).envelope])
    {
      var m := TunnelYield();
      Receive(m.envelope);
      goOn := true;
      match m.envelope {
        case ReadFailed => goOn := false;
        case CredentialRotation(rotation) => Rotate(rotation);
        case Revoke =>
          var _ := TunnelYield();
          RequestState(Revoked, "agent key revoked");
          goOn := false;
        case _ =>
      }
    }

    /** The two halves of a credential rotation. */
    method Rotate(rotation: Rotation)
      requires Valid() && tunPc == ApplyToken(rotation) && mainPc.AwaitSignal?
      modifies this, machine, metrics, tokens
      ensures Valid() && tunPc.Reading? && mainPc.AwaitSignal? && old(log) <= log
      ensures |future| <= |old(future)| && (old(cancelled) ==> cancelled)
      ensures Link() == old(Link())
    {
      var _ := TunnelYield();
      ApplyRotation(rotation);
      var _ := TunnelYield();
      UpdateEndpoint(rotation);
    }

    /** internal/heartbeat/heartbeat.go, once. */
    method Once()
      requires Valid() && heartPc.Collect?
      modifies this, machine, metrics, tokens
      ensures Valid() && heartPc.Wait? && old(log) <= log
      ensures |future| <= |old(future)| && (old(cancelled) ==> cancelled)
      ensures old(future) == [] ==> cancelled
      ensures old(future) != [] ==> |future| < |old(future)|
      ensures !old(NextMoment()).ok ==> Tally() == (old(Tally().0), old(Tally().1) + 1, old(reports))
      ensures old(NextMoment()).ok ==> |reports| == |old(reports)| + 1 && old(reports) <= reports
      ensures old(Tally().0) <= Tally().0 && old(Tally().1) <= Tally().1
      ensures Tally().0 + Tally().1 == old(Tally().0 + Tally().1) + 1
    {
      var m := HeartYield();
      var ok := m.ok;
      CollectHealth(ok);
      m := HeartYield();
      if !ok {
        RequestDegraded();
        return;
      }
      Report();
    }

    /** The second half of a heartbeat: observe the state, then post it. */
    method Report()
      requires Valid() && heartPc.Observe?
      modifies this, machine, metrics, tokens
      ensures Valid() && heartPc.Wait? && old(log) <= log
      ensures |future| <= |old(future)| && (old(cancelled) ==> cancelled)
      ensures |reports| == |old(reports)| + 1 && old(reports) <= reports
      ensures old(Tally().0) <= Tally().0 && old(Tally().1) <= Tally().1
      ensures Tally().0 + Tally().1 == old(Tally().0 + Tally().1) + 1
    {
      var observed := ObserveState();
      var m := HeartYield();
      PostHeartbeat(observed, m.ok);
    }

    /** internal/heartbeat/heartbeat.go, Run. */
    method HeartbeatRun()
      requires Valid() && heartPc.Collect?
      modifies this, machine, metrics, tokens
      ensures Valid() && heartPc.HeartDone? && old(log) <= log && cancelled
    {
      while true
        invariant Valid() && heartPc.Collect? && old(log) <= log
        decreases |future|
      {
        ghost var before := future;
        Once();
        var m := HeartYield();
        var done := AwaitTick(m.stop);
        if done {
          return;
        }
      }
    }

    /** internal/executor/executor.go, Execute. */
    method ExecuteCommand(i: nat)
      requires Valid() && i < |tasks| && tasks[i].pc.SendStatus?
      modifies this, machine, metrics, tokens
      ensures Valid() && i < |tasks| && tasks[i].pc.Finished? && tasks[i].req == old(tasks)[i].req && old(log) <= log
    {
      var m := CommandYield(i);
      SendRunning(i, m.outcome);
      m := CommandYield(i);
      var r := RunCommand(i, m.outcome);
      m := CommandYield(i);
      SendAnswer(i, r, m.outcome);
    }

    /** cmd/agent/main.go, run: registration, then the loops in the order they are started. */
    method Start(out: Option<Response>, capabilities: bool) returns (running: bool)
      requires Valid() && mainPc.InitGauge?
      modifies this, machine, metrics, tokens
      ensures Valid() && old(log) <= log
      ensures running <==> out.Some? && capabilities
      ensures running ==> mainPc.AwaitSignal? && inventoryRunning && [Registered] <= machine.notified
      ensures !running ==> mainPc.Exited? && !inventoryRunning && tunPc.TunnelNotStarted? && heartPc.HeartNotStarted?
    {
      var m := MainYield();
      WriteFirstGauge();
      running := BootRegistration(out, capabilities);
      if !running {
        NothingStarted();
        return;
      }
      m := MainYield();
      StartHeartbeat();
      m := MainYield();
      StartInventory();
      m := MainYield();
      StartTunnel();
      RegisteredFirst();
    }

    method BootRegistration(out: Option<Response>, capabilities: bool) returns (ok: bool)
      requires Valid() && mainPc.Register?
      modifies this, machine, metrics, tokens
      ensures Valid() && old(log) <= log && (ok <==> out.Some? && capabilities)
      ensures if ok then mainPc.SpawnHeartbeat? else mainPc.Exited?
    {
      var m := MainYield();
      RegisterReply(out);
      if out.None? {
        return false;
      }
      m := MainYield();
      MarkRegistered();
      m := MainYield();
      CapabilitiesReply(capabilities);
      return capabilities;
    }

    lemma NothingStarted()
      requires Valid() && mainPc.Exited?
      ensures tunPc.TunnelNotStarted? && heartPc.HeartNotStarted? && !inventoryRunning
    {
      ViewIsExec();
      ShapeAlways(cfg, log);
      InventoryAlways(cfg, log);
    }

    lemma RegisteredFirst()
      requires Valid() && mainPc.AwaitSignal?
      ensures [Registered] <= machine.notified && inventoryRunning
    {
      ViewIsExec();
      ShapeAlways(cfg, log);
      InventoryAlways(cfg, log);
      ReadIsFaithful(machine.notified);
      assert [Registered] <= Render(Read(machine.notified).value);
    }
  }
}
