/** The running agent as a step system.

    Four kinds of actors share the state machine, the token store and the connection cell: the boot
    sequence (cmd/agent/main.go), the tunnel loop (internal/websocket/manager.go), the heartbeat loop
    (internal/heartbeat/heartbeat.go) and one goroutine per received command
    (internal/executor/executor.go).  Each operation made under a lock, and each atomic load or store,
    is one step; steps of different actors interleave in any order.  Dialling, reading, health
    collection and posting have outcomes chosen by the environment, carried in the action.
 */
module Lifecycle {
  import opened Options
  import opened States
  import opened Registration
  import Commands

  datatype Actor = Boot | TunnelLoop | HeartbeatLoop

  datatype Rejection = Rejection(who: Actor, from: AgentState, to: AgentState)

  /** The shared machine, its gauge family, and two histories: notifications and refused requests. */
  datatype Life = Life(state: AgentState, gauges: map<string, int>, trace: seq<AgentState>, rejected: seq<Rejection>)

  function Request(l: Life, who: Actor, next: AgentState): Life {
    if l.state == next then l
    else if next !in Allowed(l.state) then l.(rejected := l.rejected + [Rejection(who, l.state, next)])
    else l.(state := next, gauges := l.gauges + OneHot(Label(next)), trace := l.trace + [next])
  }

  datatype MainPc =
    | InitGauge | Register | RequestRegistered | PostCapabilities
    | SpawnHeartbeat | SpawnInventory | SpawnTunnel | AwaitSignal | Exited

  datatype MainInput = Proceed | RegisterOk(response: Response) | RegisterFailed | CapabilitiesOk | CapabilitiesFailed

  datatype Envelope =
    | ReadFailed
    | Command(req: Commands.Request)
    | BadCommand
    | CredentialRotation(rotation: Rotation)
    | BadRotation
    | Revoke
    | Unknown

  datatype TunnelPc =
    | TunnelNotStarted
    | LoopHead | CheckState | Connect | Dial
    | StoreConn | MarkConnected | GoOnline | GaugeUp
    | Reading | ApplyToken(pending: Rotation) | ApplyEndpoint(pending: Rotation) | Revoking
    | GaugeDown | CountReconnect | MarkDisconnected | CheckRevoked | GoOffline | Backoff
    | TunnelDone

  datatype TunnelInput = Go | DialOk | DialFailed | Incoming(envelope: Envelope) | TimerFired | CtxDone

  datatype DialRecord = DialRecord(address: string, bearer: string, clusterId: string)

  /** `conns` counts successful dials, so the newest connection is number `conns - 1`. */
  datatype Tunnel = Tunnel(
    pc: TunnelPc, reg: Response, token: string,
    connected: bool, gauge: int, reconnects: nat,
    conns: nat, conn: Option<nat>, dials: seq<DialRecord>, received: seq<Envelope>)

  datatype HeartPc = HeartNotStarted | Collect | Degrade | Observe | Post(reported: AgentState) | Wait | HeartDone

  datatype HeartInput = Beat | HealthOk | HealthFailed | PostOk | PostFailed | Tick | Stop

  /** `uncollected` counts the rounds that ended before a report, for lack of health data. */
  datatype Heart = Heart(pc: HeartPc, sent: nat, failed: nat, reports: seq<AgentState>, uncollected: nat)

  datatype TaskPc = SendStatus | Execute | SendResult(response: Commands.Response) | Finished(response: Commands.Response)

  datatype Task = Task(req: Commands.Request, from: nat, pc: TaskPc)

  datatype Body = Status(requestId: string, clusterId: string) | Result(response: Commands.Response)

  /** One call of Send: by which command goroutine, on which stored connection, with what. */
  datatype Message = Message(task: nat, conn: Option<nat>, body: Body)

  datatype Crew = Crew(tasks: seq<Task>, messages: seq<Message>, commands: nat, commandFailures: nat)

  datatype Sys = Sys(cfg: Config, main: MainPc, cancelled: bool, response: Response,
                     life: Life, tun: Tunnel, heart: Heart, crew: Crew, inventory: bool)

  datatype Action =
    | Cancel
    | Main(main: MainInput)
    | TunnelStep(tunnel: TunnelInput)
    | HeartStep(heart: HeartInput)
    | Work(task: nat, outcome: Commands.Outcome)

  const NO_RESPONSE := Response("", "", "", "")

  /** The agent after NewMetrics and state.New, before the first gauge is written. */
  function Init(cfg: Config): Sys {
    Sys(cfg, InitGauge, false, NO_RESPONSE,
        Life(PendingKey, map[], [], []),
        Tunnel(TunnelNotStarted, NO_RESPONSE, "", false, 0, 0, 0, None, [], []),
        Heart(HeartNotStarted, 0, 0, [], 0),
        Crew([], [], 0, 0), false)
  }

  predicate Enabled(s: Sys, a: Action) {
    match a
    case Cancel => true
    case Main(input) => MainEnabled(s, input)
    case TunnelStep(input) => TunnelEnabled(s, input)
    case HeartStep(input) => HeartEnabled(s, input)
    case Work(i, _) => i < |s.crew.tasks| && !s.crew.tasks[i].pc.Finished?
  }

  predicate MainEnabled(s: Sys, input: MainInput) {
    MainReady(s.main, input)
  }

  predicate TunnelEnabled(s: Sys, input: TunnelInput) {
    TunnelReady(s.tun.pc, s.cancelled, input)
  }

  predicate HeartEnabled(s: Sys, input: HeartInput) {
    HeartReady(s.heart.pc, s.cancelled, input)
  }

  predicate MainReady(pc: MainPc, input: MainInput) {
    match pc
    case Register => input.RegisterOk? || input.RegisterFailed?
    case PostCapabilities => input.CapabilitiesOk? || input.CapabilitiesFailed?
    case AwaitSignal => false
    case Exited => false
    case _ => input.Proceed?
  }

  predicate TunnelReady(pc: TunnelPc, cancelled: bool, input: TunnelInput) {
    match pc
    case TunnelNotStarted => false
    case TunnelDone => false
    case Dial => input.DialOk? || input.DialFailed?
    case Reading => input.Incoming?
    case Backoff => input.TimerFired? || (input.CtxDone? && cancelled)
    case _ => input.Go?
  }

  predicate HeartReady(pc: HeartPc, cancelled: bool, input: HeartInput) {
    match pc
    case HeartNotStarted => false
    case HeartDone => false
    case Collect => input.HealthOk? || input.HealthFailed?
    case Post(_) => input.PostOk? || input.PostFailed?
    case Wait => input.Tick? || (input.Stop? && cancelled)
    case _ => input.Beat?
  }

  function DoMain(s: Sys, input: MainInput): Sys
    requires MainEnabled(s, input)
  {
    match s.main
    case InitGauge =>
      s.(life := s.life.(gauges := s.life.gauges + OneHot(Label(s.life.state))), main := Register)
    case Register =>
      (match input
       case RegisterOk(out) =>
         var r := Completed(out);
         s.(response := r, tun := s.tun.(reg := r, token := out.jwt), main := RequestRegistered)
       case _ => s.(main := Exited))
    case RequestRegistered =>
      s.(life := Request(s.life, Boot, Registered), main := PostCapabilities)
    case PostCapabilities =>
      s.(main := if input.CapabilitiesOk? then SpawnHeartbeat else Exited)
    case SpawnHeartbeat =>
      s.(heart := s.heart.(pc := Collect), main := SpawnInventory)
    case SpawnInventory =>
      s.(inventory := true, main := SpawnTunnel)
    case SpawnTunnel =>
      s.(tun := s.tun.(pc := LoopHead), main := AwaitSignal)
  }

  /** The program points at which the tunnel loop asks the machine for a state. */
  predicate Requesting(pc: TunnelPc) {
    pc.Connect? || pc.GoOnline? || pc.Revoking? || pc.GoOffline?
  }

  function Requested(pc: TunnelPc): AgentState
    requires Requesting(pc)
  {
    match pc
    case Connect => Connecting
    case GoOnline => Online
    case Revoking => Revoked
    case GoOffline => Offline
  }

  function Newest(t: Tunnel): nat {
    if t.conns == 0 then 0 else t.conns - 1
  }

  /** Where the read of one envelope leads connectAndServe. */
  function AfterRead(e: Envelope): TunnelPc {
    match e
    case ReadFailed => GaugeDown
    case CredentialRotation(rotation) => ApplyToken(rotation)
    case Revoke => Revoking
    case _ => Reading
  }

  /** A well-formed command starts a goroutine. */
  function Heard(c: Crew, t: Tunnel, input: TunnelInput): Crew {
    if t.pc.Reading? && input.Incoming? && input.envelope.Command? then
      c.(tasks := c.tasks + [Task(input.envelope.req, Newest(t), SendStatus)])
    else c
  }

  /** The tunnel loop's own variables after its next operation, which may look at the machine's state. */
  function MoveTunnel(t: Tunnel, cfg: Config, state: AgentState, cancelled: bool, input: TunnelInput): Tunnel
    requires TunnelReady(t.pc, cancelled, input)
  {
    match t.pc
    case LoopHead => t.(pc := if cancelled then TunnelDone else CheckState)
    case CheckState => t.(pc := if state == Revoked then TunnelDone else Connect)
    case Connect => t.(pc := Dial)
    case Dial =>
      var d := DialRecord(DialAddress(cfg, t.reg), t.token, t.reg.clusterId);
      if input.DialOk? then t.(dials := t.dials + [d], conns := t.conns + 1, pc := StoreConn)
      else t.(dials := t.dials + [d], pc := CountReconnect)
    case StoreConn => t.(conn := Some(Newest(t)), pc := MarkConnected)
    case MarkConnected => t.(connected := true, pc := GoOnline)
    case GoOnline => t.(pc := GaugeUp)
    case GaugeUp => t.(gauge := 1, pc := Reading)
    case Reading => t.(received := t.received + [input.envelope], pc := AfterRead(input.envelope))
    case ApplyToken(r) => t.(token := if r.jwt != "" then r.jwt else t.token, pc := ApplyEndpoint(r))
    case ApplyEndpoint(r) => t.(reg := Rotated(t.reg, r), pc := Reading)
    case Revoking => t.(pc := GaugeDown)
    case GaugeDown => t.(gauge := 0, pc := CountReconnect)
    case CountReconnect => t.(reconnects := t.reconnects + 1, pc := MarkDisconnected)
    case MarkDisconnected => t.(connected := false, pc := CheckRevoked)
    case CheckRevoked => t.(pc := if state != Revoked then GoOffline else Backoff)
    case GoOffline => t.(pc := Backoff)
    case Backoff => t.(pc := if input.CtxDone? then TunnelDone else LoopHead)
  }

  function DoTunnel(s: Sys, input: TunnelInput): Sys
    requires TunnelEnabled(s, input)
  {
    var life := if Requesting(s.tun.pc) then Request(s.life, TunnelLoop, Requested(s.tun.pc)) else s.life;
    s.(life := life, tun := MoveTunnel(s.tun, s.cfg, s.life.state, s.cancelled, input), crew := Heard(s.crew, s.tun, input))
  }

  function DoHeart(s: Sys, input: HeartInput): Sys
    requires HeartEnabled(s, input)
  {
    var h := s.heart;
    match h.pc
    case Collect =>
      if input.HealthOk? then s.(heart := h.(pc := Observe))
      else s.(heart := h.(failed := h.failed + 1, uncollected := h.uncollected + 1, pc := Degrade))
    case Degrade => s.(life := Request(s.life, HeartbeatLoop, Degraded), heart := h.(pc := Wait))
    case Observe => s.(heart := h.(pc := Post(s.life.state)))
    case Post(reported) =>
      var posted := h.(reports := h.reports + [reported], pc := Wait);
      if input.PostOk? then s.(heart := posted.(sent := h.sent + 1))
      else s.(heart := posted.(failed := h.failed + 1))
    case Wait => s.(heart := h.(pc := if input.Stop? then HeartDone else Collect))
  }

  /** A command goroutine: status, execution and counter, result.  Send uses whatever connection is
      stored when it runs. */
  function DoWork(s: Sys, i: nat, outcome: Commands.Outcome): Sys
    requires i < |s.crew.tasks| && !s.crew.tasks[i].pc.Finished?
  {
    var c := s.crew;
    var task := c.tasks[i];
    match task.pc
    case SendStatus =>
      s.(crew := c.(messages := c.messages + [Message(i, s.tun.conn, Status(task.req.requestId, s.response.clusterId))],
                    tasks := c.tasks[i := task.(pc := Execute)]))
    case Execute =>
      var r := Commands.Execute(s.response.clusterId, task.req, outcome);
      var c' := c.(tasks := c.tasks[i := task.(pc := SendResult(r))]);
      if r.status == "failed" then s.(crew := c'.(commandFailures := c.commandFailures + 1))
      else s.(crew := c'.(commands := c.commands + 1))
    case SendResult(r) =>
      s.(crew := c.(messages := c.messages + [Message(i, s.tun.conn, Result(r))],
                    tasks := c.tasks[i := task.(pc := Finished(r))]))
  }

  /** An action that is not enabled is skipped, so every sequence of actions is a schedule. */
  function Step(s: Sys, a: Action): Sys {
    if !Enabled(s, a) then s
    else match a
      case Cancel => s.(cancelled := true)
      case Main(input) => DoMain(s, input)
      case TunnelStep(input) => DoTunnel(s, input)
      case HeartStep(input) => DoHeart(s, input)
      case Work(i, outcome) => DoWork(s, i, outcome)
  }

  /** The action is possible and its result is `s'`.  The quantifier keeps Step's cases out of proofs that
      only pass the fact along; naming Taken brings them in. */
  ghost predicate Leads(s: Sys, a: Action, s': Sys) {
    forall b {:trigger Taken(b)} :: b == a ==> Enabled(s, b) && s' == Step(s, b)
  }

  predicate Taken(b: Action) {
    true
  }

  lemma StepLeads(s: Sys, a: Action)
    requires Enabled(s, a)
    ensures Leads(s, a, Step(s, a))
  {
    forall b {:trigger Taken(b)} | b == a
      ensures Enabled(s, b) && Step(s, a) == Step(s, b)
    {
    }
  }

  // ---- Some steps, as plain updates ----

  lemma RegisterLeads(s: Sys, out: Response, r: Response)
    requires s.main.Register? && r == Completed(out)
    ensures Leads(s, Main(RegisterOk(out)), s.(response := r, tun := s.tun.(reg := r, token := out.jwt), main := RequestRegistered))
  {
    StepLeads(s, Main(RegisterOk(out)));
  }

  lemma DialLeads(s: Sys)
    requires s.tun.pc.Dial?
    ensures var d := DialRecord(DialAddress(s.cfg, s.tun.reg), s.tun.token, s.tun.reg.clusterId);
      Leads(s, TunnelStep(DialOk), s.(tun := s.tun.(dials := s.tun.dials + [d], conns := s.tun.conns + 1, pc := StoreConn)))
  {
    StepLeads(s, TunnelStep(DialOk));
  }

  lemma ReadLeads(s: Sys, e: Envelope)
    requires s.tun.pc.Reading?
    ensures var t := s.tun.(received := s.tun.received + [e], pc := AfterRead(e));
      Leads(s, TunnelStep(Incoming(e)), s.(tun := t, crew := Heard(s.crew, s.tun, Incoming(e))))
  {
    StepLeads(s, TunnelStep(Incoming(e)));
  }

  lemma RotateLeads(s: Sys, r: Rotation)
    requires s.tun.pc == ApplyEndpoint(r)
    ensures Leads(s, TunnelStep(Go), s.(tun := s.tun.(reg := Rotated(s.tun.reg, r), pc := Reading)))
  {
    StepLeads(s, TunnelStep(Go));
  }

  lemma RunLeads(s: Sys, i: nat, outcome: Commands.Outcome, r: Commands.Response)
    requires i < |s.crew.tasks| && s.crew.tasks[i].pc.Execute?
    requires r == Commands.Execute(s.response.clusterId, s.crew.tasks[i].req, outcome)
    ensures var c := s.crew.(tasks := s.crew.tasks[i := s.crew.tasks[i].(pc := SendResult(r))]);
      Leads(s, Work(i, outcome), s.(crew := if r.status == "failed" then c.(commandFailures := c.commandFailures + 1)
                                           else c.(commands := c.commands + 1)))
  {
    StepLeads(s, Work(i, outcome));
  }

  lemma PostLeads(s: Sys, ok: bool)
    requires s.heart.pc.Post?
    ensures var h := s.heart.(reports := s.heart.reports + [s.heart.pc.reported], pc := Wait);
      Leads(s, HeartStep(if ok then PostOk else PostFailed),
            s.(heart := if ok then h.(sent := h.sent + 1) else h.(failed := h.failed + 1)))
  {
    StepLeads(s, HeartStep(if ok then PostOk else PostFailed));
  }

  function Exec(cfg: Config, schedule: seq<Action>): Sys {
    if schedule == [] then Init(cfg)
    else Step(Exec(cfg, schedule[..|schedule| - 1]), schedule[|schedule| - 1])
  }

  lemma ExecSnoc(cfg: Config, schedule: seq<Action>, a: Action)
    ensures Exec(cfg, schedule + [a]) == Step(Exec(cfg, schedule), a)
  {
    assert (schedule + [a])[..|schedule|] == schedule;
  }

  /** The same run, continued from a state. */
  function ExecFrom(s: Sys, schedule: seq<Action>): Sys
    decreases |schedule|
  {
    if schedule == [] then s
    else ExecFrom(Step(s, schedule[0]), schedule[1..])
  }

  lemma {:induction false} ExecAppend(cfg: Config, done: seq<Action>, more: seq<Action>)
    ensures Exec(cfg, done + more) == ExecFrom(Exec(cfg, done), more)
    decreases |more|
  {
    if more == [] {
      assert done + more == done;
    } else {
      ExecSnoc(cfg, done, more[0]);
      ExecAppend(cfg, done + [more[0]], more[1..]);
      assert done + more == (done + [more[0]]) + more[1..];
    }
  }

  lemma {:induction false} ExecFromAppend(s: Sys, a: seq<Action>, b: seq<Action>)
    ensures ExecFrom(s, a + b) == ExecFrom(ExecFrom(s, a), b)
    decreases |a|
  {
    if a == [] {
      assert a + b == b;
    } else {
      assert (a + b)[1..] == a[1..] + b;
      ExecFromAppend(Step(s, a[0]), a[1..], b);
    }
  }
}
