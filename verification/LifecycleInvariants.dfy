/** Where each actor can be while the machine is in each state, for every schedule. */
module LifecycleInvariants {
  import opened Options
  import opened States
  import opened Registration
  import opened Lifecycle
  import opened TraceLanguage

  // ---- The machine, its trace and the program points ----

  predicate Booting(pc: MainPc) {
    pc.InitGauge? || pc.Register? || pc.RequestRegistered?
  }

  /** The part of a round each program point of the tunnel loop lies in. */
  predicate TunnelAt(pc: TunnelPc, open: Open, roundsDone: bool) {
    match pc
    case TunnelNotStarted => false
    case LoopHead => open.Idle? || open.Dead?
    case CheckState => open.Idle? || open.Dead?
    case Connect => open.Idle?
    case Dial => open.Dialling?
    case StoreConn => open.Dialling?
    case MarkConnected => open.Dialling?
    case GoOnline => open.Dialling?
    case GaugeUp => open.Up?
    case Reading => open.Up?
    case ApplyToken(_) => open.Up?
    case ApplyEndpoint(_) => open.Up?
    case Revoking => open.Up?
    case GaugeDown => open.Up? || open.Dead?
    case CountReconnect => open.Dialling? || open.Up? || open.Dead?
    case MarkDisconnected => open.Dialling? || open.Up? || open.Dead?
    case CheckRevoked => open.Dialling? || open.Up? || open.Dead?
    case GoOffline => open.Dialling? || open.Up?
    case Backoff => (open.Idle? && roundsDone) || open.Dead?
    case TunnelDone => open.Idle? || open.Dead?
  }

  predicate Phase(main: MainPc, tun: TunnelPc, heart: HeartPc, shape: Shape) {
    && (main.AwaitSignal? <==> !tun.TunnelNotStarted?)
    && (main.AwaitSignal? || main.SpawnTunnel? || main.SpawnInventory? <==> !heart.HeartNotStarted?)
    && (Booting(main) ==> shape.open.Unregistered?)
    && (main.PostCapabilities? || main.SpawnHeartbeat? || main.SpawnInventory? || main.SpawnTunnel? ==> shape == Shape([], Idle))
    && (main.Exited? ==> shape == Shape([], Idle) || shape == Shape([], Unregistered))
    && (main.AwaitSignal? ==> TunnelAt(tun, shape.open, shape.rounds != []))
  }

  ghost predicate ShapeInv(s: Sys) {
    && Read(s.life.trace).Some?
    && (var shape := Read(s.life.trace).value;
        && s.life.state == Ending(shape)
        && (shape.open.Unregistered? ==> shape.rounds == [])
        && Phase(s.main, s.tun.pc, s.heart.pc, shape))
  }

  /** A step either leaves the list of refused requests alone, or it is the heartbeat's DEGRADED request. */
  ghost predicate RefusesOnlyHeartbeat(s: Sys, a: Action) {
    var l, l' := s.life, Step(s, a).life;
    || l'.rejected == l.rejected
    || (a == HeartStep(Beat) && s.heart.pc.Degrade? && l.state in {Registered, Offline, Revoked}
        && l'.rejected == l.rejected + [Rejection(HeartbeatLoop, l.state, Degraded)])
  }

  /** A request for a new state that the reader understands is granted. */
  lemma GrantedRequest(l: Life, who: Actor, next: AgentState)
    requires Read(l.trace).Some?
    requires Ending(Read(l.trace).value) == l.state
    requires l.state != next && next in Allowed(l.state)
    requires Advance(Read(l.trace).value, next).Some?
    ensures Request(l, who, next) == l.(state := next, gauges := l.gauges + OneHot(Label(next)), trace := l.trace + [next])
    ensures Read(Request(l, who, next).trace) == Advance(Read(l.trace).value, next)
    ensures Ending(Advance(Read(l.trace).value, next).value) == next
  {
    ReadSnoc(l.trace, next);
  }

  lemma ShapeMain(s: Sys, input: MainInput)
    requires ShapeInv(s) && MainEnabled(s, input)
    ensures ShapeInv(DoMain(s, input)) && DoMain(s, input).life.rejected == s.life.rejected
  {
    if s.main.RequestRegistered? {
      GrantedRequest(s.life, Boot, Registered);
    }
  }

  lemma RequestingStep(s: Sys, input: TunnelInput)
    requires TunnelEnabled(s, input) && Requesting(s.tun.pc)
    ensures var s' := DoTunnel(s, input);
      && s'.life == Request(s.life, TunnelLoop, Requested(s.tun.pc)) && s'.main == s.main && s'.heart == s.heart
      && s'.tun.pc == match s.tun.pc { case Connect => Dial case GoOnline => GaugeUp case Revoking => GaugeDown case _ => Backoff }
  {
  }

  lemma ShapeTunnelRequest(s: Sys, input: TunnelInput)
    requires ShapeInv(s) && TunnelEnabled(s, input) && Requesting(s.tun.pc)
    ensures ShapeInv(DoTunnel(s, input)) && DoTunnel(s, input).life.rejected == s.life.rejected
  {
    RequestingStep(s, input);
    var shape := Read(s.life.trace).value;
    assert TunnelAt(s.tun.pc, shape.open, shape.rounds != []);
    assert s.life.state == Ending(shape);
    GrantedRequest(s.life, TunnelLoop, Requested(s.tun.pc));
  }

  /** The other tunnel steps leave the machine alone. */
  lemma QuietTunnel(s: Sys, input: TunnelInput)
    requires TunnelEnabled(s, input) && !Requesting(s.tun.pc)
    ensures DoTunnel(s, input).life == s.life && DoTunnel(s, input).main == s.main && DoTunnel(s, input).heart == s.heart
    ensures DoTunnel(s, input).tun == MoveTunnel(s.tun, s.cfg, s.life.state, s.cancelled, input)
  {
  }

  /** They stay within the part of the round that the program point allows. */
  lemma TunnelMovesOn(t: Tunnel, cfg: Config, cancelled: bool, input: TunnelInput, shape: Shape)
    requires TunnelReady(t.pc, cancelled, input) && !Requesting(t.pc)
    requires TunnelAt(t.pc, shape.open, shape.rounds != [])
    ensures TunnelAt(MoveTunnel(t, cfg, Ending(shape), cancelled, input).pc, shape.open, shape.rounds != [])
  {
  }

  lemma ShapeTunnelQuiet(s: Sys, input: TunnelInput)
    requires ShapeInv(s) && TunnelEnabled(s, input) && !Requesting(s.tun.pc)
    ensures ShapeInv(DoTunnel(s, input)) && DoTunnel(s, input).life.rejected == s.life.rejected
  {
    QuietTunnel(s, input);
    TunnelMovesOn(s.tun, s.cfg, s.cancelled, input, Read(s.life.trace).value);
  }

  lemma QuietHeart(s: Sys, input: HeartInput)
    requires HeartEnabled(s, input) && !s.heart.pc.Degrade?
    ensures var s' := DoHeart(s, input);
      s'.life == s.life && s'.tun == s.tun && s'.main == s.main && !s'.heart.pc.HeartNotStarted?
  {
  }

  /** The heartbeat's request: granted while connecting or online, pointless when degraded, else refused. */
  lemma DegradeRequest(s: Sys)
    requires ShapeInv(s) && s.heart.pc.Degrade?
    ensures var l := Request(s.life, HeartbeatLoop, Degraded);
      ShapeInv(s.(life := l, heart := s.heart.(pc := Wait)))
      && (l.rejected == s.life.rejected ||
          (s.life.state in {Registered, Offline, Revoked} && l.rejected == s.life.rejected + [Rejection(HeartbeatLoop, s.life.state, Degraded)]))
  {
    if s.life.state in {Connecting, Online} {
      GrantedRequest(s.life, HeartbeatLoop, Degraded);
    }
  }

  lemma ShapeHeart(s: Sys, input: HeartInput)
    requires ShapeInv(s) && HeartEnabled(s, input)
    ensures ShapeInv(DoHeart(s, input)) && RefusesOnlyHeartbeat(s, HeartStep(input))
  {
    if s.heart.pc.Degrade? {
      DegradeRequest(s);
    } else {
      QuietHeart(s, input);
    }
  }

  lemma ShapeTunnel(s: Sys, input: TunnelInput)
    requires ShapeInv(s) && TunnelEnabled(s, input)
    ensures ShapeInv(DoTunnel(s, input)) && DoTunnel(s, input).life.rejected == s.life.rejected
  {
    if Requesting(s.tun.pc) {
      ShapeTunnelRequest(s, input);
    } else {
      ShapeTunnelQuiet(s, input);
    }
  }

  lemma ShapeStep(s: Sys, a: Action)
    requires ShapeInv(s)
    ensures ShapeInv(Step(s, a)) && RefusesOnlyHeartbeat(s, a)
  {
    if Enabled(s, a) {
      match a
      case Main(input) => ShapeMain(s, input);
      case TunnelStep(input) => ShapeTunnel(s, input);
      case HeartStep(input) => ShapeHeart(s, input);
      case _ => TunnelFrame(s, a);
    }
  }

  lemma {:induction false} ShapeAlways(cfg: Config, schedule: seq<Action>)
    ensures ShapeInv(Exec(cfg, schedule))
  {
    if schedule != [] {
      var n := |schedule| - 1;
      ShapeAlways(cfg, schedule[..n]);
      ShapeStep(Exec(cfg, schedule[..n]), schedule[n]);
    }
  }

  // ---- Main results ----

  /** In every interleaving, the only requests ever refused are the heartbeat's requests for DEGRADED,
      made while the machine is REGISTERED, OFFLINE or REVOKED.  Every result discarded by boot and by
      the tunnel loop was a success. */
  lemma {:induction false} OnlyHeartbeatIsRefused(cfg: Config, schedule: seq<Action>)
    ensures forall r :: r in Exec(cfg, schedule).life.rejected ==>
      r.who == HeartbeatLoop && r.to == Degraded && r.from in {Registered, Offline, Revoked}
  {
    if schedule != [] {
      var n := |schedule| - 1;
      OnlyHeartbeatIsRefused(cfg, schedule[..n]);
      ShapeAlways(cfg, schedule[..n]);
      ShapeStep(Exec(cfg, schedule[..n]), schedule[n]);
    }
  }

  /** At its DEGRADED request the heartbeat is refused exactly in those three states; otherwise the
      machine is DEGRADED afterwards. */
  lemma HeartbeatRefusedExactly(cfg: Config, schedule: seq<Action>)
    requires Exec(cfg, schedule).heart.pc.Degrade?
    ensures var s := Exec(cfg, schedule);
      var s' := Exec(cfg, schedule + [HeartStep(Beat)]);
      && (s'.life.rejected != s.life.rejected <==> s.life.state in {Registered, Offline, Revoked})
      && (s'.life.state == Degraded <==> s.life.state !in {Registered, Offline, Revoked})
      && (s'.life.state != Degraded ==> s'.life.state == s.life.state)
  {
    ExecSnoc(cfg, schedule, HeartStep(Beat));
    ShapeAlways(cfg, schedule);
    RefusalExactly(Exec(cfg, schedule));
  }

  lemma RefusalExactly(s: Sys)
    requires ShapeInv(s) && s.heart.pc.Degrade?
    ensures var l := DoHeart(s, Beat).life;
      && (l.rejected != s.life.rejected <==> s.life.state in {Registered, Offline, Revoked})
      && l.state == if s.life.state in {Registered, Offline, Revoked} then s.life.state else Degraded
  {
    assert s.life.state != PendingKey;
  }

  /** The heartbeat changes the state only from CONNECTING or ONLINE to DEGRADED: a success never
      restores ONLINE. */
  lemma HeartbeatOnlyDegrades(cfg: Config, schedule: seq<Action>, input: HeartInput)
    ensures var before, after := Exec(cfg, schedule).life.state, Exec(cfg, schedule + [HeartStep(input)]).life.state;
      after == before || (before in {Connecting, Online} && after == Degraded && input == Beat)
  {
    ExecSnoc(cfg, schedule, HeartStep(input));
    ShapeAlways(cfg, schedule);
  }

  /** DEGRADED becomes ONLINE again only by the tunnel loop's request after a new connection. */
  lemma OnlyReconnectRestores(cfg: Config, schedule: seq<Action>, a: Action)
    requires Exec(cfg, schedule).life.state == Degraded && Exec(cfg, schedule + [a]).life.state == Online
    ensures a == TunnelStep(Go) && Exec(cfg, schedule).tun.pc.GoOnline? && Exec(cfg, schedule).tun.connected
  {
    ExecSnoc(cfg, schedule, a);
    GaugeAndLinkAlways(cfg, schedule);
    OnlineComesFrom(Exec(cfg, schedule), a);
  }

  lemma OnlineComesFrom(s: Sys, a: Action)
    requires s.life.state == Degraded && Step(s, a).life.state == Online
    ensures a == TunnelStep(Go) && s.tun.pc.GoOnline?
  {
  }

  /** The inventory loop is started after the heartbeat and before the tunnel. */
  lemma {:induction false} InventoryAlways(cfg: Config, schedule: seq<Action>)
    ensures var s := Exec(cfg, schedule); s.inventory <==> s.main.SpawnTunnel? || s.main.AwaitSignal?
  {
    if schedule != [] {
      InventoryAlways(cfg, schedule[..|schedule| - 1]);
    }
  }

  /** The states the machine can be in at each program point of the tunnel loop. */
  function StatesAt(pc: TunnelPc): set<AgentState> {
    match pc
    case TunnelNotStarted => {PendingKey, Registered}
    case LoopHead => {Registered, Offline, Revoked}
    case CheckState => {Registered, Offline, Revoked}
    case Connect => {Registered, Offline}
    case Dial => {Connecting, Degraded}
    case StoreConn => {Connecting, Degraded}
    case MarkConnected => {Connecting, Degraded}
    case GoOnline => {Connecting, Degraded}
    case GaugeUp => {Online, Degraded}
    case Reading => {Online, Degraded}
    case ApplyToken(_) => {Online, Degraded}
    case ApplyEndpoint(_) => {Online, Degraded}
    case Revoking => {Online, Degraded}
    case GaugeDown => {Online, Degraded, Revoked}
    case CountReconnect => {Connecting, Online, Degraded, Revoked}
    case MarkDisconnected => {Connecting, Online, Degraded, Revoked}
    case CheckRevoked => {Connecting, Online, Degraded, Revoked}
    case GoOffline => {Connecting, Online, Degraded}
    case Backoff => {Offline, Revoked}
    case TunnelDone => {Registered, Offline, Revoked}
  }

  lemma StateFollowsProgramPoint(cfg: Config, schedule: seq<Action>)
    ensures Exec(cfg, schedule).life.state in StatesAt(Exec(cfg, schedule).tun.pc)
  {
    var s := Exec(cfg, schedule);
    ShapeAlways(cfg, schedule);
    var shape := Read(s.life.trace).value;
    assert s.main.AwaitSignal? ==> TunnelAt(s.tun.pc, shape.open, shape.rounds != []);
  }

  /** Every run's notification trace lies in the language. */
  lemma TraceInLanguage(cfg: Config, schedule: seq<Action>)
    ensures InLanguage(Exec(cfg, schedule).life.trace)
  {
    ShapeAlways(cfg, schedule);
    ReadableIsInLanguage(Exec(cfg, schedule).life.trace);
  }

  // ---- Gauges, the connected flag and the counters ----

  ghost predicate GaugeInv(s: Sys) {
    if s.main.InitGauge? then s.life.gauges == map[] && s.life.state == PendingKey
    else s.life.gauges == OneHot(Label(s.life.state))
  }

  predicate Attempting(pc: TunnelPc) {
    Serving(pc) || pc.StoreConn? || pc.MarkConnected? || pc.GoOnline? || pc.GaugeUp? || pc.CountReconnect?
  }

  /** Between the gauge going up and the gauge coming down. */
  predicate Serving(pc: TunnelPc) {
    pc.Reading? || pc.ApplyToken? || pc.ApplyEndpoint? || pc.Revoking? || pc.GaugeDown?
  }

  predicate Linked(pc: TunnelPc) {
    pc.GoOnline? || pc.GaugeUp? || Serving(pc)
  }

  predicate FlagsOk(t: Tunnel) {
    && t.gauge == (if Serving(t.pc) then 1 else 0)
    && (t.connected ==> Linked(t.pc) || t.pc.CountReconnect? || t.pc.MarkDisconnected?)
    && (Linked(t.pc) ==> t.connected)
  }

  predicate DialsOk(t: Tunnel) {
    && |t.dials| == t.reconnects + (if Attempting(t.pc) then 1 else 0)
    && t.conns <= |t.dials|
  }

  /** The stored connection is the newest one, except between its creation and its store. */
  predicate ConnOk(t: Tunnel) {
    && (t.pc.StoreConn? || t.pc.MarkConnected? || Linked(t.pc) ==> t.conns > 0)
    && (!t.pc.StoreConn? ==> t.conn == if t.conns == 0 then None else Some(t.conns - 1))
    && (t.pc.StoreConn? ==> t.conn == if t.conns == 1 then None else Some(t.conns - 2))
  }

  ghost predicate LinkInv(s: Sys) {
    FlagsOk(s.tun) && DialsOk(s.tun) && ConnOk(s.tun)
  }

  /** Steps of the heartbeat, of commands and of the signal handler leave the tunnel's record alone. */
  lemma TunnelFrame(s: Sys, a: Action)
    requires !a.TunnelStep? && !a.Main?
    ensures Step(s, a).tun == s.tun && Step(s, a).response == s.response && Step(s, a).main == s.main && Step(s, a).cfg == s.cfg
    ensures !a.HeartStep? ==> Step(s, a).life == s.life && Step(s, a).heart == s.heart
  {
  }

  lemma FlagsTunnel(t: Tunnel, cfg: Config, state: AgentState, cancelled: bool, input: TunnelInput)
    requires FlagsOk(t) && TunnelReady(t.pc, cancelled, input)
    ensures FlagsOk(MoveTunnel(t, cfg, state, cancelled, input))
  {
  }

  lemma DialsTunnel(t: Tunnel, cfg: Config, state: AgentState, cancelled: bool, input: TunnelInput)
    requires DialsOk(t) && TunnelReady(t.pc, cancelled, input)
    ensures DialsOk(MoveTunnel(t, cfg, state, cancelled, input))
  {
  }

  lemma ConnTunnel(t: Tunnel, cfg: Config, state: AgentState, cancelled: bool, input: TunnelInput)
    requires ConnOk(t) && TunnelReady(t.pc, cancelled, input)
    ensures ConnOk(MoveTunnel(t, cfg, state, cancelled, input))
  {
  }

  lemma LinkTunnel(s: Sys, input: TunnelInput)
    requires LinkInv(s) && TunnelEnabled(s, input)
    ensures LinkInv(DoTunnel(s, input))
  {
    FlagsTunnel(s.tun, s.cfg, s.life.state, s.cancelled, input);
    DialsTunnel(s.tun, s.cfg, s.life.state, s.cancelled, input);
    ConnTunnel(s.tun, s.cfg, s.life.state, s.cancelled, input);
  }

  lemma OneHotOverwrites(a: string, b: string)
    ensures OneHot(a) + OneHot(b) == OneHot(b)
  {
  }

  /** The machine is touched only by requests and, at the very start, by the first gauge write. */
  lemma LifeChanges(s: Sys, a: Action)
    requires !s.main.InitGauge?
    ensures Step(s, a).life == s.life || exists who, next :: Step(s, a).life == Request(s.life, who, next)
    ensures !Step(s, a).main.InitGauge?
  {
    if Enabled(s, a) {
      match a
      case Main(_) =>
        if s.main.RequestRegistered? {
          assert Step(s, a).life == Request(s.life, Boot, Registered);
        }
      case TunnelStep(input) =>
        if Requesting(s.tun.pc) {
          RequestingStep(s, input);
        } else {
          QuietTunnel(s, input);
        }
      case HeartStep(_) =>
        if s.heart.pc.Degrade? {
          assert Step(s, a).life == Request(s.life, HeartbeatLoop, Degraded);
        }
      case _ =>
    }
  }

  lemma GaugeRequest(l: Life, who: Actor, next: AgentState)
    requires l.gauges == OneHot(Label(l.state))
    ensures Request(l, who, next).gauges == OneHot(Label(Request(l, who, next).state))
  {
    OneHotOverwrites(Label(l.state), Label(next));
  }

  lemma GaugeStep(s: Sys, a: Action)
    requires ShapeInv(s) && GaugeInv(s)
    ensures GaugeInv(Step(s, a))
  {
    if s.main.InitGauge? {
      assert map[] + OneHot(Label(PendingKey)) == OneHot(Label(PendingKey));
      BeforeFirstGauge(s, a);
    } else {
      LifeChanges(s, a);
      if Step(s, a).life != s.life {
        var who, next :| Step(s, a).life == Request(s.life, who, next);
        GaugeRequest(s.life, who, next);
      }
    }
  }

  lemma BeforeFirstGauge(s: Sys, a: Action)
    requires ShapeInv(s) && s.main.InitGauge?
    ensures Step(s, a).main.InitGauge? ==> Step(s, a).life == s.life
    ensures !Step(s, a).main.InitGauge? ==> Step(s, a).life == s.life.(gauges := s.life.gauges + OneHot(Label(s.life.state)))
  {
  }

  lemma LinkStep(s: Sys, a: Action)
    requires LinkInv(s) && ShapeInv(s)
    ensures LinkInv(Step(s, a))
  {
    if Enabled(s, a) {
      match a
      case TunnelStep(input) => LinkTunnel(s, input);
      case Main(input) =>
      case _ => TunnelFrame(s, a);
    }
  }

  lemma {:induction false} GaugeAndLinkAlways(cfg: Config, schedule: seq<Action>)
    ensures GaugeInv(Exec(cfg, schedule)) && LinkInv(Exec(cfg, schedule))
  {
    if schedule != [] {
      var n := |schedule| - 1;
      GaugeAndLinkAlways(cfg, schedule[..n]);
      ShapeAlways(cfg, schedule[..n]);
      GaugeStep(Exec(cfg, schedule[..n]), schedule[n]);
      LinkStep(Exec(cfg, schedule[..n]), schedule[n]);
    }
  }

  /** From the first gauge write on, the family shows 1 for the machine's state and 0 for the other six. */
  lemma StateGaugeIsOneHot(cfg: Config, schedule: seq<Action>, t: AgentState)
    requires !Exec(cfg, schedule).main.InitGauge?
    ensures var l := Exec(cfg, schedule).life;
      && Label(t) in l.gauges
      && l.gauges[Label(t)] == (if t == l.state then 1 else 0)
  {
    GaugeAndLinkAlways(cfg, schedule);
    OneHotNamesOneState(Exec(cfg, schedule).life.state, t);
  }

  /** The same by the names a dashboard asks for. */
  lemma GaugesByName(cfg: Config, schedule: seq<Action>)
    requires !Exec(cfg, schedule).main.InitGauge?
    ensures var l := Exec(cfg, schedule).life;
      && GaugeShows(l, "PENDING_KEY", l.state == PendingKey) && GaugeShows(l, "REGISTERED", l.state == Registered)
      && GaugeShows(l, "CONNECTING", l.state == Connecting) && GaugeShows(l, "ONLINE", l.state == Online)
      && GaugeShows(l, "DEGRADED", l.state == Degraded) && GaugeShows(l, "OFFLINE", l.state == Offline)
      && GaugeShows(l, "REVOKED", l.state == Revoked)
  {
    forall t: AgentState
      ensures GaugeShows(Exec(cfg, schedule).life, Label(t), Exec(cfg, schedule).life.state == t)
    {
      StateGaugeIsOneHot(cfg, schedule, t);
    }
    assert Label(PendingKey) == "PENDING_KEY" && Label(Registered) == "REGISTERED" && Label(Connecting) == "CONNECTING";
    assert Label(Online) == "ONLINE" && Label(Degraded) == "DEGRADED";
    assert Label(Offline) == "OFFLINE" && Label(Revoked) == "REVOKED";
  }

  /** The gauge of this name exists and shows whether the condition holds. */
  predicate GaugeShows(l: Life, name: string, holds: bool) {
    name in l.gauges && l.gauges[name] == if holds then 1 else 0
  }

  /** The tunnel gauge is up only inside the connected window; the machine is ONLINE only between the ONLINE
      notification of the present round and the OFFLINE or REVOKED one that ends it, so never after a failed
      dial; and the reconnect counter is the number of dials whose attempt is over. */
  lemma ConnectedWindow(cfg: Config, schedule: seq<Action>)
    ensures var s := Exec(cfg, schedule);
      && (s.tun.gauge == 1 ==> s.tun.connected)
      && (s.tun.gauge == 0 || s.tun.gauge == 1)
      && (s.life.state == Online ==> s.tun.pc.GaugeUp? || Serving(s.tun.pc) || s.tun.pc.CountReconnect?
                                     || s.tun.pc.MarkDisconnected? || s.tun.pc.CheckRevoked? || s.tun.pc.GoOffline?)
      && (s.life.state == Online ==> Read(s.life.trace).Some? && Read(s.life.trace).value.open.Up?)
      && s.tun.reconnects <= |s.tun.dials| <= s.tun.reconnects + 1
  {
    ShapeAlways(cfg, schedule);
    GaugeAndLinkAlways(cfg, schedule);
    StateFollowsProgramPoint(cfg, schedule);
  }

  // ---- Credentials and addresses ----

  function Jwts(received: seq<Envelope>): seq<string> {
    seq(|received|, i requires 0 <= i < |received| => if received[i].CredentialRotation? then received[i].rotation.jwt else "")
  }

  function Endpoints(received: seq<Envelope>): seq<string> {
    seq(|received|, i requires 0 <= i < |received| => if received[i].CredentialRotation? then received[i].rotation.wsEndpoint else "")
  }

  /** The last non-empty token among registration and the rotations received. */
  function ExpectedToken(r: Response, received: seq<Envelope>): string {
    LastNonEmpty([r.jwt] + Jwts(received))
  }

  /** The last non-empty rotated endpoint, else the registered websocketUrl, else the registered
      wsEndpoint, else the derived address. */
  function ExpectedAddress(cfg: Config, r: Response, received: seq<Envelope>): string {
    var rotated := LastNonEmpty(Endpoints(received));
    if rotated != "" then rotated
    else if r.webSocketUrl != "" then r.webSocketUrl
    else if r.wsEndpoint != "" then r.wsEndpoint
    else DerivedEndpoint(cfg)
  }

  /** What the registration record must look like: an endpoint rotation fills both address fields. */
  function ExpectedReg(r: Response, received: seq<Envelope>): Response {
    var rotated := LastNonEmpty(Endpoints(received));
    if rotated != "" then r.(wsEndpoint := rotated, webSocketUrl := rotated) else r
  }

  function Settled<T>(xs: seq<T>): seq<T> {
    if xs == [] then [] else xs[..|xs| - 1]
  }

  /** The envelopes whose token, or endpoint, has taken effect: a rotation's effects lag behind it. */
  function TokenSeen(t: Tunnel): seq<Envelope> {
    if t.pc.ApplyToken? then Settled(t.received) else t.received
  }

  function EndpointSeen(t: Tunnel): seq<Envelope> {
    if t.pc.ApplyToken? || t.pc.ApplyEndpoint? then Settled(t.received) else t.received
  }

  ghost predicate CredOk(r: Response, t: Tunnel) {
    && (t.pc.ApplyToken? || t.pc.ApplyEndpoint? ==>
          |t.received| > 0 && t.received[|t.received| - 1] == CredentialRotation(t.pc.pending))
    && (t.pc.TunnelNotStarted? ==> t.received == [])
    && t.token == ExpectedToken(r, TokenSeen(t))
    && t.reg == ExpectedReg(r, EndpointSeen(t))
  }

  ghost predicate CredInv(s: Sys) {
    && (s.main.InitGauge? || s.main.Register? ==> s.response == NO_RESPONSE)
    && CredOk(s.response, s.tun)
  }

  lemma ReceivedSnoc(r: Response, received: seq<Envelope>, e: Envelope)
    ensures ExpectedToken(r, received + [e]) ==
      if e.CredentialRotation? && e.rotation.jwt != "" then e.rotation.jwt else ExpectedToken(r, received)
    ensures ExpectedReg(r, received + [e]) ==
      if e.CredentialRotation? then Rotated(ExpectedReg(r, received), e.rotation) else ExpectedReg(r, received)
  {
    var jwt := if e.CredentialRotation? then e.rotation.jwt else "";
    var ws := if e.CredentialRotation? then e.rotation.wsEndpoint else "";
    assert [r.jwt] + Jwts(received + [e]) == ([r.jwt] + Jwts(received)) + [jwt];
    LastNonEmptySnoc([r.jwt] + Jwts(received), jwt);
    assert Endpoints(received + [e]) == Endpoints(received) + [ws];
    LastNonEmptySnoc(Endpoints(received), ws);
  }

  lemma NothingReceived(r: Response)
    ensures ExpectedToken(r, []) == r.jwt && ExpectedReg(r, []) == r
  {
    assert [r.jwt] + Jwts([]) == [] + [r.jwt];
    LastNonEmptySnoc([], r.jwt);
    assert Endpoints([]) == [];
  }

  lemma CredRead(r: Response, t: Tunnel, e: Envelope)
    requires CredOk(r, t) && t.pc.Reading?
    ensures CredOk(r, t.(received := t.received + [e], pc := AfterRead(e)))
  {
    ReceivedSnoc(r, t.received, e);
    assert Settled(t.received + [e]) == t.received;
  }

  /** The last envelope was the rotation that is being applied. */
  lemma PendingRotation(r: Response, t: Tunnel)
    requires CredOk(r, t) && (t.pc.ApplyToken? || t.pc.ApplyEndpoint?)
    ensures var before := Settled(t.received);
      && ExpectedToken(r, t.received) == (if t.pc.pending.jwt != "" then t.pc.pending.jwt else ExpectedToken(r, before))
      && ExpectedReg(r, t.received) == Rotated(ExpectedReg(r, before), t.pc.pending)
  {
    var e := t.received[|t.received| - 1];
    ReceivedSnoc(r, Settled(t.received), e);
    assert t.received == Settled(t.received) + [e];
  }

  lemma CredApply(r: Response, t: Tunnel, cfg: Config, state: AgentState, cancelled: bool)
    requires CredOk(r, t) && (t.pc.ApplyToken? || t.pc.ApplyEndpoint?)
    ensures CredOk(r, MoveTunnel(t, cfg, state, cancelled, Go))
  {
    PendingRotation(r, t);
  }

  lemma CredQuiet(t: Tunnel, cfg: Config, state: AgentState, cancelled: bool, input: TunnelInput)
    requires TunnelReady(t.pc, cancelled, input) && !t.pc.Reading? && !t.pc.ApplyToken? && !t.pc.ApplyEndpoint?
    ensures var t' := MoveTunnel(t, cfg, state, cancelled, input);
      && t'.token == t.token && t'.reg == t.reg && t'.received == t.received
      && !t'.pc.ApplyToken? && !t'.pc.ApplyEndpoint? && !t'.pc.TunnelNotStarted?
  {
  }

  lemma CredTunnel(r: Response, t: Tunnel, cfg: Config, state: AgentState, cancelled: bool, input: TunnelInput)
    requires CredOk(r, t) && TunnelReady(t.pc, cancelled, input)
    ensures CredOk(r, MoveTunnel(t, cfg, state, cancelled, input))
  {
    if t.pc.Reading? {
      CredRead(r, t, input.envelope);
    } else if t.pc.ApplyToken? || t.pc.ApplyEndpoint? {
      CredApply(r, t, cfg, state, cancelled);
    } else {
      CredQuiet(t, cfg, state, cancelled, input);
    }
  }

  lemma CredMain(s: Sys, input: MainInput)
    requires CredInv(s) && ShapeInv(s) && MainEnabled(s, input)
    ensures CredInv(DoMain(s, input))
  {
    if s.main.Register? && input.RegisterOk? {
      assert s.tun.received == [];
      NothingReceived(Completed(input.response));
    }
  }

  lemma TunnelKeepsResponse(s: Sys, input: TunnelInput)
    requires TunnelEnabled(s, input)
    ensures DoTunnel(s, input).response == s.response && DoTunnel(s, input).main == s.main && DoTunnel(s, input).cfg == s.cfg
  {
  }

  lemma CredStep(s: Sys, a: Action)
    requires CredInv(s) && ShapeInv(s)
    ensures CredInv(Step(s, a)) && Step(s, a).cfg == s.cfg
  {
    if Enabled(s, a) {
      match a
      case TunnelStep(input) =>
        TunnelKeepsResponse(s, input);
        CredTunnel(s.response, s.tun, s.cfg, s.life.state, s.cancelled, input);
      case Main(input) => CredMain(s, input);
      case _ => TunnelFrame(s, a);
    }
  }

  lemma {:induction false} CredAlways(cfg: Config, schedule: seq<Action>)
    ensures CredInv(Exec(cfg, schedule)) && Exec(cfg, schedule).cfg == cfg
  {
    if schedule == [] {
      NothingReceived(NO_RESPONSE);
    } else {
      var n := |schedule| - 1;
      CredAlways(cfg, schedule[..n]);
      ShapeAlways(cfg, schedule[..n]);
      CredStep(Exec(cfg, schedule[..n]), schedule[n]);
    }
  }

  /** The server's reply to the registration of this run, as it was sent. */
  function Replied(cfg: Config, schedule: seq<Action>): Option<Response> {
    if schedule == [] then None
    else
      var n := |schedule| - 1;
      if schedule[n].Main? && schedule[n].main.RegisterOk? && Exec(cfg, schedule[..n]).main.Register?
      then Some(schedule[n].main.response)
      else Replied(cfg, schedule[..n])
  }

  /** What is kept of the reply loses nothing that matters for a dial. */
  lemma ReplyKept(cfg: Config, out: Response, received: seq<Envelope>)
    ensures ExpectedAddress(cfg, Completed(out), received) == ExpectedAddress(cfg, out, received)
    ensures ExpectedToken(Completed(out), received) == ExpectedToken(out, received)
    ensures Completed(out).clusterId == out.clusterId
  {
  }

  ghost predicate ReplyInv(s: Sys, reply: Option<Response>) {
    match reply
    case None => s.main.InitGauge? || s.main.Register? || s.main.Exited?
    case Some(out) => s.response == Completed(out) && !s.main.InitGauge? && !s.main.Register?
  }

  lemma ReplyStep(s: Sys, reply: Option<Response>, a: Action)
    requires ReplyInv(s, reply)
    ensures ReplyInv(Step(s, a), if s.main.Register? && a.Main? && a.main.RegisterOk? then Some(a.main.response) else reply)
  {
    if a.TunnelStep? && Enabled(s, a) {
      TunnelKeepsResponse(s, a.tunnel);
    } else if !a.Main? && !a.TunnelStep? {
      TunnelFrame(s, a);
    }
  }

  lemma {:induction false} ReplyAlways(cfg: Config, schedule: seq<Action>)
    ensures ReplyInv(Exec(cfg, schedule), Replied(cfg, schedule))
  {
    if schedule != [] {
      var n := |schedule| - 1;
      ReplyAlways(cfg, schedule[..n]);
      ReplyStep(Exec(cfg, schedule[..n]), Replied(cfg, schedule[..n]), schedule[n]);
    }
  }

  /** Every dial, in every run, presents the last non-empty token among the server's reply and the rotations
      read, names the reply's cluster, and goes to the address that the reply as sent and those rotations
      prefer, whatever other envelopes were read in between; no other step dials, and none before the reply. */
  lemma EveryDialIsCurrent(cfg: Config, schedule: seq<Action>, a: Action)
    ensures var s, s', reply := Exec(cfg, schedule), Exec(cfg, schedule + [a]), Replied(cfg, schedule);
      && (s.tun.pc.Dial? ==> reply.Some?)
      && s'.tun.dials == s.tun.dials +
        if s.tun.pc.Dial? && Enabled(s, a) && a.TunnelStep? then
          [DialRecord(ExpectedAddress(cfg, reply.value, s.tun.received),
                      ExpectedToken(reply.value, s.tun.received), reply.value.clusterId)]
        else []
  {
    var s, reply := Exec(cfg, schedule), Replied(cfg, schedule);
    DialsExpected(cfg, schedule, a);
    ReplyAlways(cfg, schedule);
    ShapeAlways(cfg, schedule);
    if s.tun.pc.Dial? {
      ReplyKept(cfg, reply.value, s.tun.received);
    }
  }

  lemma DialsExpected(cfg: Config, schedule: seq<Action>, a: Action)
    ensures var s, s' := Exec(cfg, schedule), Exec(cfg, schedule + [a]);
      s'.tun.dials == s.tun.dials +
        if s.tun.pc.Dial? && Enabled(s, a) && a.TunnelStep? then
          [DialRecord(ExpectedAddress(cfg, s.response, s.tun.received),
                      ExpectedToken(s.response, s.tun.received), s.response.clusterId)]
        else []
  {
    ExecSnoc(cfg, schedule, a);
    CredAlways(cfg, schedule);
    var s := Exec(cfg, schedule);
    if s.tun.pc.Dial? {
      RegGivesAddress(cfg, s.response, s.tun.received);
    }
    DialsAppend(s, a);
  }

  lemma RegGivesAddress(cfg: Config, r: Response, received: seq<Envelope>)
    ensures DialAddress(cfg, ExpectedReg(r, received)) == ExpectedAddress(cfg, r, received)
    ensures ExpectedReg(r, received).clusterId == r.clusterId
  {
  }

  lemma DialsAppend(s: Sys, a: Action)
    ensures Step(s, a).tun.dials == s.tun.dials +
      if s.tun.pc.Dial? && Enabled(s, a) && a.TunnelStep? then
        [DialRecord(DialAddress(s.cfg, s.tun.reg), s.tun.token, s.tun.reg.clusterId)]
      else []
  {
    if a.TunnelStep? && Enabled(s, a) {
      MoveDials(s.tun, s.cfg, s.life.state, s.cancelled, a.tunnel);
    } else if !a.TunnelStep? && !a.Main? {
      TunnelFrame(s, a);
    }
  }

  lemma MoveDials(t: Tunnel, cfg: Config, state: AgentState, cancelled: bool, input: TunnelInput)
    requires TunnelReady(t.pc, cancelled, input)
    ensures MoveTunnel(t, cfg, state, cancelled, input).dials ==
      t.dials + if t.pc.Dial? then [DialRecord(DialAddress(cfg, t.reg), t.token, t.reg.clusterId)] else []
  {
  }

  /** Only a well-formed rotation moves the two expectations. */
  lemma OtherEnvelopesChangeNothing(cfg: Config, r: Response, received: seq<Envelope>, e: Envelope)
    requires !e.CredentialRotation?
    ensures ExpectedToken(r, received + [e]) == ExpectedToken(r, received)
    ensures ExpectedAddress(cfg, r, received + [e]) == ExpectedAddress(cfg, r, received)
  {
    ReceivedSnoc(r, received, e);
    assert Endpoints(received + [e]) == Endpoints(received) + [""];
    LastNonEmptySnoc(Endpoints(received), "");
  }
}
