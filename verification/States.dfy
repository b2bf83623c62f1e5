/** The agent's state machine and the gauges it reports to.

    `Machine` follows internal/state/state.go, `Metrics` internal/telemetry/telemetry.go.  Every
    method runs under the source's own lock, so each one is a single atomic operation.
 */
module States {

  datatype AgentState = PendingKey | Registered | Connecting | Online | Degraded | Offline | Revoked

  function Label(s: AgentState): string {
    match s
    case PendingKey => "PENDING_KEY"
    case Registered => "REGISTERED"
    case Connecting => "CONNECTING"
    case Online => "ONLINE"
    case Degraded => "DEGRADED"
    case Offline => "OFFLINE"
    case Revoked => "REVOKED"
  }

  /** The label values SetState walks through. */
  const LABELS: seq<string> :=
    ["PENDING_KEY", "REGISTERED", "CONNECTING", "ONLINE", "DEGRADED", "OFFLINE", "REVOKED"]

  function Allowed(s: AgentState): set<AgentState> {
    match s
    case PendingKey => {Registered, Revoked}
    case Registered => {Connecting, Revoked, Offline}
    case Connecting => {Online, Degraded, Offline, Revoked}
    case Online => {Degraded, Offline, Connecting, Revoked}
    case Degraded => {Online, Offline, Connecting, Revoked}
    case Offline => {Connecting, Registered, Revoked}
    case Revoked => {}
  }

  /** A request succeeds when it asks for the present state or for an allowed successor. */
  predicate Accepts(from: AgentState, to: AgentState) {
    from == to || to in Allowed(from)
  }

  /** Gauges for some labels, at most one of them up. */
  function Shown(labels: seq<string>, name: string): map<string, int> {
    map l | l in labels :: if l == name then 1 else 0
  }

  /** The gauge family that shows exactly one label. */
  function OneHot(name: string): map<string, int> {
    Shown(LABELS, name)
  }

  lemma ShownSnoc(labels: seq<string>, l: string, name: string, gauges: map<string, int>)
    ensures gauges + Shown(labels + [l], name) == (gauges + Shown(labels, name))[l := if l == name then 1 else 0]
  {
  }

  /** The seven labels are the images of the seven states, so a one-hot family names one state. */
  lemma OneHotNamesOneState(s: AgentState, t: AgentState)
    ensures Label(t) in OneHot(Label(s))
    ensures OneHot(Label(s))[Label(t)] == 1 <==> s == t
    ensures OneHot(Label(s))[Label(t)] == 0 <==> s != t
  {
    LabelsAreListed(t);
    LabelDecides(s);
    LabelDecides(t);
  }

  /** Reading a label back. */
  function StateOf(name: string): AgentState {
    if name == LABELS[0] then PendingKey
    else if name == LABELS[1] then Registered
    else if name == LABELS[2] then Connecting
    else if name == LABELS[3] then Online
    else if name == LABELS[4] then Degraded
    else if name == LABELS[5] then Offline
    else Revoked
  }

  lemma LabelDecides(s: AgentState)
    ensures StateOf(Label(s)) == s
  {
    assert |LABELS[0]| == 11 && |LABELS[1]| == |LABELS[2]| == 10;
    assert LABELS[1][0] == 'R' && LABELS[2][0] == 'C';
    assert |LABELS[3]| == 6 && |LABELS[4]| == 8 && |LABELS[5]| == 7;
    assert |Label(Revoked)| == 7 && Label(Revoked)[0] == 'R' && LABELS[5][0] == 'O';
  }

  lemma LabelsAreListed(s: AgentState)
    ensures Label(s) in LABELS
  {
    assert LABELS[0] == Label(PendingKey) && LABELS[1] == Label(Registered);
    assert LABELS[2] == Label(Connecting) && LABELS[3] == Label(Online);
    assert LABELS[4] == Label(Degraded) && LABELS[5] == Label(Offline) && LABELS[6] == Label(Revoked);
  }

  /** Only REVOKED is final: every other state can be left, and no state is left for PENDING_KEY. */
  lemma RevokedIsTheOnlySink(s: AgentState)
    ensures (forall t :: Accepts(s, t) ==> t == s) <==> s == Revoked
    ensures s != PendingKey ==> !Accepts(s, PendingKey)
  {
    assert Accepts(s, s);
    if s != Revoked {
      assert Revoked in Allowed(s) && Accepts(s, Revoked);
    }
  }

  /** The same table by target: from where each state can be entered. */
  lemma EnteredFrom(s: AgentState)
    ensures Registered in Allowed(s) <==> s in {PendingKey, Offline}
    ensures Connecting in Allowed(s) <==> s in {Registered, Online, Degraded, Offline}
    ensures Online in Allowed(s) <==> s in {Connecting, Degraded}
    ensures Degraded in Allowed(s) <==> s in {Connecting, Online}
    ensures Offline in Allowed(s) <==> s in {Registered, Connecting, Online, Degraded}
    ensures Revoked in Allowed(s) <==> s != Revoked
    ensures PendingKey !in Allowed(s)
  {
  }

  class Metrics {
    var heartbeats: nat
    var heartbeatFailures: nat
    var inventorySyncs: nat
    var inventoryFailures: nat
    var commands: nat
    var commandFailures: nat
    var tunnelReconnects: nat
    var tunnelConnected: int
    var agentState: map<string, int>

    constructor ()
      ensures heartbeats == heartbeatFailures == 0
      ensures inventorySyncs == inventoryFailures == 0
      ensures commands == commandFailures == 0
      ensures tunnelReconnects == 0 && tunnelConnected == 0 && agentState == map[]
    {
      heartbeats, heartbeatFailures := 0, 0;
      inventorySyncs, inventoryFailures := 0, 0;
      commands, commandFailures := 0, 0;
      tunnelReconnects, tunnelConnected, agentState := 0, 0, map[];
    }

    /** Writes one gauge after the other; a label outside the list is never written. */
    method SetState(state: string)
      modifies this`agentState
      ensures agentState == old(agentState) + OneHot(state)
    {
      for i := 0 to |LABELS|
        invariant agentState == old(agentState) + Shown(LABELS[..i], state)
      {
        var s := LABELS[i];
        var v := 0;
        if s == state {
          v := 1;
        }
        ShownSnoc(LABELS[..i], s, state, old(agentState));
        assert LABELS[..i + 1] == LABELS[..i] + [s];
        agentState := agentState[s := v];
      }
      assert LABELS[..|LABELS|] == LABELS;
    }
  }

  datatype Reply = Accepted | Invalid(from: AgentState, to: AgentState)

  datatype Snapshot = Snapshot(state: AgentState, reason: string, updatedAt: int)

  class Machine {
    var state: AgentState
    var reason: string
    var updated: int
    const onChange: Metrics?
    /** Every snapshot handed to the callback, oldest first. */
    ghost var notified: seq<AgentState>

    constructor (onChange: Metrics?, now: int)
      ensures state == PendingKey && reason == "" && updated == now
      ensures this.onChange == onChange && notified == []
    {
      state, reason, updated := PendingKey, "", now;
      this.onChange := onChange;
      notified := [];
    }

    method Transition(next: AgentState, why: string, now: int) returns (reply: Reply)
      modifies this
      modifies if onChange != null then {onChange} else {}
      ensures reply == if Accepts(old(state), next) then Accepted else Invalid(old(state), next)
      ensures reply.Accepted? ==> state == next && reason == why && updated == now
      ensures reply.Invalid? ==> state == old(state) && reason == old(reason) && updated == old(updated)
      ensures notified == old(notified) + if state != old(state) then [next] else []
      ensures onChange != null ==>
        && onChange.agentState == (if state != old(state) then old(onChange.agentState) + OneHot(Label(next))
                                   else old(onChange.agentState))
        && onChange.heartbeats == old(onChange.heartbeats) && onChange.heartbeatFailures == old(onChange.heartbeatFailures)
        && onChange.inventorySyncs == old(onChange.inventorySyncs) && onChange.inventoryFailures == old(onChange.inventoryFailures)
        && onChange.commands == old(onChange.commands) && onChange.commandFailures == old(onChange.commandFailures)
        && onChange.tunnelReconnects == old(onChange.tunnelReconnects) && onChange.tunnelConnected == old(onChange.tunnelConnected)
    {
      if state == next {
        reason, updated := why, now;
        return Accepted;
      }
      if next !in Allowed(state) {
        return Invalid(state, next);
      }
      state, reason, updated := next, why, now;
      notified := notified + [next];
      if onChange != null {
        onChange.SetState(Label(state));
      }
      return Accepted;
    }

    method GetSnapshot() returns (s: Snapshot)
      ensures s == Snapshot(state, reason, updated)
    {
      return Snapshot(state, reason, updated);
    }
  }
}
