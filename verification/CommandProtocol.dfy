/** What the backend sees of each command, for every interleaving of the command goroutines with one
    another and with reconnects.
 */
module CommandProtocol {
  import opened Options
  import opened States
  import opened Registration
  import opened Lifecycle
  import opened LifecycleInvariants
  import opened Reachability
  import Commands

  /** The Send calls of one command goroutine, in order. */
  function SendsOf(messages: seq<Message>, i: nat): seq<Message> {
    if messages == [] then []
    else
      var n := |messages| - 1;
      SendsOf(messages[..n], i) + if messages[n].task == i then [messages[n]] else []
  }

  lemma SendsSnoc(messages: seq<Message>, m: Message, i: nat)
    ensures SendsOf(messages + [m], i) == SendsOf(messages, i) + if m.task == i then [m] else []
  {
    assert (messages + [m])[..|messages|] == messages;
  }

  function CommandsIn(received: seq<Envelope>): seq<Commands.Request> {
    if received == [] then []
    else
      var n := |received| - 1;
      CommandsIn(received[..n]) + if received[n].Command? then [received[n].req] else []
  }

  function Requests(tasks: seq<Task>): seq<Commands.Request> {
    seq(|tasks|, i requires 0 <= i < |tasks| => tasks[i].req)
  }

  ghost predicate IsResponse(clusterId: string, req: Commands.Request, r: Commands.Response) {
    exists outcome :: r == Commands.Execute(clusterId, req, outcome)
  }

  /** A message sent on a connection no older than `low` and no newer than the stored one. */
  predicate On(m: Message, low: nat, stored: Option<nat>) {
    m.conn.Some? && stored.Some? && low <= m.conn.value <= stored.value
  }

  ghost predicate TaskOk(clusterId: string, task: Task, sends: seq<Message>, stored: Option<nat>) {
    && stored.Some? && task.from <= stored.value
    && match task.pc
       case SendStatus => sends == []
       case Execute => StatusSent(clusterId, task, sends, stored)
       case SendResult(r) => StatusSent(clusterId, task, sends, stored) && IsResponse(clusterId, task.req, r)
       case Finished(r) =>
         && |sends| == 2 && StatusSent(clusterId, task, sends[..1], stored)
         && sends[1].body == Result(r) && IsResponse(clusterId, task.req, r)
         && On(sends[1], sends[0].conn.value, stored)
  }

  ghost predicate StatusSent(clusterId: string, task: Task, sends: seq<Message>, stored: Option<nat>) {
    |sends| == 1 && sends[0].body == Status(task.req.requestId, clusterId) && On(sends[0], task.from, stored)
  }

  /** The messages sent for the tasks, given the envelopes read and the stored connection. */
  ghost predicate CrewOk(c: Crew, clusterId: string, received: seq<Envelope>, stored: Option<nat>) {
    && Requests(c.tasks) == CommandsIn(received)
    && (forall m :: m in c.messages ==> m.task < |c.tasks|)
    && forall i :: 0 <= i < |c.tasks| ==> TaskOk(clusterId, c.tasks[i], SendsOf(c.messages, i), stored)
  }

  ghost predicate CrewInv(s: Sys) {
    && (s.crew.tasks != [] ==> s.main.AwaitSignal?)
    && CrewOk(s.crew, s.response.clusterId, s.tun.received, s.tun.conn)
  }

  lemma {:induction false} NoSends(messages: seq<Message>, i: nat)
    requires forall m :: m in messages ==> m.task != i
    ensures SendsOf(messages, i) == []
  {
    if messages != [] {
      NoSends(messages[..|messages| - 1], i);
    }
  }

  /** A newer stored connection keeps what was said about a task. */
  lemma TaskOkMonotone(clusterId: string, task: Task, sends: seq<Message>, was: Option<nat>, now: Option<nat>)
    requires TaskOk(clusterId, task, sends, was)
    requires was.Some? ==> now.Some? && was.value <= now.value
    ensures TaskOk(clusterId, task, sends, now)
  {
  }

  /** The stored connection only moves forwards. */
  lemma ConnForward(t: Tunnel, cfg: Config, state: AgentState, cancelled: bool, input: TunnelInput)
    requires ConnOk(t) && TunnelReady(t.pc, cancelled, input)
    ensures var t' := MoveTunnel(t, cfg, state, cancelled, input);
      && (t.conn.Some? ==> t'.conn.Some? && t.conn.value <= t'.conn.value)
      && t'.received == t.received + (if t.pc.Reading? then [input.envelope] else [])
      && (t.pc.Reading? ==> t'.conn == t.conn)
  {
    assert t.received + [] == t.received;
  }

  /** A newer connection, and any envelope that is not a command, keep what was said about the tasks. */
  lemma CrewLater(c: Crew, clusterId: string, received: seq<Envelope>, was: Option<nat>, more: seq<Envelope>, now: Option<nat>)
    requires CrewOk(c, clusterId, received, was)
    requires was.Some? ==> now.Some? && was.value <= now.value
    requires more == [] || (|more| == 1 && !more[0].Command?)
    ensures CrewOk(c, clusterId, received + more, now)
  {
    forall i | 0 <= i < |c.tasks|
      ensures TaskOk(clusterId, c.tasks[i], SendsOf(c.messages, i), now)
    {
      TaskOkMonotone(clusterId, c.tasks[i], SendsOf(c.messages, i), was, now);
    }
    NotACommand(received, more);
  }

  lemma NotACommand(received: seq<Envelope>, more: seq<Envelope>)
    requires more == [] || (|more| == 1 && !more[0].Command?)
    ensures CommandsIn(received + more) == CommandsIn(received)
  {
    if more == [] {
      assert received + more == received;
    } else {
      assert (received + more)[..|received|] == received;
    }
  }

  lemma CrewQuiet(s: Sys, input: TunnelInput)
    requires CrewInv(s) && LinkInv(s) && TunnelEnabled(s, input) && !(s.tun.pc.Reading? && input.envelope.Command?)
    ensures CrewInv(DoTunnel(s, input))
  {
    ConnForward(s.tun, s.cfg, s.life.state, s.cancelled, input);
    TunnelKeepsResponse(s, input);
    CrewLater(s.crew, s.response.clusterId, s.tun.received, s.tun.conn,
              if s.tun.pc.Reading? then [input.envelope] else [],
              MoveTunnel(s.tun, s.cfg, s.life.state, s.cancelled, input).conn);
  }

  lemma CrewGrows(c: Crew, clusterId: string, received: seq<Envelope>, stored: Option<nat>, task: Task)
    requires CrewOk(c, clusterId, received, stored) && task.pc.SendStatus? && stored == Some(task.from)
    ensures CrewOk(c.(tasks := c.tasks + [task]), clusterId, received + [Command(task.req)], stored)
  {
    var n, tasks := |c.tasks|, c.tasks + [task];
    NoSends(c.messages, n);
    forall i | 0 <= i < |tasks|
      ensures TaskOk(clusterId, tasks[i], SendsOf(c.messages, i), stored)
    {
      if i < n {
        assert tasks[i] == c.tasks[i];
      }
    }
    CommandAppended(c.tasks, task, received);
  }

  lemma CommandAppended(tasks: seq<Task>, task: Task, received: seq<Envelope>)
    ensures Requests(tasks + [task]) == Requests(tasks) + [task.req]
    ensures CommandsIn(received + [Command(task.req)]) == CommandsIn(received) + [task.req]
  {
    assert (received + [Command(task.req)])[..|received|] == received;
  }

  lemma CrewCommand(s: Sys, req: Commands.Request)
    requires CrewInv(s) && LinkInv(s) && s.tun.pc.Reading? && s.main.AwaitSignal?
    ensures CrewInv(DoTunnel(s, Incoming(Command(req))))
  {
    CrewGrows(s.crew, s.response.clusterId, s.tun.received, s.tun.conn, Task(req, Newest(s.tun), SendStatus));
  }

  lemma WorkKeeps(s: Sys, i: nat, outcome: Commands.Outcome)
    requires i < |s.crew.tasks| && !s.crew.tasks[i].pc.Finished?
    ensures var s' := DoWork(s, i, outcome);
      && |s'.crew.tasks| == |s.crew.tasks| && s'.crew.tasks[i].req == s.crew.tasks[i].req
      && (forall j :: 0 <= j < |s.crew.tasks| && j != i ==> s'.crew.tasks[j] == s.crew.tasks[j])
      && s'.crew.tasks == s.crew.tasks[i := s'.crew.tasks[i]]
      && s'.tun == s.tun && s'.response == s.response && s'.main == s.main
      && (s'.crew.messages == s.crew.messages || exists m: Message :: m.task == i && s'.crew.messages == s.crew.messages + [m])
  {
  }

  lemma WorkOthers(s: Sys, i: nat, outcome: Commands.Outcome, j: nat)
    requires i < |s.crew.tasks| && !s.crew.tasks[i].pc.Finished? && j != i
    ensures SendsOf(DoWork(s, i, outcome).crew.messages, j) == SendsOf(s.crew.messages, j)
  {
    WorkKeeps(s, i, outcome);
    var s' := DoWork(s, i, outcome);
    if s'.crew.messages != s.crew.messages {
      var m: Message :| m.task == i && s'.crew.messages == s.crew.messages + [m];
      SendsSnoc(s.crew.messages, m, j);
    }
  }

  lemma FirstSend(clusterId: string, task: Task, i: nat, messages: seq<Message>, stored: Option<nat>)
    requires TaskOk(clusterId, task, SendsOf(messages, i), stored) && task.pc.SendStatus?
    ensures TaskOk(clusterId, task.(pc := Execute),
              SendsOf(messages + [Message(i, stored, Status(task.req.requestId, clusterId))], i), stored)
  {
    SendsSnoc(messages, Message(i, stored, Status(task.req.requestId, clusterId)), i);
  }

  lemma SecondSend(clusterId: string, task: Task, i: nat, messages: seq<Message>, stored: Option<nat>)
    requires TaskOk(clusterId, task, SendsOf(messages, i), stored) && task.pc.SendResult?
    ensures TaskOk(clusterId, task.(pc := Finished(task.pc.response)),
              SendsOf(messages + [Message(i, stored, Result(task.pc.response))], i), stored)
  {
    var m := Message(i, stored, Result(task.pc.response));
    SendsSnoc(messages, m, i);
    assert (SendsOf(messages, i) + [m])[..1] == SendsOf(messages, i);
  }

  /** A command goroutine's own operation, as an update. */
  lemma WorkIs(s: Sys, i: nat, outcome: Commands.Outcome)
    requires i < |s.crew.tasks| && !s.crew.tasks[i].pc.Finished?
    ensures var c, task, s' := s.crew, s.crew.tasks[i], DoWork(s, i, outcome);
      var r := Commands.Execute(s.response.clusterId, task.req, outcome);
      && s'.response == s.response && s'.tun == s.tun
      && s'.crew.tasks[i] == task.(pc := match task.pc { case SendStatus => Execute case Execute => SendResult(r) case _ => Finished(task.pc.response) })
      && s'.crew.messages == c.messages + match task.pc {
           case SendStatus => [Message(i, s.tun.conn, Status(task.req.requestId, s.response.clusterId))]
           case Execute => []
           case _ => [Message(i, s.tun.conn, Result(task.pc.response))] }
  {
    assert s.crew.messages + [] == s.crew.messages;
  }

  lemma WorkItself(s: Sys, i: nat, outcome: Commands.Outcome)
    requires i < |s.crew.tasks| && !s.crew.tasks[i].pc.Finished?
    requires TaskOk(s.response.clusterId, s.crew.tasks[i], SendsOf(s.crew.messages, i), s.tun.conn)
    ensures var s' := DoWork(s, i, outcome);
      TaskOk(s'.response.clusterId, s'.crew.tasks[i], SendsOf(s'.crew.messages, i), s'.tun.conn)
  {
    var task := s.crew.tasks[i];
    WorkIs(s, i, outcome);
    if task.pc.SendStatus? {
      FirstSend(s.response.clusterId, task, i, s.crew.messages, s.tun.conn);
    } else if task.pc.SendResult? {
      SecondSend(s.response.clusterId, task, i, s.crew.messages, s.tun.conn);
    } else {
      assert IsResponse(s.response.clusterId, task.req, Commands.Execute(s.response.clusterId, task.req, outcome));
      assert s.crew.messages + [] == s.crew.messages;
    }
  }

  lemma CrewWork(s: Sys, i: nat, outcome: Commands.Outcome)
    requires CrewInv(s) && i < |s.crew.tasks| && !s.crew.tasks[i].pc.Finished?
    ensures CrewInv(DoWork(s, i, outcome))
  {
    var s' := DoWork(s, i, outcome);
    WorkKeeps(s, i, outcome);
    forall j | 0 <= j < |s'.crew.tasks|
      ensures TaskOk(s'.response.clusterId, s'.crew.tasks[j], SendsOf(s'.crew.messages, j), s'.tun.conn)
    {
      if j == i {
        WorkItself(s, i, outcome);
      } else {
        WorkOthers(s, i, outcome, j);
      }
    }
    assert Requests(s'.crew.tasks) == Requests(s.crew.tasks);
  }

  /** Boot, heartbeat and cancellation leave the command goroutines and what they depend on alone. */
  lemma CrewUntouched(s: Sys, a: Action)
    requires ShapeInv(s) && !a.TunnelStep? && !a.Work?
    ensures var s' := Step(s, a);
      && s'.crew == s.crew && s'.tun.received == s.tun.received
      && (s.main.AwaitSignal? ==> s'.tun == s.tun && s'.response == s.response && s'.main == s.main)
  {
  }

  lemma CrewFrame(s: Sys, a: Action)
    requires CrewInv(s) && ShapeInv(s) && !a.TunnelStep? && !a.Work?
    ensures CrewInv(Step(s, a))
  {
    CrewUntouched(s, a);
    var s' := Step(s, a);
    if s.crew.tasks != [] {
      assert s'.tun == s.tun && s'.response == s.response && s'.main == s.main;
    }
  }

  lemma {:induction false} CrewAlways(cfg: Config, schedule: seq<Action>)
    ensures CrewInv(Exec(cfg, schedule))
  {
    if schedule != [] {
      var n := |schedule| - 1;
      var s, a := Exec(cfg, schedule[..n]), schedule[n];
      CrewAlways(cfg, schedule[..n]);
      ShapeAlways(cfg, schedule[..n]);
      GaugeAndLinkAlways(cfg, schedule[..n]);
      if Enabled(s, a) {
        match a
        case TunnelStep(input) =>
          if s.tun.pc.Reading? && input.envelope.Command? {
            CrewCommand(s, input.envelope.req);
          } else {
            CrewQuiet(s, input);
          }
        case Work(i, outcome) => CrewWork(s, i, outcome);
        case _ => CrewFrame(s, a);
      }
    }
  }

  // ---- What the cluster answered ----

  /** The action executes a command. */
  predicate RunsNow(s: Sys, a: Action) {
    a.Work? && a.task < |s.crew.tasks| && s.crew.tasks[a.task].pc.Execute?
  }

  /** What the call into the cluster came to when this run executed command `i`. */
  function Given(cfg: Config, schedule: seq<Action>, i: nat): Option<Commands.Outcome> {
    if schedule == [] then None
    else
      var n := |schedule| - 1;
      if RunsNow(Exec(cfg, schedule[..n]), schedule[n]) && schedule[n].task == i then Some(schedule[n].outcome)
      else Given(cfg, schedule[..n], i)
  }

  /** The answer to a command, given what the cluster call came to. */
  ghost predicate Answers(r: Commands.Response, req: Commands.Request, clusterId: string, outcome: Commands.Outcome) {
    && r.requestId == req.requestId && r.command == req.command && r.clusterId == clusterId
    && (req.command in Commands.CAPABILITIES && outcome.Data? ==>
          r.status == "success" && r.data == outcome.data && r.error == "")
    && (req.command in Commands.CAPABILITIES && outcome.Failure? ==>
          r.status == "error" && r.data == "{}" && r.error == outcome.message)
    && (req.command !in Commands.CAPABILITIES ==>
          r.status == "error" && r.data == "{}" && r.error == "unsupported capability")
  }

  /** Command `i` has been executed exactly if the run says with what outcome, and holds the answer. */
  ghost predicate AnswerOk(s: Sys, i: nat, given: Option<Commands.Outcome>) {
    && (given.Some? <==> i < |s.crew.tasks| && HasRun(s.crew.tasks[i]))
    && (given.Some? ==> Answers(s.crew.tasks[i].pc.response, s.crew.tasks[i].req, s.response.clusterId, given.value))
  }

  lemma AnswerWork(s: Sys, i: nat, given: Option<Commands.Outcome>, j: nat, outcome: Commands.Outcome)
    requires AnswerOk(s, i, given) && j < |s.crew.tasks| && !s.crew.tasks[j].pc.Finished?
    ensures AnswerOk(DoWork(s, j, outcome), i, if j == i && s.crew.tasks[j].pc.Execute? then Some(outcome) else given)
  {
    WorkKeeps(s, j, outcome);
    WorkIs(s, j, outcome);
  }

  lemma AnswerTunnel(s: Sys, i: nat, given: Option<Commands.Outcome>, input: TunnelInput)
    requires AnswerOk(s, i, given) && TunnelEnabled(s, input)
    ensures AnswerOk(DoTunnel(s, input), i, given)
  {
    TunnelKeepsResponse(s, input);
  }

  lemma AnswerStep(s: Sys, i: nat, given: Option<Commands.Outcome>, a: Action)
    requires AnswerOk(s, i, given) && CrewInv(s) && ShapeInv(s)
    ensures AnswerOk(Step(s, a), i, if RunsNow(s, a) && a.task == i then Some(a.outcome) else given)
  {
    if Enabled(s, a) {
      match a
      case TunnelStep(input) => AnswerTunnel(s, i, given, input);
      case Work(j, outcome) => AnswerWork(s, i, given, j, outcome);
      case _ => CrewUntouched(s, a);
    }
  }

  lemma {:induction false} AnswersAlways(cfg: Config, schedule: seq<Action>, i: nat)
    ensures AnswerOk(Exec(cfg, schedule), i, Given(cfg, schedule, i))
  {
    if schedule != [] {
      var n := |schedule| - 1;
      AnswersAlways(cfg, schedule[..n], i);
      CrewAlways(cfg, schedule[..n]);
      ShapeAlways(cfg, schedule[..n]);
      AnswerStep(Exec(cfg, schedule[..n]), i, Given(cfg, schedule[..n], i), schedule[n]);
    }
  }

  /** The result message of command `i` holds what this run's own execution of it came to: the cluster's data,
      its error message, or the refusal of a command that is not advertised. */
  lemma ResultIsOwnOutcome(cfg: Config, schedule: seq<Action>, i: nat)
    requires i < |Exec(cfg, schedule).crew.tasks| && |SendsOf(Exec(cfg, schedule).crew.messages, i)| == 2
    ensures var s, given := Exec(cfg, schedule), Given(cfg, schedule, i);
      var req, body := s.crew.tasks[i].req, SendsOf(s.crew.messages, i)[1].body;
      && given.Some? && body.Result?
      && (req.command in Commands.CAPABILITIES && given.value.Data? ==>
            body.response.status == "success" && body.response.data == given.value.data && body.response.error == "")
      && (req.command in Commands.CAPABILITIES && given.value.Failure? ==>
            body.response.status == "error" && body.response.data == "{}" && body.response.error == given.value.message)
      && (req.command !in Commands.CAPABILITIES ==>
            body.response.status == "error" && body.response.data == "{}" && body.response.error == "unsupported capability")
  {
    var s := Exec(cfg, schedule);
    CrewAlways(cfg, schedule);
    AnswersAlways(cfg, schedule, i);
    assert TaskOk(s.response.clusterId, s.crew.tasks[i], SendsOf(s.crew.messages, i), s.tun.conn);
  }

  // ---- Main results ----

  /** The goroutines are the well-formed command envelopes, in the order read.  Each sends its running
      status, then one result, and nothing else; both carry the request's identifier; and neither is sent
      before a connection exists, nor on a connection older than the one before. */
  lemma EachCommandAnsweredOnce(cfg: Config, schedule: seq<Action>, i: nat)
    requires i < |Exec(cfg, schedule).crew.tasks|
    ensures var s := Exec(cfg, schedule);
      var task, sends := s.crew.tasks[i], SendsOf(s.crew.messages, i);
      && Requests(s.crew.tasks) == CommandsIn(s.tun.received)
      && |sends| <= 2
      && (task.pc.Finished? <==> |sends| == 2)
      && (|sends| >= 1 ==> sends[0].body == Status(task.req.requestId, s.response.clusterId)
                           && sends[0].conn.Some? && task.from <= sends[0].conn.value)
      && (|sends| == 2 ==> && sends[1].body.Result? && sends[1].conn.Some?
                           && sends[0].conn.value <= sends[1].conn.value
                           && sends[1].body.response.requestId == task.req.requestId
                           && sends[1].body.response.command == task.req.command
                           && sends[1].body.response.clusterId == s.response.clusterId
                           && (sends[1].body.response.status == "success" ==> task.req.command in Commands.CAPABILITIES))
  {
    CrewAlways(cfg, schedule);
    var s := Exec(cfg, schedule);
    assert TaskOk(s.response.clusterId, s.crew.tasks[i], SendsOf(s.crew.messages, i), s.tun.conn);
  }

  /** No message belongs to a command that was never received. */
  lemma NoStrayMessages(cfg: Config, schedule: seq<Action>, m: Message)
    requires m in Exec(cfg, schedule).crew.messages
    ensures m.task < |Exec(cfg, schedule).crew.tasks|
    ensures m.conn.Some? && m.conn.value < Exec(cfg, schedule).tun.conns
  {
    CrewAlways(cfg, schedule);
    GaugeAndLinkAlways(cfg, schedule);
    var s := Exec(cfg, schedule);
    SendsContain(s.crew.messages, m);
    SentOnStored(s.response.clusterId, s.crew.tasks[m.task], SendsOf(s.crew.messages, m.task), s.tun.conn, m);
    StoredIsOld(s.tun);
  }

  lemma SentOnStored(clusterId: string, task: Task, sends: seq<Message>, stored: Option<nat>, m: Message)
    requires TaskOk(clusterId, task, sends, stored) && m in sends
    ensures m.conn.Some? && stored.Some? && m.conn.value <= stored.value
  {
    var k :| 0 <= k < |sends| && sends[k] == m;
    if |sends| == 2 {
      assert sends[..1][0] == sends[0];
    }
  }

  lemma StoredIsOld(t: Tunnel)
    requires ConnOk(t)
    ensures t.conn.Some? ==> t.conn.value < t.conns
  {
  }

  lemma {:induction false} SendsContain(messages: seq<Message>, m: Message)
    requires m in messages
    ensures m in SendsOf(messages, m.task)
  {
    var n := |messages| - 1;
    if messages[n] != m {
      assert messages == messages[..n] + [messages[n]];
      SendsContain(messages[..n], m);
    }
  }

  // ---- The command counters ----

  predicate HasRun(t: Task) {
    t.pc.SendResult? || t.pc.Finished?
  }

  predicate HasFailed(t: Task) {
    HasRun(t) && t.pc.response.status != "success"
  }

  /** The tasks whose command has been executed, and those of them whose execution failed. */
  function Executed(tasks: seq<Task>): nat {
    if tasks == [] then 0 else Executed(tasks[..|tasks| - 1]) + if HasRun(tasks[|tasks| - 1]) then 1 else 0
  }

  function Failed(tasks: seq<Task>): nat {
    if tasks == [] then 0 else Failed(tasks[..|tasks| - 1]) + if HasFailed(tasks[|tasks| - 1]) then 1 else 0
  }

  lemma {:induction false} CountsUpdate(tasks: seq<Task>, i: nat, t: Task)
    requires i < |tasks|
    ensures Executed(tasks[i := t]) == Executed(tasks) - (if HasRun(tasks[i]) then 1 else 0) + (if HasRun(t) then 1 else 0)
    ensures Failed(tasks[i := t]) == Failed(tasks) - (if HasFailed(tasks[i]) then 1 else 0) + (if HasFailed(t) then 1 else 0)
  {
    var n := |tasks| - 1;
    if i < n {
      assert tasks[i := t][..n] == tasks[..n][i := t];
      CountsUpdate(tasks[..n], i, t);
    } else {
      assert tasks[i := t][..n] == tasks[..n];
    }
  }

  /** The command is an advertised one and its call into the cluster succeeds. */
  predicate WellServed(s: Sys, a: Action)
    requires RunsNow(s, a)
  {
    s.crew.tasks[a.task].req.command in Commands.CAPABILITIES && a.outcome.Data?
  }

  function Runs(cfg: Config, schedule: seq<Action>): nat {
    if schedule == [] then 0
    else
      var n := |schedule| - 1;
      Runs(cfg, schedule[..n]) + if RunsNow(Exec(cfg, schedule[..n]), schedule[n]) then 1 else 0
  }

  predicate RunsBadly(s: Sys, a: Action) {
    RunsNow(s, a) && !WellServed(s, a)
  }

  function BadRuns(cfg: Config, schedule: seq<Action>): nat {
    if schedule == [] then 0
    else
      var n := |schedule| - 1;
      BadRuns(cfg, schedule[..n]) + if RunsBadly(Exec(cfg, schedule[..n]), schedule[n]) then 1 else 0
  }

  ghost predicate CountersOk(c: Crew, runs: nat, bad: nat) {
    c.commandFailures == 0 && c.commands == runs == Executed(c.tasks) && Failed(c.tasks) == bad
  }

  /** Executing a command counts as a success, well served or not, and fails exactly when it is not. */
  lemma CountersRun(s: Sys, i: nat, outcome: Commands.Outcome, runs: nat, bad: nat)
    requires CountersOk(s.crew, runs, bad) && i < |s.crew.tasks| && s.crew.tasks[i].pc.Execute?
    ensures CountersOk(DoWork(s, i, outcome).crew, runs + 1, bad + if RunsBadly(s, Work(i, outcome)) then 1 else 0)
  {
    var task := s.crew.tasks[i];
    var r := Commands.Execute(s.response.clusterId, task.req, outcome);
    NeverFailedStatus(r);
    CountsUpdate(s.crew.tasks, i, task.(pc := SendResult(r)));
  }

  /** The commands answer "success" or "error", never the word the executor looks for. */
  lemma NeverFailedStatus(r: Commands.Response)
    requires r.status == "success" || r.status == "error"
    ensures r.status != "failed"
  {
    assert |r.status| == 7 || |r.status| == 5;
  }

  lemma CountersSend(s: Sys, i: nat, outcome: Commands.Outcome, runs: nat, bad: nat)
    requires CountersOk(s.crew, runs, bad) && i < |s.crew.tasks|
    requires s.crew.tasks[i].pc.SendStatus? || s.crew.tasks[i].pc.SendResult?
    ensures CountersOk(DoWork(s, i, outcome).crew, runs, bad)
  {
    var task := s.crew.tasks[i];
    CountsUpdate(s.crew.tasks, i, if task.pc.SendStatus? then task.(pc := Execute) else task.(pc := Finished(task.pc.response)));
  }

  lemma CountersHear(c: Crew, t: Tunnel, input: TunnelInput, runs: nat, bad: nat)
    requires CountersOk(c, runs, bad)
    ensures CountersOk(Heard(c, t, input), runs, bad)
  {
    if t.pc.Reading? && input.Incoming? && input.envelope.Command? {
      assert Heard(c, t, input).tasks[..|c.tasks|] == c.tasks;
    }
  }

  lemma CountersStep(s: Sys, a: Action, runs: nat, bad: nat)
    requires ShapeInv(s) && CountersOk(s.crew, runs, bad)
    ensures CountersOk(Step(s, a).crew, runs + (if RunsNow(s, a) then 1 else 0), bad + if RunsBadly(s, a) then 1 else 0)
  {
    if a.TunnelStep? {
      if Enabled(s, a) {
        CountersHear(s.crew, s.tun, a.tunnel, runs, bad);
      }
    } else if !a.Work? {
      CrewUntouched(s, a);
    } else if Enabled(s, a) {
      if RunsNow(s, a) {
        CountersRun(s, a.task, a.outcome, runs, bad);
      } else {
        CountersSend(s, a.task, a.outcome, runs, bad);
      }
    }
  }

  lemma {:induction false} CountersAlways(cfg: Config, schedule: seq<Action>)
    ensures CountersOk(Exec(cfg, schedule).crew, Runs(cfg, schedule), BadRuns(cfg, schedule))
  {
    if schedule != [] {
      var n := |schedule| - 1;
      CountersAlways(cfg, schedule[..n]);
      ShapeAlways(cfg, schedule[..n]);
      CountersStep(Exec(cfg, schedule[..n]), schedule[n], Runs(cfg, schedule[..n]), BadRuns(cfg, schedule[..n]));
    }
  }

  /** Action `n` of the run executes a command that is not advertised, or whose cluster call fails. */
  predicate RanBadly(cfg: Config, schedule: seq<Action>, n: nat)
    requires n < |schedule|
  {
    RunsBadly(Exec(cfg, schedule[..n]), schedule[n])
  }

  /** Every command executed in the run was an advertised one whose cluster call succeeded. */
  ghost predicate AllWellServed(cfg: Config, schedule: seq<Action>) {
    forall n :: 0 <= n < |schedule| ==> !RanBadly(cfg, schedule, n)
  }

  lemma SamePrefix(cfg: Config, schedule: seq<Action>, m: nat, k: nat)
    requires k < m <= |schedule|
    ensures RanBadly(cfg, schedule[..m], k) == RanBadly(cfg, schedule, k)
  {
    assert schedule[..m][..k] == schedule[..k];
  }

  lemma {:induction false} NoBadRuns(cfg: Config, schedule: seq<Action>)
    ensures BadRuns(cfg, schedule) == 0 <==> AllWellServed(cfg, schedule)
  {
    if schedule != [] {
      var n := |schedule| - 1;
      NoBadRuns(cfg, schedule[..n]);
      forall k | 0 <= k < n
        ensures RanBadly(cfg, schedule[..n], k) == RanBadly(cfg, schedule, k)
      {
        SamePrefix(cfg, schedule, n, k);
      }
      BadRunsLast(cfg, schedule);
    }
  }

  lemma BadRunsLast(cfg: Config, schedule: seq<Action>)
    requires schedule != []
    ensures var n := |schedule| - 1;
      BadRuns(cfg, schedule) == BadRuns(cfg, schedule[..n]) + if RanBadly(cfg, schedule, n) then 1 else 0
  {
  }

  /** The executions are all counted as successes.  So the failure counter is the number of failed commands
      exactly in the runs in which every executed command was advertised and its cluster call succeeded;
      otherwise it is short by the executions for which that does not hold. */
  lemma FailureCounterExactly(cfg: Config, schedule: seq<Action>)
    ensures var c := Exec(cfg, schedule).crew;
      && c.commandFailures == 0 && c.commands == Executed(c.tasks) == Runs(cfg, schedule)
      && Failed(c.tasks) == c.commandFailures + BadRuns(cfg, schedule)
      && (c.commandFailures == Failed(c.tasks) <==> AllWellServed(cfg, schedule))
  {
    CountersAlways(cfg, schedule);
    NoBadRuns(cfg, schedule);
  }

  /** A run in which a command failed and the failure counter does not say so. */
  lemma FailureCounterMisses(cfg: Config, out: Response)
    ensures exists schedule ::
      && Failed(Exec(cfg, schedule).crew.tasks) == 1
      && Exec(cfg, schedule).crew.commandFailures == 0 && Exec(cfg, schedule).crew.commands == 1
  {
    var req := Commands.Request("r", "delete_pod", map[]);
    var s := HeardRun(cfg, out, req);
    s := ExecutedRun(cfg, s);
    NotAdvertised();
    var schedule :| Exec(cfg, schedule) == s;
  }

  lemma NotAdvertised()
    ensures "delete_pod" !in Commands.CAPABILITIES
  {
    Commands.AdvertisedIsExecutable("delete_pod");
  }

  /** A command is the first thing read. */
  lemma HeardRun(cfg: Config, out: Response, req: Commands.Request) returns (s: Sys)
    ensures Reachable(cfg, s) && s.crew.tasks == [Task(req, Newest(s.tun), SendStatus)]
    ensures s.crew.commands == s.crew.commandFailures == 0
  {
    s := BootRun(cfg, out);
    s := ConnectRun(cfg, s);
    s := OnlineRun(cfg, s);
    var tun := s.tun;
    s := ReachTunnel(cfg, s, Incoming(Command(req)));
    assert Newest(s.tun) == Newest(tun);
  }

  /** And executed. */
  lemma ExecutedRun(cfg: Config, s: Sys) returns (s': Sys)
    requires Reachable(cfg, s) && |s.crew.tasks| == 1 && s.crew.tasks[0].pc.SendStatus?
    requires s.crew.commands == s.crew.commandFailures == 0
    ensures Reachable(cfg, s') && s'.crew.commands == 1 && s'.crew.commandFailures == 0
    ensures Failed(s'.crew.tasks) == if s.crew.tasks[0].req.command in Commands.CAPABILITIES then 0 else 1
  {
    var outcome := Commands.Data("");
    s' := ReachWork(cfg, s, 0, outcome);
    CountersSend(s, 0, outcome, 0, 0);
    assert CountersOk(s'.crew, 0, 0);
    var s1 := s';
    s' := ReachWork(cfg, s1, 0, outcome);
    CountersRun(s1, 0, outcome, 0, 0);
  }
}
