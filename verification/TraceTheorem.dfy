/** The notification traces of the agent are exactly the prefixes of sentences. */
module TraceTheorem {
  import opened Options
  import opened States
  import opened Registration
  import opened Lifecycle
  import opened LifecycleInvariants
  import opened TraceLanguage
  import opened Reachability

  /** A state at the loop head from which another round can be run. */
  predicate Ready(s: Sys) {
    s.tun.pc.LoopHead? && s.heart.pc.Collect? && !s.cancelled && s.life.state in {Registered, Offline}
  }

  lemma DipRun(cfg: Config, s: Sys, degraded: bool) returns (s': Sys)
    requires Reachable(cfg, s) && s.heart.pc.Collect? && s.life.state in {Connecting, Online}
    ensures Reachable(cfg, s') && s'.heart.pc.Collect? && s'.tun == s.tun && s'.cancelled == s.cancelled
    ensures s'.life.state == (if degraded then Degraded else s.life.state)
    ensures s'.life.trace == s.life.trace + Dip(degraded)
  {
    if degraded {
      s' := DegradeRun(cfg, s);
    } else {
      s' := s;
      assert s.life.trace + [] == s.life.trace;
    }
  }

  lemma Spell(t: seq<AgentState>, a: seq<AgentState>, b: seq<AgentState>, c: seq<AgentState>, d: seq<AgentState>, e: seq<AgentState>)
    ensures t + a + b + c + d + e == t + (a + b + c + d + e)
    ensures t + a + b + c == t + (a + b + c)
  {
  }

  lemma RoundRun(cfg: Config, s: Sys, r: Round) returns (s': Sys)
    requires Reachable(cfg, s) && Ready(s)
    ensures Reachable(cfg, s') && Ready(s') && s'.life.trace == s.life.trace + Word(r)
  {
    s' := ConnectRun(cfg, s);
    s' := DipRun(cfg, s', r.early);
    match r.online
    case None =>
      s' := FailedDialRun(cfg, s');
      Spell(s.life.trace, [Connecting], Dip(r.early), [Offline], [], []);
      assert Word(r) == [Connecting] + Dip(r.early) + [Offline];
    case Some(late) =>
      s' := OnlineRun(cfg, s');
      s' := DipRun(cfg, s', late);
      s' := BrokenRun(cfg, s');
      Spell(s.life.trace, [Connecting], Dip(r.early), [Online], Dip(late), [Offline]);
      assert Word(r) == [Connecting] + Dip(r.early) + [Online] + Dip(late) + [Offline];
  }

  lemma {:induction false} RoundsRun(cfg: Config, rounds: seq<Round>) returns (s: Sys)
    ensures Reachable(cfg, s) && Ready(s) && s.life.trace == [Registered] + Words(rounds)
  {
    if rounds == [] {
      s := BootRun(cfg, NO_RESPONSE);
    } else {
      var n := |rounds| - 1;
      s := RoundsRun(cfg, rounds[..n]);
      s := RoundRun(cfg, s, rounds[n]);
      assert [Registered] + Words(rounds[..n]) + Word(rounds[n]) == [Registered] + (Words(rounds[..n]) + Word(rounds[n]));
    }
  }

  lemma SentenceRun(cfg: Config, rounds: seq<Round>, last: Option<Last>) returns (s: Sys)
    ensures Reachable(cfg, s) && s.life.trace == Sentence(rounds, last)
  {
    s := RoundsRun(cfg, rounds);
    if last.Some? {
      var t := s.life.trace;
      var l := last.value;
      s := ConnectRun(cfg, s);
      s := DipRun(cfg, s, l.early);
      s := OnlineRun(cfg, s);
      s := DipRun(cfg, s, l.late);
      s := RevokeRun(cfg, s);
      Spell(t, [Connecting], Dip(l.early), [Online], Dip(l.late), [Revoked]);
    }
  }

  /** One step notifies at most once. */
  lemma TraceGrows(s: Sys, a: Action)
    ensures Step(s, a).life.trace == s.life.trace || exists x :: Step(s, a).life.trace == s.life.trace + [x]
  {
  }

  /** Every prefix of a run's trace is the trace of a prefix of the run. */
  lemma {:induction false} PrefixesAreTraces(cfg: Config, schedule: seq<Action>, t: seq<AgentState>)
    requires t <= Exec(cfg, schedule).life.trace
    ensures exists shorter :: Exec(cfg, shorter).life.trace == t
  {
    if t != Exec(cfg, schedule).life.trace {
      var n := |schedule| - 1;
      var s := Exec(cfg, schedule[..n]);
      TraceGrows(s, schedule[n]);
      PrefixesAreTraces(cfg, schedule[..n], t);
    }
  }

  /** A list of states is the notification trace of some run if and only if it is a prefix of
      REGISTERED, complete rounds, and perhaps a round ending in REVOKED. */
  lemma TracesAreExactlyTheLanguage(cfg: Config, t: seq<AgentState>)
    ensures (exists schedule :: Exec(cfg, schedule).life.trace == t) <==> InLanguage(t)
  {
    if exists schedule :: Exec(cfg, schedule).life.trace == t {
      var schedule :| Exec(cfg, schedule).life.trace == t;
      TraceInLanguage(cfg, schedule);
    }
    if InLanguage(t) {
      var rounds, last :| t <= Sentence(rounds, last);
      var s := SentenceRun(cfg, rounds, last);
      var schedule :| Exec(cfg, schedule) == s;
      PrefixesAreTraces(cfg, schedule, t);
    }
  }
}
