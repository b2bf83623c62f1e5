/** The language of notification traces, and a reader that recognises it one notification at a time. */
module TraceLanguage {
  import opened Options
  import opened States

  /** One turn of the reconnect loop: CONNECTING, perhaps DEGRADED, perhaps ONLINE with perhaps a
      second DEGRADED, then OFFLINE. */
  datatype Round = Round(early: bool, online: Option<bool>)

  /** The turn in which the key is revoked. */
  datatype Last = Last(early: bool, late: bool)

  function Dip(degraded: bool): seq<AgentState> {
    if degraded then [Degraded] else []
  }

  function Word(r: Round): seq<AgentState> {
    [Connecting] + Dip(r.early) + (if r.online.Some? then [Online] + Dip(r.online.value) else []) + [Offline]
  }

  function LastWord(last: Option<Last>): seq<AgentState> {
    match last
    case None => []
    case Some(l) => [Connecting] + Dip(l.early) + [Online] + Dip(l.late) + [Revoked]
  }

  function Words(rounds: seq<Round>): seq<AgentState> {
    if rounds == [] then [] else Words(rounds[..|rounds| - 1]) + Word(rounds[|rounds| - 1])
  }

  function Sentence(rounds: seq<Round>, last: Option<Last>): seq<AgentState> {
    [Registered] + Words(rounds) + LastWord(last)
  }

  ghost predicate InLanguage(t: seq<AgentState>) {
    exists rounds, last :: t <= Sentence(rounds, last)
  }

  /** How far into a round a trace has come. */
  datatype Open = Unregistered | Idle | Dialling(early: bool) | Up(early: bool, late: bool) | Dead(early: bool, late: bool)

  datatype Shape = Shape(rounds: seq<Round>, open: Open)

  function Advance(s: Shape, x: AgentState): Option<Shape> {
    match (s.open, x)
    case (Unregistered, Registered) => Some(s.(open := Idle))
    case (Idle, Connecting) => Some(s.(open := Dialling(false)))
    case (Dialling(e), Degraded) => if e then None else Some(s.(open := Dialling(true)))
    case (Dialling(e), Online) => Some(s.(open := Up(e, false)))
    case (Dialling(e), Offline) => Some(Shape(s.rounds + [Round(e, None)], Idle))
    case (Up(e, l), Degraded) => if l then None else Some(s.(open := Up(e, true)))
    case (Up(e, l), Offline) => Some(Shape(s.rounds + [Round(e, Some(l))], Idle))
    case (Up(e, l), Revoked) => Some(s.(open := Dead(e, l)))
    case _ => None
  }

  function Read(t: seq<AgentState>): Option<Shape> {
    if t == [] then Some(Shape([], Unregistered))
    else
      var before := Read(t[..|t| - 1]);
      if before.None? then None else Advance(before.value, t[|t| - 1])
  }

  lemma ReadSnoc(t: seq<AgentState>, x: AgentState)
    ensures Read(t + [x]) == if Read(t).None? then None else Advance(Read(t).value, x)
  {
    assert (t + [x])[..|t|] == t;
  }

  function OpenWord(o: Open): seq<AgentState> {
    match o
    case Unregistered => []
    case Idle => []
    case Dialling(e) => [Connecting] + Dip(e)
    case Up(e, l) => [Connecting] + Dip(e) + [Online] + Dip(l)
    case Dead(e, l) => [Connecting] + Dip(e) + [Online] + Dip(l) + [Revoked]
  }

  function Render(s: Shape): seq<AgentState> {
    if s.open.Unregistered? then [] else [Registered] + Words(s.rounds) + OpenWord(s.open)
  }

  lemma WordsSnoc(rounds: seq<Round>, r: Round)
    ensures Words(rounds + [r]) == Words(rounds) + Word(r)
  {
    assert (rounds + [r])[..|rounds|] == rounds;
  }

  function Closing(o: Open): Round
    requires o.Dialling? || o.Up?
  {
    match o
    case Dialling(e) => Round(e, None)
    case Up(e, l) => Round(e, Some(l))
  }

  lemma ClosingWord(o: Open)
    requires o.Dialling? || o.Up?
    ensures Word(Closing(o)) == OpenWord(o) + [Offline]
  {
    match o
    case Dialling(e) => assert Dip(e) + [] == Dip(e);
    case Up(e, l) => assert [Connecting] + Dip(e) + ([Online] + Dip(l)) == OpenWord(o);
  }

  lemma OpenWordGrows(o: Open, x: AgentState, o': Open)
    requires !o.Unregistered? && x != Offline
    requires Advance(Shape([], o), x) == Some(Shape([], o'))
    ensures OpenWord(o') == OpenWord(o) + [x]
  {
    match o
    case Idle =>
    case Dialling(e) =>
    case Up(e, l) =>
  }

  lemma Regroup(a: seq<AgentState>, b: seq<AgentState>, c: seq<AgentState>, x: AgentState)
    ensures a + b + (c + [x]) == a + b + c + [x]
    ensures a + (b + (c + [x])) == a + b + c + [x]
  {
  }

  /** A notification that closes the round leaves a sentence of complete rounds. */
  lemma ClosedRender(s: Shape)
    requires s.open.Dialling? || s.open.Up?
    ensures Sentence(s.rounds + [Closing(s.open)], None) == Render(s) + [Offline]
    ensures Render(Shape(s.rounds + [Closing(s.open)], Idle)) == Render(s) + [Offline]
  {
    var w := Words(s.rounds);
    var o := OpenWord(s.open);
    WordsSnoc(s.rounds, Closing(s.open));
    ClosingWord(s.open);
    Regroup([Registered], w, o, Offline);
    assert [Registered] + (w + (o + [Offline])) + [] == [Registered] + (w + (o + [Offline]));
  }

  lemma AdvanceRenders(s: Shape, x: AgentState)
    requires s.open.Unregistered? ==> s.rounds == []
    requires Advance(s, x).Some?
    ensures Render(Advance(s, x).value) == Render(s) + [x]
    ensures Advance(s, x).value.open.Unregistered? ==> Advance(s, x).value.rounds == []
  {
    var s' := Advance(s, x).value;
    if s.open.Unregistered? {
      assert Render(s') == [Registered];
    } else if x == Offline {
      assert s' == Shape(s.rounds + [Closing(s.open)], Idle);
      ClosedRender(s);
    } else {
      OpenWordGrows(s.open, x, s'.open);
      Regroup([Registered], Words(s.rounds), OpenWord(s.open), x);
    }
  }

  /** What the reader understood spells the trace it read. */
  lemma {:induction false} ReadIsFaithful(t: seq<AgentState>)
    requires Read(t).Some?
    ensures Render(Read(t).value) == t
    ensures Read(t).value.open.Unregistered? ==> Read(t).value.rounds == []
  {
    if t != [] {
      var p, x := t[..|t| - 1], t[|t| - 1];
      assert t == p + [x];
      assert Read(p).Some?;
      var s := Read(p).value;
      assert Advance(s, x).Some?;
      ReadIsFaithful(p);
      AdvanceRenders(s, x);
      assert Read(t).value == Advance(s, x).value;
    }
  }

  /** A trace the reader accepts is a prefix of a sentence. */
  lemma ReadableIsInLanguage(t: seq<AgentState>)
    requires Read(t).Some?
    ensures InLanguage(t)
  {
    ReadIsFaithful(t);
    var s := Read(t).value;
    if s.open.Unregistered? {
      assert t <= Sentence([], None);
    } else if s.open.Idle? {
      assert t <= Sentence(s.rounds, None);
    } else if s.open.Dead? {
      assert LastWord(Some(Last(s.open.early, s.open.late))) == OpenWord(s.open);
      assert t <= Sentence(s.rounds, Some(Last(s.open.early, s.open.late)));
    } else {
      ClosedRender(s);
      assert t <= Sentence(s.rounds + [Closing(s.open)], None);
    }
  }

  /** The machine state a trace ends in. */
  function Ending(s: Shape): AgentState {
    match s.open
    case Unregistered => PendingKey
    case Idle => if s.rounds == [] then Registered else Offline
    case Dialling(e) => if e then Degraded else Connecting
    case Up(_, l) => if l then Degraded else Online
    case Dead(_, _) => Revoked
  }
}
