/** Parallel dispatch and aggregation as values (internal/holmesprovider/provider.go). */
module FanOut {
  import opened Options
  import opened Fleet

  /** What an agent answers; the first four fields are its own claims.  Timestamp 0 is the zero time. */
  datatype AgentResult = AgentResult(clusterId: string, clusterName: string, command: string, requestId: string,
                                     timestamp: int, data: string, status: string, error: string)

  datatype Outcome = Answered(result: AgentResult) | DispatchFailed(message: string)

  datatype NormalizedResult = NormalizedResult(clusterId: string, clusterName: string, provider: string,
                                               command: string, timestamp: int, data: string,
                                               status: string, error: string)

  function Normalize(info: Info, command: string, outcome: Outcome, now: int): NormalizedResult {
    match outcome
    case DispatchFailed(message) =>
      NormalizedResult(info.clusterId, info.clusterName, info.provider, command, now, "{}", "failed", message)
    case Answered(r) =>
      NormalizedResult(info.clusterId, info.clusterName, info.provider, command,
                       if r.timestamp == 0 then now else r.timestamp, r.data, r.status, r.error)
  }

  /** The provider makes up the timestamp when the agent gave none. */
  predicate Generated(outcome: Outcome) {
    outcome.DispatchFailed? || outcome.result.timestamp == 0
  }

  /** Equal, except for a timestamp the provider made up. */
  predicate SameButClock(outcome: Outcome, a: NormalizedResult, b: NormalizedResult) {
    b == a.(timestamp := b.timestamp) && (!Generated(outcome) ==> a == b)
  }

  /** The identity fields come from the registry, whatever the agent claims about itself. */
  lemma IdentityFromRegistry(info: Info, command: string, r: AgentResult, claimed: AgentResult, now: int)
    requires claimed == r.(clusterId := claimed.clusterId, clusterName := claimed.clusterName,
                           command := claimed.command, requestId := claimed.requestId)
    ensures Normalize(info, command, Answered(claimed), now) == Normalize(info, command, Answered(r), now)
    ensures Normalize(info, command, Answered(r), now).clusterId == info.clusterId
  {
  }

  /** Goroutine `k` to finish is `order[k]`, and reads the clock as `clock[k]`. */
  ghost predicate Completion(n: nat, order: seq<nat>, clock: seq<int>) {
    && |clock| == |order|
    && (forall k :: 0 <= k < |order| ==> order[k] < n)
    && (forall j, k :: 0 <= j < k < |order| ==> order[j] != order[k])
  }

  /** The result slots after the goroutines in `order` have written theirs. */
  function Slots(infos: seq<Info>, command: string, outcomes: seq<Outcome>, order: seq<nat>, clock: seq<int>)
    : (slots: seq<Option<NormalizedResult>>)
    requires |outcomes| == |infos| && |clock| == |order|
    requires forall k :: 0 <= k < |order| ==> order[k] < |infos|
    ensures |slots| == |infos|
  {
    if order == [] then seq(|infos|, _ => None)
    else
      var n := |order| - 1;
      var i := order[n];
      Slots(infos, command, outcomes, order[..n], clock[..n])[i := Some(Normalize(infos[i], command, outcomes[i], clock[n]))]
  }

  /** A slot is empty until its own goroutine finishes, and from then on holds that cluster's result,
      whatever the other goroutines do. */
  lemma {:induction false} SlotIsOwn(infos: seq<Info>, command: string, outcomes: seq<Outcome>, order: seq<nat>, clock: seq<int>, i: nat)
    requires |outcomes| == |infos| && Completion(|infos|, order, clock) && i < |infos|
    ensures var slot := Slots(infos, command, outcomes, order, clock)[i];
      && (slot.None? <==> i !in order)
      && (forall k :: 0 <= k < |order| && order[k] == i ==> slot == Some(Normalize(infos[i], command, outcomes[i], clock[k])))
  {
    if order != [] {
      var n := |order| - 1;
      assert order == order[..n] + [order[n]];
      SlotIsOwn(infos, command, outcomes, order[..n], clock[..n], i);
      forall k | 0 <= k < |order| && order[k] == i
        ensures Slots(infos, command, outcomes, order, clock)[i] == Some(Normalize(infos[i], command, outcomes[i], clock[k]))
      {
        if k < n {
          assert order[..n][k] == i && clock[..n][k] == clock[k];
        }
      }
    }
  }

  /** An outcome matters only once its goroutine has finished. */
  lemma {:induction false} UnfinishedIrrelevant(infos: seq<Info>, command: string, outcomes: seq<Outcome>,
                                                order: seq<nat>, clock: seq<int>, i: nat, outcome: Outcome)
    requires |outcomes| == |infos| && Completion(|infos|, order, clock) && i < |infos| && i !in order
    ensures Slots(infos, command, outcomes[i := outcome], order, clock) == Slots(infos, command, outcomes, order, clock)
  {
    if order != [] {
      var n := |order| - 1;
      assert order[n] in order;
      UnfinishedIrrelevant(infos, command, outcomes, order[..n], clock[..n], i, outcome);
    }
  }

  /** Any two orders of completion give the same results, up to timestamps the provider made up. */
  lemma OrderIrrelevant(infos: seq<Info>, command: string, outcomes: seq<Outcome>,
                        order: seq<nat>, clock: seq<int>, order': seq<nat>, clock': seq<int>, i: nat)
    requires |outcomes| == |infos| && i < |infos|
    requires Completion(|infos|, order, clock) && Completion(|infos|, order', clock')
    requires (forall j :: 0 <= j < |infos| ==> j in order && j in order')
    ensures var a, b := Slots(infos, command, outcomes, order, clock)[i], Slots(infos, command, outcomes, order', clock')[i];
      a.Some? && b.Some? && SameButClock(outcomes[i], a.value, b.value)
  {
    SlotIsOwn(infos, command, outcomes, order, clock, i);
    SlotIsOwn(infos, command, outcomes, order', clock', i);
    var k :| 0 <= k < |order| && order[k] == i;
    var k' :| 0 <= k' < |order'| && order'[k'] == i;
  }

  /** What happens at one cluster leaves every other slot as it was. */
  lemma {:induction false} OthersUnaffected(infos: seq<Info>, command: string, outcomes: seq<Outcome>,
                                            order: seq<nat>, clock: seq<int>, j: nat, other: Outcome, i: nat)
    requires |outcomes| == |infos| && Completion(|infos|, order, clock) && i < |infos| && j < |infos| && i != j
    ensures Slots(infos, command, outcomes[j := other], order, clock)[i] == Slots(infos, command, outcomes, order, clock)[i]
  {
    if order != [] {
      var n := |order| - 1;
      OthersUnaffected(infos, command, outcomes, order[..n], clock[..n], j, other, i);
    }
  }

  // ---- The provider breakdown ----

  function CountProvider(infos: seq<Info>, provider: string): nat {
    if infos == [] then 0
    else CountProvider(infos[..|infos| - 1], provider) + if infos[|infos| - 1].provider == provider then 1 else 0
  }

  /** What contextFor's map must hold: every provider with its number of clusters, and no other. */
  ghost predicate IsBreakdown(infos: seq<Info>, m: map<string, nat>) {
    forall p :: (p in m <==> CountProvider(infos, p) > 0) && (p in m ==> m[p] == CountProvider(infos, p))
  }

  function Bump(m: map<string, nat>, p: string): map<string, nat> {
    m[p := (if p in m then m[p] else 0) + 1]
  }

  lemma BumpBreakdown(infos: seq<Info>, x: Info, m: map<string, nat>)
    requires IsBreakdown(infos, m)
    ensures IsBreakdown(infos + [x], Bump(m, x.provider))
  {
    assert (infos + [x])[..|infos|] == infos;
  }

  ghost function Total(m: map<string, nat>): nat {
    if m == map[] then 0
    else
      assert m.Keys != {};
      var k :| k in m;
      m[k] + Total(m - {k})
  }

  lemma {:induction false} TotalWithout(m: map<string, nat>, k: string)
    requires k in m
    ensures Total(m) == m[k] + Total(m - {k})
  {
    assert m.Keys != {};
    var j :| j in m && Total(m) == m[j] + Total(m - {j});
    if j != k {
      TotalWithout(m - {j}, k);
      TotalWithout(m - {k}, j);
      assert m - {j} - {k} == m - {k} - {j};
    }
  }

  lemma TotalBump(m: map<string, nat>, p: string)
    ensures Total(Bump(m, p)) == Total(m) + 1
  {
    TotalWithout(Bump(m, p), p);
    assert Bump(m, p) - {p} == m - {p};
    if p in m {
      TotalWithout(m, p);
    } else {
      assert m - {p} == m;
    }
  }

  lemma BreakdownIsUnique(infos: seq<Info>, a: map<string, nat>, b: map<string, nat>)
    requires IsBreakdown(infos, a) && IsBreakdown(infos, b)
    ensures a == b
  {
  }

  /** The counts of any correct breakdown add up to the number of clusters. */
  lemma {:induction false} BreakdownTotals(infos: seq<Info>, m: map<string, nat>)
    requires IsBreakdown(infos, m)
    ensures Total(m) == |infos|
  {
    if infos == [] {
      assert m == map[];
    } else {
      var n := |infos| - 1;
      var before := map p | p in m && CountProvider(infos[..n], p) > 0 :: CountProvider(infos[..n], p);
      forall p
        ensures CountProvider(infos[..n], p) > 0 ==> p in m
      {
        assert CountProvider(infos, p) >= CountProvider(infos[..n], p);
      }
      BreakdownTotals(infos[..n], before);
      BumpBreakdown(infos[..n], infos[n], before);
      assert infos[..n] + [infos[n]] == infos;
      BreakdownIsUnique(infos, Bump(before, infos[n].provider), m);
      TotalBump(before, infos[n].provider);
    }
  }

  // ---- Finished runs ----

  /** The slots of the goroutines that have finished hold `results`. */
  ghost predicate Written(infos: seq<Info>, command: string, outcomes: seq<Outcome>, order: seq<nat>, clock: seq<int>,
                          results: seq<NormalizedResult>)
  {
    && |outcomes| == |infos| == |results| && Completion(|infos|, order, clock)
    && forall i :: 0 <= i < |infos| && i in order ==> Slots(infos, command, outcomes, order, clock)[i] == Some(results[i])
  }

  ghost predicate Finished(infos: seq<Info>, command: string, outcomes: seq<Outcome>, order: seq<nat>, clock: seq<int>,
                           results: seq<NormalizedResult>)
  {
    Written(infos, command, outcomes, order, clock, results) && forall i :: 0 <= i < |infos| ==> i in order
  }

  /** One more goroutine is under way: what it will come to does not show yet. */
  lemma StartOne(infos: seq<Info>, command: string, outcomes: seq<Outcome>, order: seq<nat>, clock: seq<int>,
                 results: seq<NormalizedResult>, i: nat, outcome: Outcome)
    requires Written(infos, command, outcomes, order, clock, results) && i < |infos| && i !in order
    ensures Written(infos, command, outcomes[i := outcome], order, clock, results)
  {
    UnfinishedIrrelevant(infos, command, outcomes, order, clock, i, outcome);
  }

  /** One more goroutine finishes and writes its own slot. */
  lemma WriteOne(infos: seq<Info>, command: string, outcomes: seq<Outcome>, order: seq<nat>, clock: seq<int>,
                 results: seq<NormalizedResult>, i: nat, now: int)
    requires Written(infos, command, outcomes, order, clock, results) && i < |infos| && i !in order
    ensures Written(infos, command, outcomes, order + [i], clock + [now],
                    results[i := Normalize(infos[i], command, outcomes[i], now)])
  {
    CompletionSnoc(|infos|, order, clock, i, now);
    SlotsSnoc(infos, command, outcomes, order, clock, i, now);
  }

  lemma CompletionSnoc(n: nat, order: seq<nat>, clock: seq<int>, i: nat, now: int)
    requires Completion(n, order, clock) && i < n && i !in order
    ensures Completion(n, order + [i], clock + [now])
  {
  }

  lemma SlotsSnoc(infos: seq<Info>, command: string, outcomes: seq<Outcome>, order: seq<nat>, clock: seq<int>, i: nat, now: int)
    requires |outcomes| == |infos| && Completion(|infos|, order, clock) && i < |infos|
    requires Completion(|infos|, order + [i], clock + [now])
    ensures Slots(infos, command, outcomes, order + [i], clock + [now]) ==
      Slots(infos, command, outcomes, order, clock)[i := Some(Normalize(infos[i], command, outcomes[i], now))]
  {
    assert (order + [i])[..|order|] == order && (clock + [now])[..|order|] == clock;
  }

  /** Every goroutine, once. */
  ghost predicate EachOnce(n: nat, started: seq<nat>) {
    && (forall k :: 0 <= k < |started| ==> started[k] < n)
    && (forall j, k :: 0 <= j < k < |started| ==> started[j] != started[k])
    && forall i :: 0 <= i < n ==> i in started
  }

  /** Result `i` is about cluster `i`, for every order of completion: its identity is the registry's; an answer's
      status, data and error are passed on as they are, and its time unless it gave none; a dispatch that failed
      reads as a failure with no data.  A time that the agent did not give was read by this cluster's own
      goroutine. */
  lemma ResultsAreOwn(infos: seq<Info>, command: string, outcomes: seq<Outcome>, order: seq<nat>, clock: seq<int>,
                      results: seq<NormalizedResult>, i: nat)
    requires Finished(infos, command, outcomes, order, clock, results) && i < |infos|
    ensures var r := results[i];
      && r.clusterId == infos[i].clusterId && r.clusterName == infos[i].clusterName && r.provider == infos[i].provider
      && r.command == command
      && match outcomes[i]
         case Answered(answer) =>
           && r.status == answer.status && r.data == answer.data && r.error == answer.error
           && (answer.timestamp != 0 ==> r.timestamp == answer.timestamp)
         case DispatchFailed(message) => r.status == "failed" && r.data == "{}" && r.error == message
    ensures Generated(outcomes[i]) ==> exists k :: 0 <= k < |order| && order[k] == i && clock[k] == results[i].timestamp
  {
    SlotIsOwn(infos, command, outcomes, order, clock, i);
    var k :| 0 <= k < |order| && order[k] == i;
  }

  /** A failure at cluster `j` changes result `j` only. */
  lemma FailureIsContained(infos: seq<Info>, command: string, outcomes: seq<Outcome>, order: seq<nat>, clock: seq<int>,
                           results: seq<NormalizedResult>, j: nat, message: string, results': seq<NormalizedResult>)
    requires j < |infos| && Finished(infos, command, outcomes, order, clock, results)
    requires Finished(infos, command, outcomes[j := DispatchFailed(message)], order, clock, results')
    ensures results'[j].status == "failed" && results'[j].error == message
    ensures results' == results[j := results'[j]]
  {
    ResultsAreOwn(infos, command, outcomes[j := DispatchFailed(message)], order, clock, results', j);
    forall i | 0 <= i < |infos| && i != j
      ensures results'[i] == results[i]
    {
      OthersUnaffected(infos, command, outcomes, order, clock, j, DispatchFailed(message), i);
    }
  }
}
