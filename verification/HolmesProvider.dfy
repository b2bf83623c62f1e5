/** internal/holmesprovider/provider.go: target resolution with its in-place filter, the parallel
    dispatch into indexed slots, the provider breakdown and the audit record.
 */
module HolmesProvider {
  import opened Options
  import opened Replay
  import opened Fleet
  import opened FanOut
  import opened HolmesRegistry

  /** A request to one agent, and what became of it. */
  datatype Call = Call(cluster: Info, command: string, requestId: string, parameters: map<string, string>, outcome: Outcome)

  /** The transport to the agents.  What an agent answers is up to the environment. */
  class Dispatcher {
    ghost var calls: seq<Call>

    method DispatchTool(cluster: ClusterInfo, command: string, requestId: string, parameters: map<string, string>)
      returns (outcome: Outcome)
      modifies this
      ensures calls == old(calls) + [Call(Val(cluster), command, requestId, parameters, outcome)]
    {
      outcome := *;
      calls := calls + [Call(Val(cluster), command, requestId, parameters, outcome)];
    }
  }

  datatype AuditRecord = AuditRecord(requestId: string, tool: string, clustersTargeted: seq<string>, resultCount: nat)

  class AuditSink {
    var records: seq<AuditRecord>

    /** The source ignores the reply. */
    method RecordToolInvocation(record: AuditRecord) returns (ok: bool)
      modifies this
      ensures records == old(records) + [record]
    {
      records := records + [record];
      ok := *;
    }
  }

  datatype Invocation = Invocation(requestId: string, tool: string, target: Target, parameters: map<string, string>)

  datatype Aggregated = Aggregated(requestId: string, tool: string, clusterCount: nat,
                                   providerBreakdown: map<string, nat>, results: seq<NormalizedResult>)

  datatype InvokeError = DispatcherRequired | UnknownTool(tool: string) | NotRegistered(clusterId: string) | NoClusters(capability: string)

  datatype Reply = Done(value: Aggregated) | Failed(error: InvokeError)

  datatype Resolution = Selected(buf: array<ClusterInfo>, len: nat) | Unregistered(clusterId: string)
  {
    function Missing(): Option<string> {
      if Unregistered? then Some(clusterId) else None
    }
  }

  /** The records whose values have the capability. */
  ghost function Kept(s: seq<ClusterInfo>, vals: seq<Info>, capability: string): seq<ClusterInfo>
    requires |s| == |vals|
  {
    if s == [] then []
    else
      var n := |s| - 1;
      Kept(s[..n], vals[..n], capability) + if capability in vals[n].capabilities then [s[n]] else []
  }

  lemma {:induction false} KeptAre(s: seq<ClusterInfo>, vals: seq<Info>, capability: string)
    requires |s| == |vals|
    ensures forall c :: c in Kept(s, vals, capability) ==> c in s
  {
    if s != [] {
      KeptAre(s[..|s| - 1], vals[..|s| - 1], capability);
    }
  }

  lemma {:induction false} KeptShows(s: seq<ClusterInfo>, vals: seq<Info>, capability: string)
    requires Shows(s, vals)
    ensures Shows(Kept(s, vals, capability), WithCapability(vals, capability))
  {
    if s != [] {
      KeptShows(s[..|s| - 1], vals[..|s| - 1], capability);
    }
  }

  lemma KeptNext(s: seq<ClusterInfo>, vals: seq<Info>, capability: string, i: nat)
    requires |s| == |vals| && i < |s|
    ensures Kept(s[..i + 1], vals[..i + 1], capability) ==
      Kept(s[..i], vals[..i], capability) + if capability in vals[i].capabilities then [s[i]] else []
  {
    assert s[..i + 1][..i] == s[..i] && vals[..i + 1][..i] == vals[..i];
  }

  /** The in-place filter: it writes to the front of the array it is still reading, and the write index
      never passes the read index. */
  method Compact(buf: array<ClusterInfo>, capability: string, ghost vals: seq<Info>) returns (w: nat)
    requires Shows(buf[..], vals)
    modifies buf
    ensures w <= buf.Length && buf[w..] == old(buf[w..])
    ensures buf[..w] == Kept(old(buf[..]), vals, capability)
  {
    ghost var was := buf[..];
    w := 0;
    for i := 0 to buf.Length
      invariant w <= i && Shows(was, vals)
      invariant buf[..w] == Kept(was[..i], vals[..i], capability)
      invariant forall k :: w <= k < buf.Length ==> buf[k] == was[k]
    {
      var cluster := buf[i];
      KeptNext(was, vals, capability, i);
      var capable := Has(cluster.capabilities, capability);
      if capable {
        buf[w] := cluster;
        w := w + 1;
      }
    }
    assert was[..|was|] == was && vals[..|was|] == vals;
  }

  method FilterInPlace(buf: array<ClusterInfo>, capability: string, ghost vals: seq<Info>) returns (w: nat)
    requires Shows(buf[..], vals)
    modifies buf
    ensures w <= buf.Length && Shows(buf[..w], WithCapability(vals, capability))
    ensures forall c :: c in buf[..w] ==> c in old(buf[..])
  {
    KeptShows(buf[..], vals, capability);
    KeptAre(buf[..], vals, capability);
    ghost var kept := Kept(buf[..], vals, capability);
    w := Compact(buf, capability, vals);
    forall c | c in kept
      ensures Val(c) == old(Val(c))
    {
    }
  }

  /** Identifier `i` is the first that was not registered when it was looked up. */
  ghost predicate FirstMissing(view: seq<Registry>, ids: seq<string>, i: nat) {
    i < |ids| && |ids| <= |view| && ids[i] !in view[i] && AllRegistered(view, ids[..i])
  }

  /** What others may do before each lookup. */
  predicate Disturbance(others: seq<seq<Op<string, Info>>>) {
    forall i :: 0 <= i < |others| ==> Registers(others[i])
  }

  /** What the lookups find when the first of them is still to come. */
  ghost predicate Awaits(m: Registry, others: seq<seq<Op<string, Info>>>, view: seq<Registry>) {
    Disturbance(others) && view == Seen(m, others)
  }

  /** The registry after some of the lookups. */
  ghost function Left(m: Registry, view: seq<Registry>, seen: nat): Registry
    requires seen <= |view|
  {
    if seen == 0 then m else view[seen - 1]
  }

  lemma LeftNext(m: Registry, others: seq<seq<Op<string, Info>>>, view: seq<Registry>, i: nat)
    requires Awaits(m, others, view) && i < |others|
    ensures Replayed(Left(m, view, i), others[i]) == view[i] && Registers(others[i])
  {
    assert others[..i + 1][..i] == others[..i] && others[..i + 1][i] == others[i];
    assert i > 0 ==> view[i - 1] == After(m, others[..i]);
    assert view[i] == After(m, others[..i + 1]);
  }

  /** How looking up the identifiers ends: `seen` lookups, and the first unknown identifier if there is one. */
  ghost predicate Ends(view: seq<Registry>, ids: seq<string>, missing: Option<string>, seen: nat)
    requires |ids| <= |view|
  {
    if AllRegistered(view, ids) then missing.None? && seen == |view|
    else seen > 0 && FirstMissing(view, ids, seen - 1) && missing == Some(ids[seen - 1])
  }

  lemma EndsAt(view: seq<Registry>, ids: seq<string>, i: nat)
    requires i < |ids| <= |view| && AllRegistered(view, ids[..i]) && ids[i] !in view[i]
    ensures Ends(view, ids, Some(ids[i]), i + 1)
  {
  }

  /** Others change the registry, then the identifier is looked up. */
  method LookUpOne(registry: ToolRegistry, changes: seq<Op<string, Info>>, id: string, out: seq<ClusterInfo>, ghost vals: seq<Info>)
    returns (found: bool, more: seq<ClusterInfo>)
    requires registry.Valid() && Registers(changes) && Shows(out, vals)
    modifies registry`clusters
    ensures registry.Valid() && registry.View() == Replayed(old(registry.View()), changes)
    ensures found <==> id in registry.View()
    ensures Shows(more, if found then vals + [registry.View()[id]] else vals)
    ensures forall c :: c in more ==> c in out || (fresh(c.groups) && fresh(c.capabilities))
  {
    registry.Churn(changes);
    found, more := AddFound(registry, id, out, vals);
  }

  method AddFound(registry: ToolRegistry, id: string, out: seq<ClusterInfo>, ghost vals: seq<Info>)
    returns (found: bool, more: seq<ClusterInfo>)
    requires registry.Valid() && Shows(out, vals)
    ensures registry.View() == old(registry.View()) && (found <==> id in registry.View())
    ensures Shows(more, if found then vals + [registry.View()[id]] else vals)
    ensures forall c :: c in more ==> c in out || (fresh(c.groups) && fresh(c.capabilities))
  {
    ghost var m := registry.View();
    var cluster := registry.Cluster(id);
    assert registry.View() == m;
    if cluster.None? {
      return false, out;
    }
    return true, out + [cluster.value];
  }

  /** One turn of the loop below: others change the registry, then identifier `i` is looked up. */
  method LookUpNext(registry: ToolRegistry, ids: seq<string>, others: seq<seq<Op<string, Info>>>, i: nat,
                    out: seq<ClusterInfo>, ghost m: Registry, ghost view: seq<Registry>)
    returns (found: bool, more: seq<ClusterInfo>)
    requires registry.Valid() && i < |ids| == |others| && Awaits(m, others, view)
    requires registry.View() == Left(m, view, i) && AllRegistered(view, ids[..i]) && Shows(out, Looked(view, ids[..i]))
    modifies registry`clusters
    ensures registry.Valid() && registry.View() == Left(m, view, i + 1) && (found <==> ids[i] in view[i])
    ensures found ==> AllRegistered(view, ids[..i + 1]) && Shows(more, Looked(view, ids[..i + 1]))
    ensures forall c :: c in more ==> c in out || (fresh(c.groups) && fresh(c.capabilities))
  {
    LeftNext(m, others, view, i);
    ghost var vals := Looked(view, ids[..i]);
    found, more := LookUpOne(registry, others[i], ids[i], out, vals);
    if found {
      LookedNext(view, ids, i);
    }
  }

  /** One lookup per identifier, in the caller's order, each under its own lock; the first unknown one ends it. */
  method LookUp(registry: ToolRegistry, ids: seq<string>, others: seq<seq<Op<string, Info>>>, ghost view: seq<Registry>)
    returns (missing: Option<string>, out: seq<ClusterInfo>, ghost seen: nat)
    requires registry.Valid() && |others| == |ids| && Awaits(registry.View(), others, view)
    modifies registry`clusters
    ensures registry.Valid() && seen <= |ids| && registry.View() == Left(old(registry.View()), view, seen)
    ensures Ends(view, ids, missing, seen)
    ensures missing.None? ==> Shows(out, Looked(view, ids))
    ensures forall c :: c in out ==> fresh(c.groups) && fresh(c.capabilities)
  {
    ghost var m := registry.View();
    out, seen := [], 0;
    for i := 0 to |ids|
      invariant seen == i && registry.Valid() && registry.View() == Left(m, view, i)
      invariant AllRegistered(view, ids[..i]) && Shows(out, Looked(view, ids[..i]))
      invariant forall c :: c in out ==> fresh(c.groups) && fresh(c.capabilities)
    {
      var found;
      found, out := LookUpNext(registry, ids, others, i, out, m, view);
      seen := i + 1;
      if !found {
        EndsAt(view, ids, i);
        return Some(ids[i]), out, seen;
      }
    }
    assert ids[..|ids|] == ids;
    return None, out, seen;
  }

  lemma LookedNext(view: seq<Registry>, ids: seq<string>, i: nat)
    requires i < |ids| <= |view| && AllRegistered(view, ids[..i]) && ids[i] in view[i]
    ensures AllRegistered(view, ids[..i + 1])
    ensures Looked(view, ids[..i + 1]) == Looked(view, ids[..i]) + [view[i][ids[i]]]
  {
  }

  lemma InGroupNext(vals: seq<Info>, group: string, i: nat)
    requires i < |vals|
    ensures InGroup(vals[..i + 1], group) == InGroup(vals[..i], group) + if group in vals[i].groups then [vals[i]] else []
  {
    assert vals[..i + 1][..i] == vals[..i];
  }

  /** The members of the group, as a new list over the same records. */
  method SelectGroup(all: array<ClusterInfo>, group: string, ghost vals: seq<Info>) returns (out: seq<ClusterInfo>)
    requires Shows(all[..], vals)
    ensures Shows(out, InGroup(vals, group))
    ensures forall c :: c in out ==> c in all[..]
  {
    ghost var was := all[..];
    out := [];
    for i := 0 to all.Length
      invariant forall c :: c in out ==> c in was
      invariant Shows(out, InGroup(vals[..i], group))
    {
      var cluster := all[i];
      assert cluster == was[i];
      InGroupNext(vals, group, i);
      var member := Has(cluster.groups, group);
      if member {
        out := out + [cluster];
      }
    }
    assert vals[..all.Length] == vals;
  }

  class Provider {
    const registry: ToolRegistry
    const dispatcher: Dispatcher?
    const audit: AuditSink?

    constructor (registry: ToolRegistry, dispatcher: Dispatcher?, audit: AuditSink?)
      ensures this.registry == registry && this.dispatcher == dispatcher && this.audit == audit
    {
      this.registry, this.dispatcher, this.audit := registry, dispatcher, audit;
    }

    method ChooseGroup(group: string) returns (selected: array<ClusterInfo>)
      requires registry.Valid()
      ensures fresh(selected) && forall c :: c in selected[..] ==> fresh(c.groups) && fresh(c.capabilities)
      ensures Shows(selected[..], InGroup(Listing(registry.View()), group))
    {
      ghost var m := registry.View();
      var all := registry.Clusters();
      assert registry.View() == m;
      var out := SelectGroup(all, group, Listing(m));
      selected := ToArray(out);
      assert registry.View() == m;
    }

    /** The branches that read the registry once. */
    method ChooseAtOnce(target: Target, capability: string) returns (selected: array<ClusterInfo>)
      requires registry.Valid() && target.clusterIds == []
      ensures fresh(selected) && forall c :: c in selected[..] ==> fresh(c.groups) && fresh(c.capabilities)
      ensures Shows(selected[..], Chosen([registry.View()], target, capability))
    {
      if target.group != "" {
        selected := ChooseGroup(target.group);
      } else if target.all {
        selected := registry.Clusters();
      } else {
        selected := registry.GetClustersForCapability(capability);
      }
    }

    /** The clusters a target names, in a new array: the four branches of resolveClusters, with others at
        work before each time the registry is locked. */
    method Choose(target: Target, capability: string, others: seq<seq<Op<string, Info>>>, ghost view: seq<Registry>)
      returns (missing: Option<string>, selected: array<ClusterInfo>, ghost seen: nat)
      requires registry.Valid() && |others| == Lookups(target) && Awaits(registry.View(), others, view)
      modifies registry`clusters
      ensures registry.Valid() && seen <= |view| && registry.View() == Left(old(registry.View()), view, seen)
      ensures Ends(view, target.clusterIds, missing, seen)
      ensures missing.None? ==> Shows(selected[..], Chosen(view, target, capability))
      ensures fresh(selected) && forall c :: c in selected[..] ==> fresh(c.groups) && fresh(c.capabilities)
    {
      ghost var m := registry.View();
      if |target.clusterIds| > 0 {
        var out: seq<ClusterInfo>;
        missing, out, seen := LookUp(registry, target.clusterIds, others, view);
        selected := ToArray(out);
      } else {
        LeftNext(m, others, view, 0);
        registry.Churn(others[0]);
        missing, seen := None, 1;
        selected := ChooseAtOnce(target, capability);
        assert view == [view[0]];
      }
      assert registry.View() == Left(m, view, seen);
    }

    /** The filter does not reach the registry. */
    method KeepCapable(buf: array<ClusterInfo>, capability: string, ghost vals: seq<Info>) returns (w: nat)
      requires Shows(buf[..], vals)
      modifies buf
      ensures registry.Valid() == old(registry.Valid()) && registry.View() == old(registry.View())
      ensures w <= buf.Length && Shows(buf[..w], WithCapability(vals, capability))
      ensures forall c :: c in buf[..w] ==> c in old(buf[..])
    {
      w := FilterInPlace(buf, capability, vals);
    }

    /** Fails exactly when an explicit identifier is not registered when it is looked up; otherwise the result
        is the target's clusters that have the capability, in memory that nothing else refers to. */
    method ResolveClusters(target: Target, capability: string, others: seq<seq<Op<string, Info>>>, ghost view: seq<Registry>)
      returns (r: Resolution, ghost seen: nat)
      requires registry.Valid() && |others| == Lookups(target) && Awaits(registry.View(), others, view)
      modifies registry`clusters
      ensures registry.Valid() && seen <= |view| && registry.View() == Left(old(registry.View()), view, seen)
      ensures Ends(view, target.clusterIds, r.Missing(), seen)
      ensures r.Selected? ==> fresh(r.buf) && r.len <= r.buf.Length
      ensures r.Selected? ==> Shows(r.buf[..r.len], Resolved(view, target, capability))
      ensures r.Selected? ==> forall c :: c in r.buf[..r.len] ==> fresh(c.groups) && fresh(c.capabilities)
    {
      var missing, selected;
      missing, selected, seen := Choose(target, capability, others, view);
      if missing.Some? {
        return Unregistered(missing.value), seen;
      }
      var n := KeepCapable(selected, capability, Chosen(view, target, capability));
      return Selected(selected, n), seen;
    }

    /** A goroutine starts: it calls its cluster. */
    method StartNext(invocation: Invocation, buf: array<ClusterInfo>, pending: set<nat>, flying: map<nat, Outcome>,
                     ghost g: Group, ghost before: seq<Call>)
      returns (pending': set<nat>, flying': map<nat, Outcome>, ghost g': Group)
      requires dispatcher != null && g.Ok(invocation.tool, pending, flying) && pending != {}
      requires |g.infos| <= buf.Length && Shows(buf[..|g.infos|], g.infos)
      requires dispatcher.calls == before + Calls(g.infos, g.outcomes, invocation, g.started)
      modifies dispatcher
      ensures pending' < pending && g'.Ok(invocation.tool, pending', flying')
      ensures g'.infos == g.infos && g'.results == g.results
      ensures dispatcher.calls == before + Calls(g'.infos, g'.outcomes, invocation, g'.started)
    {
      var idx: nat :| idx in pending;
      assert g.Size(|g.infos|);
      assert idx < |g.infos| && buf[..|g.infos|][idx] == buf[idx];
            var outcome := dispatcher.DispatchTool(buf[idx], invocation.tool, invocation.requestId, invocation.parameters);
      CallsSnoc(g.infos, g.outcomes, invocation, g.started, idx, outcome);
      StartGroup(g, invocation.tool, pending, flying, idx, outcome);
      pending', flying', g' := pending - {idx}, flying[idx := outcome], g.Started(idx, outcome);
    }

    /** A goroutine ends: it writes the slot that is its own. */
    method EndNext(invocation: Invocation, buf: array<ClusterInfo>, pending: set<nat>, flying: map<nat, Outcome>,
                   results: array<NormalizedResult>, ghost g: Group)
      returns (flying': map<nat, Outcome>, ghost g': Group)
      requires g.Ok(invocation.tool, pending, flying) && flying != map[] && g.results == results[..]
      requires |g.infos| <= buf.Length && Shows(buf[..|g.infos|], g.infos)
      modifies results
      ensures flying'.Keys < flying.Keys && g'.Ok(invocation.tool, pending, flying') && g'.results == results[..]
      ensures g'.infos == g.infos && g'.started == g.started && g'.outcomes == g.outcomes
    {
      assert flying.Keys != {};
      var idx: nat :| idx in flying;
      assert g.Size(|g.infos|);
      assert idx < |g.infos| && buf[..|g.infos|][idx] == buf[idx];
      var now: int := *;
      var r := NormalizeRecord(buf[idx], invocation.tool, flying[idx], now);
      EndGroup(g, invocation.tool, pending, flying, idx, now);
      results[idx] := r;
      flying', g' := flying - {idx}, g.Ended(invocation.tool, idx, now);
    }

    /** One goroutine per cluster.  They start in any order, end in any order, and any number of them are
        under way at a time; each calls its cluster once and writes its own slot. */
    method DispatchAll(invocation: Invocation, buf: array<ClusterInfo>, n: nat, ghost infos: seq<Info>)
      returns (results: array<NormalizedResult>, ghost g: Group)
      requires dispatcher != null && n <= buf.Length && Shows(buf[..n], infos)
      modifies dispatcher
      ensures fresh(results) && g.infos == infos && g.results == results[..] && g.Done(invocation.tool)
      ensures dispatcher.calls == old(dispatcher.calls) + Calls(infos, g.outcomes, invocation, g.started)
    {
      results := new NormalizedResult[n](_ => ZERO_RESULT);
      g := Group(infos, seq(n, _ => DispatchFailed("")), [], [], [], results[..]);
      g := RunAll(invocation, buf, results, g);
    }

    method RunAll(invocation: Invocation, buf: array<ClusterInfo>, results: array<NormalizedResult>, ghost start: Group)
      returns (ghost g: Group)
      requires dispatcher != null && results.Length == |start.infos| <= buf.Length
      requires Shows(buf[..|start.infos|], start.infos) && start.results == results[..]
      requires start.started == [] && start.Ok(invocation.tool, Indices(|start.infos|), map[])
      modifies dispatcher, results
      ensures g.infos == start.infos && g.results == results[..] && g.Done(invocation.tool)
      ensures dispatcher.calls == old(dispatcher.calls) + Calls(g.infos, g.outcomes, invocation, g.started)
    {
      g := start;
      var pending: set<nat>, flying: map<nat, Outcome> := Indices(results.Length), map[];
      while pending != {} || flying != map[]
        invariant Shows(buf[..|start.infos|], start.infos) && g.infos == start.infos && g.results == results[..]
        invariant g.Ok(invocation.tool, pending, flying)
        invariant dispatcher.calls == old(dispatcher.calls) + Calls(g.infos, g.outcomes, invocation, g.started)
        decreases pending, flying.Keys
      {
        if {
          case pending != {} =>
            pending, flying, g := StartNext(invocation, buf, pending, flying, g, old(dispatcher.calls));
          case flying != map[] =>
            flying, g := EndNext(invocation, buf, pending, flying, results, g);
        }
      }
      AllEnded(g, invocation.tool);
    }

    /** The checks before any dispatch. */
    method Admit(invocation: Invocation, others: seq<seq<Op<string, Info>>>, ghost view: seq<Registry>)
      returns (error: Option<InvokeError>, buf: array<ClusterInfo>, n: nat, ghost seen: nat)
      requires registry.Valid() && |others| == Lookups(invocation.target) && Awaits(registry.View(), others, view)
      modifies registry`clusters
      ensures registry.Valid() && seen <= |view| && registry.View() == Left(old(registry.View()), view, seen)
      ensures error.None? <==> dispatcher != null && Servable(registry.tools.Keys, view, invocation)
      ensures error.Some? ==> RightError(error.value, dispatcher != null, registry.tools.Keys, view, invocation)
      ensures n <= buf.Length && (error.None? ==> seen == |view|)
      ensures error.None? ==> Shows(buf[..n], Resolved(view, invocation.target, invocation.tool))
    {
      ghost var m := registry.View();
      buf := ToArray([]);
      assert registry.View() == m;
      n, seen := 0, 0;
      if dispatcher == null {
        return Some(DispatcherRequired), buf, n, seen;
      }
      var tool := registry.Tool(invocation.tool);
      assert registry.View() == m;
      if tool.None? {
        return Some(UnknownTool(invocation.tool)), buf, n, seen;
      }
      var r;
      r, seen := ResolveClusters(invocation.target, invocation.tool, others, view);
      if r.Unregistered? {
        return Some(NotRegistered(r.clusterId)), buf, n, seen;
      }
      if r.len == 0 {
        return Some(NoClusters(invocation.tool)), buf, n, seen;
      }
      return None, r.buf, r.len, seen;
    }

    /** Either an error that says what is wrong, and then nothing is dispatched and nothing recorded; or one
        dispatch and one result for each cluster of the target, and one audit record.  Others register and
        remove clusters before every lookup: `others` says what they do, `view` what each lookup finds, and
        `seen` how many lookups there were. */
    method Invoke(invocation: Invocation, others: seq<seq<Op<string, Info>>>, ghost view: seq<Registry>)
      returns (reply: Reply, ghost g: Group, ghost seen: nat)
      requires registry.Valid() && |others| == Lookups(invocation.target) && Awaits(registry.View(), others, view)
      modifies registry`clusters
      modifies if dispatcher != null then {dispatcher} else {}
      modifies if audit != null then {audit} else {}
      ensures registry.Valid() && seen <= |view| && registry.View() == Left(old(registry.View()), view, seen)
      ensures reply.Done? <==> dispatcher != null && Servable(registry.tools.Keys, view, invocation)
      ensures reply.Failed? ==> RightError(reply.error, dispatcher != null, registry.tools.Keys, view, invocation)
      ensures reply.Failed? && dispatcher != null ==> dispatcher.calls == old(dispatcher.calls)
      ensures reply.Failed? && audit != null ==> audit.records == old(audit.records)
      ensures reply.Done? ==>
        var infos := Resolved(view, invocation.target, invocation.tool);
        && seen == |view| && Aggregates(infos, invocation, reply.value)
        && g.infos == infos && g.results == reply.value.results && g.Done(invocation.tool)
        && dispatcher.calls == old(dispatcher.calls) + Calls(infos, g.outcomes, invocation, g.started)
        && (audit != null ==>
              audit.records == old(audit.records) + [AuditRecord(invocation.requestId, invocation.tool, Ids(infos), |infos|)])
    {
      var error, buf, n;
      error, buf, n, seen := Admit(invocation, others, view);
      if error.Some? {
        return Failed(error.value), Group([], [], [], [], [], []), seen;
      }
      var value;
      value, g := Gather(invocation, buf, n, Resolved(view, invocation.target, invocation.tool));
      return Done(value), g, seen;
    }

    /** Dispatch, aggregation and audit, once the clusters are known. */
    method Gather(invocation: Invocation, buf: array<ClusterInfo>, n: nat, ghost infos: seq<Info>)
      returns (value: Aggregated, ghost g: Group)
      requires dispatcher != null && n <= buf.Length && Shows(buf[..n], infos)
      modifies dispatcher
      modifies if audit != null then {audit} else {}
      ensures registry.View() == old(registry.View())
      ensures Aggregates(infos, invocation, value)
      ensures g.infos == infos && g.results == value.results && g.Done(invocation.tool)
      ensures dispatcher.calls == old(dispatcher.calls) + Calls(infos, g.outcomes, invocation, g.started)
      ensures audit != null ==>
        audit.records == old(audit.records) + [AuditRecord(invocation.requestId, invocation.tool, Ids(infos), |infos|)]
    {
      var results;
      results, g := DispatchAll(invocation, buf, n, infos);
      var breakdown := ContextFor(buf, n, infos);
      value := Aggregated(invocation.requestId, invocation.tool, n, breakdown, results[..]);
      if audit != null {
        var ids := ClusterIds(buf, n, infos);
        var _ := audit.RecordToolInvocation(AuditRecord(invocation.requestId, invocation.tool, ids, results.Length));
      }
    }
  }

  /** Every successful Invoke: the provider counts add up to the clusters targeted, there is one result for
      each, and the results name the clusters of the audit record, in its order. */
  lemma InvokeAddsUp(g: Group, invocation: Invocation, value: Aggregated)
    requires Aggregates(g.infos, invocation, value) && g.Done(invocation.tool) && g.results == value.results
    ensures Total(value.providerBreakdown) == value.clusterCount == |value.results|
    ensures Ids(g.infos) == seq(|value.results|, i requires 0 <= i < |value.results| => value.results[i].clusterId)
  {
    BreakdownTotals(g.infos, value.providerBreakdown);
    forall i | 0 <= i < |g.infos|
      ensures value.results[i].clusterId == g.infos[i].clusterId
    {
      ResultsAreOwn(g.infos, invocation.tool, g.outcomes, g.order, g.clock, value.results, i);
    }
  }

  /** Every successful Invoke asked cluster `i` once, for the invoked tool with the caller's parameters, and
      result `i` passes on what came back in that very call. */
  lemma InvokeAnswers(g: Group, invocation: Invocation, i: nat) returns (k: nat)
    requires g.Done(invocation.tool) && i < |g.infos|
    ensures |g.outcomes| == |g.infos| == |g.results| && k < |g.started| && g.started[k] == i
    ensures forall j :: 0 <= j < |g.started| && g.started[j] == i ==> j == k
    ensures var call, r := Calls(g.infos, g.outcomes, invocation, g.started)[k], g.results[i];
      && call.cluster == g.infos[i] && call.command == invocation.tool
      && call.requestId == invocation.requestId && call.parameters == invocation.parameters
      && r.clusterId == call.cluster.clusterId && r.clusterName == call.cluster.clusterName
      && r.provider == call.cluster.provider && r.command == invocation.tool
      && match call.outcome
         case Answered(answer) =>
           && r.status == answer.status && r.data == answer.data && r.error == answer.error
           && (answer.timestamp != 0 ==> r.timestamp == answer.timestamp)
         case DispatchFailed(message) => r.status == "failed" && r.data == "{}" && r.error == message
  {
    assert i in g.started;
    k :| 0 <= k < |g.started| && g.started[k] == i;
    ResultsAreOwn(g.infos, invocation.tool, g.outcomes, g.order, g.clock, g.results, i);
  }

  /** The tool is known, every explicit identifier is registered when it is looked up, and some targeted
      cluster has the capability. */
  ghost predicate Servable(tools: set<string>, view: seq<Registry>, invocation: Invocation)
    requires |view| == Lookups(invocation.target)
  {
    && invocation.tool in tools && AllRegistered(view, invocation.target.clusterIds)
    && Resolved(view, invocation.target, invocation.tool) != []
  }

  ghost predicate RightError(e: InvokeError, dispatching: bool, tools: set<string>, view: seq<Registry>, invocation: Invocation)
    requires |view| == Lookups(invocation.target)
  {
    match e
    case DispatcherRequired => !dispatching
    case UnknownTool(tool) => dispatching && tool == invocation.tool && tool !in tools
    case NotRegistered(id) =>
      && dispatching && invocation.tool in tools
      && exists i: nat :: FirstMissing(view, invocation.target.clusterIds, i) && id == invocation.target.clusterIds[i]
    case NoClusters(capability) =>
      && dispatching && invocation.tool in tools && capability == invocation.tool
      && AllRegistered(view, invocation.target.clusterIds)
      && Resolved(view, invocation.target, invocation.tool) == []
  }

  ghost predicate Aggregates(infos: seq<Info>, invocation: Invocation, value: Aggregated) {
    && value.requestId == invocation.requestId && value.tool == invocation.tool
    && value.clusterCount == |infos| && IsBreakdown(infos, value.providerBreakdown)
  }

  /** The map of provider counts, incremented in place. */
  method ContextFor(buf: array<ClusterInfo>, n: nat, ghost infos: seq<Info>) returns (breakdown: map<string, nat>)
    requires n <= buf.Length && Shows(buf[..n], infos)
    ensures IsBreakdown(infos, breakdown)
  {
    breakdown := map[];
    for i := 0 to n
      invariant IsBreakdown(infos[..i], breakdown)
    {
      assert buf[..n][i] == buf[i];
      BumpBreakdown(infos[..i], infos[i], breakdown);
      breakdown := Bump(breakdown, buf[i].provider);
      assert infos[..i + 1] == infos[..i] + [infos[i]];
    }
    assert infos[..n] == infos;
  }

  method ClusterIds(buf: array<ClusterInfo>, n: nat, ghost infos: seq<Info>) returns (ids: seq<string>)
    requires n <= buf.Length && Shows(buf[..n], infos)
    ensures ids == Ids(infos)
  {
    ids := [];
    for i := 0 to n
      invariant ids == Ids(infos[..i])
    {
      assert buf[..n][i] == buf[i];
      ids := ids + [buf[i].clusterId];
    }
    assert infos[..n] == infos;
  }

  /** The goroutines of one dispatch: what each came to, who started and who ended, in order and when, and
      the slots. */
  datatype Group = Group(infos: seq<Info>, outcomes: seq<Outcome>, started: seq<nat>, order: seq<nat>, clock: seq<int>,
                         results: seq<NormalizedResult>)
  {
    /** Who has not started, and who has an answer and has not written it yet. */
    ghost predicate Underway(pending: set<nat>, flying: map<nat, Outcome>) {
      && |outcomes| == |infos|
      && (forall k :: 0 <= k < |started| ==> started[k] < |infos|)
      && (forall j, k :: 0 <= j < k < |started| ==> started[j] != started[k])
      && (forall i: nat :: i in pending <==> i < |infos| && i !in started)
      && (forall i: nat :: i in flying <==> i in started && i !in order)
      && (forall i: nat :: i in order ==> i in started)
      && forall i :: i in flying ==> i < |infos| && flying[i] == outcomes[i]
    }

    /** Both halves of the account.  The trigger keeps them out of proofs that only pass it on. */
    ghost predicate Ok(command: string, pending: set<nat>, flying: map<nat, Outcome>) {
      && Sized()
      && forall n {:trigger Size(n)} :: Size(n) ==> Underway(pending, flying) && Written(infos, command, outcomes, order, clock, results)
    }

    ghost predicate Sized() {
      |outcomes| == |infos| == |results| && forall k :: 0 <= k < |started| ==> started[k] < |infos|
    }

    predicate Size(n: nat) {
      n == |infos|
    }

    ghost predicate Done(command: string) {
      EachOnce(|infos|, started) && Finished(infos, command, outcomes, order, clock, results)
    }

    ghost function Started(i: nat, outcome: Outcome): Group
      requires i < |outcomes|
    {
      this.(outcomes := outcomes[i := outcome], started := started + [i])
    }

    ghost function Ended(command: string, i: nat, now: int): Group
      requires i < |infos| && i < |outcomes| && i < |results|
    {
      this.(order := order + [i], clock := clock + [now],
            results := results[i := Normalize(infos[i], command, outcomes[i], now)])
    }
  }

  lemma StartGroup(g: Group, command: string, pending: set<nat>, flying: map<nat, Outcome>, i: nat, outcome: Outcome)
    requires g.Ok(command, pending, flying) && i in pending && i < |g.infos|
    ensures g.Started(i, outcome).Ok(command, pending - {i}, flying[i := outcome])
  {
    assert g.Size(|g.infos|);
    StartOne(g.infos, command, g.outcomes, g.order, g.clock, g.results, i, outcome);
    StartUnderway(g, pending, flying, i, outcome);
  }

  lemma StartUnderway(g: Group, pending: set<nat>, flying: map<nat, Outcome>, i: nat, outcome: Outcome)
    requires g.Underway(pending, flying) && i in pending
    ensures g.Started(i, outcome).Underway(pending - {i}, flying[i := outcome])
  {
  }

  lemma EndGroup(g: Group, command: string, pending: set<nat>, flying: map<nat, Outcome>, i: nat, now: int)
    requires g.Ok(command, pending, flying) && i in flying && i < |g.infos|
    ensures g.outcomes[i] == flying[i] && g.Ended(command, i, now).Ok(command, pending, flying - {i})
  {
    assert g.Size(|g.infos|);
    WriteOne(g.infos, command, g.outcomes, g.order, g.clock, g.results, i, now);
    EndUnderway(g, command, pending, flying, i, now);
  }

  lemma EndUnderway(g: Group, command: string, pending: set<nat>, flying: map<nat, Outcome>, i: nat, now: int)
    requires g.Underway(pending, flying) && i in flying && |g.results| == |g.infos|
    ensures g.Ended(command, i, now).Underway(pending, flying - {i})
  {
  }

  lemma AllEnded(g: Group, command: string)
    requires g.Ok(command, {}, map[])
    ensures g.Done(command)
  {
    var pending: set<nat>, flying: map<nat, Outcome> := {}, map[];
    assert g.Size(|g.infos|);
    forall i: nat | i < |g.infos|
      ensures i in g.started && i in g.order
    {
      assert i !in pending && i !in flying;
    }
  }

  /** One more goroutine has called its cluster; what the earlier calls came to stays. */
  lemma CallsSnoc(infos: seq<Info>, outcomes: seq<Outcome>, invocation: Invocation, started: seq<nat>, idx: nat, outcome: Outcome)
    requires |outcomes| == |infos| && idx < |infos| && idx !in started
    requires forall k :: 0 <= k < |started| ==> started[k] < |infos|
    ensures Calls(infos, outcomes[idx := outcome], invocation, started + [idx]) == Calls(infos, outcomes, invocation, started)
      + [Call(infos[idx], invocation.tool, invocation.requestId, invocation.parameters, outcome)]
  {
  }

  function Indices(n: nat): (s: set<nat>)
    ensures forall i: nat :: i in s <==> i < n
  {
    if n == 0 then {} else Indices(n - 1) + {n - 1}
  }

  const ZERO_RESULT := NormalizedResult("", "", "", "", 0, "", "", "")

  /** normalize: a failed dispatch is reported as data; an answer without a time gets the present one. */
  method NormalizeRecord(c: ClusterInfo, command: string, outcome: Outcome, now: int) returns (r: NormalizedResult)
    ensures r == Normalize(Val(c), command, outcome, now)
    ensures outcome.Answered? ==>
      r.status == outcome.result.status && r.data == outcome.result.data && r.error == outcome.result.error
  {
    match outcome {
      case DispatchFailed(message) =>
        return NormalizedResult(c.clusterId, c.clusterName, c.provider, command, now, "{}", "failed", message);
      case Answered(answer) =>
        var result := answer;
        if result.timestamp == 0 {
          result := result.(timestamp := now);
        }
        return NormalizedResult(c.clusterId, c.clusterName, c.provider, command, result.timestamp, result.data,
                                result.status, result.error);
    }
  }

  /** The calls made, in the order they were started, each with what became of it. */
  ghost function Calls(infos: seq<Info>, outcomes: seq<Outcome>, invocation: Invocation, order: seq<nat>): seq<Call>
    requires |outcomes| == |infos| && forall k :: 0 <= k < |order| ==> order[k] < |infos|
  {
    seq(|order|, k requires 0 <= k < |order| =>
      Call(infos[order[k]], invocation.tool, invocation.requestId, invocation.parameters, outcomes[order[k]]))
  }
}
