/** internal/holmesprovider/registry.go over the heap: cluster records hold references to their slices.

    Incoming records are stored as they are; outgoing ones are copied, so a caller who writes to what a
    lookup returned cannot reach the registry.
 */
module HolmesRegistry {
  import opened Options
  import opened Replay
  import opened Sorting
  import opened Fleet

  datatype ClusterInfo = ClusterInfo(clusterId: string, clusterName: string, provider: string,
                                     groups: array<string>, capabilities: array<string>, updatedAt: int)

  function ClusterId(c: ClusterInfo): string {
    c.clusterId
  }

  ghost function Val(c: ClusterInfo): Info
    reads c.groups, c.capabilities
  {
    Info(c.clusterId, c.clusterName, c.provider, c.groups[..], c.capabilities[..], c.updatedAt)
  }

  /** The records, read through their slices, are these values. */
  ghost predicate Shows(s: seq<ClusterInfo>, vals: seq<Info>)
    reads *
  {
    |s| == |vals| && forall i :: 0 <= i < |s| ==> Val(s[i]) == vals[i]
  }

  /** The linear search of has. */
  method Has(values: array<string>, want: string) returns (found: bool)
    ensures found <==> want in values[..]
  {
    for i := 0 to values.Length
      invariant want !in values[..i]
    {
      if values[i] == want {
        assert values[..][i] == want;
        return true;
      }
      assert values[..i + 1] == values[..i] + [values[i]];
    }
    assert values[..] == values[..values.Length];
    return false;
  }

  method CopyStrings(a: array<string>) returns (b: array<string>)
    ensures fresh(b) && b[..] == a[..]
  {
    b := new string[a.Length](i requires 0 <= i < a.Length reads a => a[i]);
  }

  method CopyCluster(info: ClusterInfo) returns (c: ClusterInfo)
    ensures Val(c) == Val(info) && c.clusterId == info.clusterId
    ensures fresh(c.groups) && fresh(c.capabilities)
  {
    var groups := CopyStrings(info.groups);
    var capabilities := CopyStrings(info.capabilities);
    c := ClusterInfo(info.clusterId, info.clusterName, info.provider, groups, capabilities, info.updatedAt);
  }

  /** A caller's record with these values, in slices of its own. */
  method NewRecord(i: Info) returns (c: ClusterInfo)
    ensures Val(c) == i && fresh(c.groups) && fresh(c.capabilities)
  {
    var groups := new string[|i.groups|](k requires 0 <= k < |i.groups| => i.groups[k]);
    var capabilities := new string[|i.capabilities|](k requires 0 <= k < |i.capabilities| => i.capabilities[k]);
    c := ClusterInfo(i.clusterId, i.clusterName, i.provider, groups, capabilities, i.updatedAt);
  }

  /** sort.Slice by cluster identifier, in place. */
  method SortById(a: array<ClusterInfo>)
    modifies a
    ensures a[..] == Sort(ClusterId, old(a[..]))
  {
    var sorted := Sort(ClusterId, a[..]);
    SortContents(ClusterId, a[..]);
    forall i | 0 <= i < a.Length {
      a[i] := sorted[i];
    }
    assert a[..] == sorted;
  }

  datatype ToolDefinition = ToolDefinition(name: string, description: string, schema: string)

  /** The definitions by name; of two with the same name the later one stays. */
  function ToolsOf(definitions: seq<ToolDefinition>): map<string, ToolDefinition> {
    if definitions == [] then map[]
    else ToolsOf(definitions[..|definitions| - 1])[definitions[|definitions| - 1].name := definitions[|definitions| - 1]]
  }

  /** A tool is known if and only if it was defined, and then as it was defined last. */
  lemma {:induction false} ToolsAreLastDefined(definitions: seq<ToolDefinition>, i: nat)
    requires i < |definitions| && forall j :: i < j < |definitions| ==> definitions[j].name != definitions[i].name
    ensures definitions[i].name in ToolsOf(definitions) && ToolsOf(definitions)[definitions[i].name] == definitions[i]
    ensures forall t :: t in ToolsOf(definitions) <==> exists j :: 0 <= j < |definitions| && definitions[j].name == t
  {
    ToolNames(definitions);
    var n := |definitions| - 1;
    if i < n {
      ToolsAreLastDefined(definitions[..n], i);
    }
  }

  lemma {:induction false} ToolNames(definitions: seq<ToolDefinition>)
    ensures forall t :: t in ToolsOf(definitions) <==> exists j :: 0 <= j < |definitions| && definitions[j].name == t
  {
    if definitions != [] {
      var n := |definitions| - 1;
      ToolNames(definitions[..n]);
      forall t
        ensures t in ToolsOf(definitions) <==> exists j :: 0 <= j < |definitions| && definitions[j].name == t
      {
        if t in ToolsOf(definitions[..n]) {
          var j :| 0 <= j < n && definitions[..n][j].name == t;
          assert definitions[j].name == t;
        }
        if j :| 0 <= j < |definitions| && definitions[j].name == t {
          assert j < n ==> definitions[..n][j].name == t;
        }
      }
    }
  }

  class ToolRegistry {
    var clusters: map<string, ClusterInfo>
    var tools: map<string, ToolDefinition>

    ghost function Owned(): set<object>
      reads this
    {
      (set k | k in clusters :: clusters[k].groups as object) + (set k | k in clusters :: clusters[k].capabilities as object)
    }

    ghost function View(): Registry
      reads this, Owned()
    {
      map k | k in clusters :: Val(clusters[k])
    }

    ghost predicate Valid()
      reads this
    {
      forall k :: k in clusters ==> clusters[k].clusterId == k
    }

    lemma {:induction false} ViewKeyed()
      requires Valid()
      ensures Keyed(View())
    {
    }

    constructor (definitions: seq<ToolDefinition>)
      ensures Valid() && View() == map[] && tools == ToolsOf(definitions)
    {
      clusters, tools := map[], map[];
      new;
      for i := 0 to |definitions|
        invariant clusters == map[] && tools == ToolsOf(definitions[..i])
      {
        tools := tools[definitions[i].name := definitions[i]];
        assert definitions[..i + 1][..i] == definitions[..i];
      }
      assert definitions[..|definitions|] == definitions;
    }

    method RegisterTool(def: ToolDefinition)
      modifies this`tools
      ensures tools == old(tools)[def.name := def]
    {
      tools := tools[def.name := def];
    }

    /** Stores the caller's record, slices included; a zero UpdatedAt becomes the present time. */
    method RegisterAgent(info: ClusterInfo, now: int)
      requires Valid()
      modifies this`clusters
      ensures Valid() && clusters == old(clusters)[info.clusterId := info.(updatedAt := if info.updatedAt == 0 then now else info.updatedAt)]
      ensures View() == old(View())[info.clusterId := Val(info).(updatedAt := if info.updatedAt == 0 then now else info.updatedAt)]
      ensures Owned() <= old(Owned()) + {info.groups, info.capabilities}
    {
      var stored := info;
      if info.updatedAt == 0 {
        stored := info.(updatedAt := now);
      }
      clusters := clusters[info.clusterId := stored];
    }

    method UnregisterAgent(clusterId: string)
      requires Valid()
      modifies this`clusters
      ensures Valid() && View() == old(View()) - {clusterId}
      ensures Owned() <= old(Owned())
    {
      clusters := clusters - {clusterId};
    }

    /** What other callers do between two uses of the registry: any registrations and removals. */
    method Churn(changes: seq<Op<string, Info>>)
      requires Valid() && Registers(changes)
      modifies this`clusters
      ensures Valid() && View() == Replayed(old(View()), changes)
      ensures forall o :: o in Owned() ==> o in old(Owned()) || fresh(o)
    {
      ghost var m := View();
      for i := 0 to |changes|
        invariant Valid() && View() == Replayed(m, changes[..i])
        invariant forall o :: o in Owned() ==> o in old(Owned()) || fresh(o)
      {
        assert changes[..i + 1][..i] == changes[..i];
        Change(changes[i]);
      }
      assert changes[..|changes|] == changes;
    }

    method Change(op: Op<string, Info>)
      requires Valid() && Registers([op])
      modifies this`clusters
      ensures Valid() && View() == Apply(old(View()), op)
      ensures forall o :: o in Owned() ==> o in old(Owned()) || fresh(o)
    {
      assert op == [op][0];
      match op {
        case Put(_, v) =>
          ghost var m := View();
          var record := NewRecord(v);
          assert View() == m;
          RegisterAgent(record, v.updatedAt);
        case Del(clusterId) =>
          UnregisterAgent(clusterId);
      }
    }

    /** A copy; the empty slice when the cluster is unknown. */
    method GetCapabilities(clusterId: string) returns (out: array<string>)
      requires Valid()
      ensures fresh(out) && out[..] == if clusterId in View() then View()[clusterId].capabilities else []
    {
      if clusterId !in clusters {
        out := new string[0];
        return;
      }
      out := CopyStrings(clusters[clusterId].capabilities);
    }

    method Tool(name: string) returns (def: Option<ToolDefinition>)
      ensures def == if name in tools then Some(tools[name]) else None
    {
      return if name in tools then Some(tools[name]) else None;
    }

    method Cluster(clusterId: string) returns (out: Option<ClusterInfo>)
      requires Valid()
      ensures out.Some? <==> clusterId in View()
      ensures out.Some? ==> Val(out.value) == View()[clusterId] && fresh(out.value.groups) && fresh(out.value.capabilities)
    {
      if clusterId !in clusters {
        return None;
      }
      var c := CopyCluster(clusters[clusterId]);
      return Some(c);
    }

    /** One turn of the map loop behind both listings: skip the entry, or copy it. */
    method Consider(k: string, capability: Option<string>, out: seq<ClusterInfo>, ghost m: Registry, ghost vals: seq<Info>)
      returns (more: seq<ClusterInfo>)
      requires Valid() && k in clusters && View() == m && Shows(out, vals)
      ensures View() == m
      ensures Shows(more, vals + if Matches(capability, m[k].capabilities) then [m[k]] else [])
      ensures forall c :: c in more ==> c in out || (fresh(c.groups) && fresh(c.capabilities))
    {
      assert Val(clusters[k]) == m[k];
      var wanted := true;
      if capability.Some? {
        wanted := Has(clusters[k].capabilities, capability.value);
      }
      if !wanted {
        return out;
      }
      var c := CopyCluster(clusters[k]);
      return out + [c];
    }

    /** What the map loop copied, in whatever order, sorts to the listing of the wanted entries. */
    method Collect(capability: Option<string>) returns (out: seq<ClusterInfo>, ghost vals: seq<Info>)
      requires Valid()
      ensures Shows(out, vals) && Sort(InfoId, vals) == Listing(Restricted(View(), capability))
      ensures forall c :: c in out ==> fresh(c.groups) && fresh(c.capabilities)
    {
      ghost var m := View();
      ViewKeyed();
      ghost var visited;
      out, visited := Gather(capability);
      assert View() == m;
      vals := Picked(m, capability, visited);
      PickedSorts(m, capability, visited);
    }

    /** The map loop; the map's keys come in any order, each once. */
    method Gather(capability: Option<string>) returns (out: seq<ClusterInfo>, ghost visited: seq<string>)
      requires Valid()
      ensures Tour(View(), {}, visited) && Shows(out, Picked(View(), capability, visited))
      ensures forall c :: c in out ==> fresh(c.groups) && fresh(c.capabilities)
    {
      ghost var m := View();
      out, visited := [], [];
      var rest := clusters.Keys;
      while rest != {}
        invariant rest <= clusters.Keys && View() == m
        invariant Tour(m, rest, visited) && Shows(out, Picked(m, capability, visited))
        invariant forall c :: c in out ==> fresh(c.groups) && fresh(c.capabilities)
        decreases rest
      {
        var k :| k in rest;
        PickedSnoc(m, capability, visited, k);
        TourSnoc(m, rest, visited, k);
        out := Consider(k, capability, out, m, Picked(m, capability, visited));
        rest, visited := rest - {k}, visited + [k];
      }
    }

    /** The listing of what Collect gathered, sorted in place. */
    method Listed(capability: Option<string>) returns (out: array<ClusterInfo>)
      requires Valid()
      ensures fresh(out) && Shows(out[..], Listing(Restricted(View(), capability)))
      ensures forall c :: c in out[..] ==> fresh(c.groups) && fresh(c.capabilities)
    {
      ghost var m := View();
      var collected, vals := Collect(capability);
      assert View() == m;
      out := SortedArray(collected, vals);
      assert View() == m;
    }

    method Clusters() returns (out: array<ClusterInfo>)
      requires Valid()
      ensures fresh(out) && Shows(out[..], Listing(View()))
      ensures forall c :: c in out[..] ==> fresh(c.groups) && fresh(c.capabilities)
    {
      out := Listed(None);
      assert Restricted(View(), None) == View();
    }

    /** The capable clusters: the listing of Clusters, filtered. */
    method GetClustersForCapability(capability: string) returns (out: array<ClusterInfo>)
      requires Valid()
      ensures fresh(out) && Shows(out[..], WithCapability(Listing(View()), capability))
      ensures forall c :: c in out[..] ==> fresh(c.groups) && fresh(c.capabilities)
    {
      out := Listed(Some(capability));
      CapableListing(View(), capability, Restricted(View(), Some(capability)));
    }
  }

  predicate Matches(capability: Option<string>, capabilities: seq<string>) {
    capability.None? || capability.value in capabilities
  }

  function Restricted(m: Registry, capability: Option<string>): Registry {
    map k | k in m && Matches(capability, m[k].capabilities) :: m[k]
  }

  /** The keys seen so far, each once, and those still to come are the keys of the map. */
  ghost predicate Tour(m: Registry, rest: set<string>, visited: seq<string>) {
    && (forall i, j :: 0 <= i < j < |visited| ==> visited[i] != visited[j])
    && (forall k :: k in m <==> k in rest || k in visited)
    && forall k :: k in visited ==> k !in rest
  }

  lemma TourSnoc(m: Registry, rest: set<string>, visited: seq<string>, k: string)
    requires Tour(m, rest, visited) && k in rest
    ensures Tour(m, rest - {k}, visited + [k])
  {
    assert k !in visited;
  }

  /** The wanted entries among the keys seen. */
  ghost function Picked(m: Registry, capability: Option<string>, visited: seq<string>): seq<Info> {
    if visited == [] then []
    else
      var n := |visited| - 1;
      Picked(m, capability, visited[..n])
      + if visited[n] in m && Matches(capability, m[visited[n]].capabilities) then [m[visited[n]]] else []
  }

  lemma PickedSnoc(m: Registry, capability: Option<string>, visited: seq<string>, k: string)
    ensures Picked(m, capability, visited + [k]) == Picked(m, capability, visited)
      + if k in m && Matches(capability, m[k].capabilities) then [m[k]] else []
  {
    assert (visited + [k])[..|visited|] == visited;
  }

  lemma {:induction false} PickedAre(m: Registry, capability: Option<string>, visited: seq<string>)
    requires Keyed(m) && forall i, j :: 0 <= i < j < |visited| ==> visited[i] != visited[j]
    ensures DistinctKeys(InfoId, Picked(m, capability, visited))
    ensures forall x :: x in Picked(m, capability, visited) <==>
      x.clusterId in visited && x.clusterId in Restricted(m, capability) && m[x.clusterId] == x
  {
    if visited != [] {
      var before, k := visited[..|visited| - 1], visited[|visited| - 1];
      PickedAre(m, capability, before);
      PickedMore(m, capability, before, k, Picked(m, capability, before));
      PickedSnoc(m, capability, before, k);
      assert before + [k] == visited;
    }
  }

  lemma PickedMore(m: Registry, capability: Option<string>, before: seq<string>, k: string, vals: seq<Info>)
    requires Keyed(m) && k !in before && DistinctKeys(InfoId, vals)
    requires forall x :: x in vals <==> x.clusterId in before && x.clusterId in Restricted(m, capability) && m[x.clusterId] == x
    ensures var more := vals + if k in m && Matches(capability, m[k].capabilities) then [m[k]] else [];
      && DistinctKeys(InfoId, more)
      && forall x :: x in more <==> x.clusterId in before + [k] && x.clusterId in Restricted(m, capability) && m[x.clusterId] == x
  {
    forall i | 0 <= i < |vals|
      ensures InfoId(vals[i]) != k
    {
      assert vals[i] in vals;
    }
  }

  lemma PickedSorts(m: Registry, capability: Option<string>, visited: seq<string>)
    requires Keyed(m) && Tour(m, {}, visited)
    ensures Sort(InfoId, Picked(m, capability, visited)) == Listing(Restricted(m, capability))
  {
    PickedAre(m, capability, visited);
    AnyCollectionSorts(Restricted(m, capability), Picked(m, capability, visited));
  }

  method ToArray(s: seq<ClusterInfo>) returns (a: array<ClusterInfo>)
    ensures fresh(a) && a[..] == s
  {
    a := new ClusterInfo[|s|](i requires 0 <= i < |s| => s[i]);
  }

  /** The records of `s` in a new array, sorted in place. */
  method SortedArray(s: seq<ClusterInfo>, ghost vals: seq<Info>) returns (a: array<ClusterInfo>)
    requires Shows(s, vals)
    ensures fresh(a) && Shows(a[..], Sort(InfoId, vals))
    ensures forall c :: c in a[..] ==> c in s
  {
    SortShows(s, vals);
    a := ToArray(s);
    SortById(a);
    forall c | c in a[..]
      ensures c in s
    {
      SortMember(ClusterId, s, c);
    }
  }

  /** Sorting references and sorting values are the same. */
  lemma {:induction false} InsertShows(x: ClusterInfo, s: seq<ClusterInfo>, vals: seq<Info>)
    requires Shows(s, vals)
    ensures Shows(Insert(ClusterId, x, s), Insert(InfoId, Val(x), vals))
  {
    if s != [] && !Less(x.clusterId, s[0].clusterId) {
      InsertShows(x, s[1..], vals[1..]);
    }
  }

  lemma {:induction false} SortShows(s: seq<ClusterInfo>, vals: seq<Info>)
    requires Shows(s, vals)
    ensures Shows(Sort(ClusterId, s), Sort(InfoId, vals))
  {
    if s != [] {
      SortShows(s[1..], vals[1..]);
      InsertShows(s[0], Sort(ClusterId, s[1..]), Sort(InfoId, vals[1..]));
    }
  }

  // ---- Isolation ----

  /** Exactly when a write shows in the registry, for any array and any slot: it changes the text there, and
      the array is a slice of some registered record. */
  method WriteSlot(registry: ToolRegistry, a: array<string>, j: nat, text: string)
    requires registry.Valid() && j < a.Length
    modifies a
    ensures registry.Valid() && registry.Owned() == old(registry.Owned())
    ensures registry.View() == old(registry.View()) <==> a !in registry.Owned() || old(a[j]) == text
    ensures a[..] == old(a[..])[j := text]
  {
    ghost var was := registry.View();
    a[j] := text;
    if a in registry.Owned() && was == registry.View() {
      var k :| k in registry.clusters && (registry.clusters[k].groups == a || registry.clusters[k].capabilities == a);
      assert was[k] == registry.View()[k];
      assert a[..][j] == text;
    }
  }

  /** Incoming records are not copied: both slices of a registered record become the registry's own, so the
      caller's later write to one of them shows unless it changes nothing. */
  method WriteAfterRegister(registry: ToolRegistry, info: ClusterInfo, now: int, toGroups: bool, j: nat, text: string)
    requires registry.Valid() && j < (if toGroups then info.groups else info.capabilities).Length
    modifies registry`clusters, if toGroups then info.groups else info.capabilities
    ensures info.groups in registry.Owned() && info.capabilities in registry.Owned()
    ensures info.clusterId in registry.View()
    ensures var stored := registry.View()[info.clusterId];
      stored.groups == info.groups[..] && stored.capabilities == info.capabilities[..]
      && (if toGroups then stored.groups else stored.capabilities)[j] == text
  {
    registry.RegisterAgent(info, now);
    var a := if toGroups then info.groups else info.capabilities;
    assert registry.clusters[info.clusterId].groups == info.groups;
    WriteSlot(registry, a, j, text);
  }

  /** No slice of a returned record is the registry's own. */
  ghost predicate Separate(registry: ToolRegistry, s: seq<ClusterInfo>)
    reads registry
  {
    forall c :: c in s ==> c.groups !in registry.Owned() && c.capabilities !in registry.Owned()
  }

  function Slice(c: ClusterInfo, ofGroups: bool): array<string> {
    if ofGroups then c.groups else c.capabilities
  }

  function Part(i: Info, ofGroups: bool): seq<string> {
    if ofGroups then i.groups else i.capabilities
  }

  function Edited(s: seq<string>, j: nat, text: string): seq<string> {
    if j < |s| then s[j := text] else s
  }

  /** Outgoing records are copies.  Whatever a lookup or a listing returned stays apart from the registry,
      whatever others register and remove afterwards: a caller who writes to any slot of any slice of it
      changes the copy, and the registry is what those others made it. */
  method WriteAfterLookup(registry: ToolRegistry, clusterId: string, later: seq<Op<string, Info>>,
                          ofGroups: bool, j: nat, text: string) returns (out: Option<ClusterInfo>)
    requires registry.Valid() && Registers(later)
    modifies registry`clusters
    ensures out.Some? <==> clusterId in old(registry.View())
    ensures out.Some? ==> Separate(registry, [out.value])
    ensures out.Some? ==> Slice(out.value, ofGroups)[..] == Edited(Part(old(registry.View())[clusterId], ofGroups), j, text)
    ensures registry.View() == Replayed(old(registry.View()), later)
  {
    ghost var m := registry.View();
    out := registry.Cluster(clusterId);
    assert registry.View() == m;
    registry.Churn(later);
    if out.Some? {
      assert Val(out.value) == m[clusterId];
      WriteRecord(registry, out.value, ofGroups, j, text);
    }
  }

  method WriteAfterClusters(registry: ToolRegistry, later: seq<Op<string, Info>>, i: nat, ofGroups: bool, j: nat, text: string)
    returns (list: array<ClusterInfo>)
    requires registry.Valid() && Registers(later)
    modifies registry`clusters
    ensures list.Length == |Listing(old(registry.View()))| && Separate(registry, list[..])
    ensures i < list.Length ==>
      Slice(list[i], ofGroups)[..] == Edited(Part(Listing(old(registry.View()))[i], ofGroups), j, text)
    ensures registry.View() == Replayed(old(registry.View()), later)
  {
    ghost var m := registry.View();
    list := registry.Clusters();
    assert registry.View() == m;
    WriteLater(registry, list, Listing(m), later, i, ofGroups, j, text);
  }

  method WriteAfterSearch(registry: ToolRegistry, capability: string, later: seq<Op<string, Info>>,
                          i: nat, ofGroups: bool, j: nat, text: string) returns (list: array<ClusterInfo>)
    requires registry.Valid() && Registers(later)
    modifies registry`clusters
    ensures var found := WithCapability(Listing(old(registry.View())), capability);
      && list.Length == |found| && Separate(registry, list[..])
      && (i < list.Length ==> Slice(list[i], ofGroups)[..] == Edited(Part(found[i], ofGroups), j, text))
    ensures registry.View() == Replayed(old(registry.View()), later)
  {
    ghost var m := registry.View();
    list := registry.GetClustersForCapability(capability);
    assert registry.View() == m;
    WriteLater(registry, list, WithCapability(Listing(m), capability), later, i, ofGroups, j, text);
  }

  method WriteLater(registry: ToolRegistry, list: array<ClusterInfo>, ghost vals: seq<Info>, later: seq<Op<string, Info>>,
                    i: nat, ofGroups: bool, j: nat, text: string)
    requires registry.Valid() && Registers(later) && Separate(registry, list[..]) && Shows(list[..], vals)
    modifies registry`clusters
    modifies set c | c in list[..] :: c.groups
    modifies set c | c in list[..] :: c.capabilities
    ensures Separate(registry, list[..])
    ensures registry.View() == Replayed(old(registry.View()), later)
    ensures i < list.Length ==> Slice(list[i], ofGroups)[..] == Edited(Part(vals[i], ofGroups), j, text)
  {
    registry.Churn(later);
    WriteListed(registry, list, vals, i, ofGroups, j, text);
  }

  method WriteListed(registry: ToolRegistry, list: array<ClusterInfo>, ghost vals: seq<Info>,
                     i: nat, ofGroups: bool, j: nat, text: string)
    requires registry.Valid() && Separate(registry, list[..]) && Shows(list[..], vals)
    modifies set c | c in list[..] :: c.groups
    modifies set c | c in list[..] :: c.capabilities
    ensures registry.View() == old(registry.View())
    ensures i < list.Length ==> Slice(list[i], ofGroups)[..] == Edited(Part(vals[i], ofGroups), j, text)
  {
    if i < list.Length {
      var c := list[i];
      assert c in list[..] && Val(list[..][i]) == vals[i];
      WriteRecord(registry, c, ofGroups, j, text);
    }
  }

  method WriteAfterCapabilities(registry: ToolRegistry, clusterId: string, later: seq<Op<string, Info>>, j: nat, text: string)
    returns (out: array<string>)
    requires registry.Valid() && Registers(later)
    modifies registry`clusters
    ensures out !in registry.Owned()
    ensures var m := old(registry.View());
      out[..] == Edited(if clusterId in m then m[clusterId].capabilities else [], j, text)
    ensures registry.View() == Replayed(old(registry.View()), later)
  {
    ghost var m := registry.View();
    out := registry.GetCapabilities(clusterId);
    assert registry.View() == m;
    registry.Churn(later);
    if j < out.Length {
      WriteSlot(registry, out, j, text);
    }
  }

  method WriteRecord(registry: ToolRegistry, c: ClusterInfo, ofGroups: bool, j: nat, text: string)
    requires registry.Valid() && Separate(registry, [c])
    modifies c.groups, c.capabilities
    ensures registry.View() == old(registry.View())
    ensures Slice(c, ofGroups)[..] == Edited(old(Slice(c, ofGroups)[..]), j, text)
  {
    assert c in [c];
    var a := Slice(c, ofGroups);
    if j < a.Length {
      WriteSlot(registry, a, j, text);
    }
  }
}
