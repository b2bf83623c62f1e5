/** Registered clusters and target resolution as values: what internal/holmesprovider promises about
    registry contents, whatever the order of its maps and goroutines.
 */
module Fleet {
  import opened Options
  import opened Sorting
  import opened Replay

  datatype Info = Info(clusterId: string, clusterName: string, provider: string,
                       groups: seq<string>, capabilities: seq<string>, updatedAt: int)

  type Registry = map<string, Info>

  function InfoId(i: Info): string {
    i.clusterId
  }

  /** Every entry is stored under its own identifier. */
  ghost predicate Keyed(m: Registry) {
    forall k :: k in m ==> m[k].clusterId == k
  }

  // ---- Histories ----

  /** Registrations store a record under its own identifier. */
  predicate Registers(changes: seq<Op<string, Info>>) {
    forall i :: 0 <= i < |changes| && changes[i].Put? ==> changes[i].value.clusterId == changes[i].key
  }

  /** Registering and unregistering, as writes and deletions. */
  lemma HistoryKeepsKeys(m: Registry, op: Op<string, Info>)
    requires Keyed(m) && (op.Put? ==> op.value.clusterId == op.key)
    ensures Keyed(Apply(m, op))
  {
  }

  lemma {:induction false} HistoryKeyed(history: seq<Op<string, Info>>)
    requires Registers(history)
    ensures Keyed(Replayed(map[], history))
  {
    if history != [] {
      var n := |history| - 1;
      assert forall i :: 0 <= i < n ==> history[..n][i] == history[i];
      HistoryKeyed(history[..n]);
      HistoryKeepsKeys(Replayed(map[], history[..n]), history[n]);
    }
  }

  // ---- The sorted listing ----

  /** Strictly ascending identifiers, and exactly the registry's entries. */
  ghost predicate IsListing(m: Registry, s: seq<Info>) {
    && StrictlySorted(InfoId, s)
    && forall x :: x in s <==> x.clusterId in m && m[x.clusterId] == x
  }

  /** The entries in some order. */
  ghost function Collected(m: Registry): seq<Info> {
    if m == map[] then []
    else
      assert m.Keys != {};
      var k :| k in m;
      [m[k]] + Collected(m - {k})
  }

  ghost function Listing(m: Registry): seq<Info> {
    Sort(InfoId, Collected(m))
  }

  lemma CollectedSplit(m: Registry) returns (k: string)
    requires m != map[]
    ensures k in m && Collected(m) == [m[k]] + Collected(m - {k})
  {
    assert m.Keys != {};
    k :| k in m && Collected(m) == [m[k]] + Collected(m - {k});
  }

  lemma {:induction false} CollectedIs(m: Registry)
    requires Keyed(m)
    ensures DistinctKeys(InfoId, Collected(m))
    ensures forall x :: x in Collected(m) <==> x.clusterId in m && m[x.clusterId] == x
  {
    if m == map[] {
      assert forall x: Info :: x.clusterId !in m;
    } else {
      var k := CollectedSplit(m);
      CollectedIs(m - {k});
      CollectedMore(m, k, Collected(m - {k}));
    }
  }

  /** One more entry, under a key that the others do not have. */
  lemma CollectedMore(m: Registry, k: string, rest: seq<Info>)
    requires Keyed(m) && k in m && DistinctKeys(InfoId, rest)
    requires forall x :: x in rest <==> x.clusterId in m - {k} && (m - {k})[x.clusterId] == x
    ensures DistinctKeys(InfoId, [m[k]] + rest)
    ensures forall x :: x in [m[k]] + rest <==> x.clusterId in m && m[x.clusterId] == x
  {
    forall j | 0 <= j < |rest|
      ensures InfoId(rest[j]) != k
    {
      assert rest[j] in rest;
    }
  }

  lemma ListingIs(m: Registry)
    requires Keyed(m)
    ensures IsListing(m, Listing(m))
  {
    CollectedIs(m);
    SortSorts(InfoId, Collected(m));
    forall x: Info
      ensures x in Listing(m) <==> x in Collected(m)
    {
      SortMember(InfoId, Collected(m), x);
    }
  }

  /** Two listings of the same contents are equal, so a listing cannot depend on map iteration order. */
  lemma ListingIsUnique(m: Registry, s: seq<Info>)
    requires Keyed(m) && IsListing(m, s)
    ensures s == Listing(m)
  {
    ListingIs(m);
    SortedIsUnique(InfoId, s, Listing(m));
  }

  /** However the entries were collected, sorting them gives the listing. */
  lemma AnyCollectionSorts(m: Registry, collected: seq<Info>)
    requires Keyed(m) && DistinctKeys(InfoId, collected)
    requires forall x :: x in collected <==> x.clusterId in m && m[x.clusterId] == x
    ensures Sort(InfoId, collected) == Listing(m)
  {
    SortSorts(InfoId, collected);
    forall x: Info
      ensures x in Sort(InfoId, collected) <==> x in collected
    {
      SortMember(InfoId, collected, x);
    }
    ListingIsUnique(m, Sort(InfoId, collected));
  }

  /** After any history of registrations and removals a cluster is listed if and only if the last
      operation on its identifier registered it, and then as it was last registered. */
  lemma ListedExactlyIfLastRegistered(history: seq<Op<string, Info>>, id: string)
    requires Registers(history)
    ensures var list := Listing(Replayed(map[], history));
      && StrictlySorted(InfoId, list)
      && ((exists x :: x in list && x.clusterId == id) <==> Effect(LastFor(history, id)).Some?)
      && forall x :: x in list && x.clusterId == id ==> Effect(LastFor(history, id)) == Some(x)
  {
    var m := Replayed(map[], history);
    HistoryKeyed(history);
    ListingIs(m);
    ReplayedAt(map[], history, id);
    if Effect(LastFor(history, id)).Some? {
      assert Get(m, id) == Some(m[id]);
      assert m[id] in Listing(m) && m[id].clusterId == id;
    }
  }

  // ---- Filters ----

  function WithCapability(s: seq<Info>, capability: string): seq<Info> {
    if s == [] then []
    else
      var n := |s| - 1;
      WithCapability(s[..n], capability) + if capability in s[n].capabilities then [s[n]] else []
  }

  function InGroup(s: seq<Info>, group: string): seq<Info> {
    if s == [] then []
    else
      var n := |s| - 1;
      InGroup(s[..n], group) + if group in s[n].groups then [s[n]] else []
  }

  lemma WithCapabilitySnoc(s: seq<Info>, x: Info, capability: string)
    ensures WithCapability(s + [x], capability) ==
      WithCapability(s, capability) + if capability in x.capabilities then [x] else []
  {
    assert (s + [x])[..|s|] == s;
  }

  lemma InGroupSnoc(s: seq<Info>, x: Info, group: string)
    ensures InGroup(s + [x], group) == InGroup(s, group) + if group in x.groups then [x] else []
  {
    assert (s + [x])[..|s|] == s;
  }

  lemma {:induction false} WithCapabilityMembers(s: seq<Info>, capability: string, x: Info)
    ensures x in WithCapability(s, capability) <==> x in s && capability in x.capabilities
  {
    if s != [] {
      var n := |s| - 1;
      WithCapabilityMembers(s[..n], capability, x);
      assert s == s[..n] + [s[n]];
    }
  }

  lemma {:induction false} WithCapabilityTwice(s: seq<Info>, capability: string)
    ensures WithCapability(WithCapability(s, capability), capability) == WithCapability(s, capability)
  {
    if s != [] {
      var n := |s| - 1;
      var t := WithCapability(s[..n], capability);
      WithCapabilityTwice(s[..n], capability);
      WithCapabilitySnoc(t, s[n], capability);
      assert t + [] == t;
    }
  }

  lemma {:induction false} FiltersCommute(s: seq<Info>, group: string, capability: string)
    ensures WithCapability(InGroup(s, group), capability) == InGroup(WithCapability(s, capability), group)
  {
    if s != [] {
      var n := |s| - 1;
      var g, c := InGroup(s[..n], group), WithCapability(s[..n], capability);
      FiltersCommute(s[..n], group, capability);
      WithCapabilitySnoc(g, s[n], capability);
      InGroupSnoc(c, s[n], group);
      assert g + [] == g && c + [] == c;
    }
  }

  /** Filtering keeps strict order. */
  lemma {:induction false} FilterSorted(s: seq<Info>, capability: string)
    requires StrictlySorted(InfoId, s)
    ensures StrictlySorted(InfoId, WithCapability(s, capability))
  {
    if s != [] {
      var n := |s| - 1;
      FilterSorted(s[..n], capability);
      var t := WithCapability(s[..n], capability);
      forall i | 0 <= i < |t|
        ensures Less(InfoId(t[i]), InfoId(s[n]))
      {
        WithCapabilityMembers(s[..n], capability, t[i]);
        var k :| 0 <= k < n && s[..n][k] == t[i];
        assert s[k] == t[i];
      }
    }
  }

  /** GetClustersForCapability is Clusters, filtered: the sorted list of the capable entries is the
      filter of the sorted list of all. */
  lemma CapableListing(m: Registry, capability: string, capable: Registry)
    requires Keyed(m)
    requires capable == map k | k in m && capability in m[k].capabilities :: m[k]
    ensures Listing(capable) == WithCapability(Listing(m), capability)
  {
    ListingIs(m);
    FilterSorted(Listing(m), capability);
    var filtered := WithCapability(Listing(m), capability);
    forall x: Info
      ensures x in filtered <==> x.clusterId in capable && capable[x.clusterId] == x
    {
      WithCapabilityMembers(Listing(m), capability, x);
    }
    ListingIsUnique(capable, filtered);
  }

  // ---- A registry that others change ----

  /** The registry after what others did before each of some lookups. */
  function After(m: Registry, others: seq<seq<Op<string, Info>>>): Registry {
    if others == [] then m
    else
      var n := |others| - 1;
      Replayed(After(m, others[..n]), others[n])
  }

  /** What each lookup finds: `others[i]` is what others did between the lookup before number `i` and that one. */
  function Seen(m: Registry, others: seq<seq<Op<string, Info>>>): seq<Registry> {
    seq(|others|, i requires 0 <= i < |others| => After(m, others[..i + 1]))
  }

  /** Undisturbed, all lookups find the same registry. */
  lemma {:induction false} UndisturbedSeen(m: Registry, others: seq<seq<Op<string, Info>>>)
    requires forall i :: 0 <= i < |others| ==> others[i] == []
    ensures After(m, others) == m && Seen(m, others) == seq(|others|, _ => m)
  {
    if others != [] {
      var n := |others| - 1;
      UndisturbedSeen(m, others[..n]);
      assert others[..n + 1] == others;
      forall i | 0 <= i < n
        ensures Seen(m, others)[i] == m
      {
        assert others[..n][..i + 1] == others[..i + 1];
        assert Seen(m, others[..n])[i] == m;
      }
    }
  }

  // ---- Targets ----

  datatype Target = Target(clusterIds: seq<string>, group: string, all: bool)

  /** How often resolving a target takes the registry's lock. */
  function Lookups(target: Target): nat {
    if target.clusterIds != [] then |target.clusterIds| else 1
  }

  /** Identifier `i` is registered when it is looked up. */
  ghost predicate AllRegistered(view: seq<Registry>, ids: seq<string>)
    requires |ids| <= |view|
  {
    forall i :: 0 <= i < |ids| ==> ids[i] in view[i]
  }

  ghost function Looked(view: seq<Registry>, ids: seq<string>): seq<Info>
    requires |ids| <= |view| && AllRegistered(view, ids)
  {
    seq(|ids|, i requires 0 <= i < |ids| => view[i][ids[i]])
  }

  /** The clusters a target names, before the capability filter. */
  ghost function Chosen(view: seq<Registry>, target: Target, capability: string): seq<Info>
    requires |view| == Lookups(target) && AllRegistered(view, target.clusterIds)
  {
    if target.clusterIds != [] then Looked(view, target.clusterIds)
    else if target.group != "" then InGroup(Listing(view[0]), target.group)
    else if target.all then Listing(view[0])
    else WithCapability(Listing(view[0]), capability)
  }

  ghost function Resolved(view: seq<Registry>, target: Target, capability: string): seq<Info>
    requires |view| == Lookups(target) && AllRegistered(view, target.clusterIds)
  {
    WithCapability(Chosen(view, target, capability), capability)
  }

  /** On one registry the empty target and All resolve alike, and a group resolves to the members of
      that group among them, in the same order. */
  lemma TargetsAgree(m: Registry, capability: string, group: string)
    requires Keyed(m) && group != ""
    ensures var everyone := Resolved([m], Target([], "", true), capability);
      && Resolved([m], Target([], "", false), capability) == everyone
      && Resolved([m], Target([], group, false), capability) == InGroup(everyone, group)
      && Resolved([m], Target([], group, true), capability) == InGroup(everyone, group)
      && StrictlySorted(InfoId, everyone)
      && forall x :: x in everyone <==> x.clusterId in m && m[x.clusterId] == x && capability in x.capabilities
  {
    WithCapabilityTwice(Listing(m), capability);
    FiltersCommute(Listing(m), group, capability);
    ListingIs(m);
    FilterSorted(Listing(m), capability);
    forall x: Info
      ensures x in WithCapability(Listing(m), capability) <==> x in Listing(m) && capability in x.capabilities
    {
      WithCapabilityMembers(Listing(m), capability, x);
    }
  }

  /** Explicit identifiers keep the caller's order and repetitions: the result is the caller's list
      without the clusters that lack the capability when they are looked up. */
  lemma {:induction false} ExplicitKeepsOrder(view: seq<Registry>, ids: seq<string>, capability: string)
    requires |ids| <= |view| && AllRegistered(view, ids) && forall i :: 0 <= i < |view| ==> Keyed(view[i])
    ensures Ids(WithCapability(Looked(view, ids), capability)) == CapableIds(view, ids, capability)
  {
    if ids != [] {
      var n := |ids| - 1;
      ExplicitKeepsOrder(view, ids[..n], capability);
      assert Looked(view, ids) == Looked(view, ids[..n]) + [view[n][ids[n]]];
      WithCapabilitySnoc(Looked(view, ids[..n]), view[n][ids[n]], capability);
    }
  }

  /** Explicit identifiers win over group and All, and each one found with the capability is there as it was found. */
  lemma ExplicitWins(view: seq<Registry>, target: Target, capability: string, x: Info)
    requires target.clusterIds != [] && |view| == |target.clusterIds| && AllRegistered(view, target.clusterIds)
    requires forall i :: 0 <= i < |view| ==> Keyed(view[i])
    ensures var ids := target.clusterIds;
      && Ids(Resolved(view, target, capability)) == CapableIds(view, ids, capability)
      && (x in Resolved(view, target, capability) <==>
            capability in x.capabilities && exists i :: 0 <= i < |ids| && view[i][ids[i]] == x)
  {
    ExplicitKeepsOrder(view, target.clusterIds, capability);
    WithCapabilityMembers(Chosen(view, target, capability), capability, x);
    var ids, looked := target.clusterIds, Looked(view, target.clusterIds);
    assert forall i :: 0 <= i < |ids| ==> looked[i] == view[i][ids[i]];
    if i :| 0 <= i < |ids| && view[i][ids[i]] == x {
      assert looked[i] == x;
    }
  }

  /** Several lookups are not one transaction: for any two clusters there is a run in which both identifiers
      are found although at no time were both registered. */
  lemma TornLookup(first: Info, second: Info) returns (m: Registry, changes: seq<Op<string, Info>>)
    requires first.clusterId != second.clusterId
    ensures Keyed(m) && Registers(changes)
    ensures var view, ids := Seen(m, [[], changes]), [first.clusterId, second.clusterId];
      AllRegistered(view, ids) && Looked(view, ids) == [first, second]
    ensures forall k :: 0 <= k <= |changes| ==>
      var now := Replayed(m, changes[..k]); first.clusterId !in now || second.clusterId !in now
  {
    m, changes := map[first.clusterId := first], [Del(first.clusterId), Put(second.clusterId, second)];
    var others: seq<seq<Op<string, Info>>> := [[], changes];
    assert others[..1] == [[]] && others[..2] == others && others[..1][..0] == [];
    assert After(m, others[..1]) == m;
    assert changes[..1] == [changes[0]] && changes[..2] == changes;
    var after := Replayed(m, changes[..1]);
    assert after == map[] && Replayed(m, changes) == map[second.clusterId := second];
    assert After(m, others) == Replayed(m, changes);
  }

  function Ids(s: seq<Info>): seq<string> {
    seq(|s|, i requires 0 <= i < |s| => s[i].clusterId)
  }

  function CapableIds(view: seq<Registry>, ids: seq<string>, capability: string): seq<string>
    requires |ids| <= |view|
  {
    if ids == [] then []
    else
      var n := |ids| - 1;
      CapableIds(view, ids[..n], capability)
      + if ids[n] in view[n] && capability in view[n][ids[n]].capabilities then [ids[n]] else []
  }
}
