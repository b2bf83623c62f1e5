/** The aggregates of internal/kubernetes/client.go over one snapshot of the cluster: health counts,
    resource totals and the three pod lists.  A failing API call is an absent list.
 */
module Kubernetes {
  import opened Options
  import Registration

  /** Quantities and totals are 64-bit in the source. */
  type int64 = x: int | -0x8000_0000_0000_0000 <= x < 0x8000_0000_0000_0000

  datatype Resources = Resources(cpuMilli: Option<int64>, memoryBytes: Option<int64>)

  datatype Container = Container(requests: Resources, limits: Resources)

  datatype ContainerStatus = ContainerStatus(waiting: Option<string>)

  datatype Pod = Pod(namespace: string, name: string, phase: string,
                     containers: seq<Container>, statuses: seq<ContainerStatus>)

  datatype Condition = Condition(kind: string, status: string)

  datatype Node = Node(name: string, conditions: seq<Condition>)

  /** "*" asks for every namespace, as the API's empty string does. */
  function Ns(namespace: string): string {
    if namespace == "*" then "" else namespace
  }

  /** What the API lists for a namespace, the empty string meaning all of them. */
  function ListPods(pods: seq<Pod>, namespace: string): seq<Pod> {
    if namespace == "" || pods == [] then pods
    else
      var n := |pods| - 1;
      ListPods(pods[..n], namespace) + if pods[n].namespace == namespace then [pods[n]] else []
  }

  // ---- Resource totals ----

  /** Addition that wraps around. */
  function Add(a: int64, b: int64): int64 {
    var x: int := a + b;
    if x >= 0x8000_0000_0000_0000 then x - 0x1_0000_0000_0000_0000
    else if x < -0x8000_0000_0000_0000 then x + 0x1_0000_0000_0000_0000
    else x
  }

  lemma AddLaws(a: int64, b: int64, c: int64)
    ensures Add(Add(a, b), c) == Add(a, Add(b, c)) == Add(Add(a, c), b)
    ensures Add(a, 0) == a
  {
  }

  datatype Counter = CpuRequests | CpuLimits | MemoryRequests | MemoryLimits

  function OrZero(q: Option<int64>): int64 {
    if q.Some? then q.value else 0
  }

  function Amount(c: Container, k: Counter): int64 {
    match k
    case CpuRequests => OrZero(c.requests.cpuMilli)
    case CpuLimits => OrZero(c.limits.cpuMilli)
    case MemoryRequests => OrZero(c.requests.memoryBytes)
    case MemoryLimits => OrZero(c.limits.memoryBytes)
  }

  function ContainerTotal(cs: seq<Container>, k: Counter): int64 {
    if cs == [] then 0 else Add(ContainerTotal(cs[..|cs| - 1], k), Amount(cs[|cs| - 1], k))
  }

  function PodTotal(pods: seq<Pod>, k: Counter): int64 {
    if pods == [] then 0 else Add(PodTotal(pods[..|pods| - 1], k), ContainerTotal(pods[|pods| - 1].containers, k))
  }

  datatype Totals = Totals(cpuRequests: int64, cpuLimits: int64, memoryRequests: int64, memoryLimits: int64)

  function Reading(t: Totals, k: Counter): int64 {
    match k
    case CpuRequests => t.cpuRequests
    case CpuLimits => t.cpuLimits
    case MemoryRequests => t.memoryRequests
    case MemoryLimits => t.memoryLimits
  }

  datatype Usage = Usage(namespace: string, podCount: nat, totals: Totals)

  ghost predicate HasTotals(t: Totals, pods: seq<Pod>) {
    forall k :: Reading(t, k) == PodTotal(pods, k)
  }

  /** `u` is the usage of a namespace: each counter adds up its pods' containers. */
  ghost predicate IsUsage(pods: seq<Pod>, namespace: string, u: Usage) {
    && u.namespace == namespace && u.podCount == |ListPods(pods, Ns(namespace))|
    && HasTotals(u.totals, ListPods(pods, Ns(namespace)))
  }

  /** One container, added to the four running totals. */
  method AddContainer(c: Container, before: Totals) returns (t: Totals)
    ensures forall k :: Reading(t, k) == Add(Reading(before, k), Amount(c, k))
  {
    t := before;
    if c.requests.cpuMilli.Some? {
      t := t.(cpuRequests := Add(t.cpuRequests, c.requests.cpuMilli.value));
    }
    if c.limits.cpuMilli.Some? {
      t := t.(cpuLimits := Add(t.cpuLimits, c.limits.cpuMilli.value));
    }
    if c.requests.memoryBytes.Some? {
      t := t.(memoryRequests := Add(t.memoryRequests, c.requests.memoryBytes.value));
    }
    if c.limits.memoryBytes.Some? {
      t := t.(memoryLimits := Add(t.memoryLimits, c.limits.memoryBytes.value));
    }
  }

  lemma NextContainer(before: int64, now: int64, cs: seq<Container>, i: nat, k: Counter)
    requires i < |cs| && now == Add(before, ContainerTotal(cs[..i], k))
    ensures Add(now, Amount(cs[i], k)) == Add(before, ContainerTotal(cs[..i + 1], k))
  {
    assert cs[..i + 1][..i] == cs[..i];
    AddLaws(before, ContainerTotal(cs[..i], k), Amount(cs[i], k));
  }

  /** The inner loop. */
  method AddPod(p: Pod, before: Totals) returns (t: Totals)
    ensures forall k :: Reading(t, k) == Add(Reading(before, k), ContainerTotal(p.containers, k))
  {
    t := before;
    for j := 0 to |p.containers|
      invariant forall k :: Reading(t, k) == Add(Reading(before, k), ContainerTotal(p.containers[..j], k))
    {
      ghost var was := t;
      t := AddContainer(p.containers[j], t);
      forall k
        ensures Reading(t, k) == Add(Reading(before, k), ContainerTotal(p.containers[..j + 1], k))
      {
        NextContainer(Reading(before, k), Reading(was, k), p.containers, j, k);
      }
    }
    assert p.containers[..|p.containers|] == p.containers;
  }

  method GetResourceUsage(pods: Option<seq<Pod>>, namespace: string) returns (r: Option<Usage>)
    ensures r.Some? <==> pods.Some?
    ensures r.Some? ==> IsUsage(pods.value, namespace, r.value)
  {
    if pods.None? {
      return None;
    }
    var listed := ListPods(pods.value, Ns(namespace));
    var t := Totals(0, 0, 0, 0);
    for i := 0 to |listed|
      invariant HasTotals(t, listed[..i])
    {
      t := AddPod(listed[i], t);
      assert listed[..i + 1][..i] == listed[..i];
    }
    assert listed[..|listed|] == listed;
    return Some(Usage(namespace, |listed|, t));
  }

  /** The pods' namespaces are among `names`, each name once, and none of them is a wildcard. */
  ghost predicate Namespaces(pods: seq<Pod>, names: seq<string>) {
    && Proper(names) && forall i :: 0 <= i < |pods| ==> pods[i].namespace in names
  }

  ghost predicate Proper(names: seq<string>) {
    && (forall i, j :: 0 <= i < j < |names| ==> names[i] != names[j])
    && forall i :: 0 <= i < |names| ==> names[i] != "" && names[i] != "*"
  }

  function PerNamespace(pods: seq<Pod>, names: seq<string>, k: Counter): int64 {
    if names == [] then 0
    else Add(PerNamespace(pods, names[..|names| - 1], k), PodTotal(ListPods(pods, names[|names| - 1]), k))
  }

  lemma ListPodsNext(pods: seq<Pod>, p: Pod, namespace: string, k: Counter)
    requires namespace != ""
    ensures PodTotal(ListPods(pods + [p], namespace), k) ==
      Add(PodTotal(ListPods(pods, namespace), k), if p.namespace == namespace then ContainerTotal(p.containers, k) else 0)
  {
    var was := ListPods(pods, namespace);
    assert (pods + [p])[..|pods|] == pods;
    assert (was + [p])[..|was|] == was && was + [] == was;
  }

  /** One more pod counts in its own namespace only. */
  lemma {:induction false} PerNamespaceNext(pods: seq<Pod>, p: Pod, names: seq<string>, k: Counter)
    requires Proper(names)
    ensures PerNamespace(pods + [p], names, k) ==
      Add(PerNamespace(pods, names, k), if p.namespace in names then ContainerTotal(p.containers, k) else 0)
  {
    if names != [] {
      var n := |names| - 1;
      PerNamespaceNext(pods, p, names[..n], k);
      ListPodsNext(pods, p, names[n], k);
      assert names == names[..n] + [names[n]];
      AddLaws(PerNamespace(pods, names[..n], k), PodTotal(ListPods(pods, names[n]), k), ContainerTotal(p.containers, k));
    }
  }

  lemma {:induction false} NoPods(names: seq<string>, k: Counter)
    ensures PerNamespace([], names, k) == 0
  {
    if names != [] {
      NoPods(names[..|names| - 1], k);
    }
  }

  lemma {:induction false} TotalSplits(pods: seq<Pod>, names: seq<string>, k: Counter)
    requires Namespaces(pods, names)
    ensures PodTotal(pods, k) == PerNamespace(pods, names, k)
  {
    if pods == [] {
      NoPods(names, k);
    } else {
      var n := |pods| - 1;
      TotalSplits(pods[..n], names, k);
      PerNamespaceNext(pods[..n], pods[n], names, k);
      assert pods[..n] + [pods[n]] == pods;
    }
  }

  /** The readings of several usages, added up. */
  function Sum(us: seq<Usage>, k: Counter): int64 {
    if us == [] then 0 else Add(Sum(us[..|us| - 1], k), Reading(us[|us| - 1].totals, k))
  }

  lemma {:induction false} SumIsPerNamespace(pods: seq<Pod>, names: seq<string>, us: seq<Usage>, k: Counter)
    requires Proper(names)
    requires |us| == |names| && forall i :: 0 <= i < |names| ==> IsUsage(pods, names[i], us[i])
    ensures Sum(us, k) == PerNamespace(pods, names, k)
  {
    if names != [] {
      SumIsPerNamespace(pods, names[..|names| - 1], us[..|us| - 1], k);
    }
  }

  /** The "*" totals are the totals of the namespaces added up, in 64-bit arithmetic, for all four counters. */
  lemma StarIsTheSum(pods: seq<Pod>, names: seq<string>, star: Usage, us: seq<Usage>, k: Counter)
    requires Namespaces(pods, names) && IsUsage(pods, "*", star)
    requires |us| == |names| && forall i :: 0 <= i < |names| ==> IsUsage(pods, names[i], us[i])
    ensures Reading(star.totals, k) == Sum(us, k)
  {
    TotalSplits(pods, names, k);
    SumIsPerNamespace(pods, names, us, k);
  }

  // ---- What the wrapped totals mean ----

  function ExactContainers(cs: seq<Container>, k: Counter): int {
    if cs == [] then 0 else ExactContainers(cs[..|cs| - 1], k) + Amount(cs[|cs| - 1], k)
  }

  function Exact(pods: seq<Pod>, k: Counter): int {
    if pods == [] then 0 else Exact(pods[..|pods| - 1], k) + ExactContainers(pods[|pods| - 1].containers, k)
  }

  /** How often a chain of additions wrapped, net. */
  function Wraps(a: int64, b: int64): int {
    if a + b >= 0x8000_0000_0000_0000 then 1 else if a + b < -0x8000_0000_0000_0000 then -1 else 0
  }

  lemma {:induction false} ContainersModulo(cs: seq<Container>, k: Counter) returns (turns: int)
    ensures ExactContainers(cs, k) == ContainerTotal(cs, k) + turns * 0x1_0000_0000_0000_0000
  {
    turns := 0;
    if cs != [] {
      var n := |cs| - 1;
      turns := ContainersModulo(cs[..n], k);
      turns := turns + Wraps(ContainerTotal(cs[..n], k), Amount(cs[n], k));
    }
  }

  /** A total is the exact sum modulo 2 to the 64, and the exact sum itself whenever that fits. */
  lemma {:induction false} TotalModulo(pods: seq<Pod>, k: Counter) returns (turns: int)
    ensures Exact(pods, k) == PodTotal(pods, k) + turns * 0x1_0000_0000_0000_0000
    ensures -0x8000_0000_0000_0000 <= Exact(pods, k) < 0x8000_0000_0000_0000 <==> PodTotal(pods, k) == Exact(pods, k)
  {
    turns := 0;
    if pods != [] {
      var n := |pods| - 1;
      turns := TotalModulo(pods[..n], k);
      var more := ContainersModulo(pods[n].containers, k);
      turns := turns + more + Wraps(PodTotal(pods[..n], k), ContainerTotal(pods[n].containers, k));
    }
  }

  // ---- The four counters by name ----

  function CpuRequest(c: Container): Option<int64> { c.requests.cpuMilli }

  function CpuLimit(c: Container): Option<int64> { c.limits.cpuMilli }

  function MemoryRequest(c: Container): Option<int64> { c.requests.memoryBytes }

  function MemoryLimit(c: Container): Option<int64> { c.limits.memoryBytes }

  /** The exact sum of one quantity over containers; a missing one counts nothing. */
  function QuantityOf(cs: seq<Container>, quantity: Container -> Option<int64>): int {
    if cs == [] then 0
    else
      var q := quantity(cs[|cs| - 1]);
      QuantityOf(cs[..|cs| - 1], quantity) + if q.Some? then q.value else 0
  }

  function QuantityOfPods(pods: seq<Pod>, quantity: Container -> Option<int64>): int {
    if pods == [] then 0 else QuantityOfPods(pods[..|pods| - 1], quantity) + QuantityOf(pods[|pods| - 1].containers, quantity)
  }

  /** Equal as 64-bit numbers. */
  predicate Same64(total: int64, exact: int) {
    (total - exact) % 0x1_0000_0000_0000_0000 == 0
  }

  lemma {:induction false} ExactContainersIs(cs: seq<Container>, k: Counter, quantity: Container -> Option<int64>)
    requires forall c :: Amount(c, k) == OrZero(quantity(c))
    ensures ExactContainers(cs, k) == QuantityOf(cs, quantity)
  {
    if cs != [] {
      ExactContainersIs(cs[..|cs| - 1], k, quantity);
    }
  }

  lemma {:induction false} ExactIs(pods: seq<Pod>, k: Counter, quantity: Container -> Option<int64>)
    requires forall c :: Amount(c, k) == OrZero(quantity(c))
    ensures Exact(pods, k) == QuantityOfPods(pods, quantity)
  {
    if pods != [] {
      ExactIs(pods[..|pods| - 1], k, quantity);
      ExactContainersIs(pods[|pods| - 1].containers, k, quantity);
    }
  }

  lemma CounterIs(pods: seq<Pod>, k: Counter, quantity: Container -> Option<int64>)
    requires forall c :: Amount(c, k) == OrZero(quantity(c))
    ensures Same64(PodTotal(pods, k), QuantityOfPods(pods, quantity))
  {
    ExactIs(pods, k, quantity);
    var turns := TotalModulo(pods, k);
    assert PodTotal(pods, k) - Exact(pods, k) == -turns * 0x1_0000_0000_0000_0000;
  }

  /** A usage reports, each under its own name and as a 64-bit number, the processor requests and limits and the
      memory requests and limits of all containers of the pods listed for the namespace. */
  lemma UsageByName(pods: seq<Pod>, namespace: string, u: Usage)
    requires IsUsage(pods, namespace, u)
    ensures var listed := ListPods(pods, Ns(namespace));
      && u.namespace == namespace && u.podCount == |listed|
      && Same64(u.totals.cpuRequests, QuantityOfPods(listed, CpuRequest))
      && Same64(u.totals.cpuLimits, QuantityOfPods(listed, CpuLimit))
      && Same64(u.totals.memoryRequests, QuantityOfPods(listed, MemoryRequest))
      && Same64(u.totals.memoryLimits, QuantityOfPods(listed, MemoryLimit))
  {
    var listed := ListPods(pods, Ns(namespace));
    CounterIs(listed, CpuRequests, CpuRequest);
    CounterIs(listed, CpuLimits, CpuLimit);
    CounterIs(listed, MemoryRequests, MemoryRequest);
    CounterIs(listed, MemoryLimits, MemoryLimit);
    assert Reading(u.totals, CpuRequests) == PodTotal(listed, CpuRequests);
    assert Reading(u.totals, CpuLimits) == PodTotal(listed, CpuLimits);
    assert Reading(u.totals, MemoryRequests) == PodTotal(listed, MemoryRequests);
    assert Reading(u.totals, MemoryLimits) == PodTotal(listed, MemoryLimits);
  }

  // ---- Pod classifiers ----

  /** strings.ToLower on ASCII letters. */
  function ToLower(s: string): (r: string)
    ensures |r| == |s|
  {
    seq(|s|, i requires 0 <= i < |s| => if 'A' <= s[i] <= 'Z' then s[i] - 'A' + 'a' else s[i])
  }

  function Contains(s: string, part: string): bool {
    exists i :: 0 <= i <= |s| && Registration.OccursAt(s, part, i)
  }

  predicate Crashing(cs: ContainerStatus) {
    cs.waiting.Some? && Contains(ToLower(cs.waiting.value), "crash")
  }

  predicate BackingOff(cs: ContainerStatus) {
    cs.waiting == Some("CrashLoopBackOff")
  }

  /** c, r, a, s, h follow one another here, each in either case. */
  predicate CrashAt(reason: string, i: nat) {
    && i + 5 <= |reason|
    && (reason[i] == 'c' || reason[i] == 'C') && (reason[i + 1] == 'r' || reason[i + 1] == 'R')
    && (reason[i + 2] == 'a' || reason[i + 2] == 'A') && (reason[i + 3] == 's' || reason[i + 3] == 'S')
    && (reason[i + 4] == 'h' || reason[i + 4] == 'H')
  }

  lemma CrashOccurs(reason: string, i: nat)
    ensures Registration.OccursAt(ToLower(reason), "crash", i) <==> CrashAt(reason, i)
  {
    if i + 5 <= |reason| {
      var low, part := ToLower(reason), ToLower(reason)[i..i + 5];
      assert part == "crash" <==>
        part[0] == 'c' && part[1] == 'r' && part[2] == 'a' && part[3] == 's' && part[4] == 'h';
      assert part[0] == low[i] && part[1] == low[i + 1] && part[2] == low[i + 2];
      assert part[3] == low[i + 3] && part[4] == low[i + 4];
    }
  }

  /** Exactly the reasons with these letters somewhere are failures, and a container that does not wait is none. */
  lemma CrashingReason(reason: string)
    ensures Crashing(ContainerStatus(Some(reason))) <==> exists i: nat :: CrashAt(reason, i)
    ensures !Crashing(ContainerStatus(None))
  {
    if i: nat :| Registration.OccursAt(ToLower(reason), "crash", i) {
      CrashOccurs(reason, i);
    }
    if i: nat :| CrashAt(reason, i) {
      CrashOccurs(reason, i);
    }
  }

  datatype List = FailedPods | PendingPods | CrashLoops

  /** What each list is meant to hold. */
  ghost predicate Belongs(list: List, p: Pod) {
    match list
    case FailedPods => p.phase == "Failed" || p.phase == "Pending" || exists i :: 0 <= i < |p.statuses| && Crashing(p.statuses[i])
    case PendingPods => p.phase == "Pending"
    case CrashLoops => exists i :: 0 <= i < |p.statuses| && BackingOff(p.statuses[i])
  }

  method PodFailing(p: Pod) returns (failing: bool)
    ensures failing <==> Belongs(FailedPods, p)
  {
    if p.phase == "Failed" || p.phase == "Pending" {
      return true;
    }
    for i := 0 to |p.statuses|
      invariant forall j :: 0 <= j < i ==> !Crashing(p.statuses[j])
    {
      if Crashing(p.statuses[i]) {
        return true;
      }
    }
    return false;
  }

  method PodCrashLooping(p: Pod) returns (looping: bool)
    ensures looping <==> Belongs(CrashLoops, p)
  {
    for i := 0 to |p.statuses|
      invariant forall j :: 0 <= j < i ==> !BackingOff(p.statuses[j])
    {
      if BackingOff(p.statuses[i]) {
        return true;
      }
    }
    return false;
  }

  ghost function Filter(list: List, pods: seq<Pod>): seq<Pod> {
    if pods == [] then []
    else
      var n := |pods| - 1;
      Filter(list, pods[..n]) + if Belongs(list, pods[n]) then [pods[n]] else []
  }

  lemma FilterNext(list: List, pods: seq<Pod>, i: nat)
    requires i < |pods|
    ensures Filter(list, pods[..i + 1]) == Filter(list, pods[..i]) + if Belongs(list, pods[i]) then [pods[i]] else []
  {
    assert pods[..i + 1][..i] == pods[..i];
  }

  method GetFailedPods(pods: Option<seq<Pod>>, namespace: string) returns (r: Option<seq<Pod>>)
    ensures r.Some? <==> pods.Some?
    ensures r.Some? ==> r.value == Filter(FailedPods, ListPods(pods.value, Ns(namespace)))
  {
    if pods.None? {
      return None;
    }
    var listed := ListPods(pods.value, Ns(namespace));
    var out := [];
    for i := 0 to |listed|
      invariant out == Filter(FailedPods, listed[..i])
    {
      FilterNext(FailedPods, listed, i);
      var failing := PodFailing(listed[i]);
      if failing {
        out := out + [listed[i]];
      }
    }
    assert listed[..|listed|] == listed;
    return Some(out);
  }

  method GetPendingPods(pods: Option<seq<Pod>>, namespace: string) returns (r: Option<seq<Pod>>)
    ensures r.Some? <==> pods.Some?
    ensures r.Some? ==> r.value == Filter(PendingPods, ListPods(pods.value, Ns(namespace)))
  {
    if pods.None? {
      return None;
    }
    var listed := ListPods(pods.value, Ns(namespace));
    var out := [];
    for i := 0 to |listed|
      invariant out == Filter(PendingPods, listed[..i])
    {
      FilterNext(PendingPods, listed, i);
      if listed[i].phase == "Pending" {
        out := out + [listed[i]];
      }
    }
    assert listed[..|listed|] == listed;
    return Some(out);
  }

  method GetCrashLoopPods(pods: Option<seq<Pod>>, namespace: string) returns (r: Option<seq<Pod>>)
    ensures r.Some? <==> pods.Some?
    ensures r.Some? ==> r.value == Filter(CrashLoops, ListPods(pods.value, Ns(namespace)))
  {
    if pods.None? {
      return None;
    }
    var listed := ListPods(pods.value, Ns(namespace));
    var out := [];
    for i := 0 to |listed|
      invariant out == Filter(CrashLoops, listed[..i])
    {
      FilterNext(CrashLoops, listed, i);
      var looping := PodCrashLooping(listed[i]);
      if looping {
        out := out + [listed[i]];
      }
    }
    assert listed[..|listed|] == listed;
    return Some(out);
  }

  lemma CrashLoopCrashes(cs: ContainerStatus)
    requires BackingOff(cs)
    ensures Crashing(cs)
  {
    var low := ToLower("CrashLoopBackOff");
    assert low[0..5] == "crash";
    assert Registration.OccursAt(low, "crash", 0);
  }

  lemma ListedMeansFailed(list: List, p: Pod)
    requires Belongs(list, p)
    ensures Belongs(FailedPods, p)
  {
    if list.CrashLoops? {
      var i :| 0 <= i < |p.statuses| && BackingOff(p.statuses[i]);
      CrashLoopCrashes(p.statuses[i]);
    }
  }

  /** On one snapshot the pending and the crash-looping pods are found by filtering the failed ones: an
      ordered part of that list. */
  lemma {:induction false} PartOfFailed(list: List, pods: seq<Pod>)
    ensures Filter(list, Filter(FailedPods, pods)) == Filter(list, pods)
  {
    if pods != [] {
      var n := |pods| - 1;
      var failed := Filter(FailedPods, pods[..n]);
      PartOfFailed(list, pods[..n]);
      if Belongs(list, pods[n]) {
        ListedMeansFailed(list, pods[n]);
      }
      assert (failed + [pods[n]])[..|failed|] == failed && failed + [] == failed;
    }
  }

  lemma FilterSnoc(list: List, pods: seq<Pod>, p: Pod)
    ensures Filter(list, pods + [p]) == Filter(list, pods) + if Belongs(list, p) then [p] else []
  {
    assert (pods + [p])[..|pods|] == pods;
  }

  lemma ListPodsSnoc(pods: seq<Pod>, p: Pod, namespace: string)
    requires namespace != ""
    ensures ListPods(pods + [p], namespace) == ListPods(pods, namespace) + if p.namespace == namespace then [p] else []
  {
    assert (pods + [p])[..|pods|] == pods;
  }

  /** Asking for one namespace gives that namespace's part of the answer for all, in the same order. */
  lemma {:induction false} NamespaceIsAPart(list: List, pods: seq<Pod>, namespace: string)
    ensures Filter(list, ListPods(pods, namespace)) == ListPods(Filter(list, pods), namespace)
  {
    if pods != [] && namespace != "" {
      var n := |pods| - 1;
      var p := pods[n];
      var listed, wanted := ListPods(pods[..n], namespace), Filter(list, pods[..n]);
      NamespaceIsAPart(list, pods[..n], namespace);
      FilterSnoc(list, listed, p);
      ListPodsSnoc(wanted, p, namespace);
      assert listed + [] == listed && wanted + [] == wanted;
    }
  }

  // ---- Health ----

  /** The first Ready condition decides; without one the node is not ready. */
  ghost predicate Ready(n: Node) {
    exists i :: 0 <= i < |n.conditions| && n.conditions[i] == Condition("Ready", "True") &&
      forall j :: 0 <= j < i ==> n.conditions[j].kind != "Ready"
  }

  method NodeReady(n: Node) returns (ready: bool)
    ensures ready <==> Ready(n)
  {
    for i := 0 to |n.conditions|
      invariant forall j :: 0 <= j < i ==> n.conditions[j].kind != "Ready"
    {
      if n.conditions[i].kind == "Ready" {
        return n.conditions[i].status == "True";
      }
    }
    return false;
  }

  datatype HealthSnapshot = HealthSnapshot(nodesReady: nat, nodesNotReady: nat, podsRunning: nat, podsPending: nat,
                                           podsFailed: nat, deployments: nat, statefulSets: nat, daemonSets: nat)

  ghost function CountReady(nodes: seq<Node>): nat {
    if nodes == [] then 0 else CountReady(nodes[..|nodes| - 1]) + if Ready(nodes[|nodes| - 1]) then 1 else 0
  }

  function CountPhase(pods: seq<Pod>, phase: string): nat {
    if pods == [] then 0 else CountPhase(pods[..|pods| - 1], phase) + if pods[|pods| - 1].phase == phase then 1 else 0
  }

  method CountNodes(nodes: seq<Node>) returns (ready: nat, notReady: nat)
    ensures ready == CountReady(nodes) && ready + notReady == |nodes|
  {
    ready, notReady := 0, 0;
    for i := 0 to |nodes|
      invariant ready == CountReady(nodes[..i]) && ready + notReady == i
    {
      assert nodes[..i + 1][..i] == nodes[..i];
      var r := NodeReady(nodes[i]);
      if r {
        ready := ready + 1;
      } else {
        notReady := notReady + 1;
      }
    }
    assert nodes[..|nodes|] == nodes;
  }

  method CountPods(pods: seq<Pod>) returns (running: nat, pending: nat, failed: nat)
    ensures running == CountPhase(pods, "Running") && pending == CountPhase(pods, "Pending")
    ensures failed == CountPhase(pods, "Failed")
  {
    running, pending, failed := 0, 0, 0;
    for i := 0 to |pods|
      invariant running == CountPhase(pods[..i], "Running") && pending == CountPhase(pods[..i], "Pending")
      invariant failed == CountPhase(pods[..i], "Failed")
    {
      assert pods[..i + 1][..i] == pods[..i];
      var phase := pods[i].phase;
      if phase == "Running" {
        running := running + 1;
      } else if phase == "Pending" {
        pending := pending + 1;
      } else if phase == "Failed" {
        failed := failed + 1;
      }
    }
    assert pods[..|pods|] == pods;
  }

  /** The counts, or no answer when any of the five lists fails. */
  ghost predicate IsHealth(h: HealthSnapshot, nodes: seq<Node>, pods: seq<Pod>) {
    && h.nodesReady == CountReady(nodes) && h.nodesReady + h.nodesNotReady == |nodes|
    && h.podsRunning == CountPhase(pods, "Running") && h.podsPending == CountPhase(pods, "Pending")
    && h.podsFailed == CountPhase(pods, "Failed")
  }

  method Health(nodes: Option<seq<Node>>, pods: Option<seq<Pod>>, deployments: Option<nat>, statefulSets: Option<nat>,
                daemonSets: Option<nat>)
    returns (h: HealthSnapshot, ok: bool)
    ensures ok <==> nodes.Some? && pods.Some? && deployments.Some? && statefulSets.Some? && daemonSets.Some?
    ensures ok ==> IsHealth(h, nodes.value, pods.value)
    ensures ok ==> h.deployments == deployments.value && h.statefulSets == statefulSets.value && h.daemonSets == daemonSets.value
  {
    h := HealthSnapshot(0, 0, 0, 0, 0, 0, 0, 0);
    if nodes.None? {
      return h, false;
    }
    var ready, notReady := CountNodes(nodes.value);
    h := h.(nodesReady := ready, nodesNotReady := notReady);
    if pods.None? {
      return h, false;
    }
    var running, pending, failed := CountPods(pods.value);
    h := h.(podsRunning := running, podsPending := pending, podsFailed := failed);
    if deployments.None? {
      return h, false;
    }
    h := h.(deployments := deployments.value);
    if statefulSets.None? {
      return h, false;
    }
    h := h.(statefulSets := statefulSets.value);
    if daemonSets.None? {
      return h, false;
    }
    return h.(daemonSets := daemonSets.value), true;
  }

  function ClusterHealth(h: HealthSnapshot): string {
    if h.nodesNotReady > 0 || h.podsFailed > 0 then "degraded" else "healthy"
  }

  lemma {:induction false} AllReady(nodes: seq<Node>)
    ensures CountReady(nodes) <= |nodes|
    ensures CountReady(nodes) == |nodes| <==> forall i :: 0 <= i < |nodes| ==> Ready(nodes[i])
  {
    if nodes != [] {
      var n := |nodes| - 1;
      AllReady(nodes[..n]);
      assert forall i :: 0 <= i < n ==> nodes[..n][i] == nodes[i];
      assert (forall i :: 0 <= i < |nodes| ==> Ready(nodes[i])) ==> forall i :: 0 <= i < n ==> Ready(nodes[..n][i]);
    }
  }

  lemma {:induction false} NonePhase(pods: seq<Pod>, phase: string)
    ensures CountPhase(pods, phase) == 0 <==> forall i :: 0 <= i < |pods| ==> pods[i].phase != phase
  {
    if pods != [] {
      var n := |pods| - 1;
      NonePhase(pods[..n], phase);
      assert forall i :: 0 <= i < n ==> pods[..n][i] == pods[i];
      assert (forall i :: 0 <= i < |pods| ==> pods[i].phase != phase) ==> forall i :: 0 <= i < n ==> pods[..n][i].phase != phase;
    }
  }

  /** The reported word is "healthy" exactly when every node is ready and no pod has failed. */
  lemma HealthyExactly(h: HealthSnapshot, nodes: seq<Node>, pods: seq<Pod>)
    requires IsHealth(h, nodes, pods)
    ensures ClusterHealth(h) == "healthy" || ClusterHealth(h) == "degraded"
    ensures ClusterHealth(h) == "healthy" <==>
      (forall i :: 0 <= i < |nodes| ==> Ready(nodes[i])) && (forall i :: 0 <= i < |pods| ==> pods[i].phase != "Failed")
  {
    AllReady(nodes);
    NonePhase(pods, "Failed");
    assert |"healthy"| != |"degraded"|;
  }

  lemma {:induction false} PendingCounted(pods: seq<Pod>)
    ensures |Filter(PendingPods, pods)| == CountPhase(pods, "Pending")
    ensures CountPhase(pods, "Pending") + CountPhase(pods, "Failed") <= |Filter(FailedPods, pods)|
  {
    if pods != [] {
      PendingCounted(pods[..|pods| - 1]);
    }
  }

  /** The commands agree on one snapshot: the pending count is the length of the pending list, and the
      failed list is at least as long as the failed and pending counts together. */
  lemma CommandsAgree(h: HealthSnapshot, nodes: seq<Node>, pods: seq<Pod>)
    requires IsHealth(h, nodes, pods)
    ensures h.podsPending == |Filter(PendingPods, ListPods(pods, Ns("*")))|
    ensures h.podsPending + h.podsFailed <= |Filter(FailedPods, ListPods(pods, Ns("*")))|
  {
    PendingCounted(pods);
  }
}
