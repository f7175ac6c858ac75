/**
 What the planner promises when it calls a plan ready: which candidates it admits, how
 conflicts with active leases arise, and what the leases of a ready plan look like.
 */
module PlanReadiness {
  import opened Prelude
  import opened Planner
  import PlacementOptimality
  import StringOrder

  datatype Owner = Owner(kind: string, id: string)

  /** Active leases by resource, those of ignored deployments left out. */
  type Leases = map<string, Owner>

  function Gpu(node: string, uuid: string): (r: string) { "gpu:" + node + ":" + uuid }

  function UpstreamNode(node: string): (r: string) { "upstream-node:" + node }

  function Digits(n: nat): (r: string) {
    (if n < 10 then "" else Digits(n / 10)) + [('0' as int + n % 10) as char]
  }

  function Decimal(n: int): (r: string) { if n < 0 then "-" + Digits(-n) else Digits(n) }

  function PortAt(node: string, port: int): (r: string) { "port:" + node + ":" + Decimal(port) }

  // ------------------------------------------------------------ candidates

  datatype Node = Node(id: string, online: bool, inventory: Option<seq<Accelerator>>)

  datatype Request = Request(required: bool, requirement: Requirement, variant: Accelerator -> bool,
                             count: nat, all: bool, indices: seq<int>)

  function ModeOf(q: Request): (m: Mode) {
    if !q.required then NoDevices
    else if q.all then WholeNode
    else if q.indices != [] then Indices(q.indices, q.count)
    else AnyOf(q.count)
  }

  predicate Usable(n: Node, q: Request, leased: Leases, a: Accelerator) {
    Matches(q.requirement, a) && q.variant(a) && Gpu(n.id, a.uuid) !in leased
  }

  function FreeOn(n: Node, q: Request, leased: Leases, found: seq<Accelerator>): (r: seq<Accelerator>)
    ensures forall a :: a in r <==> a in found && Usable(n, q, leased, a)
  {
    if found == [] then []
    else
      var last := found[|found| - 1];
      assert found == found[..|found| - 1] + [last];
      FreeOn(n, q, leased, found[..|found| - 1]) + (if Usable(n, q, leased, last) then [last] else [])
  }

  predicate Admitted(q: Request, free: seq<Accelerator>) {
    && |free| >= (if q.all then 1 else q.count)
    && forall i :: i in q.indices ==> exists a :: a in free && a.index == i
  }

  function CandidateOf(n: Node, q: Request, leased: Leases): (c: Option<Candidate>) {
    if !n.online then None
    else if !q.required then Some(Candidate(n.id, []))
    else if n.inventory.None? then None
    else
      var free := FreeOn(n, q, leased, n.inventory.value);
      if Admitted(q, free) then Some(Candidate(n.id, free)) else None
  }

  function Candidates(nodes: seq<Node>, q: Request, leased: Leases): (cs: seq<Candidate>)
    ensures forall c :: c in cs <==> exists n :: n in nodes && CandidateOf(n, q, leased) == Some(c)
  {
    if nodes == [] then []
    else
      var front, last := nodes[..|nodes| - 1], nodes[|nodes| - 1];
      assert nodes == front + [last];
      var here := CandidateOf(last, q, leased);
      Candidates(front, q, leased) + (if here.Some? then [here.value] else [])
  }

  method FindCandidates(nodes: seq<Node>, q: Request, leased: Leases) returns (cs: seq<Candidate>)
    ensures cs == Candidates(nodes, q, leased)
  {
    hide Usable, Admitted;
    cs := [];
    for k := 0 to |nodes|
      invariant cs == Candidates(nodes[..k], q, leased)
    {
      assert nodes[..k + 1][..k] == nodes[..k];
      var n := nodes[k];
      if !n.online || (q.required && n.inventory.None?) { continue; }
      var free: seq<Accelerator> := [];
      if q.required {
        var found := n.inventory.value;
        for j := 0 to |found|
          invariant free == FreeOn(n, q, leased, found[..j])
        {
          assert found[..j + 1][..j] == found[..j];
          if Usable(n, q, leased, found[j]) { free := free + [found[j]]; }
        }
        assert found[..|found|] == found;
        if !Admitted(q, free) { continue; }
      }
      cs := cs + [Candidate(n.id, free)];
    }
    assert nodes[..|nodes|] == nodes;
  }

  // ------------------------------------------------------------ ports and conflicts

  datatype Conflict = Conflict(resource: string, occupiedBy: string, deployment: string)

  datatype Port = Port(container: int, host: int)

  /** `upstream` is the coordinator rank, when the workload runs an authored repository. */
  datatype Workload = Workload(ports: seq<Port>, upstream: Option<Option<int>>)

  datatype PortUse = PortUse(node: string, port: int)

  datatype Deployment = Deployment(id: string, address: string, port: int)

  function Wrap32(x: int): (r: int)
    ensures -0x8000_0000 <= r < 0x8000_0000
    ensures -0x8000_0000 <= x < 0x8000_0000 ==> r == x
  {
    (x + 0x8000_0000) % 0x1_0000_0000 - 0x8000_0000
  }

  function HostPort(p: Port, rank: int, w: Workload): (r: int) {
    var base := if p.host == 0 then p.container else p.host;
    if w.upstream.Some? then base else base + rank
  }

  function PortsOf(pl: Placement, w: Workload, ports: seq<Port>): (r: seq<PortUse>) {
    if ports == [] then [] else [PortUse(pl.node, HostPort(ports[0], pl.rank, w))] + PortsOf(pl, w, ports[1..])
  }

  function PortUses(pls: seq<Placement>, w: Workload): (r: seq<PortUse>) {
    if pls == [] then []
    else
      var silent := w.upstream.Some? && w.upstream.value.Some? && pls[0].rank != w.upstream.value.value;
      (if silent then [] else PortsOf(pls[0], w, w.ports)) + PortUses(pls[1..], w)
  }

  function LeaseConflict(resource: string, owner: Owner): (c: Conflict) {
    Conflict(resource, owner.id, if owner.kind == "deployment" then owner.id else "")
  }

  function PortConflicts(uses: seq<PortUse>, leased: Leases): (r: seq<Conflict>)
    ensures r == [] <==> forall u :: u in uses ==> PortAt(u.node, u.port) !in leased
  {
    if uses == [] then []
    else
      assert uses == [uses[0]] + uses[1..];
      var resource := PortAt(uses[0].node, uses[0].port);
      (if resource in leased then [LeaseConflict(resource, leased[resource])] else []) + PortConflicts(uses[1..], leased)
  }

  function EndpointHits(d: Deployment, uses: seq<PortUse>, address: string -> string): (r: seq<Conflict>) {
    if uses == [] then []
    else
      (if address(uses[0].node) == d.address && uses[0].port == d.port
       then [Conflict(PortAt(uses[0].node, d.port), d.id, d.id)] else [])
      + EndpointHits(d, uses[1..], address)
  }

  function EndpointConflicts(active: seq<Deployment>, uses: seq<PortUse>,
                             address: string -> string): (r: seq<Conflict>) {
    if active == [] then [] else EndpointHits(active[0], uses, address) + EndpointConflicts(active[1..], uses, address)
  }

  function Owned(cs: seq<Conflict>): (r: set<string>) {
    set c | c in cs && c.deployment != "" :: c.resource
  }

  /** Drops an ownerless conflict when a deployment is named for the same resource. */
  function Filter(cs: seq<Conflict>, owned: set<string>): (r: seq<Conflict>)
    ensures forall c :: c in r <==> c in cs && !(c.deployment == "" && c.resource in owned)
  {
    if cs == [] then []
    else
      var last := cs[|cs| - 1];
      assert cs == cs[..|cs| - 1] + [last];
      Filter(cs[..|cs| - 1], owned) + (if last.deployment == "" && last.resource in owned then [] else [last])
  }

  /** The filter changes what is shown, never whether there is a conflict. */
  lemma FilterKeepsConflict(cs: seq<Conflict>)
    ensures Filter(cs, Owned(cs)) == [] <==> cs == []
  {
    if cs != [] {
      var c := cs[0];
      if c.deployment == "" && c.resource in Owned(cs) {
        var d :| d in cs && d.deployment != "" && d.resource == c.resource;
        assert d in Filter(cs, Owned(cs));
      } else {
        assert c in Filter(cs, Owned(cs));
      }
    }
  }

  // ------------------------------------------------------------ whole-node leases of authored workloads

  /** Position of the first colon, or the length. */
  function Colon(s: string): (k: nat)
    ensures k <= |s| && ':' !in s[..k] && (k < |s| ==> s[k] == ':')
  {
    if s == "" || s[0] == ':' then 0
    else
      var k := 1 + Colon(s[1..]);
      assert s[..k] == [s[0]] + s[1..][..k - 1];
      k
  }

  lemma {:induction false} ColonAt(s: string, k: nat)
    requires k <= |s| && ':' !in s[..k] && (k < |s| ==> s[k] == ':')
    ensures Colon(s) == k
  {
    if k > 0 {
      assert s[0] == s[..k][0] && s[..k] == [s[0]] + s[1..][..k - 1];
      ColonAt(s[1..], k - 1);
    }
  }

  /** `upstreamNodeConflict` */
  predicate UpstreamClash(upstream: string, resource: string) {
    && "upstream-node:" <= upstream
    && var node := upstream[|"upstream-node:"|..];
       var k := Colon(resource);
       && node != "" && k < |resource|
       && var kind, rest := resource[..k], resource[k + 1..];
          if kind == "node" || kind == "upstream-node" then rest == node
          else if kind == "gpu" || kind == "port" then rest[..Colon(rest)] == node
          else false
  }

  predicate ResourcesConflict(left: string, right: string) {
    left == right || UpstreamClash(left, right) || UpstreamClash(right, left)
  }

  lemma KindOf(kind: string, rest: string)
    requires ':' !in kind
    ensures var s := kind + ":" + rest; Colon(s) == |kind| && s[..|kind|] == kind && s[|kind| + 1..] == rest
  {
    var s := kind + ":" + rest;
    assert s[..|kind|] == kind && s[|kind|] == ':' && s[|kind| + 1..] == rest;
    ColonAt(s, |kind|);
  }

  /** A whole-node lease excludes exactly the node's device, port and node leases. */
  lemma UpstreamExcludes(node: string, kind: string, detail: string)
    requires node != "" && ':' !in node && ':' !in kind
    ensures ResourcesConflict(UpstreamNode(node), kind + ":" + node + ":" + detail) <==> kind == "gpu" || kind == "port"
    ensures ResourcesConflict(UpstreamNode(node), kind + ":" + node) <==> kind in {"node", "upstream-node", "gpu", "port"}
  {
    var u := UpstreamNode(node);
    assert u[|"upstream-node:"|..] == node;
    var long, short := kind + ":" + node + ":" + detail, kind + ":" + node;
    assert long == kind + ":" + (node + ":" + detail);
    KindOf(kind, node + ":" + detail);
    KindOf(kind, node);
    KindOf(node, detail);
    assert node[..|node|] == node;
    ColonAt(node, |node|);
    assert u == "upstream-node" + ":" + node;
    KindOf("upstream-node", node);
    Reverse(u, node, kind, node + ":" + detail);
    Reverse(u, node, kind, node);
    assert |node| < |node + ":" + detail|;
  }

  /** Read the other way round, the pair conflicts only when it is the same whole-node lease. */
  lemma Reverse(u: string, node: string, kind: string, rest: string)
    requires u == "upstream-node" + ":" + node && ':' !in kind && ':' !in node && node != ""
    ensures UpstreamClash(kind + ":" + rest, u) <==> kind == "upstream-node" && rest == node
  {
    var s := kind + ":" + rest;
    KindOf(kind, rest);
    KindOf("upstream-node", node);
    if "upstream-node:" <= s {
      assert s[..13] == "upstream-node" && s[13] == ':';
      ColonAt(s, 13);
      assert s[14..] == rest;
    }
    if kind == "upstream-node" {
      assert s[..14] == "upstream-node:";
      assert s[14..] == rest;
    }
  }

  function UpstreamConflicts(pls: seq<Placement>, w: Workload, leased: Leases): (r: set<Conflict>) {
    set pl, resource | pl in pls && resource in leased
      && (resource == UpstreamNode(pl.node) || (w.upstream.Some? && ResourcesConflict(UpstreamNode(pl.node), resource)))
      :: LeaseConflict(resource, leased[resource])
  }

  // ------------------------------------------------------------ the plan

  datatype Input = Input(nodes: seq<Node>, leased: Leases, request: Request, ranks: seq<int>, overrides: seq<Override>,
                         workload: Workload, active: seq<Deployment>, address: string -> string, otherErrors: bool)

  function InsertByRank(p: Placement, sorted: seq<Placement>): (r: seq<Placement>)
    ensures multiset(r) == multiset{p} + multiset(sorted)
  {
    if sorted == [] || p.rank < sorted[0].rank then [p] + sorted
    else
      assert sorted == [sorted[0]] + sorted[1..];
      [sorted[0]] + InsertByRank(p, sorted[1..])
  }

  function SortByRank(ps: seq<Placement>): (r: seq<Placement>)
    ensures multiset(r) == multiset(ps)
  {
    if ps == [] then []
    else
      assert ps == ps[..|ps| - 1] + [ps[|ps| - 1]];
      InsertByRank(ps[|ps| - 1], SortByRank(ps[..|ps| - 1]))
  }

  /** Placements in the order found, and whether placing them raised an error. */
  function Assign(x: Input): (r: (seq<Placement>, bool)) {
    var cs := Candidates(x.nodes, x.request, x.leased);
    var mode := ModeOf(x.request);
    if x.overrides != [] then
      var p := Overrides(x.overrides, x.ranks, cs, set n | n in x.nodes && n.online :: n.id, mode);
      (p.placements, p.problems + Missing(x.ranks, p.covered) != [])
    else
      var pls := Place(x.ranks, SortByFree(cs), NOTHING, mode).0;
      (pls, |pls| < |x.ranks|)
  }

  datatype Plan = Plan(placements: seq<Placement>, ports: seq<PortUse>, conflicts: seq<Conflict>, blocked: set<Conflict>,
                       ready: bool)

  function MakePlan(x: Input): (plan: Plan) {
    var (found, failed) := Assign(x);
    var pls := SortByRank(found);
    var uses := PortUses(pls, x.workload);
    var all := PortConflicts(uses, x.leased) + EndpointConflicts(x.active, uses, x.address);
    var conflicts := Filter(all, Owned(all));
    var blocked := UpstreamConflicts(pls, x.workload, x.leased);
    Plan(pls, uses, conflicts, blocked,
         |pls| == |x.ranks| && conflicts == [] && blocked == {} && !failed && !x.otherErrors)
  }

  /** `LeaseResources` before duplicates are dropped and the rest is sorted. */
  function DeviceEntries(pl: Placement, devices: seq<string>): (r: seq<string>)
    ensures forall s :: s in r <==> exists u :: u in devices && s == Gpu(pl.node, u)
  {
    if devices == [] then []
    else
      assert devices == [devices[0]] + devices[1..];
      [Gpu(pl.node, devices[0])] + DeviceEntries(pl, devices[1..])
  }

  function GpuEntries(pls: seq<Placement>): (r: seq<string>)
    ensures forall s :: s in r <==> exists pl, u :: pl in pls && u in pl.devices && s == Gpu(pl.node, u)
  {
    if pls == [] then []
    else
      assert pls == [pls[0]] + pls[1..];
      DeviceEntries(pls[0], pls[0].devices) + GpuEntries(pls[1..])
  }

  function NodeEntries(pls: seq<Placement>): (r: seq<string>)
    ensures forall s :: s in r <==> exists pl :: pl in pls && s == UpstreamNode(pl.node)
  {
    if pls == [] then []
    else
      assert pls == [pls[0]] + pls[1..];
      [UpstreamNode(pls[0].node)] + NodeEntries(pls[1..])
  }

  function PortEntries(uses: seq<PortUse>): (r: seq<string>)
    ensures forall s :: s in r <==> exists u :: u in uses && s == PortAt(u.node, Wrap32(u.port))
  {
    if uses == [] then []
    else
      assert uses == [uses[0]] + uses[1..];
      [PortAt(uses[0].node, Wrap32(uses[0].port))] + PortEntries(uses[1..])
  }

  function Entries(plan: Plan, w: Workload, fabric: Option<string>): (r: seq<string>) {
    (if w.upstream.Some? then NodeEntries(plan.placements) else [])
    + GpuEntries(plan.placements)
    + (if fabric.Some? && fabric.value != "" then ["fabric:" + fabric.value] else [])
    + PortEntries(plan.ports)
  }

  /** Each resource is rendered once, in order, whatever repeats among the entries. */
  method LeaseResources(plan: Plan, w: Workload, fabric: Option<string>) returns (out: seq<string>)
    ensures forall s :: s in out <==> s in Entries(plan, w, fabric)
    ensures StringOrder.Ascending(out)
  {
    var entries := Entries(plan, w, fabric);
    var seen: set<string> := {};
    var kept: seq<string> := [];
    for k := 0 to |entries|
      invariant forall s :: s in kept <==> s in entries[..k]
      invariant forall s :: s in seen <==> s in kept
      invariant forall i, j :: 0 <= i < j < |kept| ==> kept[i] != kept[j]
    {
      assert entries[..k + 1] == entries[..k] + [entries[k]];
      if entries[k] !in seen {
        seen, kept := seen + {entries[k]}, kept + [entries[k]];
      }
    }
    assert entries[..|entries|] == entries;
    out := StringOrder.Sort(kept);
    StringOrder.SortAscending(kept);
  }

  lemma PermutationDistinct<T>(a: seq<T>, b: seq<T>)
    requires multiset(a) == multiset(b) && forall i, j :: 0 <= i < j < |a| ==> a[i] != a[j]
    ensures forall x :: x in a <==> x in b
    ensures |a| == |b| && forall i, j :: 0 <= i < j < |b| ==> b[i] != b[j]
  {
    assert forall x :: x in a <==> x in multiset(a);
    assert forall x :: x in b <==> x in multiset(b);
    assert |multiset(a)| == |a| && |multiset(b)| == |b|;
    forall i, j | 0 <= i < j < |b| ensures b[i] != b[j] {
      OnceEach(a, b[i]);
      assert b == b[..i] + [b[i]] + b[i + 1..j] + [b[j]] + b[j + 1..];
    }
  }

  lemma {:induction false} OnceEach<T>(a: seq<T>, x: T)
    requires forall i, j :: 0 <= i < j < |a| ==> a[i] != a[j]
    ensures multiset(a)[x] <= 1
  {
    if a != [] {
      var front := a[..|a| - 1];
      assert a == front + [a[|a| - 1]];
      OnceEach(front, x);
      if x == a[|a| - 1] { assert x !in front; }
    }
  }

  // ------------------------------------------------------------ what ready means

  ghost predicate NoRepeat<T>(a: seq<T>) {
    forall i, j :: 0 <= i < j < |a| ==> a[i] != a[j]
  }

  ghost predicate Held(a: Accelerator, free: seq<Accelerator>, uuid: string) {
    a in free && a.uuid == uuid
  }

  /** The devices come from the candidate and are what the mode asks for, none twice unless an index was asked for twice. */
  ghost predicate Served(p: Placement, c: Candidate, mode: Mode) {
    && p.node == c.node
    && (forall u :: u in p.devices ==> exists a :: Held(a, c.free, u))
    && (match mode
       case NoDevices => p.devices == []
       case WholeNode => p.devices == Uuids(c.free) != []
       case Indices(indices, _) => forall i :: i in indices ==> exists a :: a in c.free && a.index == i && a.uuid in p.devices
       case AnyOf(n) => |p.devices| == n)
    && (PlacementOptimality.DistinctUuids(c.free) ==> (NoRepeat(p.devices) <==> OnceAsked(mode)))
  }

  ghost predicate OnceAsked(mode: Mode) { mode.Indices? ==> NoRepeat(mode.indices) }

  ghost predicate Apart(p: Placement, q: Placement) {
    && p.rank != q.rank
    && (p.node == q.node ==> forall u :: u in p.devices ==> u !in q.devices)
  }

  ghost predicate Sound(ps: seq<Placement>, ranks: seq<int>, cs: seq<Candidate>, mode: Mode) {
    && NoRepeat(ps)
    && (forall p, q :: p in ps && q in ps && p != q ==> Apart(p, q))
    && (forall p :: p in ps ==> p.rank in ranks && exists c :: c in cs && Served(p, c, mode))
  }

  /** Every device of `ps` is marked, and a whole-node rank consumes its node. */
  ghost predicate Marked(ps: seq<Placement>, alloc: Alloc, mode: Mode) {
    && (forall p, u :: p in ps && u in p.devices ==> (p.node, u) in alloc.taken)
    && Consumed(alloc, mode)
  }

  ghost predicate Consumed(alloc: Alloc, mode: Mode) {
    mode.WholeNode? ==> forall t :: t in alloc.taken ==> t.0 in alloc.usedAll
  }

  lemma {:induction false} PickedServes(c: Candidate, free: seq<Accelerator>, index: int, alloc: Alloc)
    ensures var r := PickedFrom(c, free, index, alloc); r != [] ==> exists a :: a in free && a.index == index && a.uuid in r
  {
    if free != [] {
      PickedServes(c, free[1..], index, alloc);
      assert free == [free[0]] + free[1..];
    }
  }

  lemma {:induction false} IndicesServe(c: Candidate, indices: seq<int>, alloc: Alloc)
    requires PickIndices(c, indices, alloc).Some?
    ensures forall i :: i in indices ==> exists a :: a in c.free && a.index == i && a.uuid in PickIndices(c, indices, alloc).value
  {
    if indices != [] {
      var here := Picked(c, indices[0], alloc);
      PickedServes(c, c.free, indices[0], alloc);
      IndicesServe(c, indices[1..], alloc);
      var rest := PickIndices(c, indices[1..], alloc).value;
      assert PickIndices(c, indices, alloc).value == here + rest;
      assert indices == [indices[0]] + indices[1..];
    }
  }

  /** Equal devices have equal indices. */
  lemma PickedIndex(c: Candidate, u: string, i: int, j: int, alloc: Alloc)
    requires PlacementOptimality.DistinctUuids(c.free) && u in Picked(c, i, alloc) && u in Picked(c, j, alloc)
    ensures i == j
  {
    PickedHas(c, c.free, i, alloc);
    PickedHas(c, c.free, j, alloc);
    var k :| 0 <= k < |c.free| && c.free[k].uuid == u && c.free[k].index == i;
    var l :| 0 <= l < |c.free| && c.free[l].uuid == u && c.free[l].index == j;
    assert k == l;
  }

  lemma {:induction false} PickedHas(c: Candidate, free: seq<Accelerator>, index: int, alloc: Alloc)
    ensures forall u :: u in PickedFrom(c, free, index, alloc) ==>
      exists k :: 0 <= k < |free| && free[k].uuid == u && free[k].index == index
  {
    if free != [] {
      PickedHas(c, free[1..], index, alloc);
      forall u | u in PickedFrom(c, free, index, alloc)
        ensures exists k :: 0 <= k < |free| && free[k].uuid == u && free[k].index == index
      {
        if u in PickedFrom(c, free[1..], index, alloc) {
          var k :| 0 <= k < |free[1..]| && free[1..][k].uuid == u && free[1..][k].index == index;
          assert free[k + 1] == free[1..][k];
        } else {
          assert free[0].uuid == u && free[0].index == index;
        }
      }
    }
  }

  lemma {:induction false} PickedOnce(c: Candidate, free: seq<Accelerator>, index: int, alloc: Alloc)
    requires PlacementOptimality.DistinctUuids(free)
    ensures NoRepeat(PickedFrom(c, free, index, alloc))
  {
    if free != [] {
      assert forall k :: 0 <= k < |free[1..]| ==> free[1..][k] == free[k + 1];
      PickedOnce(c, free[1..], index, alloc);
      PickedHas(c, free[1..], index, alloc);
      assert free[0].uuid !in PickedFrom(c, free[1..], index, alloc);
    }
  }

  lemma NoRepeatConcat<T>(a: seq<T>, b: seq<T>)
    ensures NoRepeat(a + b) <==> NoRepeat(a) && NoRepeat(b) && forall x :: x in a ==> x !in b
  {
    var c := a + b;
    assert forall i :: 0 <= i < |a| ==> c[i] == a[i];
    assert forall i :: 0 <= i < |b| ==> c[|a| + i] == b[i];
    if NoRepeat(c) {
      assert NoRepeat(a);
      forall i, j | 0 <= i < j < |b| ensures b[i] != b[j] { assert c[|a| + i] != c[|a| + j]; }
      forall i, j | 0 <= i < |a| && 0 <= j < |b| ensures a[i] != b[j] { assert c[i] != c[|a| + j]; }
    } else if NoRepeat(a) && NoRepeat(b) {
      var i, j :| 0 <= i < j < |c| && c[i] == c[j];
      assert i < |a| <= j;
      assert a[i] in a && b[j - |a|] in b;
    }
  }

  /** A list of devices holds every pick of every index asked for, and nothing else. */
  lemma {:induction false} PickedAll(c: Candidate, indices: seq<int>, alloc: Alloc)
    requires PickIndices(c, indices, alloc).Some?
    ensures forall u :: u in PickIndices(c, indices, alloc).value <==> exists i :: i in indices && u in Picked(c, i, alloc)
    ensures forall i :: i in indices ==> Picked(c, i, alloc) != []
  {
    if indices != [] {
      var here := Picked(c, indices[0], alloc);
      PickedAll(c, indices[1..], alloc);
      assert PickIndices(c, indices, alloc).value == here + PickIndices(c, indices[1..], alloc).value;
      assert indices == [indices[0]] + indices[1..];
      hide Picked, PickIndices;
    }
  }

  lemma {:induction false} IndicesOnce(c: Candidate, indices: seq<int>, alloc: Alloc)
    requires PickIndices(c, indices, alloc).Some? && PlacementOptimality.DistinctUuids(c.free)
    ensures NoRepeat(PickIndices(c, indices, alloc).value) <==> NoRepeat(indices)
  {
    if indices != [] {
      var i, more := indices[0], indices[1..];
      var here := Picked(c, i, alloc);
      assert PickIndices(c, more, alloc).Some?;
      var rest := PickIndices(c, more, alloc).value;
      assert PickIndices(c, indices, alloc).value == here + rest;
      assert here != [];
      IndicesOnce(c, more, alloc);
      PickedOnce(c, c.free, i, alloc);
      NoRepeatConcat(here, rest);
      assert indices == [i] + more;
      NoRepeatConcat([i], more);
      PickedAll(c, more, alloc);
      assert NoRepeat(here);
      hide PickIndices, Picked, NoRepeat;
      if i in more {
        assert here[0] in here && here[0] in rest;
      } else {
        forall u | u in here ensures u !in rest {
          if u in rest {
            var j :| j in more && u in Picked(c, j, alloc);
            PickedIndex(c, u, i, j, alloc);
          }
        }
      }
    }
  }

  lemma AvailableOnce(c: Candidate, alloc: Alloc, n: nat)
    requires PlacementOptimality.DistinctUuids(c.free) && n <= |Available(c, alloc)|
    ensures NoRepeat(Uuids(Available(c, alloc)[..n]))
  {
    PlacementOptimality.SubsequenceDistinct(c, c.free, alloc.taken);
  }

  /** Nothing of a node that no whole-node rank has is taken. */
  lemma WholeNodeFree(c: Candidate, alloc: Alloc)
    requires Consumed(alloc, WholeNode) && c.node !in alloc.usedAll
    ensures Available(c, alloc) == c.free
  {
    PlacementOptimality.FreeAfterLocal(c, c.free, {}, alloc.taken);
    PlacementOptimality.NothingTaken(c, c.free);
  }

  lemma AllocServes(c: Candidate, rank: int, alloc: Alloc, mode: Mode)
    requires AllocOne(c, rank, alloc, mode).Some? && Consumed(alloc, mode)
    ensures var (p, next) := AllocOne(c, rank, alloc, mode).value;
      && p.rank == rank && p.node == c.node && Served(p, c, mode) && Consumed(next, mode)
      && (forall u :: u in p.devices ==> (c.node, u) !in alloc.taken)
      && (forall u :: u in p.devices ==> (c.node, u) in next.taken)
      && alloc.taken <= next.taken
  {
    var (p, next) := AllocOne(c, rank, alloc, mode).value;
    AllocTakes(c, rank, alloc, mode, p, next);
    AllocOnce(c, rank, alloc, mode, p, next);
    if mode.WholeNode? {
      WholeNodeFree(c, alloc);
    } else if mode.Indices? {
      IndicesServe(c, mode.indices, alloc);
    }
  }

  lemma AllocTakes(c: Candidate, rank: int, alloc: Alloc, mode: Mode, p: Placement, next: Alloc)
    requires AllocOne(c, rank, alloc, mode) == Some((p, next))
    ensures forall u :: u in p.devices ==> (c.node, u) !in alloc.taken && exists a :: Held(a, c.free, u)
  {
    var avail := Available(c, alloc);
    if mode.Indices? {
      forall u | u in p.devices ensures exists a :: Held(a, c.free, u) {
        var a :| a in c.free && a.uuid == u;
        assert Held(a, c.free, u);
      }
    } else if mode.WholeNode? || mode.AnyOf? {
      forall u | u in p.devices ensures (c.node, u) !in alloc.taken && exists a :: Held(a, c.free, u) {
        var i :| 0 <= i < |p.devices| && p.devices[i] == u;
        assert avail[i] in avail && Held(avail[i], c.free, u);
      }
    }
  }

  lemma AllocOnce(c: Candidate, rank: int, alloc: Alloc, mode: Mode, p: Placement, next: Alloc)
    requires AllocOne(c, rank, alloc, mode) == Some((p, next))
    ensures PlacementOptimality.DistinctUuids(c.free) ==> (NoRepeat(p.devices) <==> OnceAsked(mode))
  {
    if PlacementOptimality.DistinctUuids(c.free) {
      var avail := Available(c, alloc);
      match mode {
        case NoDevices =>
        case WholeNode =>
          AvailableOnce(c, alloc, |avail|);
          assert avail[..|avail|] == avail;
        case Indices(indices, _) => IndicesOnce(c, indices, alloc);
        case AnyOf(n) => AvailableOnce(c, alloc, n);
      }
    }
  }

  lemma SoundSnoc(ps: seq<Placement>, ranks: seq<int>, cs: seq<Candidate>, alloc: Alloc, mode: Mode,
                  c: Candidate, p: Placement, next: Alloc)
    requires Sound(ps, ranks, cs, mode) && Marked(ps, alloc, mode) && c in cs
    requires p.rank in ranks && forall q :: q in ps ==> q.rank != p.rank
    requires AllocOne(c, p.rank, alloc, mode) == Some((p, next))
    ensures Sound(ps + [p], ranks, cs, mode) && Marked(ps + [p], next, mode)
  {
    hide AllocOne, Served, Consumed;
    AllocServes(c, p.rank, alloc, mode);
    forall q | q in ps ensures Apart(p, q) && Apart(q, p) {
    }
    assert p !in ps;
    assert NoRepeat(ps + [p]);
    hide NoRepeat;
    var all := ps + [p];
    assert forall q :: q in all <==> q in ps || q == p;
    assert forall q :: q in ps ==> exists d :: d in cs && Served(q, d, mode);
  }

  lemma {:induction false} OverridesSound(ovs: seq<Override>, ranks: seq<int>, cs: seq<Candidate>, online: set<string>,
                                          mode: Mode)
    ensures var r := Overrides(ovs, ranks, cs, online, mode);
      && Sound(r.placements, ranks, cs, mode) && Marked(r.placements, r.alloc, mode)
      && forall p :: p in r.placements ==> p.rank in r.covered
  {
    if ovs != [] {
      var front, ov := ovs[..|ovs| - 1], ovs[|ovs| - 1];
      OverridesSound(front, ranks, cs, online, mode);
      var p := Overrides(front, ranks, cs, online, mode);
      Override1Sound(ov, ranks, cs, online, mode, p, Override1(ov, ranks, cs, online, mode, p));
    }
  }

  lemma Override1Sound(ov: Override, ranks: seq<int>, cs: seq<Candidate>, online: set<string>, mode: Mode, p: Progress,
                       r: Progress)
    requires r == Override1(ov, ranks, cs, online, mode, p)
    requires Sound(p.placements, ranks, cs, mode) && Marked(p.placements, p.alloc, mode)
    requires forall pl :: pl in p.placements ==> pl.rank in p.covered
    ensures Sound(r.placements, ranks, cs, mode) && Marked(r.placements, r.alloc, mode)
    ensures forall pl :: pl in r.placements ==> pl.rank in r.covered
  {
    var found := Lookup(cs, ov.node);
    if ov.rank !in p.covered && ov.rank in ranks && found.Some? {
      var c := found.value;
      var got := AllocOne(c, ov.rank, p.alloc, mode);
      if got.Some? {
        AllocServes(c, ov.rank, p.alloc, mode);
        SoundSnoc(p.placements, ranks, cs, p.alloc, mode, c, got.value.0, got.value.1);
      }
    }
  }

  lemma {:induction false} PlaceSound(before: seq<Placement>, ranks: seq<int>, all: seq<int>, cs: seq<Candidate>,
                                      alloc: Alloc, mode: Mode)
    requires Sound(before, all, cs, mode) && Marked(before, alloc, mode)
    requires NoRepeat(ranks) && forall k :: k in ranks ==> k in all && forall p :: p in before ==> p.rank != k
    ensures Sound(before + Place(ranks, cs, alloc, mode).0, all, cs, mode)
    decreases |ranks|
  {
    if ranks == [] {
      assert before + [] == before;
    } else {
      var (here, next) := PlaceRank(cs, ranks[0], alloc, mode);
      var rest := Place(ranks[1..], cs, next, mode).0;
      assert ranks[0] in ranks && forall k :: k in ranks[1..] ==> k in ranks;
      assert forall k :: k in ranks[1..] ==> k != ranks[0];
      assert before + (here + rest) == (before + here) + rest;
      hide Sound, Marked, PlaceRank;
      PlaceRankSound(before, ranks[0], all, cs, alloc, mode, here, next);
      PlaceSound(before + here, ranks[1..], all, cs, next, mode);
    }
  }

  lemma PlaceRankSound(before: seq<Placement>, rank: int, all: seq<int>, cs: seq<Candidate>, alloc: Alloc, mode: Mode,
                       here: seq<Placement>, next: Alloc)
    requires (here, next) == PlaceRank(cs, rank, alloc, mode)
    requires Sound(before, all, cs, mode) && Marked(before, alloc, mode)
    requires rank in all && forall p :: p in before ==> p.rank != rank
    ensures Sound(before + here, all, cs, mode) && Marked(before + here, next, mode)
    ensures forall p :: p in here ==> p.rank == rank
  {
    hide Sound, Served;
    if here == [] {
      assert before + here == before;
    } else {
      var k := FirstFit(cs, alloc, mode);
      AllocServes(cs[k], rank, alloc, mode);
      SoundSnoc(before, all, cs, alloc, mode, cs[k], here[0], next);
    }
  }

  lemma SoundElsewhere(ps: seq<Placement>, ranks: seq<int>, cs: seq<Candidate>, ds: seq<Candidate>, mode: Mode)
    requires Sound(ps, ranks, cs, mode) && forall c :: c in cs <==> c in ds
    ensures Sound(ps, ranks, ds, mode)
  {
  }

  lemma AssignSound(x: Input)
    requires NoRepeat(x.ranks)
    ensures Sound(Assign(x).0, x.ranks, Candidates(x.nodes, x.request, x.leased), ModeOf(x.request))
  {
    var cs := Candidates(x.nodes, x.request, x.leased);
    var mode := ModeOf(x.request);
    if x.overrides != [] {
      OverridesSound(x.overrides, x.ranks, cs, set n | n in x.nodes && n.online :: n.id, mode);
    } else {
      var sorted := SortByFree(cs);
      PlaceSound([], x.ranks, x.ranks, sorted, NOTHING, mode);
      var ps := Place(x.ranks, sorted, NOTHING, mode).0;
      assert [] + ps == ps;
      assert forall c :: c in cs <==> c in multiset(cs);
      assert forall c :: c in sorted <==> c in multiset(sorted);
      SoundElsewhere(ps, x.ranks, sorted, cs, mode);
    }
  }

  lemma {:induction false} Ranks(ps: seq<Placement>)
    requires NoRepeat(ps) && forall p, q :: p in ps && q in ps && p != q ==> p.rank != q.rank
    ensures |set p | p in ps :: p.rank| == |ps|
  {
    if ps != [] {
      var front, last := ps[..|ps| - 1], ps[|ps| - 1];
      assert ps == front + [last];
      Ranks(front);
      assert last !in front;
      assert (set p | p in ps :: p.rank) == (set p | p in front :: p.rank) + {last.rank};
      assert last.rank !in set p | p in front :: p.rank;
    }
  }

  lemma {:induction false} SetSize(a: seq<int>)
    ensures |set k | k in a| <= |a|
  {
    if a != [] {
      SetSize(a[1..]);
      assert (set k | k in a) == {a[0]} + set k | k in a[1..];
    }
  }

  lemma {:induction false} FullSubset<T>(a: set<T>, b: set<T>)
    requires a <= b && |a| >= |b|
    ensures a == b
  {
    if a != {} {
      var x :| x in a;
      FullSubset(a - {x}, b - {x});
    } else {
      assert |b| == 0;
    }
  }

  /** Distinct ranks from the list, as many as the list: every rank is placed. */
  lemma EveryRankPlaced(ps: seq<Placement>, ranks: seq<int>, cs: seq<Candidate>, mode: Mode)
    requires Sound(ps, ranks, cs, mode) && |ps| == |ranks|
    ensures forall k :: k in ranks ==> exists p :: p in ps && p.rank == k
  {
    var placed, asked := set p | p in ps :: p.rank, set k | k in ranks;
    Ranks(ps);
    SetSize(ranks);
    FullSubset(placed, asked);
    forall k | k in ranks ensures exists p :: p in ps && p.rank == k {
      assert k in placed;
    }
  }

  /** The candidate's devices, read back on the node they came from. */
  ghost predicate OnNode(p: Placement, n: Node, q: Request, leased: Leases) {
    && n.online && n.id == p.node
    && (q.required ==> n.inventory.Some?)
    && (p.devices != [] ==> q.required)
    && forall u :: u in p.devices ==> exists a :: Held(a, n.inventory.value, u) && Usable(n, q, leased, a)
  }

  lemma ServedOnNode(p: Placement, c: Candidate, nodes: seq<Node>, q: Request, leased: Leases)
    requires c in Candidates(nodes, q, leased) && Served(p, c, ModeOf(q))
    ensures exists n :: n in nodes && OnNode(p, n, q, leased)
  {
    var n :| n in nodes && CandidateOf(n, q, leased) == Some(c);
    if !q.required {
      assert OnNode(p, n, q, leased);
    } else {
      forall u | u in p.devices ensures exists a :: Held(a, n.inventory.value, u) && Usable(n, q, leased, a) {
        var a :| Held(a, c.free, u);
        assert Held(a, n.inventory.value, u);
      }
      assert OnNode(p, n, q, leased);
    }
  }

  lemma {:induction false} NoHits(d: Deployment, uses: seq<PortUse>, address: string -> string)
    ensures EndpointHits(d, uses, address) == [] <==>
      forall u :: u in uses ==> !(address(u.node) == d.address && u.port == d.port)
  {
    if uses != [] {
      NoHits(d, uses[1..], address);
      assert uses == [uses[0]] + uses[1..];
    }
  }

  lemma {:induction false} NoEndpointConflicts(active: seq<Deployment>, uses: seq<PortUse>, address: string -> string)
    ensures EndpointConflicts(active, uses, address) == [] <==>
      forall d, u :: d in active && u in uses ==> !(address(u.node) == d.address && u.port == d.port)
  {
    if active != [] {
      NoHits(active[0], uses, address);
      NoEndpointConflicts(active[1..], uses, address);
      assert active == [active[0]] + active[1..];
    }
  }

  ghost predicate Clash(p: Placement, resource: string, w: Workload) {
    resource == UpstreamNode(p.node) || (w.upstream.Some? && ResourcesConflict(UpstreamNode(p.node), resource))
  }

  lemma NoUpstreamConflicts(pls: seq<Placement>, w: Workload, leased: Leases)
    ensures UpstreamConflicts(pls, w, leased) == {} <==> forall p, s :: p in pls && s in leased ==> !Clash(p, s, w)
  {
    hide ResourcesConflict;
    forall p, s | p in pls && s in leased && Clash(p, s, w) ensures UpstreamConflicts(pls, w, leased) != {} {
      assert LeaseConflict(s, leased[s]) in UpstreamConflicts(pls, w, leased);
    }
    if c :| c in UpstreamConflicts(pls, w, leased) {
      var p, s :| p in pls && s in leased && Clash(p, s, w) && c == LeaseConflict(s, leased[s]);
    }
  }

  /** Ready, in terms of the leases and endpoints alone: the display filter never hides a conflict. */
  lemma ReadyIff(x: Input)
    ensures var plan := MakePlan(x);
      plan.ready <==>
        && |plan.placements| == |x.ranks| && !Assign(x).1 && !x.otherErrors
        && (forall u :: u in plan.ports ==> PortAt(u.node, u.port) !in x.leased)
        && (forall d, u :: d in x.active && u in plan.ports ==> !(x.address(u.node) == d.address && u.port == d.port))
        && (forall p, s :: p in plan.placements && s in x.leased ==> !Clash(p, s, x.workload))
  {
    hide Clash, PortAt, Assign;
    var pls := SortByRank(Assign(x).0);
    var uses := PortUses(pls, x.workload);
    var a, b := PortConflicts(uses, x.leased), EndpointConflicts(x.active, uses, x.address);
    FilterKeepsConflict(a + b);
    NoEndpointConflicts(x.active, uses, x.address);
    NoUpstreamConflicts(pls, x.workload, x.leased);
    assert a + b == [] <==> a == [] && b == [];
  }

  ghost predicate ByRank(ps: seq<Placement>) {
    forall i, j :: 0 <= i < j < |ps| ==> ps[i].rank <= ps[j].rank
  }

  lemma {:induction false} InsertedByRank(p: Placement, sorted: seq<Placement>)
    requires ByRank(sorted)
    ensures ByRank(InsertByRank(p, sorted))
  {
    if sorted != [] && p.rank >= sorted[0].rank {
      var rest := InsertByRank(p, sorted[1..]);
      InsertedByRank(p, sorted[1..]);
      forall i | 0 <= i < |rest| ensures sorted[0].rank <= rest[i].rank {
        assert rest[i] in multiset(rest);
        assert rest[i] == p || rest[i] in sorted[1..];
      }
    }
  }

  lemma {:induction false} SortedByRank(ps: seq<Placement>)
    ensures ByRank(SortByRank(ps))
  {
    if ps != [] {
      SortedByRank(ps[..|ps| - 1]);
      InsertedByRank(ps[|ps| - 1], SortByRank(ps[..|ps| - 1]));
    }
  }

  lemma SortedSound(ps: seq<Placement>, sorted: seq<Placement>, ranks: seq<int>, cs: seq<Candidate>, mode: Mode)
    requires multiset(ps) == multiset(sorted) && Sound(ps, ranks, cs, mode)
    ensures Sound(sorted, ranks, cs, mode)
  {
    PermutationDistinct(ps, sorted);
  }

  /**
   A ready plan places every rank exactly once, on an online node with usable devices: as many as asked
   for, those with the indices asked for, or all the node has free, none of them held twice.
   */
  lemma ReadyPlanPlacesEveryRank(x: Input)
    requires NoRepeat(x.ranks) && MakePlan(x).ready
    ensures var ps := MakePlan(x).placements;
      && |ps| == |x.ranks| && NoRepeat(ps) && ByRank(ps)
      && (forall k :: k in x.ranks ==> exists p :: p in ps && p.rank == k)
      && (forall p, q :: p in ps && q in ps && p != q ==> Apart(p, q))
      && (forall p :: p in ps ==> exists n :: n in x.nodes && OnNode(p, n, x.request, x.leased))
      && (forall p :: p in ps ==> exists c :: c in Candidates(x.nodes, x.request, x.leased) && Served(p, c, ModeOf(x.request)))
  {
    var cs, mode := Candidates(x.nodes, x.request, x.leased), ModeOf(x.request);
    AssignSound(x);
    var ps := MakePlan(x).placements;
    SortedSound(Assign(x).0, ps, x.ranks, cs, mode);
    SortedByRank(Assign(x).0);
    hide Assign, MakePlan, Served, OnNode, Apart;
    EveryRankPlaced(ps, x.ranks, cs, mode);
    forall p | p in ps ensures exists n :: n in x.nodes && OnNode(p, n, x.request, x.leased) {
      var c :| c in cs && Served(p, c, mode);
      ServedOnNode(p, c, x.nodes, x.request, x.leased);
    }
  }

  ghost predicate Narrow(port: int) { -0x8000_0000 <= port < 0x8000_0000 }

  lemma DevicesFree(ps: seq<Placement>, x: Input, s: string)
    requires forall p :: p in ps ==> exists n :: n in x.nodes && OnNode(p, n, x.request, x.leased)
    requires s in GpuEntries(ps)
    ensures s !in x.leased
  {
    var p, u :| p in ps && u in p.devices && s == Gpu(p.node, u);
    var n :| n in x.nodes && OnNode(p, n, x.request, x.leased);
  }

  lemma NodesFree(ps: seq<Placement>, x: Input, s: string)
    requires forall p, r :: p in ps && r in x.leased ==> !Clash(p, r, x.workload)
    requires s in NodeEntries(ps)
    ensures s !in x.leased
  {
    hide ResourcesConflict;
    var p :| p in ps && s == UpstreamNode(p.node);
    assert Clash(p, s, x.workload);
  }

  ghost predicate WrappedPort(s: string, uses: seq<PortUse>) {
    exists u :: u in uses && !Narrow(u.port) && s == PortAt(u.node, Wrap32(u.port))
  }

  lemma PortsFree(uses: seq<PortUse>, x: Input, s: string)
    requires forall u :: u in uses ==> PortAt(u.node, u.port) !in x.leased
    requires s in PortEntries(uses)
    ensures s !in x.leased || WrappedPort(s, uses)
  {
    var u :| u in uses && s == PortAt(u.node, Wrap32(u.port));
    assert Narrow(u.port) ==> Wrap32(u.port) == u.port;
  }

  /**
   Everything a ready plan would lease is free: only the fabric, which is chosen without looking
   at leases, and a port outside 32 bits, which is leased under another number, can be taken.
   */
  lemma ReadyPlanLeasesAreFree(x: Input, fabric: Option<string>, s: string)
    requires NoRepeat(x.ranks) && MakePlan(x).ready
    requires s in Entries(MakePlan(x), x.workload, fabric)
    ensures
      || s !in x.leased
      || (fabric.Some? && s == "fabric:" + fabric.value)
      || WrappedPort(s, MakePlan(x).ports)
  {
    var plan := MakePlan(x);
    ReadyIff(x);
    ReadyPlanPlacesEveryRank(x);
    hide MakePlan, Assign, PortAt, Clash, OnNode, WrappedPort, NoRepeat, Apart;
    if s in GpuEntries(plan.placements) {
      DevicesFree(plan.placements, x, s);
    } else if s in PortEntries(plan.ports) {
      PortsFree(plan.ports, x, s);
    } else if s in NodeEntries(plan.placements) {
      NodesFree(plan.placements, x, s);
    }
  }

  /** The ports a profile may ask for, and ranks below 2^31 - 65536, never wrap. */
  lemma ReadyPlanPortsAreFree(x: Input, fabric: Option<string>, s: string)
    requires NoRepeat(x.ranks) && MakePlan(x).ready
    requires forall p :: p in x.workload.ports ==> 0 <= p.host <= 65535 && 1 <= p.container <= 65535
    requires forall k :: k in x.ranks ==> 0 <= k < 0x8000_0000 - 65536
    requires s in Entries(MakePlan(x), x.workload, fabric)
    ensures s !in x.leased || (fabric.Some? && s == "fabric:" + fabric.value)
  {
    ReadyPlanLeasesAreFree(x, fabric, s);
    AssignSound(x);
    var ps := MakePlan(x).placements;
    SortedSound(Assign(x).0, ps, x.ranks, Candidates(x.nodes, x.request, x.leased), ModeOf(x.request));
    assert MakePlan(x).ports == PortUses(ps, x.workload);
    hide MakePlan, Assign, Served;
    UsesNarrow(ps, x.workload);
  }

  lemma {:induction false} PortsNarrow(pl: Placement, w: Workload, ports: seq<Port>)
    requires forall p :: p in ports ==> 0 <= p.host <= 65535 && 1 <= p.container <= 65535
    requires 0 <= pl.rank < 0x8000_0000 - 65536
    ensures forall u :: u in PortsOf(pl, w, ports) ==> Narrow(u.port)
  {
    if ports != [] {
      assert ports[0] in ports && forall p :: p in ports[1..] ==> p in ports;
      PortsNarrow(pl, w, ports[1..]);
    }
  }

  lemma {:induction false} UsesNarrow(pls: seq<Placement>, w: Workload)
    requires forall p :: p in w.ports ==> 0 <= p.host <= 65535 && 1 <= p.container <= 65535
    requires forall pl :: pl in pls ==> 0 <= pl.rank < 0x8000_0000 - 65536
    ensures forall u :: u in PortUses(pls, w) ==> Narrow(u.port)
  {
    if pls != [] {
      assert pls[0] in pls && forall pl :: pl in pls[1..] ==> pl in pls;
      PortsNarrow(pls[0], w, w.ports);
      UsesNarrow(pls[1..], w);
    }
  }

  /** A ready authored workload shares none of its nodes with a device, port or node lease. */
  lemma ReadyUpstreamIsAlone(x: Input, p: Placement, kind: string, detail: string)
    requires MakePlan(x).ready && x.workload.upstream.Some? && p in MakePlan(x).placements
    requires p.node != "" && ':' !in p.node && ':' !in kind
    ensures kind == "gpu" || kind == "port" ==> kind + ":" + p.node + ":" + detail !in x.leased
    ensures kind == "node" || kind == "upstream-node" ==> kind + ":" + p.node !in x.leased
  {
    ReadyIff(x);
    UpstreamExcludes(p.node, kind, detail);
    hide MakePlan, ResourcesConflict, UpstreamNode;
    var long, short := kind + ":" + p.node + ":" + detail, kind + ":" + p.node;
    assert ResourcesConflict(UpstreamNode(p.node), long) ==> Clash(p, long, x.workload);
    assert ResourcesConflict(UpstreamNode(p.node), short) ==> Clash(p, short, x.workload);
  }

  // ------------------------------------------------------------ a repeated rank

  function RankList(ps: seq<Placement>): (r: seq<int>)
    ensures |r| == |ps| && forall i :: 0 <= i < |r| ==> r[i] == ps[i].rank
  {
    seq(|ps|, i requires 0 <= i < |ps| => ps[i].rank)
  }

  lemma {:induction false} PlaceInOrder(ranks: seq<int>, cs: seq<Candidate>, alloc: Alloc, mode: Mode)
    ensures var ps := Place(ranks, cs, alloc, mode).0;
      |ps| <= |ranks| && (|ps| == |ranks| ==> RankList(ps) == ranks)
    decreases |ranks|
  {
    if ranks != [] {
      var (here, next) := PlaceRank(cs, ranks[0], alloc, mode);
      assert here == [] || (|here| == 1 && here[0].rank == ranks[0]);
      hide PlaceRank;
      PlaceInOrder(ranks[1..], cs, next, mode);
      var rest := Place(ranks[1..], cs, next, mode).0;
      if here != [] && |rest| == |ranks| - 1 { RankCons(here, rest, ranks); }
    }
  }

  lemma RankCons(here: seq<Placement>, rest: seq<Placement>, ranks: seq<int>)
    requires |here| == 1 && ranks != [] && here[0].rank == ranks[0] && RankList(rest) == ranks[1..]
    ensures RankList(here + rest) == ranks
  {
    assert ranks == [ranks[0]] + ranks[1..];
    assert RankList(here + rest) == [here[0].rank] + RankList(rest);
  }

  lemma {:induction false} InsertRank(p: Placement, sorted: seq<Placement>)
    ensures multiset(RankList(InsertByRank(p, sorted))) == multiset{p.rank} + multiset(RankList(sorted))
  {
    if sorted == [] || p.rank < sorted[0].rank {
      assert RankList([p] + sorted) == [p.rank] + RankList(sorted);
    } else {
      InsertRank(p, sorted[1..]);
      var rest := InsertByRank(p, sorted[1..]);
      assert RankList([sorted[0]] + rest) == [sorted[0].rank] + RankList(rest);
      assert RankList(sorted) == [sorted[0].rank] + RankList(sorted[1..]);
    }
  }

  lemma {:induction false} SortRanks(ps: seq<Placement>)
    ensures multiset(RankList(SortByRank(ps))) == multiset(RankList(ps))
  {
    hide InsertByRank, RankList;
    if ps != [] {
      var front, last := ps[..|ps| - 1], ps[|ps| - 1];
      assert SortByRank(ps) == InsertByRank(last, SortByRank(front));
      SortRanks(front);
      InsertRank(last, SortByRank(front));
      assert RankList(ps) == RankList(front) + [last.rank];
    } else {
      assert SortByRank(ps) == ps;
    }
  }

  /** Without overrides a ready plan repeats a rank exactly as often as the recipe's list does. */
  lemma ReadyKeepsRankList(x: Input)
    requires x.overrides == [] && MakePlan(x).ready
    ensures multiset(RankList(MakePlan(x).placements)) == multiset(x.ranks)
  {
    var cs := Candidates(x.nodes, x.request, x.leased);
    var found := Place(x.ranks, SortByFree(cs), NOTHING, ModeOf(x.request)).0;
    PlaceInOrder(x.ranks, SortByFree(cs), NOTHING, ModeOf(x.request));
    SortRanks(found);
    assert |multiset(found)| == |found| && |multiset(SortByRank(found))| == |SortByRank(found)|;
  }
}
