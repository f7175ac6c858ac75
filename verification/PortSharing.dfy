/**
 Whether one plan publishes a host port of a node twice. Leases are taken once per name, so a plan that does
 is still called ready and leased; with one protocol, its second container could not bind. Lease names do not
 tell protocols apart, and neither does this module.
 */
module PortSharing {
  import opened Prelude
  import opened Planner
  import opened PlanReadiness

  /** Of an authored workload with a coordinator, only that rank publishes ports. */
  predicate Publishes(p: Placement, w: Workload) {
    !(w.upstream.Some? && w.upstream.value.Some? && p.rank != w.upstream.value.value)
  }

  function Base(p: Port): (r: int) { if p.host == 0 then p.container else p.host }

  /** How far the same port lies apart on two ranks. */
  function Gap(p: Placement, q: Placement, w: Workload): (r: int) { if w.upstream.Some? then 0 else q.rank - p.rank }

  /** The ports of two listings on one node do not meet. */
  predicate Separate(p: Placement, a: Port, q: Placement, b: Port, w: Workload) {
    Publishes(p, w) && Publishes(q, w) && p.node == q.node ==> Base(a) - Base(b) != Gap(p, q, w)
  }

  /** No rank lists a port twice, and no two ranks on one node list ports that lie their distance apart. */
  ghost predicate Spread(pls: seq<Placement>, w: Workload) {
    && (forall i, a, b :: 0 <= i < |pls| && 0 <= a < b < |w.ports| ==> Separate(pls[i], w.ports[a], pls[i], w.ports[b], w))
    && (forall i, j, a, b :: 0 <= i < j < |pls| && 0 <= a < |w.ports| && 0 <= b < |w.ports| ==>
          Separate(pls[i], w.ports[a], pls[j], w.ports[b], w))
  }

  lemma {:induction false} PortsAt(pl: Placement, w: Workload, ports: seq<Port>)
    ensures |PortsOf(pl, w, ports)| == |ports|
    ensures forall a :: 0 <= a < |ports| ==> PortsOf(pl, w, ports)[a] == PortUse(pl.node, HostPort(ports[a], pl.rank, w))
  {
    if ports != [] { PortsAt(pl, w, ports[1..]); }
  }

  function UsesOf(pl: Placement, w: Workload): (r: seq<PortUse>) {
    if Publishes(pl, w) then PortsOf(pl, w, w.ports) else []
  }

  lemma UsedBy(pl: Placement, w: Workload, u: PortUse)
    ensures u in UsesOf(pl, w) <==>
      Publishes(pl, w) && exists a :: 0 <= a < |w.ports| && u == PortUse(pl.node, HostPort(w.ports[a], pl.rank, w))
  {
    PortsAt(pl, w, w.ports);
    if Publishes(pl, w) {
      var us := PortsOf(pl, w, w.ports);
      if a :| 0 <= a < |w.ports| && u == PortUse(pl.node, HostPort(w.ports[a], pl.rank, w)) { assert us[a] in us; }
    }
  }

  lemma {:induction false} UsedByOne(pls: seq<Placement>, w: Workload, u: PortUse)
    ensures u in PortUses(pls, w) <==> exists j :: 0 <= j < |pls| && u in UsesOf(pls[j], w)
  {
    if pls != [] {
      UsedByOne(pls[1..], w, u);
      assert PortUses(pls, w) == UsesOf(pls[0], w) + PortUses(pls[1..], w);
      hide UsesOf, PortUses;
      if u in PortUses(pls[1..], w) {
        var j :| 0 <= j < |pls[1..]| && u in UsesOf(pls[1..][j], w);
        assert pls[j + 1] == pls[1..][j];
      }
      if j :| 0 <= j < |pls| && u in UsesOf(pls[j], w) {
        if j > 0 { assert pls[1..][j - 1] == pls[j]; }
      }
    }
  }

  /** One rank's own ports. */
  ghost predicate OwnSpread(pl: Placement, w: Workload) {
    forall a, b :: 0 <= a < b < |w.ports| ==> Separate(pl, w.ports[a], pl, w.ports[b], w)
  }

  lemma OwnPorts(pl: Placement, w: Workload)
    ensures NoRepeat(UsesOf(pl, w)) <==> OwnSpread(pl, w)
  {
    PortsAt(pl, w, w.ports);
    if Publishes(pl, w) {
      var us := PortsOf(pl, w, w.ports);
      hide PortsOf;
      forall a, b | 0 <= a < b < |w.ports| ensures us[a] != us[b] <==> Separate(pl, w.ports[a], pl, w.ports[b], w) {}
      if OwnSpread(pl, w) {
        forall a, b | 0 <= a < b < |us| ensures us[a] != us[b] {
          assert Separate(pl, w.ports[a], pl, w.ports[b], w);
        }
      } else {
        var a, b :| 0 <= a < b < |w.ports| && !Separate(pl, w.ports[a], pl, w.ports[b], w);
        assert us[a] == us[b];
      }
    }
  }

  ghost predicate PairSpread(p: Placement, q: Placement, w: Workload) {
    forall a, b :: 0 <= a < |w.ports| && 0 <= b < |w.ports| ==> Separate(p, w.ports[a], q, w.ports[b], w)
  }

  lemma PairPorts(p: Placement, q: Placement, w: Workload)
    ensures (forall u :: u in UsesOf(p, w) ==> u !in UsesOf(q, w)) <==> PairSpread(p, q, w)
  {
    forall u ensures u in UsesOf(p, w) <==>
      Publishes(p, w) && exists a :: 0 <= a < |w.ports| && u == PortUse(p.node, HostPort(w.ports[a], p.rank, w))
    {
      UsedBy(p, w, u);
    }
    forall u ensures u in UsesOf(q, w) <==>
      Publishes(q, w) && exists b :: 0 <= b < |w.ports| && u == PortUse(q.node, HostPort(w.ports[b], q.rank, w))
    {
      UsedBy(q, w, u);
    }
    hide UsesOf;
    if PairSpread(p, q, w) {
      forall u | u in UsesOf(p, w) ensures u !in UsesOf(q, w) {
        var a :| 0 <= a < |w.ports| && u == PortUse(p.node, HostPort(w.ports[a], p.rank, w));
        assert forall b :: 0 <= b < |w.ports| ==> Separate(p, w.ports[a], q, w.ports[b], w);
      }
    } else {
      var a, b :| 0 <= a < |w.ports| && 0 <= b < |w.ports| && !Separate(p, w.ports[a], q, w.ports[b], w);
      var u := PortUse(p.node, HostPort(w.ports[a], p.rank, w));
      assert u == PortUse(q.node, HostPort(w.ports[b], q.rank, w));
      assert u in UsesOf(p, w) && u in UsesOf(q, w);
    }
  }

  /** All of that, rank by rank. */
  ghost predicate AllSpread(pls: seq<Placement>, w: Workload) {
    && (forall i :: 0 <= i < |pls| ==> OwnSpread(pls[i], w))
    && (forall i, j :: 0 <= i < j < |pls| ==> PairSpread(pls[i], pls[j], w))
  }

  lemma {:induction false} SpreadIff(pls: seq<Placement>, w: Workload)
    ensures NoRepeat(PortUses(pls, w)) <==> AllSpread(pls, w)
  {
    if pls != [] {
      var p, rest := pls[0], pls[1..];
      SpreadIff(rest, w);
      OwnPorts(p, w);
      assert PortUses(pls, w) == UsesOf(p, w) + PortUses(rest, w);
      NoRepeatConcat(UsesOf(p, w), PortUses(rest, w));
      ApartFromRest(p, rest, w);
      AllSpreadCons(pls, w);
    }
  }

  lemma ApartFromRest(p: Placement, rest: seq<Placement>, w: Workload)
    ensures (forall u :: u in UsesOf(p, w) ==> u !in PortUses(rest, w))
      <==> forall j :: 0 <= j < |rest| ==> PairSpread(p, rest[j], w)
  {
    forall u ensures u in PortUses(rest, w) <==> exists j :: 0 <= j < |rest| && u in UsesOf(rest[j], w) {
      UsedByOne(rest, w, u);
    }
    forall j | 0 <= j < |rest|
      ensures (forall u :: u in UsesOf(p, w) ==> u !in UsesOf(rest[j], w)) <==> PairSpread(p, rest[j], w)
    {
      PairPorts(p, rest[j], w);
    }
    hide UsesOf, PortUses, PairSpread;
  }

  lemma AllSpreadCons(pls: seq<Placement>, w: Workload)
    requires pls != []
    ensures AllSpread(pls, w) <==>
      OwnSpread(pls[0], w) && AllSpread(pls[1..], w) && forall j :: 0 <= j < |pls[1..]| ==> PairSpread(pls[0], pls[1..][j], w)
  {
    hide OwnSpread, PairSpread;
    var rest := pls[1..];
    assert forall i :: 0 <= i < |rest| ==> rest[i] == pls[i + 1];
    if OwnSpread(pls[0], w) && AllSpread(rest, w) && forall j :: 0 <= j < |rest| ==> PairSpread(pls[0], rest[j], w) {
      forall i | 0 <= i < |pls| ensures OwnSpread(pls[i], w) { if i > 0 { assert pls[i] == rest[i - 1]; } }
      forall i, j | 0 <= i < j < |pls| ensures PairSpread(pls[i], pls[j], w) {
        assert pls[j] == rest[j - 1];
        if i > 0 { assert pls[i] == rest[i - 1]; }
      }
    }
  }

  /**
   A plan publishes every host port of a node once exactly when no rank lists a port twice and no two
   publishing ranks on one node list ports whose distance is that of the ranks.
   */
  lemma PortsOnceIff(x: Input)
    ensures NoRepeat(MakePlan(x).ports) <==> Spread(MakePlan(x).placements, x.workload)
  {
    var pls := MakePlan(x).placements;
    SpreadIff(pls, x.workload);
    hide Separate;
    assert AllSpread(pls, x.workload) <==> Spread(pls, x.workload);
  }

  function One(node: string, rank: int): (p: Placement) { Placement(node, rank, []) }

  lemma PlaceDeviceFree(node: string, rank: int, other: int)
    ensures Place([rank, other], [Candidate(node, [])], NOTHING, NoDevices).0 == [One(node, rank), One(node, other)]
  {
    var cs := [Candidate(node, [])];
    assert [rank, other][1..] == [other] && [other][1..] == [];
    assert forall r :: PlaceRank(cs, r, NOTHING, NoDevices) == ([One(node, r)], NOTHING);
    hide PlaceRank;
    assert Place([other], cs, NOTHING, NoDevices).0 == [One(node, other)] + Place([], cs, NOTHING, NoDevices).0;
    assert Place([], cs, NOTHING, NoDevices).0 == [];
  }

  lemma SortedPair(p: Placement, q: Placement)
    requires p.rank <= q.rank
    ensures SortByRank([p, q]) == [p, q]
  {
    assert [p, q][..1] == [p] && [p][..0] == [];
    assert SortByRank([p]) == [p];
    assert [p][1..] == [] && InsertByRank(q, [p]) == [p] + InsertByRank(q, []);
  }

  /** A recipe without accelerators, planned on the only node. */
  function Planned(node: string, ranks: seq<int>, ports: seq<Port>, request: Request,
                   address: string -> string): (x: Input) {
    Input([Node(node, true, None)], map[], request, ranks, [], Workload(ports, None), [], address, false)
  }

  /** Two ranks on one node, a distance apart, with two ports that distance apart: ready, and one port twice. */
  lemma ReadyPlanSharesPort(node: string, rank: int, gap: int, container: int, host: int, request: Request,
                            address: string -> string)
    requires gap > 0 && host > 0 && !request.required
    ensures var ports := [Port(container, host), Port(container, host + gap)];
      var plan := MakePlan(Planned(node, [rank, rank + gap], ports, request, address));
      plan.ready && !NoRepeat(plan.ports)
  {
    var w := Workload([Port(container, host), Port(container, host + gap)], None);
    var x := Planned(node, [rank, rank + gap], w.ports, request, address);
    hide MakePlan, Assign, NoRepeat, Spread;
    AssignsOne(x, node, rank, rank + gap);
    PlansPair(x, node, rank, rank + gap);
    PortsOnceIff(x);
    NotSpread([One(node, rank), One(node, rank + gap)], w, gap);
  }

  lemma PlansPair(x: Input, node: string, rank: int, other: int)
    requires rank <= other && Assign(x) == ([One(node, rank), One(node, other)], false) && |x.ranks| == 2
    requires x.leased == map[] && x.active == [] && !x.otherErrors
    ensures MakePlan(x).ready && MakePlan(x).placements == [One(node, rank), One(node, other)]
  {
    ReadyIff(x);
    SortedPair(One(node, rank), One(node, other));
    assert MakePlan(x).placements == SortByRank(Assign(x).0);
    hide MakePlan, Assign, SortByRank;
  }

  lemma NotSpread(pls: seq<Placement>, w: Workload, gap: int)
    requires |pls| == 2 && pls[0].node == pls[1].node && pls[1].rank == pls[0].rank + gap && w.upstream.None?
    requires |w.ports| == 2 && Base(w.ports[1]) == Base(w.ports[0]) + gap
    ensures !Spread(pls, w)
  {
    assert !Separate(pls[0], w.ports[1], pls[1], w.ports[0], w);
  }

  lemma AssignsOne(x: Input, node: string, rank: int, other: int)
    requires x.nodes == [Node(node, true, None)] && x.ranks == [rank, other] && x.overrides == [] && !x.request.required
    ensures Assign(x) == ([One(node, rank), One(node, other)], false)
  {
    var c := Candidate(node, []);
    assert x.nodes[..0] == [] && Candidates(x.nodes[..0], x.request, x.leased) == [];
    assert Candidates(x.nodes, x.request, x.leased) == [c];
    assert [c][..0] == [] && SortByFree([c]) == InsertByFree(c, SortByFree([])) == [c];
    PlaceDeviceFree(node, rank, other);
    hide Candidates, SortByFree, Place;
  }
}
