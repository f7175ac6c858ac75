/**
 Accelerator allocation of one deployment plan: which devices of which node each
 rank receives, automatically or from operator overrides.

 The functions on `Alloc` are the planner's closures; `Allocation` is the same on
 the maps the closures share and change.
 */
module Planner {

  import opened Prelude

  datatype Accelerator = Accelerator(index: int, uuid: string, vendor: string, architecture: string,
                                     memory: int, features: seq<string>)

  datatype Requirement = Requirement(vendor: string, architectures: seq<string>, minMemory: int, features: seq<string>)

  /** `matchesAcc` */
  predicate Matches(req: Requirement, a: Accelerator) {
    && (req.vendor != "" ==> a.vendor == req.vendor)
    && (req.architectures != [] ==> a.architecture in req.architectures)
    && (req.minMemory > 0 ==> a.memory >= req.minMemory)
    && (forall f :: f in req.features ==> f in a.features)
  }

  /** How a rank takes devices: none, a whole node, named indices, or any `n`. */
  datatype Mode = NoDevices | WholeNode | Indices(indices: seq<int>, atLeast: nat) | AnyOf(n: nat)

  datatype Candidate = Candidate(node: string, free: seq<Accelerator>)

  datatype Placement = Placement(node: string, rank: int, devices: seq<string>)

  /** Devices handed out so far in this plan, and nodes a whole-node rank consumed. */
  datatype Alloc = Alloc(taken: set<(string, string)>, usedAll: set<string>)

  const NOTHING := Alloc({}, {})

  function FreeAfter(c: Candidate, free: seq<Accelerator>, taken: set<(string, string)>): (r: seq<Accelerator>)
    ensures forall a :: a in r <==> a in free && (c.node, a.uuid) !in taken
    ensures |r| <= |free|
  {
    if free == [] then []
    else
      var last := free[|free| - 1];
      var front := free[..|free| - 1];
      assert free == front + [last];
      FreeAfter(c, front, taken) + (if (c.node, last.uuid) in taken then [] else [last])
  }

  function Available(c: Candidate, alloc: Alloc): (r: seq<Accelerator>) {
    FreeAfter(c, c.free, alloc.taken)
  }

  function Uuids(devices: seq<Accelerator>): (r: seq<string>)
    ensures |r| == |devices| && forall i :: 0 <= i < |r| ==> r[i] == devices[i].uuid
  {
    seq(|devices|, i requires 0 <= i < |devices| => devices[i].uuid)
  }

  function Picked(c: Candidate, index: int, alloc: Alloc): (r: seq<string>)
  {
    PickedFrom(c, c.free, index, alloc)
  }

  function PickedFrom(c: Candidate, free: seq<Accelerator>, index: int, alloc: Alloc): (r: seq<string>)
    ensures forall u :: u in r ==> (c.node, u) !in alloc.taken && exists a :: a in free && a.uuid == u
  {
    if free == [] then []
    else
      var rest := PickedFrom(c, free[1..], index, alloc);
      if free[0].index == index && (c.node, free[0].uuid) !in alloc.taken then [free[0].uuid] + rest else rest
  }

  function PickIndices(c: Candidate, indices: seq<int>, alloc: Alloc): (r: Option<seq<string>>)
    ensures r.Some? ==> forall u :: u in r.value ==> (c.node, u) !in alloc.taken && exists a :: a in c.free && a.uuid == u
  {
    if indices == [] then Some([])
    else
      var here := Picked(c, indices[0], alloc);
      if here == [] then None
      else match PickIndices(c, indices[1..], alloc)
        case None => None
        case Some(rest) => Some(here + rest)
  }

  function Mark(alloc: Alloc, node: string, devices: seq<string>): (r: Alloc) {
    alloc.(taken := alloc.taken + set u | u in devices :: (node, u))
  }

  /** `allocOne` */
  function AllocOne(c: Candidate, rank: int, alloc: Alloc, mode: Mode): (r: Option<(Placement, Alloc)>) {
    var avail := Available(c, alloc);
    match mode
    case NoDevices => Some((Placement(c.node, rank, []), alloc))
    case WholeNode =>
      if c.node in alloc.usedAll || avail == [] then None
      else
        var devices := Uuids(avail);
        var marked := Mark(alloc, c.node, devices);
        Some((Placement(c.node, rank, devices), marked.(usedAll := marked.usedAll + {c.node})))
    case Indices(indices, _) =>
      (match PickIndices(c, indices, alloc)
       case None => None
       case Some(devices) => Some((Placement(c.node, rank, devices), Mark(alloc, c.node, devices))))
    case AnyOf(n) =>
      if |avail| < n then None
      else
        var devices := Uuids(avail[..n]);
        Some((Placement(c.node, rank, devices), Mark(alloc, c.node, devices)))
  }

  predicate Eligible(c: Candidate, alloc: Alloc, mode: Mode) {
    match mode
    case NoDevices => true
    case WholeNode => c.node !in alloc.usedAll
    case Indices(_, atLeast) => |Available(c, alloc)| >= atLeast
    case AnyOf(n) => |Available(c, alloc)| >= n
  }

  /** The first eligible candidate, as a position. */
  function FirstFit(cs: seq<Candidate>, alloc: Alloc, mode: Mode): (k: nat)
    ensures k <= |cs|
    ensures k < |cs| ==> Eligible(cs[k], alloc, mode)
    ensures forall i :: 0 <= i < k ==> !Eligible(cs[i], alloc, mode)
  {
    if cs == [] || Eligible(cs[0], alloc, mode) then 0 else 1 + FirstFit(cs[1..], alloc, mode)
  }

  /** One rank of the automatic placement: what is placed, and what is then taken. */
  function PlaceRank(cs: seq<Candidate>, rank: int, alloc: Alloc, mode: Mode): (r: (seq<Placement>, Alloc)) {
    var k := FirstFit(cs, alloc, mode);
    if k == |cs| then ([], alloc)
    else match AllocOne(cs[k], rank, alloc, mode)
      case None => ([], alloc)
      case Some((p, next)) => ([p], next)
  }

  function Place(ranks: seq<int>, cs: seq<Candidate>, alloc: Alloc, mode: Mode): (r: (seq<Placement>, Alloc)) {
    if ranks == [] then ([], alloc)
    else
      var (here, next) := PlaceRank(cs, ranks[0], alloc, mode);
      var (rest, last) := Place(ranks[1..], cs, next, mode);
      (here + rest, last)
  }

  /** Stable sort, most free devices first. */
  function InsertByFree(c: Candidate, sorted: seq<Candidate>): (r: seq<Candidate>)
    ensures multiset(r) == multiset{c} + multiset(sorted)
  {
    if sorted == [] || |sorted[0].free| < |c.free| then [c] + sorted
    else
      assert sorted == [sorted[0]] + sorted[1..];
      [sorted[0]] + InsertByFree(c, sorted[1..])
  }

  function SortByFree(cs: seq<Candidate>): (r: seq<Candidate>)
    ensures multiset(r) == multiset(cs)
  {
    if cs == [] then []
    else
      var last := cs[|cs| - 1];
      assert cs == cs[..|cs| - 1] + [last];
      InsertByFree(last, SortByFree(cs[..|cs| - 1]))
  }

  // ------------------------------------------------------------ operator overrides

  datatype Override = Override(rank: int, node: string)

  datatype Problem =
    | DuplicateRank(rank: int)
    | UnknownRank(rank: int)
    | NodeUnavailable(node: string)
    | AcceleratorUnavailable(node: string, rank: int)
    | RankMissing(rank: int)

  /** `byID`: a later candidate replaces an earlier one of the same node. */
  function Lookup(cs: seq<Candidate>, node: string): (c: Option<Candidate>)
    ensures c.Some? ==> c.value in cs && c.value.node == node
    ensures c.None? ==> forall d :: d in cs ==> d.node != node
  {
    if cs == [] then None
    else
      assert cs == cs[..|cs| - 1] + [cs[|cs| - 1]];
      if cs[|cs| - 1].node == node then Some(cs[|cs| - 1]) else Lookup(cs[..|cs| - 1], node)
  }

  datatype Progress = Progress(covered: set<int>, alloc: Alloc, placements: seq<Placement>, problems: seq<Problem>)

  const START := Progress({}, NOTHING, [], [])

  function Override1(ov: Override, ranks: seq<int>, cs: seq<Candidate>, online: set<string>, mode: Mode,
                     p: Progress): (r: Progress)
    ensures p.problems <= r.problems
  {
    if ov.rank in p.covered then p.(problems := p.problems + [DuplicateRank(ov.rank)])
    else if ov.rank !in ranks then p.(problems := p.problems + [UnknownRank(ov.rank)])
    else match Lookup(cs, ov.node)
      case None =>
        var problem := if ov.node in online then AcceleratorUnavailable(ov.node, ov.rank) else NodeUnavailable(ov.node);
        p.(covered := p.covered + {ov.rank}, problems := p.problems + [problem])
      case Some(c) =>
        match AllocOne(c, ov.rank, p.alloc, mode)
        case None => p.(problems := p.problems + [AcceleratorUnavailable(ov.node, ov.rank)])
        case Some((pl, next)) => p.(covered := p.covered + {ov.rank}, alloc := next, placements := p.placements + [pl])
  }

  function Overrides(ovs: seq<Override>, ranks: seq<int>, cs: seq<Candidate>, online: set<string>,
                     mode: Mode): (r: Progress)
  {
    if ovs == [] then START
    else Override1(ovs[|ovs| - 1], ranks, cs, online, mode, Overrides(ovs[..|ovs| - 1], ranks, cs, online, mode))
  }

  function Missing(ranks: seq<int>, covered: set<int>): (r: seq<Problem>)
    ensures r == [] <==> forall k :: k in ranks ==> k in covered
  {
    if ranks == [] then []
    else
      assert ranks == ranks[..|ranks| - 1] + [ranks[|ranks| - 1]];
      Missing(ranks[..|ranks| - 1], covered) + (if ranks[|ranks| - 1] in covered then [] else [RankMissing(ranks[|ranks| - 1])])
  }

  // ------------------------------------------------------------ the closures, in place

  class Allocation {
    var taken: set<(string, string)>
    var usedAll: set<string>

    ghost function View(): (a: Alloc)
      reads this
    {
      Alloc(taken, usedAll)
    }

    constructor ()
      ensures View() == NOTHING
    {
      taken, usedAll := {}, {};
    }

    method Remaining(c: Candidate) returns (out: seq<Accelerator>)
      ensures out == Available(c, View())
    {
      out := [];
      for i := 0 to |c.free|
        invariant out == FreeAfter(c, c.free[..i], taken)
      {
        assert c.free[..i + 1][..i] == c.free[..i];
        if (c.node, c.free[i].uuid) !in taken { out := out + [c.free[i]]; }
      }
      assert c.free[..|c.free|] == c.free;
    }

    method Allocate(c: Candidate, rank: int, mode: Mode) returns (r: Option<Placement>)
      modifies this
      ensures match AllocOne(c, rank, old(View()), mode)
              case None => r == None && View() == old(View())
              case Some((p, next)) => r == Some(p) && View() == next
    {
      var avail := Remaining(c);
      var devices: seq<string> := [];
      match mode {
      case NoDevices =>
        return Some(Placement(c.node, rank, []));
      case WholeNode =>
        if c.node in usedAll || avail == [] { return None; }
        devices := Uuids(avail);
        usedAll := usedAll + {c.node};
      case Indices(indices, _) =>
        var picked := PickIndices(c, indices, Alloc(taken, usedAll));
        if picked.None? { return None; }
        devices := picked.value;
      case AnyOf(n) =>
        if |avail| < n { return None; }
        devices := Uuids(avail[..n]);
      }
      taken := taken + set u | u in devices :: (c.node, u);
      return Some(Placement(c.node, rank, devices));
    }

    method Best(sorted: seq<Candidate>, mode: Mode) returns (best: nat)
      ensures best == FirstFit(sorted, View(), mode)
    {
      best := |sorted|;
      for j := 0 to |sorted|
        invariant best == |sorted| || best < j
        invariant best == |sorted| ==> forall k :: 0 <= k < j ==> !Eligible(sorted[k], View(), mode)
        invariant best < |sorted| ==>
          && Eligible(sorted[best], View(), mode)
          && forall k :: 0 <= k < best ==> !Eligible(sorted[k], View(), mode)
      {
        var avail := Remaining(sorted[j]);
        var skip := match mode
          case NoDevices => false
          case WholeNode => sorted[j].node in usedAll
          case Indices(_, atLeast) => |avail| < atLeast
          case AnyOf(n) => |avail| < n;
        if !skip && best == |sorted| { best := j; }
      }
    }

    method PlaceOne(rank: int, sorted: seq<Candidate>, mode: Mode) returns (here: seq<Placement>)
      modifies this
      ensures (here, View()) == PlaceRank(sorted, rank, old(View()), mode)
    {
      hide AllocOne, FirstFit, Eligible;
      here := [];
      var best := Best(sorted, mode);
      if best < |sorted| {
        var p := Allocate(sorted[best], rank, mode);
        if p.Some? { here := [p.value]; }
      }
    }

    method PlaceAutomatically(ranks: seq<int>, cs: seq<Candidate>, mode: Mode) returns (placements: seq<Placement>)
      modifies this
      ensures (placements, View()) == Place(ranks, SortByFree(cs), old(View()), mode)
    {
      hide PlaceRank, SortByFree;
      var sorted := SortByFree(cs);
      placements := [];
      ghost var goal := Place(ranks, sorted, View(), mode);
      assert ranks[0..] == ranks && [] + goal.0 == goal.0;
      for i := 0 to |ranks|
        invariant placements + Place(ranks[i..], sorted, View(), mode).0 == goal.0
        invariant Place(ranks[i..], sorted, View(), mode).1 == goal.1
      {
        assert ranks[i..][0] == ranks[i] && ranks[i..][1..] == ranks[i + 1..];
        ghost var was := placements;
        var here := PlaceOne(ranks[i], sorted, mode);
        placements := placements + here;
        ghost var rest := Place(ranks[i + 1..], sorted, View(), mode).0;
        assert was + (here + rest) == placements + rest;
      }
      assert ranks[|ranks|..] == [] && placements + [] == placements;
    }

    method PlaceOverrides(ovs: seq<Override>, ranks: seq<int>, cs: seq<Candidate>, online: set<string>, mode: Mode)
      returns (placements: seq<Placement>, problems: seq<Problem>)
      requires View() == NOTHING
      modifies this
      ensures var p := Overrides(ovs, ranks, cs, online, mode);
        && View() == p.alloc && placements == p.placements
        && problems == p.problems + Missing(ranks, p.covered)
    {
      hide AllocOne;
      var covered: set<int> := {};
      placements, problems := [], [];
      for i := 0 to |ovs|
        invariant Progress(covered, View(), placements, problems) == Overrides(ovs[..i], ranks, cs, online, mode)
      {
        assert ovs[..i + 1][..i] == ovs[..i];
        var ov := ovs[i];
        if ov.rank in covered {
          problems := problems + [DuplicateRank(ov.rank)];
        } else if ov.rank !in ranks {
          problems := problems + [UnknownRank(ov.rank)];
        } else {
          covered := covered + {ov.rank};
          var c := Lookup(cs, ov.node);
          if c.None? {
            var known := ov.node in online;
            problems := problems + [if known then AcceleratorUnavailable(ov.node, ov.rank) else NodeUnavailable(ov.node)];
          } else {
            var p := Allocate(c.value, ov.rank, mode);
            if p.None? {
              covered := covered - {ov.rank};
              problems := problems + [AcceleratorUnavailable(ov.node, ov.rank)];
            } else {
              placements := placements + [p.value];
            }
          }
        }
      }
      assert ovs[..|ovs|] == ovs;
      ghost var found := problems;
      for i := 0 to |ranks|
        invariant problems == found + Missing(ranks[..i], covered)
      {
        assert ranks[..i + 1][..i] == ranks[..i];
        if ranks[i] !in covered { problems := problems + [RankMissing(ranks[i])]; }
      }
      assert ranks[..|ranks|] == ranks;
    }
  }
}
