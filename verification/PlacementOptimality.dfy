/**
 Greedy placement places as many ranks as any assignment of disjoint device groups
 could.
 */
module PlacementOptimality {
  import opened Planner

  ghost predicate DistinctUuids(free: seq<Accelerator>) {
    forall i, j :: 0 <= i < j < |free| ==> free[i].uuid != free[j].uuid
  }

  ghost predicate DistinctNodes(cs: seq<Candidate>) {
    forall i, j :: 0 <= i < j < |cs| ==> cs[i].node != cs[j].node
  }

  /** One entry per node and no device listed twice on a node. */
  ghost predicate WellFormed(cs: seq<Candidate>) {
    DistinctNodes(cs) && forall c :: c in cs ==> DistinctUuids(c.free)
  }

  ghost function UuidSet(free: seq<Accelerator>): (r: set<string>) {
    set i | 0 <= i < |free| :: free[i].uuid
  }

  ghost function Left(node: string, free: seq<Accelerator>, taken: set<(string, string)>): (r: set<string>) {
    set u | u in UuidSet(free) && (node, u) !in taken
  }

  lemma UuidSnoc(front: seq<Accelerator>, last: Accelerator)
    ensures UuidSet(front + [last]) == UuidSet(front) + {last.uuid}
  {
    var free := front + [last];
    assert free[|front|] == last && forall i :: 0 <= i < |front| ==> free[i] == front[i];
  }

  lemma {:induction false} CountUuids(free: seq<Accelerator>)
    requires DistinctUuids(free)
    ensures |UuidSet(free)| == |free|
  {
    if free != [] {
      var front, last := free[..|free| - 1], free[|free| - 1];
      assert free == front + [last];
      CountUuids(front);
      UuidSnoc(front, last);
    }
  }

  lemma {:induction false} CountLeft(c: Candidate, free: seq<Accelerator>, taken: set<(string, string)>)
    requires DistinctUuids(free)
    ensures |FreeAfter(c, free, taken)| == |Left(c.node, free, taken)|
  {
    if free != [] {
      var front, last := free[..|free| - 1], free[|free| - 1];
      assert free == front + [last];
      CountLeft(c, front, taken);
      UuidSnoc(front, last);
      LeftSnoc(c.node, front, last, taken);
    }
  }

  lemma LeftSnoc(node: string, front: seq<Accelerator>, last: Accelerator, taken: set<(string, string)>)
    requires DistinctUuids(front + [last])
    ensures |Left(node, front + [last], taken)| == |Left(node, front, taken)| + if (node, last.uuid) in taken then 0 else 1
  {
    var free := front + [last];
    var before := Left(node, front, taken);
    UuidSnoc(front, last);
    assert last.uuid !in UuidSet(front) by {
      assert free[|front|] == last && forall i :: 0 <= i < |front| ==> free[i] == front[i];
    }
    hide UuidSet, DistinctUuids;
    if (node, last.uuid) in taken {
      assert Left(node, free, taken) == before;
    } else {
      assert Left(node, free, taken) == before + {last.uuid};
    }
  }

  lemma {:induction false} FreeAfterLocal(c: Candidate, free: seq<Accelerator>, taken: set<(string, string)>,
                                          taken': set<(string, string)>)
    requires forall u :: (c.node, u) in taken <==> (c.node, u) in taken'
    ensures FreeAfter(c, free, taken) == FreeAfter(c, free, taken')
  {
    if free != [] { FreeAfterLocal(c, free[..|free| - 1], taken, taken'); }
  }

  lemma {:induction false} NothingTaken(c: Candidate, free: seq<Accelerator>)
    ensures FreeAfter(c, free, {}) == free
  {
    if free != [] {
      assert free == free[..|free| - 1] + [free[|free| - 1]];
      NothingTaken(c, free[..|free| - 1]);
    }
  }

  lemma {:induction false} SubsequenceDistinct(c: Candidate, free: seq<Accelerator>, taken: set<(string, string)>)
    requires DistinctUuids(free)
    ensures DistinctUuids(FreeAfter(c, free, taken))
  {
    if free != [] {
      var front, last := free[..|free| - 1], free[|free| - 1];
      SubsequenceDistinct(c, front, taken);
      var r := FreeAfter(c, front, taken);
      forall i | 0 <= i < |r| ensures r[i].uuid != last.uuid {
        assert r[i] in front;
      }
    }
  }

  lemma PrefixSet(avail: seq<Accelerator>, n: nat)
    requires DistinctUuids(avail) && n <= |avail|
    ensures |set u | u in Uuids(avail[..n])| == n
  {
    var front := avail[..n];
    CountUuids(front);
    assert (set u | u in Uuids(front)) == UuidSet(front) by {
      forall u | u in Uuids(front) ensures u in UuidSet(front) {
        var i :| 0 <= i < n && Uuids(front)[i] == u;
      }
      forall u | u in UuidSet(front) ensures u in Uuids(front) {
        var i :| 0 <= i < n && front[i].uuid == u;
        assert Uuids(front)[i] == u;
      }
    }
  }

  /** Giving `n` available devices of `c` away leaves `n` fewer there and changes no other node. */
  lemma TakingFrom(c: Candidate, alloc: Alloc, n: nat)
    requires DistinctUuids(c.free) && n <= |Available(c, alloc)|
    ensures var next := Mark(alloc, c.node, Uuids(Available(c, alloc)[..n]));
      && |Available(c, next)| == |Available(c, alloc)| - n
      && forall d: Candidate :: d.node != c.node ==> Available(d, next) == Available(d, alloc)
  {
    var avail := Available(c, alloc);
    var devices := Uuids(avail[..n]);
    var next := Mark(alloc, c.node, devices);
    var gone := set u | u in devices;
    SubsequenceDistinct(c, c.free, alloc.taken);
    PrefixSet(avail, n);
    CountLeft(c, c.free, alloc.taken);
    CountLeft(c, c.free, next.taken);
    var left := Left(c.node, c.free, alloc.taken);
    forall u | u in gone ensures u in left {
      var i :| 0 <= i < n && devices[i] == u;
      assert avail[i] in avail && avail[i].uuid == u;
      var j :| 0 <= j < |c.free| && c.free[j] == avail[i];
      assert c.free[j].uuid in UuidSet(c.free);
    }
    assert Left(c.node, c.free, next.taken) == left - gone;
    assert gone <= left;
    forall d: Candidate | d.node != c.node ensures Available(d, next) == Available(d, alloc) {
      FreeAfterLocal(d, d.free, alloc.taken, next.taken);
    }
  }

  // ------------------------------------------------------------ how many ranks fit

  lemma QuotientUnique(x: int, n: int, q: int, r: int)
    requires 0 <= r < n && x == n * q + r
    ensures x / n == q
  {
    var d := q - x / n;
    assert n * d == x % n - r;
    MulBound(n, d);
  }

  lemma MulBound(n: int, d: int)
    requires n > 0
    ensures d >= 1 ==> n * d >= n
    ensures d <= -1 ==> n * d <= -n
  {
  }

  lemma DivStep(x: nat, n: nat)
    requires 0 < n <= x
    ensures (x - n) / n == x / n - 1
  {
    var q, r := x / n, x % n;
    assert x == n * q + r;
    assert n * (q - 1) == n * q - n;
    QuotientUnique(x - n, n, q - 1, r);
  }

  ghost function Capacity(cs: seq<Candidate>, alloc: Alloc, n: nat): (k: nat)
    requires n > 0
  {
    if cs == [] then 0 else |Available(cs[0], alloc)| / n + Capacity(cs[1..], alloc, n)
  }

  lemma {:induction false} NoCapacity(cs: seq<Candidate>, alloc: Alloc, n: nat)
    requires n > 0 && forall i :: 0 <= i < |cs| ==> !Eligible(cs[i], alloc, AnyOf(n))
    ensures Capacity(cs, alloc, n) == 0
  {
    if cs != [] {
      var k := |Available(cs[0], alloc)|;
      assert !Eligible(cs[0], alloc, AnyOf(n));
      QuotientUnique(k, n, 0, k);
      forall i | 0 <= i < |cs[1..]| ensures !Eligible(cs[1..][i], alloc, AnyOf(n)) {
        assert cs[1..][i] == cs[i + 1];
      }
      NoCapacity(cs[1..], alloc, n);
    }
  }

  lemma {:induction false} CapacitySame(cs: seq<Candidate>, alloc: Alloc, next: Alloc, n: nat)
    requires n > 0 && forall c :: c in cs ==> Available(c, next) == Available(c, alloc)
    ensures Capacity(cs, next, n) == Capacity(cs, alloc, n)
  {
    if cs != [] {
      assert cs[0] in cs && forall c :: c in cs[1..] ==> c in cs;
      CapacitySame(cs[1..], alloc, next, n);
    }
  }

  lemma {:induction false} CapacityDrops(cs: seq<Candidate>, k: nat, alloc: Alloc, next: Alloc, n: nat)
    requires n > 0 && k < |cs| && DistinctNodes(cs)
    requires n <= |Available(cs[k], alloc)| && |Available(cs[k], next)| == |Available(cs[k], alloc)| - n
    requires forall d: Candidate :: d.node != cs[k].node ==> Available(d, next) == Available(d, alloc)
    ensures Capacity(cs, next, n) == Capacity(cs, alloc, n) - 1
  {
    hide Available;
    if k == 0 {
      DivStep(|Available(cs[0], alloc)|, n);
      forall c | c in cs[1..] ensures Available(c, next) == Available(c, alloc) {
        var i :| 0 <= i < |cs[1..]| && cs[1..][i] == c;
        assert cs[i + 1] == c && cs[0].node != cs[i + 1].node;
      }
      CapacitySame(cs[1..], alloc, next, n);
    } else {
      assert cs[0].node != cs[k].node && cs[1..][k - 1] == cs[k];
      CapacityDrops(cs[1..], k - 1, alloc, next, n);
    }
  }

  function Min(a: nat, b: nat): nat { if a < b then a else b }

  /** Every rank that finds a node uses exactly one group, and none is refused while a group is left. */
  lemma {:induction false} GreedyFillsCapacity(ranks: seq<int>, cs: seq<Candidate>, alloc: Alloc, n: nat)
    requires n > 0 && WellFormed(cs)
    ensures |Place(ranks, cs, alloc, AnyOf(n)).0| == Min(|ranks|, Capacity(cs, alloc, n))
  {
    if ranks != [] {
      var k := FirstFit(cs, alloc, AnyOf(n));
      if k == |cs| {
        NoCapacity(cs, alloc, n);
        GreedyFillsCapacity(ranks[1..], cs, alloc, n);
      } else {
        assert cs[k] in cs;
        TakingFrom(cs[k], alloc, n);
        var next := Mark(alloc, cs[k].node, Uuids(Available(cs[k], alloc)[..n]));
        CapacityDrops(cs, k, alloc, next, n);
        GreedyFillsCapacity(ranks[1..], cs, next, n);
      }
    }
  }

  // ------------------------------------------------------------ sorting does not matter

  /** Groups of `n` devices the nodes hold between them. */
  ghost function TotalGroups(cs: seq<Candidate>, n: nat): (k: nat)
    requires n > 0
  {
    if cs == [] then 0 else |cs[0].free| / n + TotalGroups(cs[1..], n)
  }

  lemma {:induction false} CapacityOfNothing(cs: seq<Candidate>, n: nat)
    requires n > 0
    ensures Capacity(cs, NOTHING, n) == TotalGroups(cs, n)
  {
    if cs != [] {
      NothingTaken(cs[0], cs[0].free);
      CapacityOfNothing(cs[1..], n);
    }
  }

  lemma {:induction false} InsertGroups(c: Candidate, sorted: seq<Candidate>, n: nat)
    requires n > 0
    ensures TotalGroups(InsertByFree(c, sorted), n) == |c.free| / n + TotalGroups(sorted, n)
  {
    if !(sorted == [] || |sorted[0].free| < |c.free|) {
      InsertGroups(c, sorted[1..], n);
    }
  }

  lemma {:induction false} SnocGroups(cs: seq<Candidate>, c: Candidate, n: nat)
    requires n > 0
    ensures TotalGroups(cs + [c], n) == TotalGroups(cs, n) + |c.free| / n
  {
    if cs != [] {
      assert (cs + [c])[1..] == cs[1..] + [c];
      SnocGroups(cs[1..], c, n);
    }
  }

  lemma {:induction false} SortGroups(cs: seq<Candidate>, n: nat)
    requires n > 0
    ensures TotalGroups(SortByFree(cs), n) == TotalGroups(cs, n)
  {
    if cs != [] {
      var front, last := cs[..|cs| - 1], cs[|cs| - 1];
      assert cs == front + [last];
      SortGroups(front, n);
      InsertGroups(last, SortByFree(front), n);
      SnocGroups(front, last, n);
    }
  }

  ghost predicate Descending(cs: seq<Candidate>) {
    forall i, j :: 0 <= i < j < |cs| ==> |cs[i].free| >= |cs[j].free|
  }

  /** The candidates with exactly `n` free devices, in order. */
  ghost function WithFree(cs: seq<Candidate>, n: nat): (r: seq<Candidate>) {
    if cs == [] then [] else (if |cs[0].free| == n then [cs[0]] else []) + WithFree(cs[1..], n)
  }

  lemma {:induction false} InsertDescends(c: Candidate, sorted: seq<Candidate>)
    requires Descending(sorted)
    ensures Descending(InsertByFree(c, sorted))
  {
    if sorted != [] && |sorted[0].free| >= |c.free| {
      var head, tail := sorted[0], sorted[1..];
      InsertDescends(c, tail);
      var rest := InsertByFree(c, tail);
      SameMembers(rest, [c] + tail);
      hide InsertByFree;
      forall i | 0 <= i < |rest| ensures |head.free| >= |rest[i].free| {
        assert rest[i] in [c] + tail;
        if rest[i] in tail {
          var j :| 0 <= j < |tail| && tail[j] == rest[i];
          assert sorted[j + 1] == rest[i];
        }
      }
    }
  }

  ghost function Only(c: Candidate, n: nat): (r: seq<Candidate>) { if |c.free| == n then [c] else [] }

  lemma WithFreeCons(c: Candidate, rest: seq<Candidate>, n: nat)
    ensures WithFree([c] + rest, n) == Only(c, n) + WithFree(rest, n)
  {
    assert ([c] + rest)[1..] == rest;
  }

  lemma {:induction false} NoneWithFree(cs: seq<Candidate>, n: nat)
    requires forall i :: 0 <= i < |cs| ==> |cs[i].free| < n
    ensures WithFree(cs, n) == []
  {
    if cs != [] { NoneWithFree(cs[1..], n); }
  }

  lemma ConsKeepsOrder(head: Candidate, tail: seq<Candidate>, c: Candidate, inserted: seq<Candidate>, n: nat)
    requires WithFree(inserted, n) == WithFree(tail, n) + Only(c, n)
    ensures WithFree([head] + inserted, n) == WithFree([head] + tail, n) + Only(c, n)
  {
    WithFreeCons(head, tail, n);
    WithFreeCons(head, inserted, n);
    hide WithFree, Only;
    assert (Only(head, n) + WithFree(tail, n)) + Only(c, n) == Only(head, n) + (WithFree(tail, n) + Only(c, n));
  }

  lemma LargestFirst(c: Candidate, sorted: seq<Candidate>, n: nat)
    requires forall i :: 0 <= i < |sorted| ==> |sorted[i].free| < |c.free|
    ensures WithFree([c] + sorted, n) == WithFree(sorted, n) + Only(c, n)
  {
    NoneWithFree(sorted, |c.free|);
    WithFreeCons(c, sorted, n);
  }

  /** An inserted candidate comes after those with equally many free devices. */
  lemma {:induction false} InsertIsLast(c: Candidate, sorted: seq<Candidate>, n: nat)
    requires Descending(sorted)
    ensures WithFree(InsertByFree(c, sorted), n) == WithFree(sorted, n) + Only(c, n)
  {
    if sorted == [] || |sorted[0].free| < |c.free| {
      LargestFirst(c, sorted, n);
    } else {
      var head, tail := sorted[0], sorted[1..];
      assert forall i, j :: 0 <= i < j < |tail| ==> tail[i] == sorted[i + 1] && tail[j] == sorted[j + 1];
      InsertIsLast(c, tail, n);
      ConsKeepsOrder(head, tail, c, InsertByFree(c, tail), n);
      hide WithFree, Only, Descending;
      assert sorted == [head] + tail;
    }
  }

  lemma {:induction false} WithFreeSnoc(cs: seq<Candidate>, c: Candidate, n: nat)
    ensures WithFree(cs + [c], n) == WithFree(cs, n) + Only(c, n)
  {
    if cs == [] {
      WithFreeCons(c, [], n);
      assert cs + [c] == [c] + [];
    } else {
      var head, tail := cs[0], cs[1..];
      assert cs == [head] + tail && cs + [c] == [head] + (tail + [c]);
      WithFreeSnoc(tail, c, n);
      WithFreeCons(head, tail, n);
      WithFreeCons(head, tail + [c], n);
      hide WithFree, Only;
      assert (Only(head, n) + WithFree(tail, n)) + Only(c, n) == Only(head, n) + (WithFree(tail, n) + Only(c, n));
    }
  }

  /** Most free devices first, and nodes with equally many stay in their order. */
  lemma {:induction false} SortIsStable(cs: seq<Candidate>, n: nat)
    ensures Descending(SortByFree(cs)) && WithFree(SortByFree(cs), n) == WithFree(cs, n)
  {
    if cs != [] {
      var front, last := cs[..|cs| - 1], cs[|cs| - 1];
      assert cs == front + [last];
      assert SortByFree(cs) == InsertByFree(last, SortByFree(front));
      SortIsStable(front, n);
      hide InsertByFree, SortByFree, WithFree, Descending;
      InsertDescends(last, SortByFree(front));
      InsertIsLast(last, SortByFree(front), n);
      WithFreeSnoc(front, last, n);
    }
  }

  lemma SameMembers(cs: seq<Candidate>, ds: seq<Candidate>)
    requires multiset(cs) == multiset(ds)
    ensures forall c :: c in cs <==> c in ds
    ensures |cs| == |ds|
  {
    assert forall c :: c in cs <==> c in multiset(cs);
    assert forall c :: c in ds <==> c in multiset(ds);
    assert |multiset(cs)| == |cs| && |multiset(ds)| == |ds|;
  }

  lemma {:induction false} InsertDistinct(c: Candidate, sorted: seq<Candidate>)
    requires DistinctNodes(sorted) && forall d :: d in sorted ==> d.node != c.node
    ensures DistinctNodes(InsertByFree(c, sorted))
  {
    if !(sorted == [] || |sorted[0].free| < |c.free|) {
      assert forall d :: d in sorted[1..] ==> d in sorted;
      InsertDistinct(c, sorted[1..]);
      var rest := InsertByFree(c, sorted[1..]);
      SameMembers(rest, [c] + sorted[1..]);
      forall i | 0 <= i < |rest| ensures rest[i].node != sorted[0].node {
        assert rest[i] in [c] + sorted[1..];
        assert sorted[0] in sorted;
        if rest[i] in sorted[1..] {
          var j :| 0 <= j < |sorted[1..]| && sorted[1..][j] == rest[i];
          assert sorted[j + 1] == rest[i];
        }
      }
    }
  }

  lemma {:induction false} SortDistinct(cs: seq<Candidate>)
    requires DistinctNodes(cs)
    ensures DistinctNodes(SortByFree(cs))
  {
    if cs != [] {
      var front, last := cs[..|cs| - 1], cs[|cs| - 1];
      var sorted := SortByFree(front);
      SortDistinct(front);
      SameMembers(front, sorted);
      NewNode(cs, front, last, sorted);
      InsertDistinct(last, sorted);
    }
  }

  lemma NewNode(cs: seq<Candidate>, front: seq<Candidate>, last: Candidate, sorted: seq<Candidate>)
    requires cs == front + [last] && DistinctNodes(cs) && forall c :: c in front <==> c in sorted
    ensures forall d :: d in sorted ==> d.node != last.node
  {
    forall d | d in sorted ensures d.node != last.node {
      assert d in front;
      var i :| 0 <= i < |front| && front[i] == d;
      assert cs[i] == d && cs[|front|] == last;
    }
  }

  lemma SortWellFormed(cs: seq<Candidate>)
    requires WellFormed(cs)
    ensures WellFormed(SortByFree(cs))
  {
    hide DistinctUuids, DistinctNodes, SortByFree;
    SortDistinct(cs);
    SameMembers(cs, SortByFree(cs));
  }

  // ------------------------------------------------------------ no assignment does better

  datatype Group = Group(node: string, devices: set<string>)

  /** Disjoint groups of `n` free devices, each within one node. */
  ghost predicate Assignment(gs: seq<Group>, cs: seq<Candidate>, n: nat) {
    && (forall g :: g in gs ==> |g.devices| == n && exists c :: c in cs && c.node == g.node && g.devices <= UuidSet(c.free))
    && (forall i, j :: 0 <= i < j < |gs| && gs[i].node == gs[j].node ==> gs[i].devices !! gs[j].devices)
  }

  ghost function On(gs: seq<Group>, node: string): (r: seq<Group>)
    ensures forall g :: g in r <==> g in gs && g.node == node
  {
    if gs == [] then [] else (if gs[0].node == node then [gs[0]] else []) + On(gs[1..], node)
  }

  ghost function Off(gs: seq<Group>, node: string): (r: seq<Group>)
    ensures forall g :: g in r <==> g in gs && g.node != node
    ensures |r| + |On(gs, node)| == |gs|
  {
    if gs == [] then [] else (if gs[0].node != node then [gs[0]] else []) + Off(gs[1..], node)
  }

  ghost predicate Apart(gs: seq<Group>) {
    forall i, j :: 0 <= i < j < |gs| && gs[i].node == gs[j].node ==> gs[i].devices !! gs[j].devices
  }

  lemma ApartTail(gs: seq<Group>)
    requires Apart(gs) && gs != []
    ensures Apart(gs[1..]) && forall g :: g in gs[1..] && g.node == gs[0].node ==> gs[0].devices !! g.devices
  {
    forall i, j | 0 <= i < j < |gs[1..]| && gs[1..][i].node == gs[1..][j].node
      ensures gs[1..][i].devices !! gs[1..][j].devices
    {
      assert gs[1..][i] == gs[i + 1] && gs[1..][j] == gs[j + 1];
    }
    forall g | g in gs[1..] && g.node == gs[0].node ensures gs[0].devices !! g.devices {
      var i :| 0 <= i < |gs[1..]| && gs[1..][i] == g;
      assert gs[i + 1] == g;
    }
  }

  lemma ApartCons(g: Group, rest: seq<Group>)
    requires Apart(rest) && forall h :: h in rest && h.node == g.node ==> g.devices !! h.devices
    ensures Apart([g] + rest)
  {
    var all := [g] + rest;
    forall i, j | 0 <= i < j < |all| && all[i].node == all[j].node ensures all[i].devices !! all[j].devices {
      assert all[j] == rest[j - 1] && rest[j - 1] in rest;
      if i > 0 { assert all[i] == rest[i - 1]; }
    }
  }

  lemma {:induction false} SplitApart(gs: seq<Group>, node: string)
    requires Apart(gs)
    ensures Apart(On(gs, node)) && Apart(Off(gs, node))
  {
    if gs != [] {
      ApartTail(gs);
      SplitApart(gs[1..], node);
      if gs[0].node == node { ApartCons(gs[0], On(gs[1..], node)); assert [] + Off(gs[1..], node) == Off(gs[1..], node); }
      else { ApartCons(gs[0], Off(gs[1..], node)); assert [] + On(gs[1..], node) == On(gs[1..], node); }
    }
  }

  ghost function Union(gs: seq<Group>): (r: set<string>)
    ensures forall u :: u in r <==> exists g :: g in gs && u in g.devices
  {
    if gs == [] then {} else gs[0].devices + Union(gs[1..])
  }

  /** Disjoint groups on one node use their sizes in devices. */
  lemma {:induction false} UnionSize(gs: seq<Group>, node: string, n: nat)
    requires Apart(gs) && forall g :: g in gs ==> g.node == node && |g.devices| == n
    ensures |Union(gs)| == |gs| * n
  {
    if gs != [] {
      ApartTail(gs);
      assert gs[0] in gs && forall g :: g in gs[1..] ==> g in gs;
      UnionSize(gs[1..], node, n);
      var here, there := gs[0].devices, Union(gs[1..]);
      assert here !! there;
      assert |here + there| == |here| + |there|;
      assert (1 + |gs[1..]|) * n == n + |gs[1..]| * n;
    }
  }

  lemma {:induction false} SubsetSize<T>(a: set<T>, b: set<T>)
    requires a <= b
    ensures |a| <= |b|
  {
    if a != {} {
      var x :| x in a;
      SubsetSize(a - {x}, b - {x});
    }
  }

  lemma {:induction false} GroupsFit(k: nat, n: nat, x: nat)
    requires n > 0 && k * n <= x
    ensures k <= x / n
  {
    if k > 0 {
      assert (k - 1) * n == k * n - n;
      assert n <= k * n;
      DivStep(x, n);
      GroupsFit(k - 1, n, x - n);
    }
  }

  lemma Inhabited(gs: seq<Group>)
    ensures gs == [] || exists g :: g in gs
  {
    if gs != [] { assert gs[0] in gs; }
  }

  lemma {:induction false} NoAssignmentBeats(gs: seq<Group>, cs: seq<Candidate>, n: nat)
    requires n > 0 && WellFormed(cs) && Assignment(gs, cs, n)
    ensures |gs| <= TotalGroups(cs, n)
    decreases |cs|
  {
    if cs == [] {
      Inhabited(gs);
    } else {
      var c, rest := cs[0], cs[1..];
      var here, there := On(gs, c.node), Off(gs, c.node);
      SplitApart(gs, c.node);
      assert c in cs && forall d :: d in rest ==> d in cs;
      NodeGroups(here, cs, n);
      assert Assignment(there, rest, n) by {
        forall g | g in there ensures exists d :: d in rest && d.node == g.node && g.devices <= UuidSet(d.free) {
          var d :| d in cs && d.node == g.node && g.devices <= UuidSet(d.free);
          assert d in rest;
        }
      }
      NoAssignmentBeats(there, rest, n);
    }
  }

  lemma NodeGroups(here: seq<Group>, cs: seq<Candidate>, n: nat)
    requires n > 0 && cs != [] && WellFormed(cs) && Apart(here)
    requires forall g :: g in here ==> g.node == cs[0].node && |g.devices| == n
    requires forall g :: g in here ==> exists c :: c in cs && c.node == g.node && g.devices <= UuidSet(c.free)
    ensures |here| <= |cs[0].free| / n
  {
    var c := cs[0];
    UnionSize(here, c.node, n);
    forall g | g in here ensures g.devices <= UuidSet(c.free) {
      var d :| d in cs && d.node == g.node && g.devices <= UuidSet(d.free);
      var i :| 0 <= i < |cs| && cs[i] == d;
      assert i == 0;
    }
    assert c in cs;
    CountUuids(c.free);
    SubsetSize(Union(here), UuidSet(c.free));
    GroupsFit(|here|, n, |c.free|);
  }

  // ------------------------------------------------------------ whole nodes and device-free ranks

  /** Candidates no whole-node rank has consumed. */
  ghost function Unused(cs: seq<Candidate>, used: set<string>): (k: nat)
    ensures k <= |cs|
  {
    if cs == [] then 0 else (if cs[0].node in used then 0 else 1) + Unused(cs[1..], used)
  }

  lemma {:induction false} UnusedDrops(cs: seq<Candidate>, k: nat, used: set<string>)
    requires k < |cs| && DistinctNodes(cs) && cs[k].node !in used
    ensures Unused(cs, used + {cs[k].node}) == Unused(cs, used) - 1
  {
    if k == 0 {
      assert forall i :: 0 <= i < |cs[1..]| ==> cs[1..][i] == cs[i + 1];
      UnusedSame(cs[1..], used, cs[0].node);
    } else {
      assert cs[0].node != cs[k].node && cs[1..][k - 1] == cs[k];
      UnusedDrops(cs[1..], k - 1, used);
    }
  }

  lemma {:induction false} UnusedSame(cs: seq<Candidate>, used: set<string>, node: string)
    requires forall i :: 0 <= i < |cs| ==> cs[i].node != node
    ensures Unused(cs, used + {node}) == Unused(cs, used)
  {
    if cs != [] { UnusedSame(cs[1..], used, node); }
  }

  lemma {:induction false} NoneUnused(cs: seq<Candidate>, alloc: Alloc)
    requires forall i :: 0 <= i < |cs| ==> !Eligible(cs[i], alloc, WholeNode)
    ensures Unused(cs, alloc.usedAll) == 0
  {
    if cs != [] {
      assert !Eligible(cs[0], alloc, WholeNode);
      assert forall i :: 0 <= i < |cs[1..]| ==> cs[1..][i] == cs[i + 1];
      NoneUnused(cs[1..], alloc);
    }
  }

  /** Every device handed out lies on a consumed node, and every node has devices. */
  ghost predicate WholeNodesOnly(cs: seq<Candidate>, alloc: Alloc) {
    && (forall t :: t in alloc.taken ==> t.0 in alloc.usedAll)
    && (forall i :: 0 <= i < |cs| ==> cs[i].free != [])
  }

  lemma {:induction false} WholeNodesFill(ranks: seq<int>, cs: seq<Candidate>, alloc: Alloc)
    requires WellFormed(cs) && WholeNodesOnly(cs, alloc)
    ensures |Place(ranks, cs, alloc, WholeNode).0| == Min(|ranks|, Unused(cs, alloc.usedAll))
  {
    if ranks != [] {
      var k := FirstFit(cs, alloc, WholeNode);
      if k == |cs| {
        NoneUnused(cs, alloc);
        WholeNodesFill(ranks[1..], cs, alloc);
      } else {
        FreeAfterLocal(cs[k], cs[k].free, {}, alloc.taken);
        NothingTaken(cs[k], cs[k].free);
        var next := AllocOne(cs[k], ranks[0], alloc, WholeNode).value.1;
        assert next.usedAll == alloc.usedAll + {cs[k].node};
        UnusedDrops(cs, k, alloc.usedAll);
        WholeNodesFill(ranks[1..], cs, next);
      }
    }
  }

  lemma {:induction false} AllUnused(cs: seq<Candidate>)
    ensures Unused(cs, {}) == |cs|
  {
    if cs != [] { AllUnused(cs[1..]); }
  }

  /** Disjoint groups, each all the free devices of one candidate. */
  ghost predicate WholeAssignment(gs: seq<Group>, cs: seq<Candidate>) {
    (forall g :: g in gs ==> exists c :: c in cs && c.node == g.node && g.devices == UuidSet(c.free)) && Apart(gs)
  }

  lemma {:induction false} NoWholeAssignmentBeats(gs: seq<Group>, cs: seq<Candidate>)
    requires DistinctNodes(cs) && (forall i :: 0 <= i < |cs| ==> cs[i].free != []) && WholeAssignment(gs, cs)
    ensures |gs| <= |cs|
    decreases |cs|
  {
    if cs == [] {
      Inhabited(gs);
    } else {
      var c, rest := cs[0], cs[1..];
      var here, there := On(gs, c.node), Off(gs, c.node);
      SplitApart(gs, c.node);
      if |here| >= 2 {
        assert here[0] in here && here[1] in here && here[0] in gs && here[1] in gs;
        WholeGroupsMeet(here[0], here[1], cs);
        assert false;
      }
      assert forall i :: 0 <= i < |rest| ==> rest[i] == cs[i + 1];
      assert WholeAssignment(there, rest) by {
        forall g | g in there ensures exists d :: d in rest && d.node == g.node && g.devices == UuidSet(d.free) {
          var d :| d in cs && d.node == g.node && g.devices == UuidSet(d.free);
          assert d in rest;
        }
      }
      NoWholeAssignmentBeats(there, rest);
    }
  }

  lemma WholeGroupsMeet(g: Group, h: Group, cs: seq<Candidate>)
    requires forall i :: 0 <= i < |cs| ==> cs[i].free != []
    requires g.node == h.node && DistinctNodes(cs)
    requires exists c :: c in cs && c.node == g.node && g.devices == UuidSet(c.free)
    requires exists c :: c in cs && c.node == h.node && h.devices == UuidSet(c.free)
    ensures !(g.devices !! h.devices)
  {
    var c :| c in cs && c.node == g.node && g.devices == UuidSet(c.free);
    var d :| d in cs && d.node == h.node && h.devices == UuidSet(d.free);
    assert c == d && c.free != [];
    assert c.free[0].uuid in UuidSet(c.free);
  }

  /**
   In whole-node mode one rank per node is placed until ranks or nodes run out, and no assignment of
   disjoint whole nodes to these ranks places more. (No node without a free device is a candidate.)
   */
  lemma WholeNodePlacementIsOptimal(ranks: seq<int>, cs: seq<Candidate>)
    requires WellFormed(cs) && forall i :: 0 <= i < |cs| ==> cs[i].free != []
    ensures var placed := |Place(ranks, SortByFree(cs), NOTHING, WholeNode).0|;
      && placed == Min(|ranks|, |cs|)
      && forall gs :: WholeAssignment(gs, cs) && |gs| <= |ranks| ==> |gs| <= placed
  {
    forall gs | WholeAssignment(gs, cs) && |gs| <= |ranks| ensures |gs| <= Min(|ranks|, |cs|) {
      NoWholeAssignmentBeats(gs, cs);
    }
    var sorted := SortByFree(cs);
    SortWellFormed(cs);
    SameMembers(cs, sorted);
    forall i | 0 <= i < |sorted| ensures sorted[i].free != [] {
      assert sorted[i] in cs;
    }
    WholeNodesFill(ranks, sorted, NOTHING);
    AllUnused(sorted);
  }

  /**
   With any `n` devices per rank, automatic placement places as many ranks as the nodes have
   groups for, and no assignment of disjoint groups to these ranks places more.
   */
  lemma AutomaticPlacementIsOptimal(ranks: seq<int>, cs: seq<Candidate>, n: nat)
    requires n > 0 && WellFormed(cs)
    ensures var placed := |Place(ranks, SortByFree(cs), NOTHING, AnyOf(n)).0|;
      && placed == Min(|ranks|, TotalGroups(cs, n))
      && forall gs :: Assignment(gs, cs, n) && |gs| <= |ranks| ==> |gs| <= placed
  {
    SortWellFormed(cs);
    GreedyFillsCapacity(ranks, SortByFree(cs), NOTHING, n);
    CapacityOfNothing(SortByFree(cs), n);
    SortGroups(cs, n);
    forall gs | Assignment(gs, cs, n) && |gs| <= |ranks| ensures |gs| <= Min(|ranks|, TotalGroups(cs, n)) {
      NoAssignmentBeats(gs, cs, n);
    }
  }
}
