/**
 By how much the pool's reported bytes may exceed the announced total: exactly one byte for each of the at
 most sixteen non-empty files fetched at once.
 */
module FetchOvershoot {
  import opened Prelude
  import opened FetchPool

  /** The non-empty files in the list. */
  function NonEmpty(specs: seq<Spec>, jobs: seq<nat>): (n: nat)
    ensures n <= |jobs|
  {
    if jobs == [] then 0
    else (if jobs[0] < |specs| && specs[jobs[0]].size > 0 then 1 else 0) + NonEmpty(specs, jobs[1..])
  }

  // ------------------------------------------------------------ never more

  /** Workers that count a file in `active`, or may have left one there when they quit. */
  ghost function Counters(p: Pool): (r: set<nat>) {
    set k: nat | k < |p.workers| && (p.workers[k].Quit? || (p.workers[k].Holding? && p.workers[k].job in p.tally.active))
  }

  ghost predicate Few(p: Pool) { |p.tally.active.Keys| <= |Counters(p)| }

  lemma {:induction false} SubsetSize<T>(a: set<T>, b: set<T>)
    requires a <= b
    ensures |a| <= |b|
  {
    if a != {} {
      var x :| x in a;
      SubsetSize(a - {x}, b - {x});
    }
  }

  lemma StepFew(p: Pool, s: Step, specs: seq<Spec>, r: Pool)
    requires Few(p) && Placed(p, specs) && Enabled(p, s, specs) && r == Apply(p, s, specs)
    ensures Few(r)
  {
    if s.Report? {
      ReportFew(p, s, specs, r);
    } else if s.Complete? {
      CompleteFew(p, s, specs, r);
    } else {
      hide Passes, Placed, Held;
      assert r.tally.active == p.tally.active;
      assert Counters(p) <= Counters(r);
      SubsetSize(Counters(p), Counters(r));
    }
  }

  lemma ReportFew(p: Pool, s: Step, specs: seq<Spec>, r: Pool)
    requires Few(p) && Enabled(p, s, specs) && r == Apply(p, s, specs) && s.Report?
    ensures Few(r)
  {
    var job := p.workers[s.k].job;
    assert r.tally.active.Keys == p.tally.active.Keys + {job} && r.workers == p.workers;
    hide Apply, Enabled;
    assert Counters(p) + {s.k} <= Counters(r);
    SubsetSize(Counters(p) + {s.k}, Counters(r));
    if job !in p.tally.active {
      assert s.k !in Counters(p);
      assert |Counters(p) + {s.k}| == |Counters(p)| + 1;
    } else {
      assert r.tally.active.Keys == p.tally.active.Keys;
      SubsetSize(Counters(p), Counters(p) + {s.k});
    }
  }

  lemma CompleteFew(p: Pool, s: Step, specs: seq<Spec>, r: Pool)
    requires Few(p) && Placed(p, specs) && Enabled(p, s, specs) && r == Apply(p, s, specs) && s.Complete?
    ensures Few(r)
  {
    var job := p.workers[s.k].job;
    assert Holds(p, s.k);
    assert r.tally.active.Keys == p.tally.active.Keys - {job} && r.workers == p.workers[s.k := Idle];
    hide Apply, Enabled;
    forall k: nat | k in Counters(p) && k != s.k ensures k in Counters(r) {
      if p.workers[k].Holding? { assert Holds(p, k); }
    }
    hide Placed;
    assert Counters(p) - {s.k} <= Counters(r);
    SubsetSize(Counters(p) - {s.k}, Counters(r));
    if job !in p.tally.active { assert s.k !in Counters(p) && Counters(p) - {s.k} == Counters(p); }
  }

  lemma StepSlots(p: Pool, s: Step, specs: seq<Spec>)
    requires Enabled(p, s, specs)
    ensures p.tally.slots.Keys <= Apply(p, s, specs).tally.slots.Keys
  {
    hide Passes;
  }

  lemma {:induction false} RunsFew(p: Pool, steps: seq<Step>, specs: seq<Spec>, last: Pool)
    requires Few(p) && Inv(p, specs) && Runs(p, steps, specs, last)
    ensures Few(last) && Inv(last, specs) && p.tally.slots.Keys <= last.tally.slots.Keys
    decreases |steps|
  {
    hide Few, Placed, Finished, Counted, Checks, Recorded, Apply, Enabled;
    if steps != [] {
      var r := Apply(p, steps[0], specs);
      StepSlots(p, steps[0], specs);
      StepFew(p, steps[0], specs, r);
      StepKeepsInv(p, steps[0], specs);
      RunsFew(r, steps[1..], specs, last);
    }
  }

  lemma {:induction false} DropFile(active: map<nat, nat>, j: nat, n: nat)
    requires j in active
    ensures ActiveFiles(active, n) == ActiveFiles(active - {j}, n) + (if j < n then 1 else 0)
  {
    if n > 0 { DropFile(active, j, n - 1); }
  }

  lemma {:induction false} CountActive(active: map<nat, nat>, n: nat)
    requires forall j :: j in active ==> j < n
    ensures ActiveFiles(active, n) == |active.Keys|
    decreases |active|
  {
    hide ActiveFiles;
    if active == map[] {
      NoFiles(active, n);
    } else {
      var j :| j in active.Keys;
      var less := active - {j};
      assert less.Keys == active.Keys - {j} && |less.Keys| == |less|;
      DropFile(active, j, n);
      CountActive(less, n);
    }
  }

  lemma {:induction false} NoFiles(active: map<nat, nat>, n: nat)
    requires active == map[]
    ensures ActiveFiles(active, n) == 0
  {
    if n > 0 { NoFiles(active, n - 1); }
  }

  lemma {:induction false} WithinNonEmpty(specs: seq<Spec>, jobs: seq<nat>, some: set<nat>)
    requires forall j :: j in some ==> j in jobs && j < |specs| && specs[j].size > 0
    ensures |some| <= NonEmpty(specs, jobs)
  {
    if jobs == [] {
      assert some == {};
    } else {
      assert jobs == [jobs[0]] + jobs[1..];
      WithinNonEmpty(specs, jobs[1..], some - {jobs[0]});
    }
  }

  ghost function Below(n: nat): (r: set<nat>)
    ensures forall k: nat :: k in r <==> k < n
  {
    if n == 0 then {} else Below(n - 1) + {n - 1}
  }

  /** What every run may report. */
  lemma NeverMore(p: Pool, specs: seq<Spec>, found: seq<Found>, slots: map<nat, Spec>, pending: seq<nat>, bytes: nat,
                  steps: seq<Step>, last: Pool)
    requires |specs| == |found| && Started(p, specs, found, slots, pending, bytes) && Runs(p, steps, specs, last)
    ensures Reported(last.tally, |specs|) <= TotalBytes(specs, |specs|) + Min(CONCURRENCY, NonEmpty(specs, pending))
  {
    StartedInv(p, specs, found, slots, pending, bytes);
    assert p.tally.active.Keys == {};
    RunsFew(p, steps, specs, last);
    WorkersFixed(p, steps, specs, last);
    hide Runs;
    CountedWithin(last.tally, specs);
    CountActive(last.tally.active, |specs|);
    FullSize(Below(|last.workers|), |last.workers|);
    SubsetSize(Counters(last), Below(|last.workers|));
    WithinNonEmpty(specs, pending, last.tally.active.Keys);
  }

  // ------------------------------------------------------------ and as much

  /** The bytes the checksum is of. */
  function Content(spec: Spec): (bytes: Bytes) { spec.digest.content }

  /** File `j` can be fetched, linked and completed. */
  ghost predicate Usable(p: Pool, specs: seq<Spec>, j: nat) {
    && j < |specs| && j !in p.links && |Content(specs[j])| == specs[j].size
    && (specs[j].digest in p.blobs ==> Passes(specs[j], p.blobs[specs[j].digest]))
    && (specs[j].size == 0 ==> j in p.partial && p.partial[j] == [])
  }

  /** Of each file before the last sixteen non-empty ones, and of each empty one before the last of these. */
  ghost predicate Enough(p: Pool, specs: seq<Spec>, jobs: seq<nat>) {
    forall i :: 0 <= i < |jobs| ==> Spared(specs, jobs[i], jobs[i + 1..]) || Usable(p, specs, jobs[i])
  }

  ghost predicate Spared(specs: seq<Spec>, j: nat, later: seq<nat>) {
    j < |specs| && NonEmpty(specs, later) < (if specs[j].size == 0 then 1 else CONCURRENCY)
  }

  lemma RunsThen(p: Pool, steps: seq<Step>, specs: seq<Spec>, mid: Pool, more: seq<Step>, last: Pool)
    requires Runs(p, steps, specs, mid) && Runs(mid, more, specs, last)
    ensures Runs(p, steps + more, specs, last)
    decreases |steps|
  {
    hide Apply, Enabled;
    if steps == [] {
      assert steps + more == more;
    } else {
      assert (steps + more)[1..] == steps[1..] + more;
      RunsThen(Apply(p, steps[0], specs), steps[1..], specs, mid, more, last);
    }
  }

  lemma OneStep(p: Pool, s: Step, specs: seq<Spec>)
    requires Enabled(p, s, specs)
    ensures Runs(p, [s], specs, Apply(p, s, specs))
  {
    hide Apply, Enabled;
    assert [s][1..] == [] && Runs(Apply(p, s, specs), [], specs, Apply(p, s, specs));
  }

  /** What completing a file changes. */
  ghost predicate Completed(p: Pool, job: nat, k: nat, specs: seq<Spec>, r: Pool)
    requires job < |specs| && p.queue != [] && k < |p.workers|
  {
    r == p.(queue := p.queue[1..], workers := p.workers[k := Idle], tally := Filling(p.tally, job, specs[job]),
               partial := p.partial - {job}, links := p.links[job := specs[job].digest],
               blobs := if specs[job].digest in p.blobs then p.blobs else p.blobs[specs[job].digest := Content(specs[job])])
  }

  /** The file at the head of the queue, taken, fetched, checked, linked and completed by idle worker `k`. */
  lemma CompleteNext(p: Pool, k: nat, specs: seq<Spec>) returns (steps: seq<Step>, last: Pool)
    requires !p.cancelled && p.queue != [] && k < |p.workers| && p.workers[k].Idle? && Usable(p, specs, p.queue[0])
    ensures Runs(p, steps, specs, last) && Completed(p, p.queue[0], k, specs, last)
  {
    var job := p.queue[0];
    var content := Content(specs[job]);
    var a := Apply(p, Take(k), specs);
    OneStep(p, Take(k), specs);
    assert a == p.(queue := p.queue[1..], workers := p.workers[k := Holding(job, Fetching)]);
    hide Runs, Apply, Enabled;
    var fetch, b;
    fetch, b := Fetched(a, k, job, specs);
    steps, last := Passed(b, k, job, specs);
    RunsThen(p, [Take(k)], specs, a, fetch, b);
    RunsThen(p, [Take(k)] + fetch, specs, b, steps, last);
    steps := [Take(k)] + fetch + steps;
    hide Usable;
    assert p.partial[job := content] - {job} == p.partial - {job};
    assert p.workers[k := Holding(job, Fetching)][k := Idle] == p.workers[k := Idle];
  }

  lemma Fetched(p: Pool, k: nat, job: nat, specs: seq<Spec>) returns (steps: seq<Step>, last: Pool)
    requires k < |p.workers| && p.workers[k] == Holding(job, Fetching) && Usable(p, specs, job)
    ensures Runs(p, steps, specs, last) && last == p.(partial := p.partial[job := Content(specs[job])])
  {
    if specs[job].size == 0 {
      steps, last := [], p;
      assert p.partial[job := []] == p.partial;
    } else {
      steps, last := [Write(k, Content(specs[job]))], Apply(p, Write(k, Content(specs[job])), specs);
      OneStep(p, Write(k, Content(specs[job])), specs);
    }
  }

  lemma Passed(p: Pool, k: nat, job: nat, specs: seq<Spec>) returns (steps: seq<Step>, last: Pool)
    requires k < |p.workers| && p.workers[k] == Holding(job, Fetching) && Usable(p, specs, job)
    requires job in p.partial && p.partial[job] == Content(specs[job])
    ensures Runs(p, steps, specs, last)
    ensures last == p.(workers := p.workers[k := Idle], tally := Filling(p.tally, job, specs[job]),
               partial := p.partial - {job}, links := p.links[job := specs[job].digest],
               blobs := if specs[job].digest in p.blobs then p.blobs else p.blobs[specs[job].digest := Content(specs[job])])
  {
    assert Passes(specs[job], Content(specs[job]));
    var a := Apply(p, Check(k), specs);
    OneStep(p, Check(k), specs);
    var b := Apply(a, Link(k), specs);
    OneStep(a, Link(k), specs);
    last := Apply(b, Complete(k), specs);
    OneStep(b, Complete(k), specs);
    hide Runs, Passes;
    RunsThen(p, [Check(k)], specs, a, [Link(k)], b);
    RunsThen(p, [Check(k)] + [Link(k)], specs, b, [Complete(k)], last);
    steps := [Check(k)] + [Link(k)] + [Complete(k)];
    assert last.workers == p.workers[k := Idle];
  }

  /** Completing one file leaves the others as usable as they were. */
  lemma UsableStays(p: Pool, job: nat, k: nat, specs: seq<Spec>, r: Pool, j: nat)
    requires job < |specs| && p.queue != [] && k < |p.workers| && Completed(p, job, k, specs, r) && j != job
    requires Usable(p, specs, j)
    ensures Usable(r, specs, j)
  {
    assert specs[j].digest == specs[job].digest ==> Content(specs[job]) == Content(specs[j]);
  }

  /** The file at the head of the queue, taken by idle worker `k` and counted one byte too long. */
  lemma HoldNext(p: Pool, k: nat, specs: seq<Spec>) returns (steps: seq<Step>, last: Pool)
    requires !p.cancelled && p.queue != [] && k < |p.workers| && p.workers[k].Idle?
    requires p.queue[0] < |specs| && specs[p.queue[0]].size > 0
    ensures Runs(p, steps, specs, last)
    ensures last == p.(queue := p.queue[1..], workers := p.workers[k := Holding(p.queue[0], Fetching)],
                       tally := p.tally.(active := p.tally.active[p.queue[0] := specs[p.queue[0]].size + 1]))
  {
    var job := p.queue[0];
    var a := Apply(p, Take(k), specs);
    OneStep(p, Take(k), specs);
    last := Apply(a, Report(k, specs[job].size + 1), specs);
    OneStep(a, Report(k, specs[job].size + 1), specs);
    hide Runs, Apply, Enabled;
    steps := [Take(k)] + [Report(k, specs[job].size + 1)];
    RunsThen(p, [Take(k)], specs, a, [Report(k, specs[job].size + 1)], last);
  }

  /** The first `h` workers each count a file one byte too long, the others are idle. */
  ghost predicate Driven(p: Pool, specs: seq<Spec>, h: nat) {
    && !p.cancelled && h <= |p.workers| <= CONCURRENCY && |p.tally.active.Keys| == h
    && Lineup(p.workers, p.tally.active, h) && Overcounted(p.tally.active, specs)
    && (forall j :: j in p.queue ==> j !in p.tally.active && j !in p.links)
  }

  ghost predicate Lineup(workers: seq<Worker>, active: map<nat, nat>, h: nat) {
    && h <= |workers|
    && (forall k :: 0 <= k < h ==> workers[k].Holding? && workers[k].job in active)
    && (forall k :: h <= k < |workers| ==> workers[k].Idle?)
  }

  ghost predicate Overcounted(active: map<nat, nat>, specs: seq<Spec>) {
    forall j :: j in active ==> j < |specs| && active[j] == specs[j].size + 1
  }

  lemma EnoughTail(p: Pool, specs: seq<Spec>, jobs: seq<nat>)
    requires jobs != [] && Enough(p, specs, jobs)
    ensures Enough(p, specs, jobs[1..])
  {
    var rest := jobs[1..];
    forall i | 0 <= i < |rest| ensures Spared(specs, rest[i], rest[i + 1..]) || Usable(p, specs, rest[i]) {
      assert rest[i] == jobs[i + 1] && rest[i + 1..] == jobs[i + 1 + 1..];
    }
  }

  lemma EnoughStays(p: Pool, specs: seq<Spec>, jobs: seq<nat>, r: Pool)
    requires Enough(p, specs, jobs) && forall j :: j in jobs && Usable(p, specs, j) ==> Usable(r, specs, j)
    ensures Enough(r, specs, jobs)
  {
  }

  ghost predicate Distinct(jobs: seq<nat>) { forall i, j :: 0 <= i < j < |jobs| ==> jobs[i] != jobs[j] }

  lemma DistinctTail(jobs: seq<nat>)
    requires jobs != [] && Distinct(jobs)
    ensures Distinct(jobs[1..]) && jobs[0] !in jobs[1..] && forall j :: j in jobs[1..] ==> j in jobs
  {
  }

  lemma CompleteDrives(p: Pool, specs: seq<Spec>, h: nat, r: Pool)
    requires p.queue != [] && Distinct(p.queue) && Driven(p, specs, h) && h < |p.workers| && Enough(p, specs, p.queue)
    requires p.queue[0] < |specs| && Completed(p, p.queue[0], h, specs, r)
    ensures Driven(r, specs, h) && Enough(r, specs, r.queue)
  {
    var job := p.queue[0];
    DistinctTail(p.queue);
    EnoughTail(p, specs, p.queue);
    hide Enough, NonEmpty;
    forall j | j in r.queue && Usable(p, specs, j) ensures Usable(r, specs, j) { UsableStays(p, job, h, specs, r, j); }
    EnoughStays(p, specs, r.queue, r);
    hide Usable;
    assert job in p.queue && p.tally.active - {job} == p.tally.active;
    assert r.workers == p.workers;
  }

  lemma HoldDrives(p: Pool, specs: seq<Spec>, h: nat, r: Pool)
    requires p.queue != [] && Distinct(p.queue) && Driven(p, specs, h) && h < |p.workers| && p.queue[0] < |specs|
    requires r == p.(queue := p.queue[1..], workers := p.workers[h := Holding(p.queue[0], Fetching)],
                     tally := p.tally.(active := p.tally.active[p.queue[0] := specs[p.queue[0]].size + 1]))
    ensures Driven(r, specs, h + 1)
  {
    var job := p.queue[0];
    DistinctTail(p.queue);
    hide Distinct, Lineup, Overcounted;
    assert job in p.queue && job !in p.tally.active;
    NextInLine(p.workers, p.tally.active, h, job, specs[job].size + 1);
    OneMore(p.tally.active, specs, job, specs[job].size + 1);
  }

  lemma OneMore(active: map<nat, nat>, specs: seq<Spec>, job: nat, count: nat)
    requires Overcounted(active, specs) && job !in active && job < |specs| && count == specs[job].size + 1
    ensures Overcounted(active[job := count], specs) && |active[job := count].Keys| == |active.Keys| + 1
  {
    assert active[job := count].Keys == active.Keys + {job};
  }

  lemma NextInLine(workers: seq<Worker>, active: map<nat, nat>, h: nat, job: nat, count: nat)
    requires Lineup(workers, active, h) && h < |workers|
    ensures Lineup(workers[h := Holding(job, Fetching)], active[job := count], h + 1)
  {
  }

  lemma HoldEnough(p: Pool, specs: seq<Spec>, r: Pool)
    requires p.queue != [] && Enough(p, specs, p.queue) && r.queue == p.queue[1..]
    requires r.blobs == p.blobs && r.links == p.links && r.partial == p.partial
    ensures Enough(r, specs, r.queue)
  {
    EnoughTail(p, specs, p.queue);
    hide Enough;
    assert forall j :: Usable(p, specs, j) ==> Usable(r, specs, j);
    EnoughStays(p, specs, r.queue, r);
  }

  /** What `Drive` keeps. */
  ghost predicate Drivable(p: Pool, specs: seq<Spec>, h: nat) {
    && Distinct(p.queue) && Driven(p, specs, h) && Enough(p, specs, p.queue)
    && (h == 0 || NonEmpty(specs, p.queue) <= |p.workers| - h)
    && (|p.workers| == CONCURRENCY || |p.queue| <= |p.workers|)
  }

  ghost function Goal(p: Pool, specs: seq<Spec>, h: nat): (all: nat)
    requires h <= |p.workers|
  {
    h + Min(|p.workers| - h, NonEmpty(specs, p.queue))
  }

  lemma HoldStep(p: Pool, specs: seq<Spec>, h: nat) returns (steps: seq<Step>, mid: Pool)
    requires Drivable(p, specs, h) && p.queue != [] && p.queue[0] < |specs| && specs[p.queue[0]].size > 0
    requires NonEmpty(specs, p.queue) <= |p.workers| - h
    ensures Runs(p, steps, specs, mid) && |mid.workers| == |p.workers| && mid.queue == p.queue[1..]
    ensures Drivable(mid, specs, h + 1) && Goal(mid, specs, h + 1) == Goal(p, specs, h)
  {
    DrivenIdle(p, specs, h);
    DistinctTail(p.queue);
    hide Runs, Driven, Enough, Distinct;
    steps, mid := HoldNext(p, h, specs);
    HoldDrives(p, specs, h, mid);
    HoldEnough(p, specs, mid);
  }

  lemma CompleteStep(p: Pool, specs: seq<Spec>, h: nat) returns (steps: seq<Step>, mid: Pool)
    requires Drivable(p, specs, h) && p.queue != [] && p.queue[0] < |specs| && NonEmpty(specs, p.queue) > 0
    requires specs[p.queue[0]].size == 0 || NonEmpty(specs, p.queue) > |p.workers| - h
    ensures Runs(p, steps, specs, mid) && |mid.workers| == |p.workers| && mid.queue == p.queue[1..]
    ensures Drivable(mid, specs, h) && Goal(mid, specs, h) == Goal(p, specs, h)
  {
    assert h < |p.workers|;
    assert Spared(specs, p.queue[0], p.queue[0 + 1..]) || Usable(p, specs, p.queue[0]);
    assert p.queue[0 + 1..] == p.queue[1..] && !Spared(specs, p.queue[0], p.queue[1..]);
    DrivenIdle(p, specs, h);
    DistinctTail(p.queue);
    hide Runs, Driven, Enough, Distinct, Usable;
    steps, mid := CompleteNext(p, h, specs);
    CompleteDrives(p, specs, h, mid);
  }

  /** Complete what must not wait, hold the rest. */
  lemma {:induction false} Drive(p: Pool, specs: seq<Spec>, h: nat) returns (steps: seq<Step>, last: Pool)
    requires Drivable(p, specs, h)
    ensures h <= |p.workers| && Runs(p, steps, specs, last)
    ensures Driven(last, specs, Goal(p, specs, h)) && NonEmpty(specs, last.queue) == 0
    decreases |p.queue|
  {
    if NonEmpty(specs, p.queue) == 0 {
      steps, last := [], p;
    } else {
      assert p.queue[0] < |specs| by { assert Spared(specs, p.queue[0], p.queue[0 + 1..]) || Usable(p, specs, p.queue[0]); }
      hide Runs, Driven, Enough, Distinct;
      var mid, more;
      if specs[p.queue[0]].size > 0 && NonEmpty(specs, p.queue) <= |p.workers| - h {
        steps, mid := HoldStep(p, specs, h);
        hide Drivable, Goal;
        more, last := Drive(mid, specs, h + 1);
      } else {
        steps, mid := CompleteStep(p, specs, h);
        hide Drivable, Goal;
        more, last := Drive(mid, specs, h);
      }
      RunsThen(p, steps, specs, mid, more, last);
      steps := steps + more;
    }
  }

  lemma DrivenIdle(p: Pool, specs: seq<Spec>, h: nat)
    requires Driven(p, specs, h) && h < |p.workers|
    ensures p.workers[h].Idle? && !p.cancelled
  {
  }

  // ------------------------------------------------------------ exactly as much

  /** Every file is completed, empty, or counted one byte too long. */
  lemma {:induction false} SumOver(specs: seq<Spec>, filled: set<nat>, active: map<nat, nat>, n: nat)
    requires n <= |specs|
    requires forall j :: 0 <= j < n ==>
      if j in active then j !in filled && active[j] == specs[j].size + 1 else j in filled || specs[j].size == 0
    ensures FilledBytes(specs, filled, n) + ActiveBytes(active, n) == TotalBytes(specs, n) + ActiveFiles(active, n)
  {
    if n > 0 { SumOver(specs, filled, active, n - 1); }
  }

  lemma {:induction false} NoneNonEmpty(specs: seq<Spec>, jobs: seq<nat>)
    requires NonEmpty(specs, jobs) == 0
    ensures forall j :: j in jobs && j < |specs| ==> specs[j].size == 0
  {
    if jobs != [] {
      NoneNonEmpty(specs, jobs[1..]);
      assert jobs == [jobs[0]] + jobs[1..];
    }
  }

  lemma DrivenFile(p: Pool, specs: seq<Spec>, h: nat, j: nat)
    requires Placed(p, specs) && Counted(p.tally, specs) && Driven(p, specs, h) && j < |specs|
    requires j in p.queue ==> specs[j].size == 0
    ensures if j in p.tally.active then j !in Filled(p) && p.tally.active[j] == specs[j].size + 1
            else j in Filled(p) || specs[j].size == 0
  {
  }

  lemma DrivenReports(p: Pool, specs: seq<Spec>, h: nat)
    requires Inv(p, specs) && Driven(p, specs, h) && NonEmpty(specs, p.queue) == 0
    ensures Reported(p.tally, |specs|) == TotalBytes(specs, |specs|) + h
  {
    NoneNonEmpty(specs, p.queue);
    DrivenSize(p, specs, h);
    hide Placed, Driven, Finished, Checks, Recorded;
    forall j | 0 <= j < |specs|
      ensures if j in p.tally.active then j !in Filled(p) && p.tally.active[j] == specs[j].size + 1
              else j in Filled(p) || specs[j].size == 0
    {
      DrivenFile(p, specs, h, j);
    }
    SumOver(specs, Filled(p), p.tally.active, |specs|);
    CountActive(p.tally.active, |specs|);
  }

  lemma DrivenSize(p: Pool, specs: seq<Spec>, h: nat)
    requires Driven(p, specs, h)
    ensures |p.tally.active.Keys| == h
  {
  }

  lemma StartedDrivable(p: Pool, specs: seq<Spec>, found: seq<Found>, slots: map<nat, Spec>, pending: seq<nat>,
                        bytes: nat)
    requires |specs| == |found| && Started(p, specs, found, slots, pending, bytes) && Enough(p, specs, pending)
    ensures Drivable(p, specs, 0) && Goal(p, specs, 0) == Min(CONCURRENCY, NonEmpty(specs, pending))
  {
    assert p.tally.active.Keys == {};
    hide Enough, NonEmpty;
  }

  /**
   The bound is reached: whatever the files, some run reports one byte too many for each of the last sixteen
   non-empty ones, as long as those before them can be completed.
   */
  lemma ReportsPastTotal(p: Pool, specs: seq<Spec>, found: seq<Found>, slots: map<nat, Spec>, pending: seq<nat>,
                         bytes: nat)
    returns (steps: seq<Step>, last: Pool)
    requires |specs| == |found| && Started(p, specs, found, slots, pending, bytes) && Enough(p, specs, pending)
    ensures Runs(p, steps, specs, last)
    ensures Reported(last.tally, |specs|) == TotalBytes(specs, |specs|) + Min(CONCURRENCY, NonEmpty(specs, pending))
  {
    StartedInv(p, specs, found, slots, pending, bytes);
    StartedDrivable(p, specs, found, slots, pending, bytes);
    hide Started, Runs, Inv, Driven, Enough, Goal, Drivable, Reported;
    steps, last := Drive(p, specs, 0);
    RunsKeepInv(p, steps, specs, last);
    DrivenReports(last, specs, Goal(p, specs, 0));
  }

  /** Every run stays within the announced total exactly when no non-empty file is left to fetch. */
  lemma WithinTotalIffNothingToFetch(p: Pool, specs: seq<Spec>, found: seq<Found>, slots: map<nat, Spec>,
                                     pending: seq<nat>, bytes: nat)
    requires |specs| == |found| && Started(p, specs, found, slots, pending, bytes) && Enough(p, specs, pending)
    ensures (forall steps, last :: Runs(p, steps, specs, last) ==> Reported(last.tally, |specs|) <= TotalBytes(specs, |specs|))
      <==> forall j :: j in pending ==> j < |specs| && specs[j].size == 0
  {
    hide Started, Runs, Enough, Reported;
    assert forall j :: j in pending ==> j < |specs| by { StartedListed(p, specs, found, slots, pending, bytes); }
    if NonEmpty(specs, pending) == 0 {
      NoneNonEmpty(specs, pending);
      forall steps, last | Runs(p, steps, specs, last) ensures Reported(last.tally, |specs|) <= TotalBytes(specs, |specs|) {
        NeverMore(p, specs, found, slots, pending, bytes, steps, last);
      }
    } else {
      SomeNonEmpty(specs, pending);
      var steps, last := ReportsPastTotal(p, specs, found, slots, pending, bytes);
    }
  }

  lemma StartedListed(p: Pool, specs: seq<Spec>, found: seq<Found>, slots: map<nat, Spec>, pending: seq<nat>,
                      bytes: nat)
    requires |specs| == |found| && Started(p, specs, found, slots, pending, bytes)
    ensures forall j :: j in pending ==> j < |specs|
  {
  }

  lemma {:induction false} SomeNonEmpty(specs: seq<Spec>, jobs: seq<nat>)
    requires NonEmpty(specs, jobs) > 0
    ensures exists j :: j in jobs && j < |specs| && specs[j].size > 0
  {
    if !(jobs[0] < |specs| && specs[jobs[0]].size > 0) { SomeNonEmpty(specs, jobs[1..]); }
  }

  /** Up to sixteen files, none of them empty, need nothing more. */
  lemma FewAreEnough(p: Pool, specs: seq<Spec>, jobs: seq<nat>)
    requires |jobs| <= CONCURRENCY && forall j :: j in jobs ==> j < |specs| && specs[j].size > 0
    ensures Enough(p, specs, jobs)
  {
    forall i | 0 <= i < |jobs| ensures Spared(specs, jobs[i], jobs[i + 1..]) {
      assert jobs[i] in jobs;
    }
  }

  // ------------------------------------------------------------ empty files

  /** An empty file of which no partial file exists is nowhere in the pool but waiting. */
  ghost predicate Stuck(p: Pool, specs: seq<Spec>, j: nat) {
    && j < |specs| && specs[j].size == 0 && j !in p.partial && j !in p.tally.slots
    && (forall k: nat :: Holds(p, k) && p.workers[k].job == j ==> p.workers[k].phase == Fetching)
  }

  lemma StepStuck(p: Pool, s: Step, specs: seq<Spec>, j: nat)
    requires Stuck(p, specs, j) && Enabled(p, s, specs)
    ensures Stuck(Apply(p, s, specs), specs, j)
  {
    hide Passes;
    assert s.Complete? ==> Holds(p, s.k);
  }

  lemma {:induction false} RunsStuck(p: Pool, steps: seq<Step>, specs: seq<Spec>, last: Pool, j: nat)
    requires Stuck(p, specs, j) && Runs(p, steps, specs, last)
    ensures Stuck(last, specs, j)
    decreases |steps|
  {
    hide Stuck, Apply, Enabled;
    if steps != [] {
      StepStuck(p, steps[0], specs, j);
      RunsStuck(Apply(p, steps[0], specs), steps[1..], specs, last, j);
    }
  }

  /** The pool never completes while an empty file is missing that no earlier attempt left a partial file of. */
  lemma EmptyFileBlocks(p: Pool, specs: seq<Spec>, found: seq<Found>, slots: map<nat, Spec>, pending: seq<nat>,
                        bytes: nat, j: nat, steps: seq<Step>, last: Pool)
    requires |specs| == |found| && Started(p, specs, found, slots, pending, bytes) && Runs(p, steps, specs, last)
    requires j in pending && specs[j].size == 0 && j !in p.partial
    ensures last.manifest == None
  {
    RunsStuck(p, steps, specs, last, j);
    StartedInv(p, specs, found, slots, pending, bytes);
    RunsKeepInv(p, steps, specs, last);
  }
}
