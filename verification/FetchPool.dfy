/**
 The Hugging Face fetch pool: up to sixteen workers fill one slot per file, and the completion
 manifest is written only when every slot is filled.
 */
module FetchPool {
  import opened Prelude

  const CONCURRENCY: nat := 16

  /** The two upstream checksums, as injective functions of the bytes. */
  datatype Checksum = Lfs(content: Bytes) | GitBlob(content: Bytes)

  datatype Spec = Spec(rel: string, size: nat, digest: Checksum)

  /** `existingSnapshotFile` on bytes. */
  predicate Passes(spec: Spec, bytes: Bytes) {
    |bytes| == spec.size && (spec.digest == Lfs(bytes) || spec.digest == GitBlob(bytes))
  }

  /** What the scan finds at a file's place. */
  datatype Found = Valid | Absent | Invalid | Unreadable

  function Min(a: nat, b: nat): (r: nat) { if a < b then a else b }

  // ------------------------------------------------------------ byte accounts

  /** Sizes of the first `n` files whose slot is filled. */
  ghost function FilledBytes(specs: seq<Spec>, filled: set<nat>, n: nat): (b: nat)
    requires n <= |specs|
  {
    if n == 0 then 0 else FilledBytes(specs, filled, n - 1) + (if n - 1 in filled then specs[n - 1].size else 0)
  }

  ghost function ActiveBytes(active: map<nat, nat>, n: nat): (b: nat) {
    if n == 0 then 0 else ActiveBytes(active, n - 1) + (if n - 1 in active then active[n - 1] else 0)
  }

  ghost function TotalBytes(specs: seq<Spec>, n: nat): (b: nat)
    requires n <= |specs|
  {
    if n == 0 then 0 else TotalBytes(specs, n - 1) + specs[n - 1].size
  }

  lemma {:induction false} FillOne(specs: seq<Spec>, filled: set<nat>, j: nat, n: nat)
    requires j !in filled && n <= |specs|
    ensures FilledBytes(specs, filled + {j}, n) == FilledBytes(specs, filled, n) + (if j < n then specs[j].size else 0)
  {
    if n > 0 { FillOne(specs, filled, j, n - 1); }
  }

  lemma {:induction false} FilledSame(specs: seq<Spec>, a: set<nat>, b: set<nat>, n: nat)
    requires n <= |specs| && forall i :: 0 <= i < n ==> (i in a <==> i in b)
    ensures FilledBytes(specs, a, n) == FilledBytes(specs, b, n)
  {
    if n > 0 { FilledSame(specs, a, b, n - 1); }
  }

  lemma {:induction false} DropActive(active: map<nat, nat>, j: nat, n: nat)
    requires j in active
    ensures ActiveBytes(active, n) == ActiveBytes(active - {j}, n) + (if j < n then active[j] else 0)
  {
    if n > 0 { DropActive(active, j, n - 1); }
  }

  lemma {:induction false} NoActive(active: map<nat, nat>, n: nat)
    requires forall i :: 0 <= i < n ==> i !in active
    ensures ActiveBytes(active, n) == 0
  {
    if n > 0 { NoActive(active, n - 1); }
  }

  ghost function ActiveFiles(active: map<nat, nat>, n: nat): (b: nat)
    ensures b <= n
  {
    if n == 0 then 0 else ActiveFiles(active, n - 1) + (if n - 1 in active then 1 else 0)
  }

  /** Filled files and latest counts of unfilled ones exceed the announced total by at most one byte a file. */
  lemma {:induction false} WithinTotal(specs: seq<Spec>, filled: set<nat>, active: map<nat, nat>, n: nat)
    requires n <= |specs|
    requires forall i :: i in active && i < n ==> i !in filled && active[i] <= specs[i].size + 1
    ensures FilledBytes(specs, filled, n) + ActiveBytes(active, n) <= TotalBytes(specs, n) + ActiveFiles(active, n)
  {
    if n > 0 { WithinTotal(specs, filled, active, n - 1); }
  }

  lemma {:induction false} AllFilled(specs: seq<Spec>, filled: set<nat>, n: nat)
    requires n <= |specs| && forall i :: 0 <= i < n ==> i in filled
    ensures FilledBytes(specs, filled, n) == TotalBytes(specs, n)
  {
    if n > 0 { AllFilled(specs, filled, n - 1); }
  }

  // ------------------------------------------------------------ the shared accounts

  /** `completedBytes`, `filesDone`, `active` and `manifestFiles`. */
  datatype Tally = Tally(completedBytes: nat, filesDone: nat, active: map<nat, nat>, slots: map<nat, Spec>)

  /** `updateProgress` with a count, and with a completed file. */
  function Counting(t: Tally, job: nat, bytes: nat): (r: Tally) { t.(active := t.active[job := bytes]) }

  function Filling(t: Tally, job: nat, spec: Spec): (r: Tally) {
    Tally(t.completedBytes + spec.size, t.filesDone + 1, t.active - {job}, t.slots[job := spec])
  }

  ghost function Reported(t: Tally, n: nat): (bytes: nat) { t.completedBytes + ActiveBytes(t.active, n) }

  class Accounts {
    var tally: Tally

    constructor ()
      ensures tally == Tally(0, 0, map[], map[])
    {
      tally := Tally(0, 0, map[], map[]);
    }

    /** Sums the map in whatever order it is iterated. */
    method BytesDone(ghost n: nat) returns (bytes: nat)
      requires forall i :: i in tally.active ==> i < n
      ensures bytes == Reported(tally, n)
    {
      bytes := tally.completedBytes;
      var left: map<nat, nat> := tally.active;
      while left != map[]
        invariant forall i :: i in left ==> i < n
        invariant bytes + ActiveBytes(left, n) == Reported(tally, n)
        decreases |left|
      {
        assert left.Keys != {};
        var j: nat :| j in left.Keys;
        DropActive(left, j, n);
        bytes := bytes + left[j];
        assert (left - {j}).Keys == left.Keys - {j};
        left := left - {j};
      }
      NoActive(left, n);
    }

    /** The accounts of the pool's own steps, and the bytes it then reports. */
    method UpdateProgress(job: nat, spec: Spec, fileBytes: nat, completed: bool, ghost specs: seq<Spec>)
      returns (bytes: nat)
      requires Counted(tally, specs) && job < |specs| && specs[job] == spec
      requires job !in tally.slots && (!completed ==> 0 < spec.size && fileBytes <= spec.size + 1)
      modifies this
      ensures Counted(tally, specs)
      ensures tally == if completed then Filling(old(tally), job, spec) else Counting(old(tally), job, fileBytes)
      ensures bytes == Reported(tally, |specs|) <= TotalBytes(specs, |specs|) + ActiveFiles(tally.active, |specs|)
    {
      ghost var next := if completed then Filling(tally, job, spec) else Counting(tally, job, fileBytes);
      hide Counted, Reported, FilledBytes, ActiveBytes, TotalBytes, ActiveFiles;
      if completed { FillingCounted(tally, job, specs); } else { CountingCounted(tally, job, fileBytes, specs); }
      CountedWithin(next, specs);
      var active := tally.active;
      if !completed {
        tally := tally.(active := active[job := fileBytes]);
      } else {
        tally := Tally(tally.completedBytes + spec.size, tally.filesDone + 1, active - {job}, tally.slots[job := spec]);
      }
      bytes := BytesDone(|specs|);
    }
  }

  /** Among the first `n` files each is valid in its slot or queued once, in order. */
  ghost predicate Scanned(specs: seq<Spec>, found: seq<Found>, slots: map<nat, Spec>, pending: seq<nat>, n: nat)
    requires n <= |specs| == |found|
  {
    && (forall i: nat :: i in slots <==> i < n && found[i] == Valid)
    && (forall i: nat :: i in slots ==> slots[i] == specs[i])
    && (forall i: nat :: i in pending <==> i < n && found[i] == Absent)
    && (forall i, j :: 0 <= i < j < |pending| ==> pending[i] < pending[j])
  }

  ghost predicate Listable(specs: seq<Spec>, supported: seq<bool>, found: seq<Found>, n: nat)
    requires n <= |specs| == |found| == |supported|
  {
    && (forall i, j :: 0 <= i < j < n ==> specs[i].rel != specs[j].rel)
    && (forall i :: 0 <= i < n ==> supported[i] && (found[i] == Valid || found[i] == Absent))
  }

  lemma ScanStep(specs: seq<Spec>, supported: seq<bool>, found: seq<Found>, slots: map<nat, Spec>, pending: seq<nat>,
                 n: nat)
    requires n < |specs| == |found| == |supported| && supported[n]
    requires Listable(specs, supported, found, n) && Scanned(specs, found, slots, pending, n)
    requires forall k :: 0 <= k < n ==> specs[k].rel != specs[n].rel
    ensures found[n] == Valid ==>
      Listable(specs, supported, found, n + 1) && Scanned(specs, found, slots[n := specs[n]], pending, n + 1)
    ensures found[n] == Absent ==>
      Listable(specs, supported, found, n + 1) && Scanned(specs, found, slots, pending + [n], n + 1)
  {
    assert forall k :: 0 <= k < |pending| ==> pending[k] in pending;
  }

  lemma ScanRefuses(specs: seq<Spec>, supported: seq<bool>, found: seq<Found>, n: nat)
    requires n < |specs| == |found| == |supported|
    requires !supported[n] || (found[n] != Valid && found[n] != Absent) || exists k :: 0 <= k < n && specs[k].rel == specs[n].rel
    ensures !Listable(specs, supported, found, |specs|)
  {
  }

  /** The scan before the pool, refusing duplicates, unsupported digests and files it must not replace. */
  method Scan(specs: seq<Spec>, supported: seq<bool>, found: seq<Found>)
    returns (ok: bool, slots: map<nat, Spec>, pending: seq<nat>, completedBytes: nat)
    requires |supported| == |found| == |specs|
    ensures ok <==> Listable(specs, supported, found, |specs|)
    ensures ok ==> Scanned(specs, found, slots, pending, |specs|)
    ensures ok ==> completedBytes == FilledBytes(specs, slots.Keys, |specs|)
  {
    ok, slots, pending, completedBytes := false, map[], [], 0;
    var seen: set<string> := {};
    for i := 0 to |specs|
      invariant forall s :: s in seen <==> exists k :: 0 <= k < i && specs[k].rel == s
      invariant Listable(specs, supported, found, i) && Scanned(specs, found, slots, pending, i)
      invariant completedBytes == FilledBytes(specs, slots.Keys, i)
    {
      hide Listable, Scanned;
      if specs[i].rel in seen || !supported[i] || (found[i] != Valid && found[i] != Absent) {
        ScanRefuses(specs, supported, found, i);
        return;
      }
      ScanStep(specs, supported, found, slots, pending, i);
      seen := Noted(specs, seen, i);
      ghost var was := slots.Keys;
      if found[i] == Valid {
        slots := slots[i := specs[i]];
        completedBytes := completedBytes + specs[i].size;
      } else {
        assert i !in slots by { NotSlotted(specs, found, slots, pending, i); }
        pending := pending + [i];
      }
      FilledSame(specs, was, slots.Keys, i);
    }
    ok := true;
  }

  /** The paths seen, with the next one added. */
  function Noted(specs: seq<Spec>, seen: set<string>, i: nat): (r: set<string>)
    requires i < |specs| && forall s :: s in seen <==> exists k :: 0 <= k < i && specs[k].rel == s
    ensures forall s :: s in r <==> exists k :: 0 <= k < i + 1 && specs[k].rel == s
  {
    seen + {specs[i].rel}
  }

  lemma NotSlotted(specs: seq<Spec>, found: seq<Found>, slots: map<nat, Spec>, pending: seq<nat>, n: nat)
    requires n <= |specs| == |found| && Scanned(specs, found, slots, pending, n)
    ensures n !in slots
  {
  }

  // ------------------------------------------------------------ the pool under any schedule

  datatype Phase = Fetching | Checked | Linked

  datatype Worker = Idle | Holding(job: nat, phase: Phase) | Quit

  /**
   `partial` are the files being fetched, `blobs` the immutable files by checksum, `links` the snapshot
   entries, and `manifest` the completion manifest once written.
   */
  datatype Pool = Pool(queue: seq<nat>, workers: seq<Worker>, cancelled: bool, failed: bool, parent: bool,
                       tally: Tally, partial: map<nat, Bytes>, blobs: map<Checksum, Bytes>, links: map<nat, Checksum>,
                       manifest: Option<map<nat, Spec>>)

  datatype Step =
    | Take(k: nat)
    | Drain(k: nat)
    | Write(k: nat, bytes: Bytes)
    | Report(k: nat, count: nat)
    | Check(k: nat)
    | Link(k: nat)
    | Fail(k: nat)
    | Complete(k: nat)
    | ParentCancel
    | WriteManifest

  predicate Holds(p: Pool, k: nat) { k < |p.workers| && p.workers[k].Holding? }

  /** Worker `k` holds a listed job in the phase. */
  predicate In(p: Pool, k: nat, phase: Phase, specs: seq<Spec>) {
    Holds(p, k) && p.workers[k].phase == phase && p.workers[k].job < |specs|
  }

  predicate Enabled(p: Pool, s: Step, specs: seq<Spec>) {
    match s
    case Take(k) => k < |p.workers| && p.workers[k].Idle? && p.queue != []
    case Drain(k) => k < |p.workers| && p.workers[k].Idle? && p.queue == []
    case Write(k, bytes) => // nothing is requested for an empty file
      In(p, k, Fetching, specs) && 0 < specs[p.workers[k].job].size && |bytes| <= specs[p.workers[k].job].size + 1
    case Report(k, count) =>
      In(p, k, Fetching, specs) && 0 < specs[p.workers[k].job].size && count <= specs[p.workers[k].job].size + 1
    case Check(k) =>
      In(p, k, Fetching, specs) && p.workers[k].job in p.partial && Passes(specs[p.workers[k].job], p.partial[p.workers[k].job])
    case Link(k) =>
      // an existing blob must pass too; a snapshot entry is never replaced
      In(p, k, Checked, specs) && p.workers[k].job in p.partial && p.workers[k].job !in p.links
      && (specs[p.workers[k].job].digest in p.blobs ==> Passes(specs[p.workers[k].job], p.blobs[specs[p.workers[k].job].digest]))
    case Fail(k) => Holds(p, k)
    case Complete(k) => In(p, k, Linked, specs)
    case ParentCancel => true
    case WriteManifest => (forall k :: 0 <= k < |p.workers| ==> p.workers[k].Quit?) && !p.failed && !p.parent
  }

  function Enter(p: Pool, k: nat, phase: Phase): (ws: seq<Worker>)
    requires Holds(p, k)
  {
    p.workers[k := Holding(p.workers[k].job, phase)]
  }

  function Apply(p: Pool, s: Step, specs: seq<Spec>): (r: Pool)
    requires Enabled(p, s, specs)
    ensures |r.workers| == |p.workers|
  {
    match s
    case Take(k) =>
      if p.cancelled then p.(queue := p.queue[1..], workers := p.workers[k := Quit])
      else p.(queue := p.queue[1..], workers := p.workers[k := Holding(p.queue[0], Fetching)])
    case Drain(k) => p.(workers := p.workers[k := Quit])
    case Write(k, bytes) => p.(partial := p.partial[p.workers[k].job := bytes])
    case Report(k, count) => p.(tally := Counting(p.tally, p.workers[k].job, count))
    case Check(k) => p.(workers := Enter(p, k, Checked))
    case Link(k) =>
      var job := p.workers[k].job;
      var d := specs[job].digest;
      p.(workers := Enter(p, k, Linked), partial := p.partial - {job}, links := p.links[job := d],
         blobs := if d in p.blobs then p.blobs else p.blobs[d := p.partial[job]])
    case Fail(k) => p.(workers := p.workers[k := Quit], failed := true, cancelled := true)
    case Complete(k) =>
      var job := p.workers[k].job;
      p.(workers := p.workers[k := Idle], tally := Filling(p.tally, job, specs[job]))
    case ParentCancel => p.(parent := true, cancelled := true)
    case WriteManifest => p.(manifest := Some(p.tally.slots))
  }

  ghost predicate Runs(p: Pool, steps: seq<Step>, specs: seq<Spec>, last: Pool)
    decreases |steps|
  {
    if steps == [] then last == p
    else Enabled(p, steps[0], specs) && Runs(Apply(p, steps[0], specs), steps[1..], specs, last)
  }

  ghost predicate Held(p: Pool, j: nat) { exists k: nat :: Holds(p, k) && p.workers[k].job == j }

  ghost function Filled(p: Pool): (r: set<nat>) { p.tally.slots.Keys }

  /** Where each pending job is, and that it is in one place only. */
  ghost predicate Placed(p: Pool, specs: seq<Spec>) {
    && (forall i :: 0 <= i < |p.queue| ==> p.queue[i] < |specs| && p.queue[i] !in Filled(p) && !Held(p, p.queue[i]))
    && (forall i, j :: 0 <= i < j < |p.queue| ==> p.queue[i] != p.queue[j])
    && (forall k: nat :: Holds(p, k) ==> p.workers[k].job < |specs| && p.workers[k].job !in Filled(p))
    && (forall k: nat, l: nat :: Holds(p, k) && Holds(p, l) && k != l ==> p.workers[k].job != p.workers[l].job)
    && (!p.cancelled ==> forall j :: 0 <= j < |specs| ==> j in Filled(p) || j in p.queue || Held(p, j))
  }

  /** A worker that left while nothing was cancelled found the queue empty. */
  ghost predicate Finished(p: Pool) {
    && (p.cancelled <==> p.failed || p.parent)
    && (!p.cancelled && (exists k :: 0 <= k < |p.workers| && p.workers[k].Quit?) ==> p.queue == [])
    && (p.workers == [] ==> p.queue == [])
  }

  ghost predicate Counted(t: Tally, specs: seq<Spec>) {
    && t.completedBytes == FilledBytes(specs, t.slots.Keys, |specs|)
    && t.filesDone == |t.slots.Keys|
    && (forall j :: j in t.active ==> j < |specs| && j !in t.slots && 0 < specs[j].size && t.active[j] <= specs[j].size + 1)
  }

  /** The snapshot shows bytes that pass for file `j`. */
  ghost predicate Shown(p: Pool, j: nat, specs: seq<Spec>)
    requires j < |specs|
  {
    j in p.links && p.links[j] in p.blobs && Passes(specs[j], p.blobs[p.links[j]])
  }

  ghost predicate Checks(p: Pool, specs: seq<Spec>) {
    && (forall j :: j in Filled(p) ==> j < |specs| && p.tally.slots[j] == specs[j] && Shown(p, j, specs))
    && (forall k: nat :: In(p, k, Checked, specs) ==>
          p.workers[k].job in p.partial && Passes(specs[p.workers[k].job], p.partial[p.workers[k].job]))
    && (forall k: nat :: In(p, k, Linked, specs) ==> Shown(p, p.workers[k].job, specs))
  }

  ghost predicate Recorded(p: Pool, specs: seq<Spec>) {
    p.manifest.Some? ==>
      && (forall j :: j in p.manifest.value ==> j < |specs| && p.manifest.value[j] == specs[j])
      && (forall j :: 0 <= j < |specs| ==> j in p.manifest.value && j in Filled(p))
  }

  ghost predicate Inv(p: Pool, specs: seq<Spec>) {
    Placed(p, specs) && Finished(p) && Counted(p.tally, specs) && Checks(p, specs) && Recorded(p, specs)
  }

  /** The head of the queue moves into an idle worker's hands, or is dropped by a cancelled one. */
  lemma TakeKeeps(p: Pool, k: nat, specs: seq<Spec>, r: Pool)
    requires Placed(p, specs) && Finished(p) && Enabled(p, Take(k), specs) && r == Apply(p, Take(k), specs)
    ensures Placed(r, specs) && Finished(r)
  {
    assert p.queue == [p.queue[0]] + r.queue && Filled(r) == Filled(p);
    assert k < |p.workers| && p.workers[k].Idle? && p.queue != [];
    assert r.workers == p.workers[k := if p.cancelled then Quit else Holding(p.queue[0], Fetching)] && r.cancelled == p.cancelled;
    HeldSplit(p, r, k);
    assert Finished(r);
    hide Apply, Enabled, Finished;
    if p.cancelled {
      assert forall l: nat :: Holds(r, l) ==> Holds(p, l) && r.workers[l] == p.workers[l];
    } else {
      assert Holds(r, k) && Held(r, p.queue[0]);
      assert forall l: nat :: Holds(r, l) && l != k ==> Holds(p, l) && r.workers[l] == p.workers[l] && Held(p, p.workers[l].job);
    }
  }

  /** Only worker `k` moved, and it held nothing or holds it still. */
  lemma HeldSplit(p: Pool, r: Pool, k: nat)
    requires k < |p.workers| == |r.workers| && forall l: nat :: l < |p.workers| && l != k ==> r.workers[l] == p.workers[l]
    ensures forall j: nat :: Held(r, j) ==> Held(p, j) || (Holds(r, k) && r.workers[k].job == j)
    ensures forall j: nat :: Held(p, j) ==> Held(r, j) || (Holds(p, k) && p.workers[k].job == j)
  {
    forall j: nat | Held(r, j) ensures Held(p, j) || (Holds(r, k) && r.workers[k].job == j) {
      var l: nat :| Holds(r, l) && r.workers[l].job == j;
      if l != k { assert Holds(p, l) && p.workers[l].job == j; }
    }
    forall j: nat | Held(p, j) ensures Held(r, j) || (Holds(p, k) && p.workers[k].job == j) {
      var l: nat :| Holds(p, l) && p.workers[l].job == j;
      if l != k { assert Holds(r, l) && r.workers[l].job == j; }
    }
  }

  /** Steps that keep the queue: the worker leaves, or loses its job to a failure. */
  lemma LeavingKeeps(p: Pool, s: Step, specs: seq<Spec>)
    requires Placed(p, specs) && Finished(p) && Enabled(p, s, specs) && (s.Drain? || s.Fail?)
    ensures Placed(Apply(p, s, specs), specs) && Finished(Apply(p, s, specs))
  {
    HeldSplit(p, Apply(p, s, specs), s.k);
  }

  /** The worker keeps its job. */
  lemma HoldingKeeps(p: Pool, s: Step, specs: seq<Spec>)
    requires Placed(p, specs) && Finished(p) && Enabled(p, s, specs) && (s.Check? || s.Link?)
    ensures Placed(Apply(p, s, specs), specs) && Finished(Apply(p, s, specs))
  {
    var r := Apply(p, s, specs);
    HeldSplit(p, r, s.k);
    assert Holds(r, s.k) && Held(r, p.workers[s.k].job);
    hide Passes;
    assert forall k: nat :: k < |r.workers| && r.workers[k].Quit? ==> p.workers[k].Quit?;
  }

  /** The worker fills its slot. */
  lemma CompleteKeeps(p: Pool, s: Step, specs: seq<Spec>)
    requires Placed(p, specs) && Finished(p) && Enabled(p, s, specs) && s.Complete?
    ensures Placed(Apply(p, s, specs), specs) && Finished(Apply(p, s, specs))
  {
    var r := Apply(p, s, specs);
    HeldSplit(p, r, s.k);
    assert Filled(r) == Filled(p) + {p.workers[s.k].job};
    assert forall k: nat :: k < |r.workers| && r.workers[k].Quit? ==> p.workers[k].Quit?;
  }

  lemma FillingCounted(t: Tally, job: nat, specs: seq<Spec>)
    requires Counted(t, specs) && job < |specs| && job !in t.slots
    ensures Counted(Filling(t, job, specs[job]), specs)
  {
    FillOne(specs, t.slots.Keys, job, |specs|);
    assert Filling(t, job, specs[job]).slots.Keys == t.slots.Keys + {job};
  }

  lemma CountingCounted(t: Tally, job: nat, bytes: nat, specs: seq<Spec>)
    requires Counted(t, specs) && job < |specs| && job !in t.slots && 0 < specs[job].size
    requires bytes <= specs[job].size + 1
    ensures Counted(Counting(t, job, bytes), specs)
  {
  }

  lemma CountedWithin(t: Tally, specs: seq<Spec>)
    requires Counted(t, specs)
    ensures forall i :: i in t.active ==> i < |specs|
    ensures Reported(t, |specs|) <= TotalBytes(specs, |specs|) + ActiveFiles(t.active, |specs|)
  {
    WithinTotal(specs, t.slots.Keys, t.active, |specs|);
  }

  lemma CountedKeeps(p: Pool, s: Step, specs: seq<Spec>, r: Pool)
    requires Placed(p, specs) && Counted(p.tally, specs) && Enabled(p, s, specs) && r == Apply(p, s, specs)
    ensures Counted(r.tally, specs)
  {
    hide Passes, FilledBytes, Held;
    if s.Complete? {
      assert Holds(p, s.k);
      FillingCounted(p.tally, p.workers[s.k].job, specs);
    } else if s.Report? {
      assert Holds(p, s.k);
      assert r.tally.slots.Keys == p.tally.slots.Keys;
    } else {
      assert r.tally == p.tally;
    }
  }

  lemma LinkChecks(p: Pool, s: Step, specs: seq<Spec>)
    requires Placed(p, specs) && Checks(p, specs) && Enabled(p, s, specs) && s.Link?
    ensures Checks(Apply(p, s, specs), specs)
  {
    var r := Apply(p, s, specs);
    var job := p.workers[s.k].job;
    assert Holds(p, s.k);
    assert forall d :: d in p.blobs ==> d in r.blobs && r.blobs[d] == p.blobs[d];
    assert Shown(r, job, specs);
    forall j | j in Filled(r) ensures Shown(r, j, specs) { assert Shown(p, j, specs) && j != job; }
    forall k: nat | In(r, k, Linked, specs) ensures Shown(r, r.workers[k].job, specs) {
      if k != s.k { assert In(p, k, Linked, specs) && Holds(p, k); }
    }
    forall k: nat | In(r, k, Checked, specs)
      ensures r.workers[k].job in r.partial && Passes(specs[r.workers[k].job], r.partial[r.workers[k].job])
    {
      assert k != s.k && In(p, k, Checked, specs) && Holds(p, k);
    }
  }

  /** Links, blobs and slots stand, or gain a shown slot; whoever is checked was so before, or passed just now. */
  lemma OtherChecks(p: Pool, s: Step, specs: seq<Spec>, r: Pool)
    requires Placed(p, specs) && Checks(p, specs) && Enabled(p, s, specs) && !s.Link? && r == Apply(p, s, specs)
    ensures Checks(r, specs)
  {
    CheckedStays(p, s, specs, r);
    LinkedStays(p, s, specs, r);
    hide Passes, Placed, Enabled, Apply, In;
    assert forall j: nat :: j < |specs| ==> (Shown(r, j, specs) <==> Shown(p, j, specs));
  }

  lemma LinkedStays(p: Pool, s: Step, specs: seq<Spec>, r: Pool)
    requires Enabled(p, s, specs) && !s.Link? && r == Apply(p, s, specs)
    ensures r.blobs == p.blobs && r.links == p.links
    ensures forall k: nat :: In(r, k, Linked, specs) ==> In(p, k, Linked, specs) && r.workers[k] == p.workers[k]
    ensures r.tally.slots == p.tally.slots
         || (s.Complete? && In(p, s.k, Linked, specs)
             && r.tally.slots == p.tally.slots[p.workers[s.k].job := specs[p.workers[s.k].job]])
  {
    hide Passes;
  }

  lemma CheckedStays(p: Pool, s: Step, specs: seq<Spec>, r: Pool)
    requires Placed(p, specs) && Checks(p, specs) && Enabled(p, s, specs) && !s.Link? && r == Apply(p, s, specs)
    ensures forall k: nat :: In(r, k, Checked, specs) ==>
      r.workers[k].job in r.partial && Passes(specs[r.workers[k].job], r.partial[r.workers[k].job])
  {
    hide Passes, Shown, Held;
    if s.Write? {
      assert forall k: nat :: In(r, k, Checked, specs) ==> Holds(p, k) && Holds(p, s.k) && k != s.k;
    } else {
      assert r.partial == p.partial;
      assert forall k: nat :: In(r, k, Checked, specs) && !(s.Check? && k == s.k) ==>
        In(p, k, Checked, specs) && r.workers[k] == p.workers[k];
    }
  }

  /** No worker changes hands. */
  lemma StandingKeeps(p: Pool, s: Step, specs: seq<Spec>)
    requires Placed(p, specs) && Finished(p) && Enabled(p, s, specs)
    requires s.Write? || s.Report? || s.ParentCancel? || s.WriteManifest?
    ensures Placed(Apply(p, s, specs), specs) && Finished(Apply(p, s, specs))
  {
    var r := Apply(p, s, specs);
    assert r.workers == p.workers && r.queue == p.queue && r.tally.slots == p.tally.slots;
    assert Finished(r) && (p.cancelled ==> r.cancelled);
    hide Apply, Enabled, Finished;
    assert forall k: nat :: Holds(p, k) <==> Holds(r, k);
    assert forall j: nat :: Held(r, j) <==> Held(p, j);
  }

  lemma StepKeepsInv(p: Pool, s: Step, specs: seq<Spec>)
    requires Inv(p, specs) && Enabled(p, s, specs)
    ensures Inv(Apply(p, s, specs), specs)
  {
    hide Counted, Checks, Recorded, Placed, Finished, Apply, Enabled;
    CountedKeeps(p, s, specs, Apply(p, s, specs));
    if s.Link? { LinkChecks(p, s, specs); } else { OtherChecks(p, s, specs, Apply(p, s, specs)); }
    StepRecorded(p, s, specs);
    match s {
      case Take(k) => TakeKeeps(p, k, specs, Apply(p, s, specs));
      case Drain(_) => LeavingKeeps(p, s, specs);
      case Fail(_) => LeavingKeeps(p, s, specs);
      case Check(_) => HoldingKeeps(p, s, specs);
      case Link(_) => HoldingKeeps(p, s, specs);
      case Complete(_) => CompleteKeeps(p, s, specs);
      case _ => StandingKeeps(p, s, specs);
    }
  }

  /** All workers gone, nothing cancelled: nothing is queued or held, so every slot is filled. */
  lemma ManifestIsFull(p: Pool, specs: seq<Spec>)
    requires Placed(p, specs) && Finished(p) && Enabled(p, WriteManifest, specs)
    ensures forall j :: 0 <= j < |specs| ==> j in Filled(p)
  {
    assert p.queue == [] by {
      if p.workers != [] { assert p.workers[0].Quit?; }
    }
    assert forall j: nat :: !Held(p, j);
  }

  lemma StepRecorded(p: Pool, s: Step, specs: seq<Spec>)
    requires Inv(p, specs) && Enabled(p, s, specs)
    ensures Recorded(Apply(p, s, specs), specs)
  {
    hide Placed, Finished, Counted, Passes, Shown;
    if s.WriteManifest? { ManifestIsFull(p, specs); }
  }

  lemma {:induction false} RunsKeepInv(p: Pool, steps: seq<Step>, specs: seq<Spec>, last: Pool)
    requires Inv(p, specs) && Runs(p, steps, specs, last)
    ensures Inv(last, specs)
    decreases |steps|
  {
    hide Inv, Enabled, Apply;
    if steps != [] {
      StepKeepsInv(p, steps[0], specs);
      RunsKeepInv(Apply(p, steps[0], specs), steps[1..], specs, last);
    }
  }

  /** The pool as the scan starts it: a file found valid is already shown. */
  ghost predicate Started(p: Pool, specs: seq<Spec>, found: seq<Found>, slots: map<nat, Spec>, pending: seq<nat>,
                          bytes: nat)
    requires |specs| == |found|
  {
    && Scanned(specs, found, slots, pending, |specs|) && Listed(specs, found)
    && bytes == FilledBytes(specs, slots.Keys, |specs|)
    && p == Pool(pending, seq(Min(CONCURRENCY, |pending|), _ => Idle), false, false, false,
                 Tally(bytes, |slots|, map[], slots), p.partial, p.blobs, p.links, None)
    && (forall j :: j in slots ==> Shown(p, j, specs))
    && (forall j :: j in pending ==> j !in p.links)
  }

  ghost predicate Listed(specs: seq<Spec>, found: seq<Found>)
    requires |specs| == |found|
  {
    forall i :: 0 <= i < |specs| ==> found[i] == Valid || found[i] == Absent
  }

  lemma StartedInv(p: Pool, specs: seq<Spec>, found: seq<Found>, slots: map<nat, Spec>, pending: seq<nat>, bytes: nat)
    requires |specs| == |found| && Started(p, specs, found, slots, pending, bytes)
    ensures Inv(p, specs)
  {
    hide Passes;
    assert forall k: nat :: !Holds(p, k);
    assert forall j: nat :: !Held(p, j);
    assert |slots.Keys| == |slots|;
    forall i | 0 <= i < |p.queue| ensures p.queue[i] < |specs| && p.queue[i] !in Filled(p) {
      assert p.queue[i] in pending;
    }
  }

  /**
   All or nothing: however workers, failures and cancellation interleave, a completion manifest lists
   exactly the announced files, each shown in the snapshot with bytes of its size and checksum, with all
   bytes and files counted; what is reported meanwhile is completed sizes plus latest counts.
   */
  lemma CompletesAllOrNothing(p: Pool, specs: seq<Spec>, found: seq<Found>, slots: map<nat, Spec>, pending: seq<nat>, bytes: nat,
                              steps: seq<Step>, last: Pool)
    requires |specs| == |found| && Started(p, specs, found, slots, pending, bytes) && Runs(p, steps, specs, last)
    ensures |last.workers| <= CONCURRENCY
    ensures last.manifest.Some? ==>
      && (forall j: nat :: j in last.manifest.value <==> j < |specs|)
      && (forall j: nat :: j < |specs| ==> last.manifest.value[j] == specs[j] && Shown(last, j, specs))
      && last.tally.completedBytes == TotalBytes(specs, |specs|) && last.tally.active == map[] && last.tally.filesDone == |specs|
    ensures last.tally.completedBytes == FilledBytes(specs, Filled(last), |specs|)
    ensures Reported(last.tally, |specs|) <= TotalBytes(specs, |specs|) + ActiveFiles(last.tally.active, |specs|)
  {
    StartedInv(p, specs, found, slots, pending, bytes);
    RunsKeepInv(p, steps, specs, last);
    WorkersFixed(p, steps, specs, last);
    hide Runs, Placed, Passes, Started;
    CountedWithin(last.tally, specs);
    if last.manifest.Some? {
      AllFilled(specs, Filled(last), |specs|);
      assert last.tally.active.Keys == {};
      FullSize(Filled(last), |specs|);
    }
  }

  lemma {:induction false} FullSize(s: set<nat>, n: nat)
    requires forall j: nat :: j in s <==> j < n
    ensures |s| == n
  {
    if n > 0 {
      FullSize(s - {n - 1}, n - 1);
    } else {
      assert s == {};
    }
  }

  lemma {:induction false} WorkersFixed(p: Pool, steps: seq<Step>, specs: seq<Spec>, last: Pool)
    requires Runs(p, steps, specs, last)
    ensures |last.workers| == |p.workers|
    decreases |steps|
  {
    hide Apply, Enabled;
    if steps != [] { WorkersFixed(Apply(p, steps[0], specs), steps[1..], specs, last); }
  }
}
