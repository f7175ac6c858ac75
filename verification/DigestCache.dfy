/**
 The agent's process-wide cache of file digests, under any interleaving of callers, writers,
 replacements and evictions, on a file system with change times.
 */
module DigestCache {

  import opened Prelude

  const CAPACITY: nat := 8192

  // ------------------------------------------------------------ the bounded index

  class Entry {
    var info: Option<Info>
    var digest: Digest

    constructor ()
      ensures info == None
    {
      info, digest := None, Sha256([]);
    }
  }

  class Index {
    var entries: map<string, Entry>

    ghost predicate Valid()
      reads this
    {
      |entries| <= CAPACITY
    }

    constructor ()
      ensures Valid() && entries == map[]
    {
      entries := map[];
    }

    /** A known path keeps its entry; a new one may empty a full index first. */
    method Find(resolved: string) returns (entry: Entry)
      requires Valid()
      modifies this
      ensures Valid() && resolved in entries && entries[resolved] == entry
      ensures resolved in old(entries) ==> entries == old(entries)
      ensures resolved !in old(entries) ==> fresh(entry) && entry.info == None
      ensures resolved !in old(entries) ==>
        entries == (if |old(entries)| >= CAPACITY then map[] else old(entries))[resolved := entry]
    {
      if resolved in entries { return entries[resolved]; }
      if |entries| >= CAPACITY { entries := map[]; }
      entry := new Entry();
      assert (entries[resolved := entry]).Keys == entries.Keys + {resolved};
      entries := entries[resolved := entry];
    }
  }

  // ------------------------------------------------------------ files

  /** `changed` is the change time: every write, truncation or mode change takes a new one. */
  datatype File = File(content: Bytes, changed: nat, modified: int, regular: bool)

  datatype Info = Info(inode: nat, size: nat, modified: int, regular: bool, changed: nat)

  datatype Disk = Disk(files: map<nat, File>, links: map<string, nat>)

  function StatOf(d: Disk, inode: nat): (i: Info)
    requires inode in d.files
  {
    var f := d.files[inode];
    Info(inode, |f.content|, f.modified, f.regular, f.changed)
  }

  predicate Reachable(d: Disk, path: string) { path in d.links && d.links[path] in d.files }

  /** `sameFileVersion`, where change times exist. */
  predicate SameVersion(a: Info, b: Info) {
    a.inode == b.inode && a.size == b.size && a.regular == b.regular && a.modified == b.modified && a.changed == b.changed
  }

  /** The tests after the read: nothing observable moved while it lasted. */
  predicate Unmoved(size: nat, before: Info, after: Info, current: Info) {
    && size == before.size && before.inode == current.inode && before.size == after.size && before.modified == after.modified
    && SameVersion(before, after) && SameVersion(after, current)
  }

  // ------------------------------------------------------------ calls

  datatype Pc =
    | Entering
    | Waiting(e: nat)
    | Locked(e: nat)
    | Statted(e: nat, info: Info, at: nat)
    | Missed(e: nat)
    | Opened(e: nat, inode: nat)
    | Reading(e: nat, inode: nat, before: Info, read: Bytes)
    | Ended(e: nat, inode: nat, before: Info, read: Bytes)
    | Rechecked(e: nat, before: Info, after: Info, read: Bytes)
    | Compared(e: nat, before: Info, after: Info, current: Info, read: Bytes, at: nat)
    | Publishing(e: nat, after: Info, read: Bytes, at: nat)
    | Returned(digest: Digest, size: nat, at: nat)
    | Aborted

  predicate HoldsLock(pc: Pc) {
    !(pc.Entering? || pc.Waiting? || pc.Returned? || pc.Aborted?)
  }

  /** `since` is the moment of the call; `at` in a program counter is the moment of a stat of the path. */
  datatype Call = Call(path: string, since: nat, pc: Pc)

  datatype Slot = Slot(info: Option<Info>, digest: Digest)

  /** `past[k]` is the disk at moment `k`; `written[v]` is the content that took change time `v`. */
  datatype World = World(past: seq<Disk>, written: map<nat, Bytes>, clock: nat,
                         index: map<string, nat>, slots: map<nat, Slot>, held: set<nat>, calls: map<nat, Call>)

  function Now(w: World): (d: Disk)
    requires w.past != []
  {
    w.past[|w.past| - 1]
  }

  datatype Step =
    | Write(inode: nat, content: Bytes, modified: int, regular: bool)
    | Link(path: string, inode: nat)
    | Unlink(path: string)
    | Enter(t: nat, path: string)
    | Lookup(t: nat, key: string, fresh_: nat)
    | Acquire(t: nat)
    | Stat(t: nat)
    | Hit(t: nat)
    | Miss(t: nat)
    | Open(t: nat)
    | Begin(t: nat)
    | Read(t: nat, n: nat)
    | Eof(t: nat)
    | Recheck(t: nat)
    | Compare(t: nat)
    | Accept(t: nat)
    | Store(t: nat)
    | Abort(t: nat)

  predicate OfDisk(s: Step) { s.Write? || s.Link? || s.Unlink? }

  function DiskAfter(w: World, s: Step): (d: Disk)
    requires w.past != [] && OfDisk(s)
  {
    var d := Now(w);
    match s
    case Write(inode, content, modified, regular) => d.(files := d.files[inode := File(content, w.clock, modified, regular)])
    case Link(path, inode) => d.(links := d.links[path := inode])
    case Unlink(path) => d.(links := d.links - {path})
  }

  predicate In(w: World, t: nat) { t in w.calls }

  predicate Enabled(w: World, s: Step) {
    && w.past != []
    && (OfDisk(s) || s.Enter? || In(w, s.t))
    && var d := Now(w);
       match s
       case Write(_, _, _, _) => true
       case Link(_, inode) => inode in d.files
       case Unlink(_) => true
       case Enter(t, _) => t !in w.calls
       case Lookup(t, _, fresh_) => w.calls[t].pc.Entering? && fresh_ !in w.slots
       case Acquire(t) => w.calls[t].pc.Waiting? && w.calls[t].pc.e !in w.held
       case Stat(t) => w.calls[t].pc.Locked? && Reachable(d, w.calls[t].path) && d.files[d.links[w.calls[t].path]].regular
       case Hit(t) => w.calls[t].pc.Statted? && Fresh(w, w.calls[t].pc)
       case Miss(t) => w.calls[t].pc.Statted? && w.calls[t].pc.e in w.slots && !Fresh(w, w.calls[t].pc)
       case Open(t) => w.calls[t].pc.Missed? && Reachable(d, w.calls[t].path)
       case Begin(t) => w.calls[t].pc.Opened? && w.calls[t].pc.inode in d.files
       case Read(t, n) => w.calls[t].pc.Reading? && w.calls[t].pc.inode in d.files
                          && |w.calls[t].pc.read| + n <= |d.files[w.calls[t].pc.inode].content|
       case Eof(t) => w.calls[t].pc.Reading? && w.calls[t].pc.inode in d.files
                      && |w.calls[t].pc.read| >= |d.files[w.calls[t].pc.inode].content|
       case Recheck(t) => w.calls[t].pc.Ended? && w.calls[t].pc.inode in d.files
       case Compare(t) => w.calls[t].pc.Rechecked? && Reachable(d, w.calls[t].path)
       case Accept(t) => w.calls[t].pc.Compared? && w.calls[t].pc.e in w.slots
                         && Unmoved(|w.calls[t].pc.read|, w.calls[t].pc.before, w.calls[t].pc.after, w.calls[t].pc.current)
       case Store(t) => w.calls[t].pc.Publishing? && w.calls[t].pc.e in w.slots
       case Abort(t) => !w.calls[t].pc.Publishing? && !w.calls[t].pc.Returned? && !w.calls[t].pc.Aborted?
  }

  /** The cached version is the one just seen. */
  predicate Fresh(w: World, pc: Pc)
    requires pc.Statted?
  {
    pc.e in w.slots && w.slots[pc.e].info.Some? && SameVersion(w.slots[pc.e].info.value, pc.info)
  }

  /** Where call `t` stands after its step. */
  function PcAfter(w: World, s: Step): (pc: Pc)
    requires Enabled(w, s) && !OfDisk(s) && !s.Enter?
  {
    var d, at := Now(w), |w.past| - 1;
    var c := w.calls[s.t];
    match s
    case Lookup(_, key, fresh_) => Waiting(if key in w.index then w.index[key] else fresh_)
    case Acquire(_) => Locked(c.pc.e)
    case Stat(_) => Statted(c.pc.e, StatOf(d, d.links[c.path]), at)
    case Hit(_) => Returned(w.slots[c.pc.e].digest, c.pc.info.size, c.pc.at)
    case Miss(_) => Missed(c.pc.e)
    case Open(_) => Opened(c.pc.e, d.links[c.path])
    case Begin(_) => Reading(c.pc.e, c.pc.inode, StatOf(d, c.pc.inode), [])
    case Read(_, n) =>
      Reading(c.pc.e, c.pc.inode, c.pc.before, c.pc.read + d.files[c.pc.inode].content[|c.pc.read|..|c.pc.read| + n])
    case Eof(_) => Ended(c.pc.e, c.pc.inode, c.pc.before, c.pc.read)
    case Recheck(_) => Rechecked(c.pc.e, c.pc.before, StatOf(d, c.pc.inode), c.pc.read)
    case Compare(_) => Compared(c.pc.e, c.pc.before, c.pc.after, StatOf(d, d.links[c.path]), c.pc.read, at)
    case Accept(_) => Publishing(c.pc.e, c.pc.after, c.pc.read, c.pc.at)
    case Store(_) => Returned(Sha256(c.pc.read), |c.pc.read|, c.pc.at)
    case Abort(_) => Aborted
  }

  predicate Releases(pc: Pc, s: Step) { HoldsLock(pc) && (s.Hit? || s.Store? || s.Abort?) }

  function Apply(w: World, s: Step): (r: World)
    requires Enabled(w, s)
  {
    if OfDisk(s) then
      var r := w.(past := w.past + [DiskAfter(w, s)]);
      if s.Write? then r.(written := w.written[w.clock := s.content], clock := w.clock + 1) else r
    else if s.Enter? then w.(calls := w.calls[s.t := Call(s.path, |w.past| - 1, Entering)])
    else
      var pc := w.calls[s.t].pc;
      var r := w.(calls := w.calls[s.t := w.calls[s.t].(pc := PcAfter(w, s))],
                  held := if Releases(pc, s) then w.held - {pc.e} else w.held);
      match s
      case Lookup(_, key, fresh_) =>
        if key in w.index then r
        else r.(index := (if |w.index| >= CAPACITY then map[] else w.index)[key := fresh_],
                slots := w.slots[fresh_ := Slot(None, Sha256([]))])
      case Acquire(_) => r.(held := w.held + {pc.e})
      case Miss(_) => r.(slots := w.slots[pc.e := w.slots[pc.e].(info := None)])
      case Accept(_) => r.(slots := w.slots[pc.e := w.slots[pc.e].(info := Some(pc.after))])
      case Store(_) => r.(slots := w.slots[pc.e := w.slots[pc.e].(digest := Sha256(pc.read))])
      case _ => r
  }

  ghost predicate Runs(w: World, steps: seq<Step>, last: World)
    decreases |steps|
  {
    if steps == [] then last == w else Enabled(w, steps[0]) && Runs(Apply(w, steps[0]), steps[1..], last)
  }

  // ------------------------------------------------------------ invariant

  /** Every change time on the disk names the content written with it. */
  ghost predicate DiskOk(d: Disk, written: map<nat, Bytes>) {
    forall i :: i in d.files ==> d.files[i].changed in written && written[d.files[i].changed] == d.files[i].content
  }

  ghost predicate PastOk(past: seq<Disk>, written: map<nat, Bytes>, clock: nat) {
    && past != []
    && (forall k :: 0 <= k < |past| ==> DiskOk(past[k], written))
    && (forall v :: v in written ==> v < clock)
  }

  /** `info` is what the path showed at moment `at`, during the call. */
  ghost predicate SeenAt(past: seq<Disk>, c: Call, info: Info, at: nat) {
    && c.since <= at < |past| && Reachable(past[at], c.path)
    && info == StatOf(past[at], past[at].links[c.path])
  }

  ghost predicate Known(i: Info, written: map<nat, Bytes>) {
    i.changed in written && i.size == |written[i.changed]|
  }

  /** What has been read is the content of `before`'s version, as long as the file still has that version. */
  ghost predicate ReadOk(past: seq<Disk>, written: map<nat, Bytes>, inode: nat, before: Info, read: Bytes, all: bool) {
    && past != [] && inode in past[|past| - 1].files && Known(before, written)
    && var f := past[|past| - 1].files[inode];
       && before.changed <= f.changed
       && (f.changed == before.changed ==> read <= f.content && (all ==> read == f.content))
  }

  ghost predicate CallOk(past: seq<Disk>, written: map<nat, Bytes>, c: Call) {
    && c.since < |past|
    && match c.pc
       case Statted(_, info, at) => SeenAt(past, c, info, at)
       case Opened(_, inode) => inode in past[|past| - 1].files
       case Reading(_, inode, before, read) => ReadOk(past, written, inode, before, read, false)
       case Ended(_, inode, before, read) => ReadOk(past, written, inode, before, read, true)
       case Rechecked(_, before, after, read) =>
         Known(after, written) && (after.changed == before.changed ==> read == written[after.changed])
       case Compared(_, before, after, current, read, at) =>
         && Known(after, written) && (after.changed == before.changed ==> read == written[after.changed])
         && SeenAt(past, c, current, at)
       case Publishing(_, after, read, at) => Known(after, written) && read == written[after.changed] && SeenAt(past, c, after, at)
       case Returned(digest, size, at) =>
         && c.since <= at < |past| && Reachable(past[at], c.path)
         && var content := past[at].files[past[at].links[c.path]].content;
            digest == Sha256(content) && size == |content|
       case _ => true
  }

  ghost predicate Storing(calls: map<nat, Call>, e: nat) {
    exists t :: t in calls && calls[t].pc.Publishing? && calls[t].pc.e == e
  }

  ghost predicate SlotOk(w: World, e: nat)
    requires e in w.slots
  {
    w.slots[e].info.Some? ==>
      && Known(w.slots[e].info.value, w.written)
      && (Storing(w.calls, e) || w.slots[e].digest == Sha256(w.written[w.slots[e].info.value.changed]))
  }

  /** At most one call works on an entry. */
  ghost predicate LocksOk(w: World) {
    && (forall t :: t in w.calls && HoldsLock(w.calls[t].pc) ==> w.calls[t].pc.e in w.held)
    && (forall t, u :: t in w.calls && u in w.calls && t != u && HoldsLock(w.calls[t].pc) && HoldsLock(w.calls[u].pc) ==>
          w.calls[t].pc.e != w.calls[u].pc.e)
    && (forall t :: t in w.calls && w.calls[t].pc.Publishing? ==>
          w.calls[t].pc.e in w.slots && w.slots[w.calls[t].pc.e].info == Some(w.calls[t].pc.after))
  }

  ghost predicate CallsOk(w: World) {
    forall t :: t in w.calls ==> CallOk(w.past, w.written, w.calls[t])
  }

  ghost predicate SlotsOk(w: World) {
    forall e :: e in w.slots ==> SlotOk(w, e)
  }

  ghost predicate Inv(w: World) {
    && PastOk(w.past, w.written, w.clock) && CallsOk(w) && SlotsOk(w) && LocksOk(w)
    && |w.index| <= CAPACITY
  }

  lemma DiskStepCall(w: World, s: Step, c: Call)
    requires Enabled(w, s) && OfDisk(s) && PastOk(w.past, w.written, w.clock) && CallOk(w.past, w.written, c)
    ensures CallOk(Apply(w, s).past, Apply(w, s).written, c)
  {
    var r := Apply(w, s);
    assert forall k :: 0 <= k < |w.past| ==> r.past[k] == w.past[k];
    assert forall v :: v in w.written ==> v in r.written && r.written[v] == w.written[v];
  }

  lemma DiskStepPast(w: World, s: Step)
    requires Enabled(w, s) && OfDisk(s) && PastOk(w.past, w.written, w.clock)
    ensures PastOk(Apply(w, s).past, Apply(w, s).written, Apply(w, s).clock)
  {
    var r := Apply(w, s);
    forall k | 0 <= k < |r.past| ensures DiskOk(r.past[k], r.written) {
      if k < |w.past| {
        assert r.past[k] == w.past[k];
      } else {
        assert DiskOk(Now(w), w.written);
      }
    }
  }

  lemma DiskStepKeeps(w: World, s: Step)
    requires Enabled(w, s) && OfDisk(s) && Inv(w)
    ensures Inv(Apply(w, s))
  {
    var r := Apply(w, s);
    DiskStepPast(w, s);
    forall t | t in r.calls ensures CallOk(r.past, r.written, r.calls[t]) {
      DiskStepCall(w, s, w.calls[t]);
    }
    hide CallOk, PastOk;
    assert r.calls == w.calls && r.slots == w.slots && r.held == w.held && r.index == w.index;
    forall e | e in r.slots ensures SlotOk(r, e) {
      assert SlotOk(w, e);
    }
  }

  predicate Reads(s: Step) { s.Begin? || s.Read? || s.Eof? || s.Recheck? }

  lemma ReadStep(w: World, s: Step)
    requires Enabled(w, s) && Reads(s) && PastOk(w.past, w.written, w.clock)
    requires CallOk(w.past, w.written, w.calls[s.t])
    ensures CallOk(w.past, w.written, w.calls[s.t].(pc := PcAfter(w, s)))
  {
    hide Fresh, Unmoved, Reachable, SeenAt;
    assert DiskOk(Now(w), w.written);
  }

  lemma OwnStep(w: World, s: Step)
    requires Enabled(w, s) && !OfDisk(s) && !s.Enter? && !Reads(s) && !s.Hit? && PastOk(w.past, w.written, w.clock)
    requires CallOk(w.past, w.written, w.calls[s.t])
    ensures CallOk(w.past, w.written, w.calls[s.t].(pc := PcAfter(w, s)))
  {
    hide Fresh, ReadOk;
    if s.Store? { assert DiskOk(w.past[w.calls[s.t].pc.at], w.written); }
  }

  /** A hit returns the digest of the version just seen: nobody is storing into the entry. */
  lemma HitStep(w: World, s: Step)
    requires Enabled(w, s) && s.Hit? && Inv(w)
    ensures CallOk(w.past, w.written, w.calls[s.t].(pc := PcAfter(w, s)))
  {
    var c := w.calls[s.t];
    assert CallOk(w.past, w.written, c);
    assert DiskOk(w.past[c.pc.at], w.written);
    assert SlotOk(w, c.pc.e);
    assert !Storing(w.calls, c.pc.e);
  }

  lemma EnterKeeps(w: World, s: Step)
    requires Enabled(w, s) && s.Enter? && Inv(w)
    ensures Inv(Apply(w, s))
  {
    var r := Apply(w, s);
    assert CallOk(r.past, r.written, r.calls[s.t]);
    hide CallOk, PastOk;
    assert forall t :: t in w.calls ==> r.calls[t] == w.calls[t];
    forall e | e in r.slots ensures SlotOk(r, e) {
      assert SlotOk(w, e);
      assert Storing(w.calls, e) ==> Storing(r.calls, e);
    }
  }

  /** The step moves one call and touches at most that call's entry, which it holds. */
  ghost predicate Moves(w: World, s: Step, r: World)
    requires !OfDisk(s)
  {
    && s.t in w.calls && s.t in r.calls && r.calls.Keys == w.calls.Keys
    && r.past == w.past && r.written == w.written && r.clock == w.clock
    && (forall t :: t in w.calls && t != s.t ==> r.calls[t] == w.calls[t])
    && var was, pc := w.calls[s.t].pc, r.calls[s.t].pc;
       && (HoldsLock(pc) ==> if s.Acquire? then was.Waiting? && pc.e == was.e && pc.e !in w.held else HoldsLock(was) && pc.e == was.e)
       && (HoldsLock(was) ==> !s.Acquire?)
       && r.held == (if s.Acquire? && was.Waiting? then w.held + {was.e}
                     else if HoldsLock(was) && !HoldsLock(pc) then w.held - {was.e} else w.held)
  }

  ghost predicate Edits(w: World, s: Step, r: World)
    requires !OfDisk(s) && s.t in w.calls && s.t in r.calls
  {
    var was, pc := w.calls[s.t].pc, r.calls[s.t].pc;
    && (forall e :: e in w.slots ==> e in r.slots)
    && (forall e :: e in w.slots && r.slots[e] != w.slots[e] ==> HoldsLock(was) && e == was.e)
    && (forall e :: e in r.slots && e !in w.slots ==> r.slots[e].info == None)
    && (pc.Publishing? ==> was.Compared? && pc.e in r.slots && r.slots[pc.e].info == Some(pc.after) && pc.after == was.after)
    && (was.Publishing? ==> was.e in w.slots && r.slots[was.e] == w.slots[was.e].(digest := Sha256(was.read)))
    && (HoldsLock(was) && !was.Publishing? && !pc.Publishing? && was.e in w.slots && r.slots[was.e] != w.slots[was.e] ==>
          r.slots[was.e].info == None)
  }

  lemma CallStepShape(w: World, s: Step)
    requires Enabled(w, s) && !OfDisk(s) && !s.Enter?
    ensures Moves(w, s, Apply(w, s))
  {
    hide Fresh, Unmoved, Reachable, StatOf;
    CallStepPc(w, s);
  }

  lemma CallStepPc(w: World, s: Step)
    requires Enabled(w, s) && !OfDisk(s) && !s.Enter?
    ensures Apply(w, s).calls == w.calls[s.t := w.calls[s.t].(pc := PcAfter(w, s))]
    ensures Apply(w, s).past == w.past && Apply(w, s).written == w.written && Apply(w, s).clock == w.clock
  {
    hide PcAfter, Enabled;
  }

  lemma CallStepEdits(w: World, s: Step)
    requires Enabled(w, s) && !OfDisk(s) && !s.Enter?
    ensures Edits(w, s, Apply(w, s))
  {
    hide Fresh, Unmoved, Reachable;
  }

  lemma CallStepCalls(w: World, s: Step, r: World)
    requires !OfDisk(s) && Moves(w, s, r) && CallsOk(w) && CallOk(w.past, w.written, r.calls[s.t])
    ensures CallsOk(r)
  {
    hide CallOk;
  }

  lemma CallStepLocks(w: World, s: Step, r: World)
    requires !OfDisk(s) && Moves(w, s, r) && Edits(w, s, r) && LocksOk(w)
    ensures LocksOk(r)
  {
    var was, pc := w.calls[s.t].pc, r.calls[s.t].pc;
    forall t | t in r.calls && HoldsLock(r.calls[t].pc) ensures r.calls[t].pc.e in r.held {
      if t != s.t { assert HoldsLock(w.calls[t].pc); }
    }
    forall t | t in r.calls && r.calls[t].pc.Publishing?
      ensures r.calls[t].pc.e in r.slots && r.slots[r.calls[t].pc.e].info == Some(r.calls[t].pc.after)
    {
      if t != s.t { assert HoldsLock(w.calls[t].pc); }
    }
  }

  lemma MovesFrame(w: World, s: Step, r: World)
    requires !OfDisk(s) && Moves(w, s, r)
    ensures r.past == w.past && r.written == w.written && r.clock == w.clock && s.t in w.calls && s.t in r.calls
  {
  }

  lemma CallStepIndex(w: World, s: Step)
    requires Enabled(w, s) && !OfDisk(s) && !s.Enter? && |w.index| <= CAPACITY
    ensures |Apply(w, s).index| <= CAPACITY
  {
    hide PcAfter, Enabled, Releases;
    if s.Lookup? && s.key !in w.index {
      var base := if |w.index| >= CAPACITY then map[] else w.index;
      assert Apply(w, s).index.Keys == base.Keys + {s.key};
    }
  }

  lemma CallStepSlot(w: World, s: Step, r: World, e: nat)
    requires !OfDisk(s) && Moves(w, s, r) && Edits(w, s, r) && LocksOk(w)
    requires CallOk(w.past, w.written, w.calls[s.t]) && e in r.slots && (e in w.slots ==> SlotOk(w, e))
    ensures SlotOk(r, e)
  {
    hide ReadOk, SeenAt;
    var was, pc := w.calls[s.t].pc, r.calls[s.t].pc;
    if e in w.slots && r.slots[e].info.Some? {
      if Storing(w.calls, e) {
        var t :| t in w.calls && w.calls[t].pc.Publishing? && w.calls[t].pc.e == e;
        if t != s.t { assert r.calls[t] == w.calls[t] && Storing(r.calls, e); }
      }
      if pc.Publishing? { assert Storing(r.calls, pc.e); }
    }
  }

  lemma CallStepKeeps(w: World, s: Step)
    requires Enabled(w, s) && !OfDisk(s) && !s.Enter? && Inv(w)
    ensures Inv(Apply(w, s))
  {
    var r := Apply(w, s);
    assert CallOk(w.past, w.written, w.calls[s.t]);
    hide Apply, Enabled, CallOk, Edits, PastOk, Moves, PcAfter;
    CallStepPc(w, s);
    CallStepShape(w, s);
    CallStepEdits(w, s);
    CallStepIndex(w, s);
    if s.Hit? { HitStep(w, s); } else if Reads(s) { ReadStep(w, s); } else { OwnStep(w, s); }
    CallStepCalls(w, s, r);
    assert r.past == w.past && r.written == w.written && r.clock == w.clock && s.t in r.calls by { MovesFrame(w, s, r); }
    CallStepLocks(w, s, r);
    forall e | e in r.slots ensures SlotOk(r, e) {
      CallStepSlot(w, s, r, e);
    }
  }

  lemma {:induction false} RunsKeepInv(w: World, steps: seq<Step>, last: World)
    requires Inv(w) && Runs(w, steps, last)
    ensures Inv(last)
    decreases |steps|
  {
    hide Inv, Enabled, Apply;
    if steps != [] {
      var s := steps[0];
      if OfDisk(s) { DiskStepKeeps(w, s); } else if s.Enter? { EnterKeeps(w, s); } else { CallStepKeeps(w, s); }
      RunsKeepInv(Apply(w, s), steps[1..], last);
    }
  }

  /** A new process: nothing cached, no call, whatever is on the disk. */
  ghost predicate Booted(w: World) {
    && |w.past| == 1 && PastOk(w.past, w.written, w.clock)
    && w.index == map[] && w.slots == map[] && w.held == {} && w.calls == map[]
  }

  /**
   Caching is invisible: a digest returned by any call, cached or computed, is the hash of the
   content its path had at one moment of that call, and the index stays within its bound.
   */
  lemma CacheRefinesHashing(w: World, steps: seq<Step>, last: World, t: nat)
    requires Booted(w) && Runs(w, steps, last)
    requires t in last.calls && last.calls[t].pc.Returned?
    ensures |last.index| <= CAPACITY
    ensures var c := last.calls[t];
      exists at, content ::
        && c.since <= at < |last.past| && Reachable(last.past[at], c.path)
        && content == last.past[at].files[last.past[at].links[c.path]].content
        && c.pc.digest == Sha256(content) && c.pc.size == |content|
  {
    RunsKeepInv(w, steps, last);
    var c := last.calls[t];
    assert CallOk(last.past, last.written, c);
    var at := c.pc.at;
    var content := last.past[at].files[last.past[at].links[c.path]].content;
    assert c.pc.digest == Sha256(content);
  }

  /** No two calls read or write one cache entry at the same time. */
  lemma EntriesAreExclusive(w: World, steps: seq<Step>, last: World, t: nat, u: nat)
    requires Booted(w) && Runs(w, steps, last)
    requires t in last.calls && u in last.calls && t != u && HoldsLock(last.calls[t].pc) && HoldsLock(last.calls[u].pc)
    ensures last.calls[t].pc.e != last.calls[u].pc.e
  {
    RunsKeepInv(w, steps, last);
  }
}
