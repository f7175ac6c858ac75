/**
 The writer protocol around the download tables, as a step system: the executor of
 each item, the cancel, disconnect and reconnect threads, and the device agents all
 interleave, one SQL statement or one message at a time.

 Compare-and-set transitions, interruptions and lock cancellations are open to every
 thread with any earlier read, so every schedule of the code is a run of this system.
 */
module DownloadProtocol {
  import opened Prelude
  import opened DownloadTables

  /** How far `acquireItem` of one item has come. */
  datatype Executor =
    | Queued             // has not asked for the destination yet
    | Owner              // its lock was inserted, nothing is bound
    | Bound              // a command or transfer was bound
    | Cleared            // the last check before sending passed
    | Sent               // the command left the controller
    | Ended

  /** What the device does with the item's command. */
  datatype Device = Silent | Delivered | Writing | Stopped | Refused

  /** A row some other thread read before it decides to release "never dispatched". */
  datatype Snapshot = Snapshot(item: nat, row: Row)

  datatype System = System(
    tables: Tables,
    executors: map<nat, Executor>,
    devices: map<nat, Device>,
    acknowledged: set<nat>,     // items whose terminal acknowledgement arrived
    snapshots: set<Snapshot>)

  const EMPTY := System(Tables(map[], map[]), map[], map[], {}, {})

  datatype Step =
    | Create(i: nat, row: Row)
    | AcquireOwn(i: nat)
    | BindWriter(i: nat, expected: ItemState, id: nat)
    | CheckDispatch(i: nat)
    | Send(i: nat, delivered: bool)
    | Begin(i: nat)
    | Refuse(i: nat)
    | Finish(i: nat)
    | Acknowledge(i: nat)
    | ReleaseAcknowledged(i: nat)
    | ReleaseUnbound(i: nat)
    | ReadRow(i: nat)
    | ReleaseRead(i: nat)
    | MoveItem(i: nat, read: Row, to: ItemState)
    | MarkStopping(i: nat)
    | Interrupt(run: nat)
    | OtherAcquire(place: Place, kind: OwnerKind, owner: nat)
    | OtherRelease(place: Place, kind: OwnerKind, owner: nat)
    | Restart

  predicate Executing(s: System, i: nat, e: Executor) {
    i in s.executors && s.executors[i] == e
  }

  predicate DeviceIs(s: System, i: nat, d: Device) {
    i in s.devices && s.devices[i] == d
  }

  function Bind(t: Tables, i: nat, expected: ItemState, id: nat): (u: Update) {
    if i in t.items && t.items[i].peer then BindTransfer(t, i, expected, id) else BindCommand(t, i, expected, id)
  }

  function UnlockItem(t: Tables, i: nat): (r: Tables)
    requires i in t.items
  {
    Unlock(t, t.items[i].place, OwnerDownload, i)
  }

  ghost predicate Enabled(s: System, step: Step) {
    match step
    case Create(i, row) => i !in s.tables.items && CreateItem(s.tables, i, row).changed
    case AcquireOwn(i) => i in s.tables.items && Executing(s, i, Queued)
    case BindWriter(i, e, id) => i in s.tables.items && Executing(s, i, Owner)
    case CheckDispatch(i) =>
      i in s.tables.items && Executing(s, i, Bound) && s.tables.items[i].state.Transferring?
    case Send(i, delivered) => Executing(s, i, Cleared)
    case Begin(i) => DeviceIs(s, i, Delivered)
    case Refuse(i) => DeviceIs(s, i, Delivered)
    case Finish(i) => DeviceIs(s, i, Writing)
    case Acknowledge(i) => DeviceIs(s, i, Stopped) || DeviceIs(s, i, Refused)
    case ReleaseAcknowledged(i) => i in s.tables.items && i in s.acknowledged
    case ReleaseUnbound(i) => i in s.tables.items && Executing(s, i, Owner)
    case ReadRow(i) => i in s.tables.items && !s.tables.items[i].Bound()
    case ReleaseRead(i) => i in s.tables.items && exists r :: Snapshot(i, r) in s.snapshots
    case MoveItem(i, read, to) => true
    case MarkStopping(i) => i in s.tables.items
    case Interrupt(run) => true
    case OtherAcquire(p, k, o) => !k.OwnerDownload?
    case OtherRelease(p, k, o) => !k.OwnerDownload?
    case Restart => true
  }

  ghost function Apply(s: System, step: Step): (r: System)
    requires Enabled(s, step)
  {
    match step
    case Create(i, row) =>
      s.(tables := CreateItem(s.tables, i, row).tables,
         executors := s.executors[i := Queued], devices := s.devices[i := Silent])
    case AcquireOwn(i) =>
      // a busy destination ends the executor
      var u := AcquireLock(s.tables, s.tables.items[i].place, OwnerDownload, i);
      s.(tables := u.tables, executors := s.executors[i := if u.changed then Owner else Ended])
    case BindWriter(i, e, id) =>
      var u := Bind(s.tables, i, e, id);
      s.(tables := u.tables, executors := s.executors[i := if u.changed then Executor.Bound else Owner])
    case CheckDispatch(i) => s.(executors := s.executors[i := Cleared])
    case Send(i, delivered) =>
      s.(executors := s.executors[i := Sent],
         devices := if delivered then s.devices[i := Delivered] else s.devices)
    case Begin(i) => s.(devices := s.devices[i := Writing])
    case Refuse(i) => s.(devices := s.devices[i := Refused])
    case Finish(i) => s.(devices := s.devices[i := Stopped])
    case Acknowledge(i) => s.(acknowledged := s.acknowledged + {i})
    case ReleaseAcknowledged(i) => s.(tables := UnlockItem(s.tables, i))
    case ReleaseUnbound(i) => s.(tables := UnlockItem(s.tables, i), executors := s.executors[i := Ended])
    case ReadRow(i) => s.(snapshots := s.snapshots + {Snapshot(i, s.tables.items[i])})
    case ReleaseRead(i) => s.(tables := UnlockItem(s.tables, i))
    case MoveItem(i, read, to) => s.(tables := Transition(s.tables, i, read, to).tables)
    case MarkStopping(i) => s.(tables := CancelLock(s.tables, s.tables.items[i].place, OwnerDownload, i).tables)
    case Interrupt(run) => s.(tables := InterruptRun(s.tables, run))
    case OtherAcquire(p, k, o) => s.(tables := AcquireLock(s.tables, p, k, o).tables)
    case OtherRelease(p, k, o) => s.(tables := Unlock(s.tables, p, k, o))
    case Restart =>
      s.(executors := map i | i in s.executors :: Ended, snapshots := {})
  }

  ghost predicate Run(s: System, steps: seq<Step>, s': System)
    decreases |steps|
  {
    if steps == [] then s == s'
    else Enabled(s, steps[0]) && Run(Apply(s, steps[0]), steps[1..], s')
  }

  // ------------------------------------------------------------ safety

  predicate Live(s: System, i: nat) {
    DeviceIs(s, i, Delivered) || DeviceIs(s, i, Writing)
  }

  /** A bound item without a terminal acknowledgement still owns its destination. */
  ghost predicate WriterOwnsPlace(s: System) {
    forall i :: i in s.tables.items && s.tables.items[i].Bound() && i !in s.acknowledged ==> Owns(s.tables, i)
  }

  /** Two items never write one destination at the same time. */
  ghost predicate ExclusiveWriters(s: System) {
    forall i, j ::
      (i in s.tables.items && j in s.tables.items && Live(s, i) && Live(s, j)
       && s.tables.items[i].place == s.tables.items[j].place) ==> i == j
  }

  /** Item `i` has no writer now and can get none: releasing its lock is harmless. */
  predicate Closed(s: System, i: nat) {
    i in s.tables.items &&
    (i in s.acknowledged ||
     (!s.tables.items[i].Bound() &&
       (!Working(s.tables.items[i].state)
        || Executing(s, i, Ended)
        || (Executing(s, i, Owner) && !HoldsLock(s.tables, i)))))
  }

  /** What an executor's position and the device say about the row. */
  predicate ItemConsistent(s: System, i: nat)
    requires i in s.tables.items
  {
    var row := s.tables.items[i];
    && (Executing(s, i, Queued) || Executing(s, i, Owner) ==> !row.Bound())
    && (Executing(s, i, Executor.Bound) || Executing(s, i, Cleared) || Executing(s, i, Sent) ==> row.Bound())
    && (!DeviceIs(s, i, Silent) ==> row.Bound() && (Executing(s, i, Sent) || Executing(s, i, Ended)))
    && (i in s.acknowledged ==> DeviceIs(s, i, Stopped) || DeviceIs(s, i, Refused))
  }

  ghost predicate Shape(s: System) {
    && LocksMatchItems(s.tables)
    && s.executors.Keys == s.tables.items.Keys && s.devices.Keys == s.tables.items.Keys
    && s.acknowledged <= s.tables.items.Keys
    && (forall x :: x in s.snapshots ==> x.item in s.tables.items)
  }

  ghost predicate Consistent(s: System) {
    Shape(s) && forall i :: i in s.tables.items ==> ItemConsistent(s, i)
  }

  ghost predicate Inv(s: System) {
    && Consistent(s)
    && WriterOwnsPlace(s)
    && (forall x :: x in s.snapshots ==> Closed(s, x.item))
  }

  /** The missing check: a thread other than the executor reads a row that has left the working states. */
  ghost predicate Guarded(s: System, step: Step) {
    step.ReadRow? ==> step.i in s.tables.items && !Working(s.tables.items[step.i].state)
  }

  ghost predicate GuardedRun(s: System, steps: seq<Step>, s': System)
    decreases |steps|
  {
    if steps == [] then s == s'
    else Enabled(s, steps[0]) && Guarded(s, steps[0]) && GuardedRun(Apply(s, steps[0]), steps[1..], s')
  }

  lemma StepShape(s: System, step: Step)
    requires Shape(s) && Enabled(s, step)
    ensures Shape(Apply(s, step))
  {
    hide Unlock, QuiesceLock, ReleaseLock;
  }

  /** Steps of executors and devices that leave the tables alone. */
  predicate OffTables(step: Step) {
    || step.CheckDispatch? || step.Send? || step.Begin? || step.Refuse? || step.Finish? || step.Acknowledge?
    || step.ReadRow? || step.Restart?
  }

  lemma StepItemOffTables(s: System, step: Step, i: nat)
    requires s.executors.Keys == s.tables.items.Keys && s.devices.Keys == s.tables.items.Keys
    requires s.acknowledged <= s.tables.items.Keys && OffTables(step)
    requires Enabled(s, step) && i in s.tables.items && ItemConsistent(s, i)
    ensures Apply(s, step).tables == s.tables && ItemConsistent(Apply(s, step), i)
  {
  }

  lemma StepItemOnTables(s: System, step: Step, i: nat)
    requires s.executors.Keys == s.tables.items.Keys && s.devices.Keys == s.tables.items.Keys
    requires s.acknowledged <= s.tables.items.Keys && !OffTables(step)
    requires Enabled(s, step) && i in Apply(s, step).tables.items
    requires i in s.tables.items ==> ItemConsistent(s, i)
    ensures ItemConsistent(Apply(s, step), i)
  {
    hide HoldsLock, AcquireLock, CancelLock, Unlock;
  }

  lemma StepItem(s: System, step: Step, i: nat)
    requires Shape(s) && Enabled(s, step) && i in Apply(s, step).tables.items
    requires i in s.tables.items ==> ItemConsistent(s, i)
    ensures ItemConsistent(Apply(s, step), i)
  {
    hide ItemConsistent, LocksMatchItems;
    if OffTables(step) {
      assert Apply(s, step).tables == s.tables;
      StepItemOffTables(s, step, i);
    } else {
      StepItemOnTables(s, step, i);
    }
  }

  lemma StepConsistent(s: System, step: Step)
    requires Consistent(s) && Enabled(s, step)
    ensures Consistent(Apply(s, step))
  {
    hide Apply, Enabled, ItemConsistent, LocksMatchItems;
    StepShape(s, step);
    forall i | i in Apply(s, step).tables.items ensures ItemConsistent(Apply(s, step), i) {
      StepItem(s, step, i);
    }
  }

  /** Once no writer can come, none does. */
  lemma ClosedStays(s: System, step: Step, i: nat)
    requires Shape(s) && Enabled(s, step) && Closed(s, i) && ItemConsistent(s, i)
    ensures Closed(Apply(s, step), i)
  {
    if OffTables(step) { ClosedOffTables(s, step, i); } else { ClosedOnTables(s, step, i); }
  }

  lemma ClosedOffTables(s: System, step: Step, i: nat)
    requires Shape(s) && Enabled(s, step) && Closed(s, i) && ItemConsistent(s, i) && OffTables(step)
    ensures Closed(Apply(s, step), i)
  {
    hide HoldsLock, LocksMatchItems;
  }

  lemma ClosedOnTables(s: System, step: Step, i: nat)
    requires Shape(s) && Enabled(s, step) && Closed(s, i) && ItemConsistent(s, i) && !OffTables(step)
    ensures Closed(Apply(s, step), i)
  {
    hide Unlock, QuiesceLock, ReleaseLock;
  }

  predicate OwnsIfBound(s: System, i: nat)
    requires i in s.tables.items
  {
    s.tables.items[i].Bound() && i !in s.acknowledged ==> Owns(s.tables, i)
  }

  lemma OwnershipOnTables(s: System, step: Step, i: nat)
    requires Shape(s) && Enabled(s, step) && i in Apply(s, step).tables.items && !OffTables(step)
    requires i in s.tables.items ==> OwnsIfBound(s, i) && ItemConsistent(s, i)
    requires forall x :: x in s.snapshots && x.item == i ==> Closed(s, i)
    ensures OwnsIfBound(Apply(s, step), i)
  {
    hide Unlock, QuiesceLock, ReleaseLock;
  }

  lemma OwnershipStays(s: System, step: Step, i: nat)
    requires Shape(s) && Enabled(s, step) && i in Apply(s, step).tables.items
    requires i in s.tables.items ==> OwnsIfBound(s, i) && ItemConsistent(s, i)
    requires forall x :: x in s.snapshots && x.item == i ==> Closed(s, i)
    ensures OwnsIfBound(Apply(s, step), i)
  {
    if OffTables(step) {
      hide ItemConsistent, LocksMatchItems, Closed, Owns;
      assert Apply(s, step).tables == s.tables && s.acknowledged <= Apply(s, step).acknowledged;
    } else {
      hide ItemConsistent, LocksMatchItems, Closed, Owns, Apply, Enabled, OwnsIfBound;
      OwnershipOnTables(s, step, i);
    }
  }

  lemma StepKeepsOwnership(s: System, step: Step)
    requires Inv(s) && Enabled(s, step)
    ensures WriterOwnsPlace(Apply(s, step))
  {
    hide Apply, Enabled, Closed, ItemConsistent;
    forall i | i in Apply(s, step).tables.items ensures OwnsIfBound(Apply(s, step), i) {
      OwnershipStays(s, step, i);
    }
  }

  lemma StepKeepsInv(s: System, step: Step)
    requires Inv(s) && Enabled(s, step) && Guarded(s, step)
    ensures Inv(Apply(s, step))
  {
    hide Apply, Enabled;
    StepConsistent(s, step);
    StepKeepsOwnership(s, step);
    forall x | x in Apply(s, step).snapshots ensures Closed(Apply(s, step), x.item) {
      SnapshotsGrow(s, step, x);
      ClosedStays(s, step, x.item);
    }
  }

  lemma SnapshotsGrow(s: System, step: Step, x: Snapshot)
    requires Inv(s) && Enabled(s, step) && Guarded(s, step) && x in Apply(s, step).snapshots
    ensures Closed(s, x.item)
  {
  }

  lemma {:induction false} RunKeepsInv(s: System, steps: seq<Step>, s': System)
    requires Inv(s) && GuardedRun(s, steps, s')
    ensures Inv(s')
    decreases |steps|
  {
    if steps != [] {
      StepKeepsInv(s, steps[0]);
      RunKeepsInv(Apply(s, steps[0]), steps[1..], s');
    }
  }

  lemma OwnersAreExclusive(s: System)
    requires Consistent(s) && WriterOwnsPlace(s)
    ensures ExclusiveWriters(s)
  {
    forall i | i in s.tables.items && Live(s, i) ensures Owns(s.tables, i) {}
  }

  /** No second writer until the first is known to have stopped, on every guarded schedule. */
  lemma NoSecondWriter(steps: seq<Step>, s: System)
    requires GuardedRun(EMPTY, steps, s)
    ensures WriterOwnsPlace(s) && ExclusiveWriters(s)
  {
    RunKeepsInv(EMPTY, steps, s);
    OwnersAreExclusive(s);
  }

  // ------------------------------------------------------------ the missing check is needed

  predicate ClearOf(row: Row, id: nat) {
    row.command != Some(id) && row.transfer != Some(id)
  }

  lemma {:induction false} UpperBound(t: Tables, keys: set<nat>) returns (bound: nat)
    requires keys <= t.items.Keys
    ensures forall j, id: nat :: j in keys && id >= bound ==> ClearOf(t.items[j], id)
    decreases |keys|
  {
    if keys == {} {
      bound := 0;
    } else {
      var j :| j in keys;
      var rest := UpperBound(t, keys - {j});
      var row := t.items[j];
      bound := rest + (match row.command case Some(c) => c + 1 case None => 0)
               + (match row.transfer case Some(x) => x + 1 case None => 0);
      forall k, id: nat | k in keys && id >= bound ensures ClearOf(t.items[k], id) {
        if k != j { assert k in keys - {j}; }
      }
    }
  }

  ghost predicate Breaks(s: System, steps: seq<Step>, s': System) {
    Run(s, steps, s') && !WriterOwnsPlace(s') && forall k :: 0 <= k < |steps| ==> !steps[k].ReadRow?
  }

  lemma ReleaseBreaks(s: System, i: nat, r: Row)
    requires Shape(s) && Snapshot(i, r) in s.snapshots
    requires s.tables.items[i].Bound() && i !in s.acknowledged
    ensures exists steps, s' :: Breaks(s, steps, s')
  {
    var step := ReleaseRead(i);
    assert Enabled(s, step);
    var s' := Apply(s, step);
    assert !Owns(s'.tables, i);
    assert Run(s', [step][1..], s');
    assert Breaks(s, [step], s');
  }

  lemma Prepend(s: System, step: Step, steps: seq<Step>, s': System)
    requires Enabled(s, step) && !step.ReadRow? && Breaks(Apply(s, step), steps, s')
    ensures Breaks(s, [step] + steps, s')
  {
    assert ([step] + steps)[1..] == steps;
  }

  lemma BindSucceeds(t: Tables, i: nat, id: nat)
    requires i in t.items && Working(t.items[i].state) && !t.items[i].Bound() && HoldsLock(t, i)
    requires forall j :: j in t.items ==> ClearOf(t.items[j], id)
    ensures var u := Bind(t, i, t.items[i].state, id); u.changed && u.tables.items[i].Bound()
  {
    assert forall j :: j in t.items && ClearOf(t.items[j], id) ==>
      t.items[j].command != Some(id) && t.items[j].transfer != Some(id);
  }

  lemma BindThenReleaseBreaks(s: System, i: nat, r: Row)
    requires Consistent(s) && Snapshot(i, r) in s.snapshots
    requires Executing(s, i, Owner) && HoldsLock(s.tables, i) && Working(s.tables.items[i].state)
    requires i !in s.acknowledged
    ensures exists steps, s' :: Breaks(s, steps, s')
  {
    hide Bind, Breaks, HoldsLock;
    assert ItemConsistent(s, i);
    var id := UpperBound(s.tables, s.tables.items.Keys);
    BindSucceeds(s.tables, i, id);
    var step := BindWriter(i, s.tables.items[i].state, id);
    StepShape(s, step);
    var t := Apply(s, step);
    ReleaseBreaks(t, i, r);
    var steps, s' :| Breaks(t, steps, s');
    Prepend(s, step, steps, s');
  }

  /** A queued item whose destination is free acquires and binds it before the release. */
  lemma QueuedSnapshotBreaks(s: System, i: nat, r: Row)
    requires Consistent(s) && Snapshot(i, r) in s.snapshots && !Closed(s, i) && Executing(s, i, Queued)
    requires s.tables.items[i].place !in s.tables.locks
    ensures exists steps, s' :: Breaks(s, steps, s')
  {
    assert ItemConsistent(s, i);
    var step := AcquireOwn(i);
    StepConsistent(s, step);
    var t := Apply(s, step);
    assert t.tables.locks[s.tables.items[i].place] == Lock(OwnerDownload, i, Held);
    BindThenReleaseBreaks(t, i, r);
    var steps, s' :| Breaks(t, steps, s');
    Prepend(s, step, steps, s');
  }

  /** The lock there is one its holder may release now. */
  ghost predicate Releasable(s: System, p: Place) {
    p in s.tables.locks && (s.tables.locks[p].kind.OwnerDownload? ==> s.tables.locks[p].owner in s.acknowledged)
  }

  lemma ReleasableBreaks(s: System, i: nat, r: Row)
    requires Consistent(s) && Snapshot(i, r) in s.snapshots && !Closed(s, i) && Executing(s, i, Queued)
    requires Releasable(s, s.tables.items[i].place)
    ensures exists steps, s' :: Breaks(s, steps, s')
  {
    var p := s.tables.items[i].place;
    var lock := s.tables.locks[p];
    var step := if lock.kind.OwnerDownload? then ReleaseAcknowledged(lock.owner) else OtherRelease(p, lock.kind, lock.owner);
    assert lock.kind.OwnerDownload? ==> s.tables.items[lock.owner].place == p;
    assert LockedBy(s.tables, p, lock.kind, lock.owner);
    StepConsistent(s, step);
    var t := Apply(s, step);
    assert t.tables.locks == s.tables.locks - {p} && t.tables.items == s.tables.items;
    hide Breaks;
    QueuedSnapshotBreaks(t, i, r);
    var steps, s' :| Breaks(t, steps, s');
    Prepend(s, step, steps, s');
  }

  /** A release decided on a row whose item is not closed can be scheduled to strand a writer. */
  lemma OpenSnapshotBreaks(s: System, i: nat, r: Row)
    requires Consistent(s) && Snapshot(i, r) in s.snapshots && !Closed(s, i)
    requires Executing(s, i, Queued) ==> s.tables.items[i].place !in s.tables.locks || Releasable(s, s.tables.items[i].place)
    ensures exists steps, s' :: Breaks(s, steps, s')
  {
    assert ItemConsistent(s, i);
    if s.tables.items[i].Bound() {
      ReleaseBreaks(s, i, r);
    } else if Executing(s, i, Owner) {
      BindThenReleaseBreaks(s, i, r);
    } else if s.tables.items[i].place !in s.tables.locks {
      QueuedSnapshotBreaks(s, i, r);
    } else {
      ReleasableBreaks(s, i, r);
    }
  }

  /** The destinations of items still queued are free or about to be, so those items can go on. */
  ghost predicate QueueCanMove(s: System) {
    forall x :: x in s.snapshots && Executing(s, x.item, Queued) && x.item in s.tables.items ==>
      s.tables.items[x.item].place !in s.tables.locks || Releasable(s, s.tables.items[x.item].place)
  }

  lemma {:induction false} NoNewSnapshotsKeepInv(s: System, steps: seq<Step>, s': System)
    requires Inv(s) && Run(s, steps, s') && forall k :: 0 <= k < |steps| ==> !steps[k].ReadRow?
    ensures Inv(s')
    decreases |steps|
  {
    if steps != [] {
      assert !steps[0].ReadRow?;
      StepKeepsInv(s, steps[0]);
      assert forall k :: 0 <= k < |steps[1..]| ==> steps[1..][k] == steps[k + 1];
      NoNewSnapshotsKeepInv(Apply(s, steps[0]), steps[1..], s');
    }
  }

  /**
   While no queued item is blocked by a download that is still unacknowledged, the pending releases are
   safe on every schedule exactly when every item they concern is closed.
   */
  lemma SafeIffSnapshotsClosed(s: System)
    requires Consistent(s) && WriterOwnsPlace(s) && QueueCanMove(s)
    ensures (forall x :: x in s.snapshots ==> Closed(s, x.item))
      <==> !(exists steps, s' :: Breaks(s, steps, s'))
  {
    if forall x :: x in s.snapshots ==> Closed(s, x.item) {
      forall steps: seq<Step>, s' | Run(s, steps, s') && forall k :: 0 <= k < |steps| ==> !steps[k].ReadRow?
        ensures WriterOwnsPlace(s')
      {
        NoNewSnapshotsKeepInv(s, steps, s');
      }
    } else {
      var x :| x in s.snapshots && !Closed(s, x.item);
      assert x == Snapshot(x.item, x.row);
      OpenSnapshotBreaks(s, x.item, x.row);
    }
  }

  /** For an executor that still holds its lock, closed is exactly the check the code does not make. */
  lemma GuardIsExact(s: System, i: nat)
    requires Inv(s) && Executing(s, i, Owner) && HoldsLock(s.tables, i)
    ensures i in s.tables.items && Enabled(s, ReadRow(i))
    ensures Inv(Apply(s, ReadRow(i))) <==> !Working(s.tables.items[i].state)
  {
    assert ItemConsistent(s, i);
    var t := Apply(s, ReadRow(i));
    assert Snapshot(i, s.tables.items[i]) in t.snapshots;
    assert Closed(t, i) <==> !Working(s.tables.items[i].state);
    if !Working(s.tables.items[i].state) {
      StepKeepsInv(s, ReadRow(i));
    }
  }

  // ------------------------------------------------------------ two writers, without the check

  ghost predicate Reachable(s: System) {
    exists steps :: Run(EMPTY, steps, s)
  }

  lemma {:induction false} RunThen(s: System, steps: seq<Step>, s': System, step: Step)
    requires Run(s, steps, s') && Enabled(s', step)
    ensures Run(s, steps + [step], Apply(s', step))
    decreases |steps|
  {
    if steps == [] {
      assert ([step])[1..] == [];
      assert steps + [step] == [step];
    } else {
      RunThen(Apply(s, steps[0]), steps[1..], s', step);
      assert (steps + [step])[1..] == steps[1..] + [step];
    }
  }

  lemma Reach(s: System, step: Step) returns (s': System)
    requires Reachable(s) && Enabled(s, step)
    ensures s' == Apply(s, step) && Reachable(s')
  {
    var steps :| Run(EMPTY, steps, s);
    RunThen(EMPTY, steps, s, step);
    s' := Apply(s, step);
  }

  const DISK := Place("node", "/models")

  /** A new item of run `i` for that destination. */
  function Fresh(i: nat): (row: Row) { Row(i, DISK, false, Pending, None, None) }

  /** Item `i` takes its free destination and binds command `i`, then sends it. */
  lemma AcquireAndCheck(s: System, i: nat) returns (s': System)
    requires Reachable(s) && i !in s.tables.items && DISK !in s.tables.locks
    ensures Reachable(s')
    ensures s' == s.(tables := Tables(s.tables.items[i := Fresh(i).(state := Checking)],
                                      s.tables.locks[DISK := Lock(OwnerDownload, i, Held)]),
                     executors := s.executors[i := Owner], devices := s.devices[i := Silent])
  {
    hide Reachable, HoldsLock;
    var a := Reach(s, Create(i, Fresh(i)));
    var b := Reach(a, AcquireOwn(i));
    s' := Reach(b, MoveItem(i, Fresh(i), Checking));
    assert s'.tables.items == s.tables.items[i := Fresh(i).(state := Checking)];
    assert s'.executors == s.executors[i := Owner];
  }

  lemma SendBound(s: System, i: nat) returns (s': System)
    requires Reachable(s) && i in s.tables.items && Executing(s, i, Executor.Bound)
    requires s.tables.items[i].state == Checking
    ensures Reachable(s') && DeviceIs(s', i, Delivered)
    ensures s'.tables.locks == s.tables.locks
    ensures s'.tables.items == s.tables.items[i := s.tables.items[i].(state := Transferring)]
    ensures s'.devices == s.devices[i := Delivered]
  {
    hide Reachable, HoldsLock;
    var a := Reach(s, MoveItem(i, s.tables.items[i], Transferring));
    var b := Reach(a, CheckDispatch(i));
    s' := Reach(b, Send(i, true));
  }

  lemma BindOwned(s: System, i: nat, id: nat) returns (s': System)
    requires Reachable(s) && i in s.tables.items && Executing(s, i, Owner)
    requires s.tables.items[i] == Fresh(i).(state := Checking)
    requires DISK in s.tables.locks && s.tables.locks[DISK] == Lock(OwnerDownload, i, Held)
    requires forall j :: j in s.tables.items ==> ClearOf(s.tables.items[j], id)
    ensures Reachable(s')
    ensures s' == s.(tables := s.tables.(items := s.tables.items[i := s.tables.items[i].(command := Some(id))]),
                     executors := s.executors[i := Executor.Bound])
  {
    hide Reachable;
    BindSucceeds(s.tables, i, id);
    s' := Reach(s, BindWriter(i, Checking, id));
  }

  /**
   A reconnect (or cancel) thread reads the checking row, the executor binds, the thread
   releases: an item of another run then acquires the destination while the first one writes it.
   */
  lemma UncheckedReleaseAllowsTwoWriters() returns (s: System)
    ensures Reachable(s) && !ExclusiveWriters(s)
    ensures s.tables.items.Keys == {0, 1} && s.tables.items[0].run != s.tables.items[1].run && Live(s, 0) && Live(s, 1)
  {
    hide Reachable, HoldsLock;
    var e := ReleasedUnderWriter();
    var f := AcquireAndCheck(e, 1);
    var g := BindOwned(f, 1, 8);
    s := SendBound(g, 1);
    assert Live(s, 0) && Live(s, 1);
  }

  /** The first half: item 0 writes, its lock is gone. */
  lemma ReleasedUnderWriter() returns (e: System)
    ensures Reachable(e) && e.tables.locks == map[]
    ensures e.tables.items == map[0 := Fresh(0).(state := Transferring, command := Some(7))]
    ensures e.devices == map[0 := Delivered]
  {
    var c := ReadThenBound();
    hide Reachable, Unlock;
    assert Snapshot(0, Fresh(0).(state := Checking)) in c.snapshots;
    var d := Reach(c, ReleaseRead(0));
    e := SendBound(d, 0);
  }

  lemma ReadThenBound() returns (c: System)
    ensures Reachable(c)
    ensures c == System(Tables(map[0 := Fresh(0).(state := Checking, command := Some(7))],
                               map[DISK := Lock(OwnerDownload, 0, Held)]),
                        map[0 := Executor.Bound], map[0 := Silent], {}, {Snapshot(0, Fresh(0).(state := Checking))})
  {
    hide Reachable, HoldsLock;
    var start := Start();
    var a := AcquireAndCheck(start, 0);
    var b := Reach(a, ReadRow(0));
    c := BindOwned(b, 0, 7);
  }

  lemma Start() returns (s: System)
    ensures s == EMPTY && Reachable(s)
  {
    s := EMPTY;
    assert Run(EMPTY, [], EMPTY);
  }
}
