/**
 The two tables that own a download: the items of every attempt and the locks on
 the destinations they write. Each function is one guarded SQL statement together
 with the triggers and constraints of the schema; `Database` is the same statements
 on rows updated in place.
 */
module DownloadTables {

  import opened Prelude

  datatype Place = Place(node: string, destination: string)

  datatype ItemState =
    | Pending | Checking | Transferring | Verifying | Cancelling
    | Succeeded | Failed | Cancelled | Interrupted

  predicate Working(s: ItemState) { s.Pending? || s.Checking? || s.Transferring? || s.Verifying? }

  predicate Active(s: ItemState) { Working(s) || s.Cancelling? }

  /** The transitions the `immutable_download_item` trigger lets through. */
  predicate Allowed(a: ItemState, b: ItemState) {
    match a
    case Pending => b.Checking? || b.Cancelling? || b.Failed? || b.Interrupted?
    case Checking => b.Transferring? || b.Verifying? || b.Succeeded? || b.Cancelling? || b.Failed? || b.Interrupted?
    case Transferring => b.Verifying? || b.Cancelling? || b.Failed? || b.Interrupted?
    case Verifying => b.Succeeded? || b.Cancelling? || b.Failed? || b.Interrupted?
    case Cancelling => b.Cancelled? || b.Interrupted?
    case _ => false
  }

  /** `peer` items are written by a bound transfer, the others by a bound command. */
  datatype Row = Row(run: nat, place: Place, peer: bool, state: ItemState,
                     command: Option<nat>, transfer: Option<nat>)
  {
    /** A writer was bound and may have been dispatched. */
    predicate Bound() { transfer.Some? || (!peer && command.Some?) }
  }

  datatype OwnerKind = OwnerDownload | OwnerServing | OwnerTransfer

  datatype LockState = Held | Stopping | Quiesced

  datatype Lock = Lock(kind: OwnerKind, owner: nat, state: LockState)

  datatype Tables = Tables(items: map<nat, Row>, locks: map<Place, Lock>)

  datatype Update = Update(tables: Tables, changed: bool)

  /** The destination lock of item `i`, in any state. */
  predicate Owns(t: Tables, i: nat) {
    i in t.items && LockedBy(t, t.items[i].place, OwnerDownload, i)
  }

  /** `EXISTS (... lock.item_id = id AND lock.state = 'held')`. */
  predicate HoldsLock(t: Tables, i: nat) {
    exists p :: p in t.locks && t.locks[p] == Lock(OwnerDownload, i, Held)
  }

  // ------------------------------------------------------------ statements

  function CreateItem(t: Tables, i: nat, row: Row): (u: Update) {
    if i in t.items || row.state != Pending || row.command.Some? || row.transfer.Some? then Update(t, false)
    else Update(t.(items := t.items[i := row]), true)
  }

  function AcquireLock(t: Tables, place: Place, kind: OwnerKind, owner: nat): (u: Update)
    ensures u.tables.items == t.items
  {
    var matches := kind.OwnerDownload? ==>
      owner in t.items && t.items[owner].place == place && Working(t.items[owner].state);
    if place in t.locks || !matches then Update(t, false)
    else Update(t.(locks := t.locks[place := Lock(kind, owner, Held)]), true)
  }

  function CancelLock(t: Tables, place: Place, kind: OwnerKind, owner: nat): (u: Update)
    ensures u.tables.items == t.items
  {
    if place in t.locks && t.locks[place] == Lock(kind, owner, Held)
    then Update(t.(locks := t.locks[place := Lock(kind, owner, Stopping)]), true)
    else Update(t, false)
  }

  function QuiesceLock(t: Tables, place: Place, kind: OwnerKind, owner: nat, expected: LockState): (u: Update)
    ensures u.tables.items == t.items
  {
    if place in t.locks && t.locks[place] == Lock(kind, owner, expected) && !expected.Quiesced?
    then Update(t.(locks := t.locks[place := Lock(kind, owner, Quiesced)]), true)
    else Update(t, false)
  }

  function ReleaseLock(t: Tables, place: Place, kind: OwnerKind, owner: nat): (u: Update)
    ensures u.tables.items == t.items
  {
    if place in t.locks && t.locks[place] == Lock(kind, owner, Quiesced)
    then Update(t.(locks := t.locks - {place}), true)
    else Update(t, false)
  }

  predicate LockedBy(t: Tables, place: Place, kind: OwnerKind, owner: nat) {
    place in t.locks && t.locks[place].kind == kind && t.locks[place].owner == owner
  }

  /**
   One transaction: refuse a foreign lock, quiesce an unquiesced one, delete it. It removes
   exactly the caller's lock.
   */
  function Unlock(t: Tables, place: Place, kind: OwnerKind, owner: nat): (r: Tables)
    ensures r.items == t.items
    ensures r.locks == if LockedBy(t, place, kind, owner) then t.locks - {place} else t.locks
  {
    if !LockedBy(t, place, kind, owner) then t
    else
      var lock := t.locks[place];
      var q := if lock.state.Quiesced? then t else QuiesceLock(t, place, kind, owner, lock.state).tables;
      assert t.locks[place := Lock(kind, owner, Quiesced)] - {place} == t.locks - {place};
      ReleaseLock(q, place, kind, owner).tables
  }

  function BindCommand(t: Tables, i: nat, expected: ItemState, command: nat): (u: Update)
    ensures u.tables.locks == t.locks
  {
    if i in t.items && t.items[i].state == expected && Working(expected) && t.items[i].command.None?
       && HoldsLock(t, i) && forall j :: j in t.items ==> t.items[j].command != Some(command)
    then Update(t.(items := t.items[i := t.items[i].(command := Some(command))]), true)
    else Update(t, false)
  }

  function BindTransfer(t: Tables, i: nat, expected: ItemState, transfer: nat): (u: Update)
    ensures u.tables.locks == t.locks
  {
    if i in t.items && t.items[i].state == expected && Working(expected) && t.items[i].transfer.None?
       && HoldsLock(t, i) && forall j :: j in t.items ==> t.items[j].transfer != Some(transfer)
    then Update(t.(items := t.items[i := t.items[i].(transfer := Some(transfer))]), true)
    else Update(t, false)
  }

  /** Compare-and-set on the state and both attempt ids of an earlier read. */
  function Transition(t: Tables, i: nat, read: Row, to: ItemState): (u: Update)
    ensures u.tables.locks == t.locks
  {
    if i in t.items && t.items[i].state == read.state && Active(read.state)
       && t.items[i].command == read.command && t.items[i].transfer == read.transfer
       && (to == read.state || Allowed(read.state, to))
    then Update(t.(items := t.items[i := t.items[i].(state := to)]), true)
    else Update(t, false)
  }

  function InterruptRun(t: Tables, run: nat): (r: Tables) {
    t.(items := map i | i in t.items ::
      if t.items[i].run == run && Active(t.items[i].state) then t.items[i].(state := Interrupted) else t.items[i])
  }

  // ------------------------------------------------------------ what every statement keeps

  /** A download lock sits on its item's own place. */
  ghost predicate LocksMatchItems(t: Tables) {
    forall p :: p in t.locks && t.locks[p].kind.OwnerDownload? ==>
      t.locks[p].owner in t.items && t.items[t.locks[p].owner].place == p
  }

  /** A command or transfer writes for one item only. */
  ghost predicate UniqueWriters(t: Tables) {
    forall i, j :: i in t.items && j in t.items && i != j ==>
      && (t.items[i].command.Some? ==> t.items[i].command != t.items[j].command)
      && (t.items[i].transfer.Some? ==> t.items[i].transfer != t.items[j].transfer)
  }

  ghost predicate Sound(t: Tables) { LocksMatchItems(t) && UniqueWriters(t) }

  /**
   What no statement undoes: identity and bindings are fixed once written, and an item
   that left the working states never works again.
   */
  ghost predicate Later(t: Tables, t': Tables) {
    forall i :: i in t.items ==>
      && i in t'.items
      && t'.items[i].run == t.items[i].run
      && t'.items[i].place == t.items[i].place
      && t'.items[i].peer == t.items[i].peer
      && (t.items[i].command.Some? ==> t'.items[i].command == t.items[i].command)
      && (t.items[i].transfer.Some? ==> t'.items[i].transfer == t.items[i].transfer)
      && (!Working(t.items[i].state) ==> !Working(t'.items[i].state))
      && (!Active(t.items[i].state) ==> t'.items[i] == t.items[i])
  }

  datatype Statement =
    | SCreate(i: nat, row: Row)
    | SAcquire(place: Place, kind: OwnerKind, owner: nat)
    | SCancelLock(place: Place, kind: OwnerKind, owner: nat)
    | SQuiesce(place: Place, kind: OwnerKind, owner: nat, was: LockState)
    | SRelease(place: Place, kind: OwnerKind, owner: nat)
    | SUnlock(place: Place, kind: OwnerKind, owner: nat)
    | SBindCommand(i: nat, expected: ItemState, id: nat)
    | SBindTransfer(i: nat, expected: ItemState, id: nat)
    | STransition(i: nat, read: Row, to: ItemState)
    | SInterrupt(run: nat)

  function Execute(t: Tables, s: Statement): (r: Tables) {
    match s
    case SCreate(i, row) => CreateItem(t, i, row).tables
    case SAcquire(p, k, o) => AcquireLock(t, p, k, o).tables
    case SCancelLock(p, k, o) => CancelLock(t, p, k, o).tables
    case SQuiesce(p, k, o, e) => QuiesceLock(t, p, k, o, e).tables
    case SRelease(p, k, o) => ReleaseLock(t, p, k, o).tables
    case SUnlock(p, k, o) => Unlock(t, p, k, o)
    case SBindCommand(i, e, id) => BindCommand(t, i, e, id).tables
    case SBindTransfer(i, e, id) => BindTransfer(t, i, e, id).tables
    case STransition(i, read, to) => Transition(t, i, read, to).tables
    case SInterrupt(run) => InterruptRun(t, run)
  }

  function ExecuteAll(t: Tables, ss: seq<Statement>): (r: Tables)
    decreases |ss|
  {
    if ss == [] then t else ExecuteAll(Execute(t, ss[0]), ss[1..])
  }

  lemma StatementKeeps(t: Tables, s: Statement)
    requires Sound(t)
    ensures Sound(Execute(t, s)) && Later(t, Execute(t, s))
  {
    hide UniqueWriters;
    StatementUnique(t, s);
    StatementMatches(t, s);
    hide LocksMatchItems;
  }

  lemma StatementMatches(t: Tables, s: Statement)
    requires LocksMatchItems(t)
    ensures LocksMatchItems(Execute(t, s))
  {
  }

  lemma StatementUnique(t: Tables, s: Statement)
    requires UniqueWriters(t)
    ensures UniqueWriters(Execute(t, s))
  {
    hide HoldsLock, Unlock;
  }

  /** Over every sequence of statements, cancelled or finished work is never revived. */
  lemma {:induction false} HistoryKeeps(t: Tables, ss: seq<Statement>)
    requires Sound(t)
    ensures Sound(ExecuteAll(t, ss)) && Later(t, ExecuteAll(t, ss))
    decreases |ss|
  {
    if ss != [] {
      StatementKeeps(t, ss[0]);
      HistoryKeeps(Execute(t, ss[0]), ss[1..]);
    }
  }

  // ------------------------------------------------------------ the rows, in place

  class Database {
    var items: map<nat, Row>
    var locks: map<Place, Lock>

    ghost function View(): (t: Tables)
      reads this
    {
      Tables(items, locks)
    }

    ghost predicate Valid()
      reads this
    {
      Sound(View())
    }

    constructor ()
      ensures Valid() && View() == Tables(map[], map[])
    {
      items, locks := map[], map[];
    }

    method AcquireDestinationLock(place: Place, kind: OwnerKind, owner: nat) returns (ok: bool)
      requires Valid()
      modifies this
      ensures Valid() && Later(old(View()), View())
      ensures Update(View(), ok) == AcquireLock(old(View()), place, kind, owner)
      ensures ok ==> old(place !in locks) && LockedBy(View(), place, kind, owner)
      ensures ok && kind.OwnerDownload? ==> HoldsLock(View(), owner) && Working(items[owner].state)
    {
      hide Later, UniqueWriters;
      StatementKeeps(View(), SAcquire(place, kind, owner));
      ok := place !in locks && (kind.OwnerDownload? ==>
        owner in items && items[owner].place == place && Working(items[owner].state));
      if ok { locks := locks[place := Lock(kind, owner, Held)]; }
    }

    method CancelDestinationLock(place: Place, kind: OwnerKind, owner: nat) returns (changed: bool)
      requires Valid()
      modifies this
      ensures Valid() && Later(old(View()), View())
      ensures Update(View(), changed) == CancelLock(old(View()), place, kind, owner)
      ensures changed ==> LockedBy(View(), place, kind, owner)
      ensures changed && kind.OwnerDownload? ==> !HoldsLock(View(), owner)
    {
      hide Later, UniqueWriters;
      StatementKeeps(View(), SCancelLock(place, kind, owner));
      changed := place in locks && locks[place] == Lock(kind, owner, Held);
      if changed { locks := locks[place := locks[place].(state := Stopping)]; }
    }

    method QuiesceDestinationLock(place: Place, kind: OwnerKind, owner: nat, expected: LockState)
      returns (changed: bool)
      requires Valid()
      modifies this
      ensures Valid() && Later(old(View()), View())
      ensures Update(View(), changed) == QuiesceLock(old(View()), place, kind, owner, expected)
      ensures changed ==> LockedBy(View(), place, kind, owner)
      ensures changed && kind.OwnerDownload? ==> !HoldsLock(View(), owner)
    {
      hide Later, UniqueWriters;
      StatementKeeps(View(), SQuiesce(place, kind, owner, expected));
      changed := place in locks && locks[place] == Lock(kind, owner, expected) && !expected.Quiesced?;
      if changed { locks := locks[place := locks[place].(state := Quiesced)]; }
    }

    method ReleaseDestinationLock(place: Place, kind: OwnerKind, owner: nat) returns (changed: bool)
      requires Valid()
      modifies this
      ensures Valid() && Later(old(View()), View())
      ensures Update(View(), changed) == ReleaseLock(old(View()), place, kind, owner)
      ensures changed ==> old(LockedBy(View(), place, kind, owner)) && place !in locks
      ensures changed && kind.OwnerDownload? ==> !Owns(View(), owner) && !HoldsLock(View(), owner)
    {
      hide Later, UniqueWriters;
      StatementKeeps(View(), SRelease(place, kind, owner));
      changed := place in locks && locks[place] == Lock(kind, owner, Quiesced);
      if changed { locks := locks - {place}; }
    }

    /** `Service.Unlock`: the caller's lock is gone afterwards, every other row is untouched. */
    method UnlockDestination(place: Place, kind: OwnerKind, owner: nat) returns (ok: bool)
      requires Valid()
      modifies this
      ensures Valid() && Later(old(View()), View())
      ensures View() == Unlock(old(View()), place, kind, owner)
      ensures items == old(items)
      ensures ok <==> old(place !in locks || (locks[place].kind == kind && locks[place].owner == owner))
      ensures locks == if ok then old(locks) - {place} else old(locks)
    {
      hide Later, UniqueWriters;
      StatementKeeps(View(), SUnlock(place, kind, owner));
      if place !in locks { return true; }
      var lock := locks[place];
      if lock.kind != kind || lock.owner != owner { return false; }
      if lock.state != Quiesced {
        var _ := QuiesceDestinationLock(place, kind, owner, lock.state);
      }
      var _ := ReleaseDestinationLock(place, kind, owner);
      return true;
    }

    method BindDownloadItemCommand(i: nat, expected: ItemState, command: nat) returns (n: nat)
      requires Valid()
      modifies this
      ensures Valid() && Later(old(View()), View())
      ensures Update(View(), n == 1) == BindCommand(old(View()), i, expected, command)
      ensures n == 1 ==> Owns(View(), i) && forall j :: j in items && items[j].command == Some(command) <==> j == i
    {
      hide Later, UniqueWriters;
      StatementKeeps(View(), SBindCommand(i, expected, command));
      n := 0;
      if i in items && items[i].state == expected && Working(expected) && items[i].command == None
         && (exists p | p in locks :: locks[p] == Lock(OwnerDownload, i, Held))
         && (forall j | j in items :: items[j].command != Some(command))
      {
        items := items[i := items[i].(command := Some(command))];
        n := 1;
      }
    }

    method BindDownloadItemTransfer(i: nat, expected: ItemState, transfer: nat) returns (n: nat)
      requires Valid()
      modifies this
      ensures Valid() && Later(old(View()), View())
      ensures Update(View(), n == 1) == BindTransfer(old(View()), i, expected, transfer)
      ensures n == 1 ==> Owns(View(), i) && forall j :: j in items && items[j].transfer == Some(transfer) <==> j == i
    {
      hide Later, UniqueWriters;
      StatementKeeps(View(), SBindTransfer(i, expected, transfer));
      n := 0;
      if i in items && items[i].state == expected && Working(expected) && items[i].transfer == None
         && (exists p | p in locks :: locks[p] == Lock(OwnerDownload, i, Held))
         && (forall j | j in items :: items[j].transfer != Some(transfer))
      {
        items := items[i := items[i].(transfer := Some(transfer))];
        n := 1;
      }
    }

    method TransitionDownloadItem(i: nat, read: Row, to: ItemState) returns (n: nat)
      requires Valid()
      modifies this
      ensures Valid() && Later(old(View()), View())
      ensures Update(View(), n == 1) == Transition(old(View()), i, read, to)
      ensures n == 1 ==> old(i in items && items[i].state == read.state) && items[i].state == to
    {
      hide Later, UniqueWriters, LocksMatchItems;
      StatementKeeps(View(), STransition(i, read, to));
      n := 0;
      if i in items && items[i].state == read.state && Active(read.state)
         && items[i].command == read.command && items[i].transfer == read.transfer
         && (to == read.state || Allowed(read.state, to))
      {
        items := items[i := items[i].(state := to)];
        n := 1;
      }
    }

    method InterruptDownloadItemsForRun(run: nat)
      requires Valid()
      modifies this
      ensures Valid() && Later(old(View()), View())
      ensures View() == InterruptRun(old(View()), run)
      ensures forall i :: i in items ==>
        if items[i].run == run then !Active(items[i].state) else old(i in items) && items[i] == old(items)[i]
    {
      hide Later, UniqueWriters, LocksMatchItems;
      StatementKeeps(View(), SInterrupt(run));
      items := map i | i in items ::
        if items[i].run == run && Active(items[i].state) then items[i].(state := Interrupted) else items[i];
    }
  }
}
