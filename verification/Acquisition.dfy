/**
 Acquisition attempts of one device agent: durable records, crash and restart,
 redelivery and cancellation.

 `Store` is what a process has in memory and on disk; the functions on it are the
 agent's operations, and `Agent` is the same operations on fields changed in place.
 */
module Acquisition {
  import opened Paths

  datatype State = Active | Succeeded | Failed | Interrupted

  datatype Record = Record(identity: string, destination: string, binding: string,
                           state: State, error: string, output: string)

  /** An attempt in memory; `running` is false for one read back from disk. */
  datatype Attempt = Attempt(saved: Record, running: bool, cancelled: bool, done: bool)

  datatype Disk = Readable(record: Record) | Corrupt

  datatype Store = Store(memory: map<string, Attempt>, disk: map<string, Disk>)

  datatype Request = Request(id: string, identity: string, destination: string, binding: string)

  datatype Reason = IdInvalid | ContextEnded | CheckpointInvalid | Conflict | Busy | SaveFailed | UnknownTarget

  datatype Loaded = LoadError | Missing | Found(attempt: Attempt)

  datatype Outcome = Refused(reason: Reason) | Replay(attempt: Attempt) | Fresh

  const INTERRUPTED := "download.interrupted: explicit Resume required"
  const WRITE_FAILED := "download.checkpoint_write_failed"

  /** A stored record as a restarted process sees it: nothing of it is running. */
  function Revive(r: Record): (a: Attempt) {
    Attempt(if r.state.Active? then r.(state := Interrupted, error := INTERRUPTED) else r, false, false, true)
  }

  function Load(s: Store, id: string): (r: (Store, Loaded)) {
    if id in s.memory then (s, Found(s.memory[id]))
    else if id !in s.disk then (s, Missing)
    else match s.disk[id]
      case Corrupt => (s, LoadError)
      case Readable(record) =>
        (s.(memory := s.memory[id := Revive(record)]), Found(Revive(record)))
  }

  predicate Overlap(a: string, b: string) { PathWithin(a, b) || PathWithin(b, a) }

  predicate Busy(s: Store, destination: string) {
    exists id :: id in s.memory && s.memory[id].saved.state.Active? && Overlap(destination, s.memory[id].saved.destination)
  }

  function NewAttempt(q: Request): (a: Attempt) {
    Attempt(Record(q.identity, q.destination, q.binding, Active, "", ""), true, false, false)
  }

  /** `beginAcquisition`; `ended` is the caller's context, `saves` whether the record reaches disk. */
  function Begin(s: Store, q: Request, ended: bool, saves: bool): (r: (Store, Outcome)) {
    if q.id == "" || |q.id| > 256 then (s, Refused(IdInvalid))
    else if ended then (s, Refused(ContextEnded))
    else
      var (t, loaded) := Load(s, q.id);
      match loaded
      case LoadError => (t, Refused(CheckpointInvalid))
      case Found(a) =>
        if a.saved.identity != q.identity || a.saved.destination != q.destination || a.saved.binding != q.binding
        then (t, Refused(Conflict)) else (t, Replay(a))
      case Missing =>
        if Busy(t, q.destination) then (t, Refused(Reason.Busy))
        else if !saves then (t, Refused(SaveFailed))
        else
          var a := NewAttempt(q);
          (Store(t.memory[q.id := a], t.disk[q.id := Readable(a.saved)]), Fresh)
  }

  /** `finishAcquisition`: only an active attempt can finish, and only once. */
  function Finish(s: Store, id: string, output: string, error: string, saves: bool): (r: Store) {
    if id !in s.memory || !s.memory[id].saved.state.Active? then s
    else
      var a := s.memory[id];
      var verdict := a.saved.(state := if error == "" then Succeeded else Failed, error := error, output := output);
      var kept := if saves then verdict else verdict.(state := Failed, error := WRITE_FAILED);
      Store(s.memory[id := a.(saved := kept, cancelled := true, done := true)],
            if saves then s.disk[id := Readable(verdict)] else s.disk)
  }

  /** The locked half of `cancelAcquisition`; the caller then waits for `done`. */
  function RequestCancel(s: Store, id: string): (r: (Store, Outcome)) {
    var (t, loaded) := Load(s, id);
    match loaded
    case LoadError => (t, Refused(CheckpointInvalid))
    case Missing => (t, Refused(UnknownTarget))
    case Found(a) =>
      if a.running then (t.(memory := t.memory[id := a.(cancelled := true)]), Replay(a.(cancelled := true)))
      else (t, Replay(a))
  }

  function Crash(s: Store): (r: Store) { s.(memory := map[]) }

  // ------------------------------------------------------------ the agent's fields

  class Agent {
    var memory: map<string, Attempt>
    var disk: map<string, Disk>
    ghost var world: World

    ghost function View(): (s: Store)
      reads this
    {
      Store(memory, disk)
    }

    /** The device around these fields: live workers, starts and acknowledgements. */
    ghost predicate Valid()
      reads this
    {
      Inv(world) && world.store == View()
    }

    constructor (disk: map<string, Disk>)
      ensures Valid() && world == FirstBoot(disk)
    {
      this.memory := map[];
      this.disk := disk;
      this.world := FirstBoot(disk);
    }

    /** An attempt that is found still active has a worker; one read back from disk is not. */
    method LoadAcquisition(id: string) returns (r: Loaded)
      requires Valid()
      modifies this
      ensures Valid() && world == old(world).(store := View())
      ensures (View(), r) == Load(old(View()), id)
      ensures r.Found? ==> (r.attempt.saved.state.Active? <==> id in world.workers) && (r.attempt.done <==> id !in world.workers)
    {
      LoadKeepsInv(world, id);
      hide Inv;
      world := world.(store := Load(world.store, id).0);
      if id in world.store.memory { LoadFinds(world, id); }
      if id in memory { return Found(memory[id]); }
      if id !in disk { return Missing; }
      match disk[id]
      case Corrupt => return LoadError;
      case Readable(record) =>
        memory := memory[id := Revive(record)];
        return Found(Revive(record));
    }

    method BeginAcquisition(q: Request, ended: bool, saves: bool) returns (r: Outcome)
      requires Valid()
      modifies this
      ensures Valid() && world == Next(old(world), Deliver(q, ended, saves))
      ensures (View(), r) == Begin(old(View()), q, ended, saves)
      ensures r.Fresh? <==> |world.starts| > |old(world).starts|
      ensures r.Fresh? ==> q.id in world.workers && q.id !in old(world).starts
      ensures r.Fresh? ==> forall id :: id in world.workers && id != q.id ==> !Overlap(q.destination, memory[id].saved.destination)
    {
      BeginStarts(world, q, ended, saves);
      ghost var next := Next(world, Deliver(q, ended, saves));
      hide Inv, Next, Begin;
      r := BeginStored(q, ended, saves);
      world := next;
    }

    /** The same, on the fields alone. */
    method BeginStored(q: Request, ended: bool, saves: bool) returns (r: Outcome)
      requires Valid()
      modifies this
      ensures (View(), r) == Begin(old(View()), q, ended, saves)
    {
      if q.id == "" || |q.id| > 256 { return Refused(IdInvalid); }
      if ended { return Refused(ContextEnded); }
      var loaded := LoadAcquisition(q.id);
      match loaded
      case LoadError => return Refused(CheckpointInvalid);
      case Found(a) =>
        if a.saved.identity != q.identity || a.saved.destination != q.destination || a.saved.binding != q.binding {
          return Refused(Conflict);
        }
        return Replay(a);
      case Missing =>
        var rest := memory.Keys;
        while rest != {}
          invariant rest <= memory.Keys
          invariant forall id :: id in memory && id !in rest ==>
            !(memory[id].saved.state.Active? && Overlap(q.destination, memory[id].saved.destination))
          decreases |rest|
        {
          var id :| id in rest;
          if memory[id].saved.state.Active? && Overlap(q.destination, memory[id].saved.destination) {
            return Refused(Reason.Busy);
          }
          rest := rest - {id};
        }
        var a := NewAttempt(q);
        if !saves { return Refused(SaveFailed); }
        disk := disk[q.id := Readable(a.saved)];
        memory := memory[q.id := a];
        return Fresh;
    }

    method FinishAcquisition(id: string, output: string, error: string, saves: bool)
      requires Valid() && id in world.workers
      modifies this
      ensures Valid() && world == Next(old(world), Complete(id, output, error, saves))
      ensures View() == Finish(old(View()), id, output, error, saves)
      ensures id !in world.workers && id in memory && memory[id].done
      ensures memory[id].saved.state == Succeeded <==> error == "" && saves
    {
      NextKeepsInv(world, Complete(id, output, error, saves));
      assert AttemptInv(world, id);
      hide Inv, AttemptInv;
      world := Next(world, Complete(id, output, error, saves));
      if id !in memory || memory[id].saved.state != Active { return; }
      var a := memory[id];
      var r := a.saved.(state := Succeeded, error := "");
      if error != "" { r := r.(state := Failed, error := error); }
      r := r.(output := output);
      if saves { disk := disk[id := Readable(r)]; }
      else { r := r.(state := Failed, error := WRITE_FAILED); }
      memory := memory[id := a.(saved := r, cancelled := true, done := true)];
    }

    method CancelAcquisition(id: string) returns (r: Outcome)
      requires Valid()
      modifies this
      ensures Valid() && world == Next(old(world), AskCancel(id))
      ensures (View(), r) == RequestCancel(old(View()), id)
      ensures r.Refused? ==> id !in world.workers
      ensures id in world.workers ==> r.Replay? && !r.attempt.done
    {
      NextKeepsInv(world, AskCancel(id));
      CancelFinds(world, id);
      ghost var next := Next(world, AskCancel(id));
      hide Inv;
      r := CancelStored(id);
      world := next;
    }

    method CancelStored(id: string) returns (r: Outcome)
      requires Valid()
      modifies this
      ensures (View(), r) == RequestCancel(old(View()), id)
    {
      var loaded := LoadAcquisition(id);
      match loaded
      case LoadError => return Refused(CheckpointInvalid);
      case Missing => return Refused(UnknownTarget);
      case Found(a) =>
        if a.running {
          memory := memory[id := a.(cancelled := true)];
          return Replay(memory[id]);
        }
        return Replay(a);
    }
  }

  // ------------------------------------------------------------ runs of one device

  /** A device over several agent processes: workers die with their process, the disk stays. */
  datatype World = World(store: Store, workers: set<string>, starts: seq<string>, acknowledged: set<string>)

  datatype Event =
    | Deliver(q: Request, ended: bool, saves: bool)
    | Complete(id: string, output: string, error: string, saves: bool)
    | AskCancel(id: string)
    | AcknowledgeCancel(id: string)
    | Restart

  function Next(w: World, e: Event): (r: World) {
    match e
    case Deliver(q, ended, saves) =>
      var (s, outcome) := Begin(w.store, q, ended, saves);
      if outcome.Fresh? then World(s, w.workers + {q.id}, w.starts + [q.id], w.acknowledged)
      else w.(store := s)
    case Complete(id, output, error, saves) =>
      if id in w.workers
      then w.(store := Finish(w.store, id, output, error, saves), workers := w.workers - {id})
      else w
    case AskCancel(id) => w.(store := RequestCancel(w.store, id).0)
    case AcknowledgeCancel(id) =>
      // the reply waits on the attempt's done channel
      if id in w.store.memory && w.store.memory[id].done then w.(acknowledged := w.acknowledged + {id}) else w
    case Restart => w.(store := Crash(w.store), workers := {})
  }

  function After(w: World, events: seq<Event>): (r: World)
    decreases |events|
  {
    if events == [] then w else After(Next(w, events[0]), events[1..])
  }

  function FirstBoot(disk: map<string, Disk>): (w: World) {
    World(Store(map[], disk), {}, [], {})
  }

  predicate SamePin(a: Record, b: Record) {
    a.identity == b.identity && a.destination == b.destination && a.binding == b.binding
  }

  /** `done` is closed exactly when the attempt is no longer active, and then it has no worker. */
  ghost predicate AttemptInv(w: World, id: string)
    requires id in w.store.memory
  {
    var a := w.store.memory[id];
    && (a.done <==> !a.saved.state.Active?)
    && (id in w.workers <==> a.saved.state.Active?)
    && id in w.store.disk && w.store.disk[id].Readable? && SamePin(w.store.disk[id].record, a.saved)
    && (a.saved.state.Active? ==> w.store.disk[id].record == a.saved)
    && (id in w.acknowledged ==> a.done)
  }

  ghost predicate Inv(w: World) {
    && (forall id :: id in w.store.memory ==> AttemptInv(w, id))
    && w.workers <= w.store.memory.Keys
    && (forall id :: id in w.acknowledged ==> id in w.store.disk)
    && (forall k :: 0 <= k < |w.starts| ==> w.starts[k] in w.store.disk)
    && (forall j, k :: 0 <= j < k < |w.starts| ==> w.starts[j] != w.starts[k])
    && (forall a, b :: a in w.workers && b in w.workers && a != b ==>
         !Overlap(w.store.memory[a].saved.destination, w.store.memory[b].saved.destination))
  }

  lemma LoadKeepsInv(w: World, id: string)
    requires Inv(w)
    ensures Inv(w.(store := Load(w.store, id).0))
  {
    hide Overlap;
  }

  lemma LoadFinds(w: World, id: string)
    requires Inv(w) && id in w.store.memory
    ensures var a := w.store.memory[id]; (a.saved.state.Active? <==> id in w.workers) && (a.done <==> id !in w.workers)
  {
    assert AttemptInv(w, id);
  }

  lemma CancelFinds(w: World, id: string)
    requires Inv(w)
    ensures var (s, r) := RequestCancel(w.store, id); id in w.workers ==> r.Replay? && !r.attempt.done
  {
    if id in w.workers { assert AttemptInv(w, id); }
  }

  lemma BeginStarts(w: World, q: Request, ended: bool, saves: bool)
    requires Inv(w)
    ensures var n := Next(w, Deliver(q, ended, saves));
      var outcome := Begin(w.store, q, ended, saves).1;
      && Inv(n)
      && (outcome.Fresh? <==> |n.starts| > |w.starts|)
      && (outcome.Fresh? ==> q.id in n.workers && q.id !in w.starts)
      && (outcome.Fresh? ==> forall id :: id in n.workers && id != q.id ==>
            id in n.store.memory && !Overlap(q.destination, n.store.memory[id].saved.destination))
  {
    NextKeepsInv(w, Deliver(q, ended, saves));
    hide Overlap, AttemptInv;
  }

  lemma OverlapSymmetric(a: string, b: string)
    ensures Overlap(a, b) <==> Overlap(b, a)
  {
  }

  lemma StartKeepsInv(w: World, q: Request)
    requires Inv(w) && q.id !in w.store.disk && !Busy(w.store, q.destination)
    ensures var a := NewAttempt(q);
      Inv(World(Store(w.store.memory[q.id := a], w.store.disk[q.id := Readable(a.saved)]),
                w.workers + {q.id}, w.starts + [q.id], w.acknowledged))
  {
    hide Overlap;
    forall id | id in w.workers
      ensures !Overlap(q.destination, w.store.memory[id].saved.destination)
           && !Overlap(w.store.memory[id].saved.destination, q.destination)
    {
      assert AttemptInv(w, id);
      OverlapSymmetric(q.destination, w.store.memory[id].saved.destination);
    }
  }

  lemma NextKeepsInv(w: World, e: Event)
    requires Inv(w)
    ensures Inv(Next(w, e))
  {
    hide Overlap, Busy;
    match e
    case Deliver(q, ended, saves) =>
      LoadKeepsInv(w, q.id);
      var (s, outcome) := Begin(w.store, q, ended, saves);
      if outcome.Fresh? { StartKeepsInv(w, q); }
    case Complete(id, output, error, saves) =>
      if id in w.workers { assert AttemptInv(w, id); }
    case AskCancel(id) => LoadKeepsInv(w, id);
    case _ =>
  }

  /** What one event cannot change about a command id already on disk. */
  ghost predicate Continues(w: World, w': World, id: string) {
    && w.starts <= w'.starts
    && (id in w.store.disk ==>
         && id in w'.store.disk
         && (w.store.disk[id].Corrupt? ==> w'.store.disk[id].Corrupt?)
         && (w.store.disk[id].Readable? ==>
              w'.store.disk[id].Readable? && SamePin(w.store.disk[id].record, w'.store.disk[id].record))
         && (forall k :: |w.starts| <= k < |w'.starts| ==> w'.starts[k] != id))
    && (id in w.acknowledged ==> id in w'.acknowledged)
  }

  lemma NextContinues(w: World, e: Event, id: string)
    requires Inv(w)
    ensures Continues(w, Next(w, e), id)
  {
    hide Overlap;
    match e
    case Complete(j, output, error, saves) =>
      if j in w.workers { assert AttemptInv(w, j); }
    case _ =>
  }

  lemma {:induction false} AfterKeeps(w: World, events: seq<Event>, id: string)
    requires Inv(w)
    ensures Inv(After(w, events)) && Continues(w, After(w, events), id)
    decreases |events|
  {
    hide Next;
    if events != [] {
      var v := Next(w, events[0]);
      NextKeepsInv(w, events[0]);
      NextContinues(w, events[0], id);
      AfterKeeps(v, events[1..], id);
    }
  }

  /** Over every run, crashes included, a command id starts work at most once. */
  lemma StartsOnce(disk: map<string, Disk>, events: seq<Event>)
    ensures var w := After(FirstBoot(disk), events);
      forall j, k :: 0 <= j < k < |w.starts| ==> w.starts[j] != w.starts[k]
  {
    AfterKeeps(FirstBoot(disk), events, "");
  }

  /** Once its cancel is acknowledged, no redelivery or restart starts or continues a command. */
  lemma CancelIsFinal(disk: map<string, Disk>, before: seq<Event>, after: seq<Event>, id: string)
    requires id in After(FirstBoot(disk), before).acknowledged
    ensures var w := After(FirstBoot(disk), before); var w' := After(w, after);
      && id !in w.workers && id !in w'.workers
      && w.starts <= w'.starts && forall k :: |w.starts| <= k < |w'.starts| ==> w'.starts[k] != id
  {
    hide Next, Overlap;
    var w := After(FirstBoot(disk), before);
    AfterKeeps(FirstBoot(disk), before, id);
    AfterKeeps(w, after, id);
  }

  /** A command id keeps its identity, destination and binding for good. */
  lemma PinsNeverChange(disk: map<string, Disk>, before: seq<Event>, after: seq<Event>, id: string)
    requires var w := After(FirstBoot(disk), before); id in w.store.disk && w.store.disk[id].Readable?
    ensures var w := After(FirstBoot(disk), before); var w' := After(w, after);
      && id in w'.store.disk && w'.store.disk[id].Readable?
      && SamePin(w.store.disk[id].record, w'.store.disk[id].record)
  {
    hide Next, Overlap;
    AfterKeeps(FirstBoot(disk), before, id);
    AfterKeeps(After(FirstBoot(disk), before), after, id);
  }

  /** No file lies under the destinations of two running workers. */
  lemma WorkersWriteApart(disk: map<string, Disk>, events: seq<Event>, a: string, b: string, file: string)
    requires var w := After(FirstBoot(disk), events); a in w.workers && b in w.workers && a != b
    ensures var w := After(FirstBoot(disk), events);
      && a in w.store.memory && b in w.store.memory
      && !(PathWithin(file, w.store.memory[a].saved.destination) && PathWithin(file, w.store.memory[b].saved.destination))
  {
    hide Next;
    AfterKeeps(FirstBoot(disk), events, "");
    var m := After(FirstBoot(disk), events).store.memory;
    if PathWithin(file, m[a].saved.destination) && PathWithin(file, m[b].saved.destination) {
      SharedFileNests(file, m[a].saved.destination, m[b].saved.destination);
    }
  }

  /**
   The destination test misses one nesting: a worker on the root directory. Destinations that
   are not the root make it exact.
   */
  lemma OverlapIsNesting(a: Components, b: Components)
    requires WellFormed(a) && WellFormed(b)
    ensures Overlap(Text(a), Text(b)) <==> (Nested(a, b) && (a == [] <==> b == []))
  {
    WithinIsPrefix(a, b);
    WithinIsPrefix(b, a);
  }

  // ------------------------------------------------------------ redeliveries

  function Verdict(r: Record, output: string, error: string): (v: Record) {
    r.(state := if error == "" then Succeeded else Failed, error := error, output := output)
  }

  /** What a redelivery is answered with, once the attempt has finished. */
  function Answer(r: Record, output: string, error: string, saves: bool, restarted: bool): (v: Record) {
    if saves then Verdict(r, output, error)
    else if !restarted then Verdict(r, output, error).(state := Failed, error := WRITE_FAILED)
    else r.(state := Interrupted, error := INTERRUPTED)
  }

  /** The record on disk is `kept`, and whatever is in memory of the attempt gives `answer`. */
  ghost predicate Settled(w: World, id: string, kept: Record, answer: Record) {
    && id in w.store.disk && w.store.disk[id] == Readable(kept) && id !in w.workers
    && (id in w.store.memory ==> w.store.memory[id].saved == answer && w.store.memory[id].done)
    && (id !in w.store.memory ==> Revive(kept).saved == answer)
    && !answer.state.Active?
  }

  lemma NextSettled(w: World, e: Event, id: string, kept: Record, answer: Record)
    requires Settled(w, id, kept, answer)
    ensures Settled(Next(w, e), id, kept, if e.Restart? then Revive(kept).saved else answer)
  {
    hide Overlap, Busy;
  }

  lemma {:induction false} AfterSettled(w: World, events: seq<Event>, id: string, kept: Record, answer: Record)
    requires Settled(w, id, kept, answer)
    ensures Settled(After(w, events), id, kept, if Restart in events then Revive(kept).saved else answer)
    decreases |events|
  {
    if events != [] {
      var e, rest := events[0], events[1..];
      assert events == [e] + rest;
      NextSettled(w, e, id, kept, answer);
      hide Next, Settled, Revive;
      AfterSettled(Next(w, e), rest, id, kept, if e.Restart? then Revive(kept).saved else answer);
    }
  }

  lemma FinishSettles(w: World, id: string, output: string, error: string, saves: bool)
    requires Inv(w) && id in w.workers
    ensures var r := w.store.memory[id].saved;
      var kept := if saves then Verdict(r, output, error) else r;
      && r.state.Active?
      && Settled(Next(w, Complete(id, output, error, saves)), id, kept, Answer(r, output, error, saves, false))
  {
    assert AttemptInv(w, id);
    hide Overlap;
  }

  /**
   Whatever happens after an attempt has finished, every redelivery is answered and starts nothing: with the
   first verdict if its record was saved; with the failed write until a restart, and as interrupted after
   one, if it was not.
   */
  lemma RedeliveryGivesVerdict(disk: map<string, Disk>, before: seq<Event>, id: string, output: string, error: string, saves: bool,
                               after: seq<Event>, q: Request, again: bool)
    requires id in After(FirstBoot(disk), before).workers && id in After(FirstBoot(disk), before).store.memory
    requires q.id == id && id != "" && |id| <= 256
    requires SamePin(After(FirstBoot(disk), before).store.memory[id].saved, NewAttempt(q).saved)
    ensures var w := After(FirstBoot(disk), before);
      var reply := Begin(After(Next(w, Complete(id, output, error, saves)), after).store, q, false, again).1;
      && reply.Replay? && reply.attempt.done
      && reply.attempt.saved == Answer(w.store.memory[id].saved, output, error, saves, Restart in after)
  {
    var w := After(FirstBoot(disk), before);
    AfterKeeps(FirstBoot(disk), before, id);
    FinishSettles(w, id, output, error, saves);
    var r := w.store.memory[id].saved;
    var kept := if saves then Verdict(r, output, error) else r;
    hide Next, After, Inv;
    AfterSettled(Next(w, Complete(id, output, error, saves)), after, id, kept, Answer(r, output, error, saves, false));
  }
}
