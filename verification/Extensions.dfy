/**
 Extension runs of an agent and the stop barrier: a stop closes its key for good and returns
 success only when nothing runs under it.
 */
module Extensions {
  import opened Prelude

  type Key = string

  datatype Turn = Refused | Busy(run: nat) | Registered(run: nat)

  function TurnFor(runs: map<Key, nat>, stopped: set<Key>, key: Key, fresh_: nat): (r: Turn) {
    if key in stopped then Refused else if key in runs then Busy(runs[key]) else Registered(fresh_)
  }

  // ------------------------------------------------------------ all handlers together

  datatype Pc =
    | Trying
    | WaitingFor(run: nat)
    | Working(run: nat)
    | Stopping
    | StopWaits(active: Option<nat>)
    | StopDone
    | Ended

  datatype Handler = Handler(key: Key, pc: Pc)

  /** `closed` are the runs whose `done` channel has been closed. */
  datatype World = World(runs: map<Key, nat>, stopped: set<Key>, closed: set<nat>, used: set<nat>, handlers: map<nat, Handler>)

  const IDLE := World(map[], {}, {}, {}, map[])

  datatype Step =
    | Arrive(t: nat, key: Key, stop: bool)
    | Try(t: nat, fresh_: nat)
    | Wake(t: nat)
    | Finish(t: nat)
    | BeginStop(t: nat)
    | EndStop(t: nat)
    | GiveUp(t: nat)

  predicate At(w: World, t: nat) { t in w.handlers }

  predicate Enabled(w: World, s: Step) {
    match s
    case Arrive(t, _, _) => t !in w.handlers
    case Try(t, fresh_) => At(w, t) && w.handlers[t].pc.Trying? && fresh_ !in w.used
    case Wake(t) => At(w, t) && w.handlers[t].pc.WaitingFor? && w.handlers[t].pc.run in w.closed
    case Finish(t) => At(w, t) && w.handlers[t].pc.Working?
    case BeginStop(t) => At(w, t) && w.handlers[t].pc.Stopping?
    case EndStop(t) => At(w, t) && w.handlers[t].pc.StopWaits?
                       && (w.handlers[t].pc.active.None? || w.handlers[t].pc.active.value in w.closed)
    case GiveUp(t) => At(w, t) && (w.handlers[t].pc.WaitingFor? || w.handlers[t].pc.StopWaits?)
  }

  function Move(w: World, t: nat, pc: Pc): (r: World)
    requires At(w, t)
  {
    w.(handlers := w.handlers[t := w.handlers[t].(pc := pc)])
  }

  function Apply(w: World, s: Step): (r: World)
    requires Enabled(w, s)
  {
    match s
    case Arrive(t, key, stop) => w.(handlers := w.handlers[t := Handler(key, if stop then Stopping else Trying)])
    case Try(t, fresh_) =>
      var key := w.handlers[t].key;
      (match TurnFor(w.runs, w.stopped, key, fresh_)
       case Refused => Move(w, t, Ended)
       case Busy(run) => Move(w, t, WaitingFor(run))
       case Registered(run) => Move(w, t, Working(run)).(runs := w.runs[key := run], used := w.used + {run}))
    case Wake(t) => Move(w, t, Trying)
    case Finish(t) =>
      var key, run := w.handlers[t].key, w.handlers[t].pc.run;
      Move(w, t, Ended).(runs := if key in w.runs && w.runs[key] == run then w.runs - {key} else w.runs, closed := w.closed + {run})
    case BeginStop(t) =>
      var key := w.handlers[t].key;
      Move(w, t, StopWaits(if key in w.runs then Some(w.runs[key]) else None)).(stopped := w.stopped + {key})
    case EndStop(t) => Move(w, t, StopDone)
    case GiveUp(t) => Move(w, t, Ended)
  }

  ghost predicate Runs(w: World, steps: seq<Step>, last: World)
    decreases |steps|
  {
    if steps == [] then last == w else Enabled(w, steps[0]) && Runs(Apply(w, steps[0]), steps[1..], last)
  }

  predicate Works(w: World, t: nat) { t in w.handlers && w.handlers[t].pc.Working? }

  /** A working handler is the registered one of its key, and its run is not closed. */
  ghost predicate WorkersRegistered(w: World) {
    && (forall t :: Works(w, t) ==>
          && w.handlers[t].key in w.runs && w.runs[w.handlers[t].key] == w.handlers[t].pc.run
          && w.handlers[t].pc.run !in w.closed && w.handlers[t].pc.run in w.used)
    && (forall t, u :: Works(w, t) && Works(w, u) && t != u ==> w.handlers[t].pc.run != w.handlers[u].pc.run)
    && (forall k :: k in w.runs ==> w.runs[k] in w.used && w.runs[k] !in w.closed)
    && (forall k, l :: k in w.runs && l in w.runs && w.runs[k] == w.runs[l] ==> k == l)
    && w.closed <= w.used
  }

  /** A stop waits for the only run its key can still have; past the wait the key has none. */
  ghost predicate StopsBar(w: World) {
    forall t :: t in w.handlers && (w.handlers[t].pc.StopWaits? || w.handlers[t].pc.StopDone?) ==>
      && w.handlers[t].key in w.stopped
      && (w.handlers[t].key in w.runs ==> w.handlers[t].pc.StopWaits? && w.handlers[t].pc.active == Some(w.runs[w.handlers[t].key]))
  }

  ghost predicate Inv(w: World) { WorkersRegistered(w) && StopsBar(w) }

  /** Only handler `s.t` moved. */
  lemma OthersStay(w: World, s: Step)
    requires Enabled(w, s)
    ensures var r := Apply(w, s);
      && s.t in r.handlers
      && (forall t :: t in w.handlers && t != s.t ==> t in r.handlers && r.handlers[t] == w.handlers[t])
      && (forall t :: t in r.handlers && t != s.t ==> t in w.handlers)
  {
  }

  lemma TryKeeps(w: World, s: Step)
    requires Inv(w) && Enabled(w, s) && s.Try?
    ensures Inv(Apply(w, s))
  {
    OthersStay(w, s);
    var r := Apply(w, s);
    assert forall t :: t != s.t ==> (Works(r, t) <==> Works(w, t));
    assert forall k :: k in w.runs ==> k in r.runs && r.runs[k] == w.runs[k];
  }

  lemma FinishKeeps(w: World, s: Step)
    requires Inv(w) && Enabled(w, s) && s.Finish?
    ensures Inv(Apply(w, s))
  {
    OthersStay(w, s);
    var r := Apply(w, s);
    assert Works(w, s.t) && !Works(r, s.t);
    assert forall t :: t != s.t ==> (Works(r, t) <==> Works(w, t));
    assert r.runs == w.runs - {w.handlers[s.t].key};
  }

  lemma StopKeeps(w: World, s: Step)
    requires Inv(w) && Enabled(w, s) && !s.Try? && !s.Finish?
    ensures Inv(Apply(w, s))
  {
    OthersStay(w, s);
    var r := Apply(w, s);
    assert r.runs == w.runs && r.closed == w.closed && r.used == w.used;
    assert forall t :: Works(r, t) <==> t != s.t && Works(w, t);
  }

  lemma {:induction false} RunsKeepInv(w: World, steps: seq<Step>, last: World)
    requires Inv(w) && Runs(w, steps, last)
    ensures Inv(last) && w.stopped <= last.stopped
    ensures forall t :: t in w.handlers && w.handlers[t].pc.StopDone? ==> t in last.handlers && last.handlers[t] == w.handlers[t]
    decreases |steps|
  {
    if steps != [] {
      var s := steps[0];
      OthersStay(w, s);
      if s.Try? { TryKeeps(w, s); } else if s.Finish? { FinishKeeps(w, s); } else { StopKeeps(w, s); }
      hide Inv;
      RunsKeepInv(Apply(w, steps[0]), steps[1..], last);
    }
  }

  // ------------------------------------------------------------ the registry, in place

  /** `extensionRuns` and `extensionStopped`, under the agent's mutex; `world` has the handlers around them. */
  class Registry {
    var runs: map<Key, nat>
    var stopped: set<Key>
    ghost var world: World

    ghost predicate Valid()
      reads this
    {
      Inv(world) && world.runs == runs && world.stopped == stopped
    }

    constructor ()
      ensures Valid() && world == IDLE
    {
      runs, stopped, world := map[], {}, IDLE;
    }

    /** Handler `t` closes the key and learns the run to wait for; without one nothing runs under the key any more. */
    method Stop(key: Key, ghost t: nat) returns (active: Option<nat>)
      requires Valid() && Enabled(world, BeginStop(t)) && world.handlers[t].key == key
      modifies this
      ensures Valid() && world == Apply(old(world), BeginStop(t))
      ensures world.handlers[t].pc == StopWaits(active) && Closing(world, key, active)
    {
      StopKeeps(world, BeginStop(t));
      world := Apply(world, BeginStop(t));
      stopped := stopped + {key};
      active := if key in runs then Some(runs[key]) else None;
    }

    /** One turn of the registration loop. */
    method TryRegister(key: Key, fresh_: nat, ghost t: nat) returns (turn: Turn)
      requires Valid() && Enabled(world, Try(t, fresh_)) && world.handlers[t].key == key
      modifies this
      ensures Valid() && world == Apply(old(world), Try(t, fresh_))
      ensures turn.Refused? <==> key in stopped
      ensures turn.Registered? <==> Works(world, t)
      ensures Works(world, t) ==> forall u :: Works(world, u) && world.handlers[u].key == key ==> u == t
    {
      TryKeeps(world, Try(t, fresh_));
      world := Apply(world, Try(t, fresh_));
      if key in stopped { return Refused; }
      if key in runs { return Busy(runs[key]); }
      runs := runs[key := fresh_];
      return Registered(fresh_);
    }

    /** The run ends and releases whoever waits for it. */
    method End(key: Key, run: nat, ghost t: nat)
      requires Valid() && Enabled(world, Finish(t)) && world.handlers[t] == Handler(key, Working(run))
      modifies this
      ensures Valid() && world == Apply(old(world), Finish(t))
      ensures key !in runs
      ensures forall u :: u in world.handlers && world.handlers[u].pc == StopWaits(Some(run)) ==> Enabled(world, EndStop(u))
    {
      FinishKeeps(world, Finish(t));
      world := Apply(world, Finish(t));
      if key in runs && runs[key] == run { runs := runs - {key}; }
    }
  }

  /** The key admits no new run, and no handler works under it but with the run waited for. */
  ghost predicate Closing(w: World, key: Key, active: Option<nat>) {
    key in w.stopped && forall u :: Works(w, u) && w.handlers[u].key == key ==> active == Some(w.handlers[u].pc.run)
  }

  /** At most one extension of a key runs at any time. */
  lemma OneRunPerKey(steps: seq<Step>, last: World, t: nat, u: nat)
    requires Runs(IDLE, steps, last) && Works(last, t) && Works(last, u) && last.handlers[t].key == last.handlers[u].key
    ensures t == u
  {
    RunsKeepInv(IDLE, steps, last);
  }

  /** Once a stop has succeeded, nothing runs under its key, then or ever after. */
  lemma StopIsABarrier(before: seq<Step>, w: World, after: seq<Step>, last: World, t: nat, u: nat)
    requires Runs(IDLE, before, w) && t in w.handlers && w.handlers[t].pc.StopDone?
    requires Runs(w, after, last)
    ensures w.handlers[t].key !in last.runs
    ensures Works(last, u) ==> last.handlers[u].key != w.handlers[t].key
  {
    RunsKeepInv(IDLE, before, w);
    RunsKeepInv(w, after, last);
  }
}
