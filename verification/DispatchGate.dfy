/**
 The per-rank dispatch gate: concurrent wake-ups of one rank are coalesced into passes of a
 single goroutine, and no wake-up made while a pass runs is forgotten.
 */
module DispatchGate {

  import opened Prelude

  /** `acquisitionLive` at one key, and the gate goroutines of that key. */
  datatype Gate<T> = Gate(live: Option<bool>, running: seq<T>)

  /** The critical section of `dispatchNext`: note the wake-up, or start a goroutine. */
  function Wake<T>(g: Gate<T>, top: T): (r: Gate<T>) {
    if g.live.Some? then g.(live := Some(true)) else Gate(Some(false), g.running + [top])
  }

  /** The critical section that ends a pass of goroutine `i`: go round again, or leave. */
  function EndPass<T>(g: Gate<T>, i: nat, failed: bool, top: T): (r: Gate<T>)
    requires i < |g.running|
  {
    if g.live == Some(true) && !failed then Gate(Some(false), g.running[i := top])
    else Gate(None, g.running[..i] + g.running[i + 1..])
  }

  ghost predicate Single<T>(g: Gate<T>) {
    |g.running| <= 1 && (g.live.Some? <==> |g.running| == 1)
  }

  /** The map the service keeps under its mutex. */
  class Live {
    var live: map<string, bool>

    constructor ()
      ensures live == map[]
    {
      live := map[];
    }

    function At(key: string): (r: Option<bool>)
      reads this
    {
      if key in live then Some(live[key]) else None
    }

    method Call(key: string) returns (spawn: bool)
      modifies this
      ensures spawn <==> old(At(key)).None?
      ensures forall g: Gate<int> :: g.live == old(At(key)) ==>
        At(key) == Wake(g, 0).live && (spawn <==> |Wake(g, 0).running| > |g.running|)
      ensures forall k :: k != key ==> At(k) == old(At(k))
    {
      if key in live {
        live := live[key := true];
        return false;
      }
      live := live[key := false];
      return true;
    }

    method Leave(key: string, failed: bool) returns (again: bool)
      modifies this
      ensures forall g: Gate<int> :: g.live == old(At(key)) && |g.running| == 1 ==>
        At(key) == EndPass(g, 0, failed, 0).live && (again <==> |EndPass(g, 0, failed, 0).running| == 1)
      ensures forall k :: k != key ==> At(k) == old(At(k))
    {
      var pending := key in live && live[key];
      if pending && !failed {
        live := live[key := false];
        return true;
      }
      live := live - {key};
      return false;
    }
  }

  // ------------------------------------------------------------ every call is followed by a pass

  datatype Pc = Top | Body(began: nat)

  datatype Event = Called | Begin(i: nat) | End(i: nat, failed: bool)

  /** The gate with the times of calls, of pass starts, and of passes that ended in an error. */
  datatype History = History(gate: Gate<Pc>, now: nat, calls: set<nat>, starts: set<nat>, failures: set<(nat, nat)>)

  const NEW := History(Gate(None, []), 0, {}, {}, {})

  predicate Possible(h: History, e: Event) {
    match e
    case Called => true
    case Begin(i) => i < |h.gate.running| && h.gate.running[i].Top?
    case End(i, _) => i < |h.gate.running| && h.gate.running[i].Body?
  }

  function Happen(h: History, e: Event): (r: History)
    requires Possible(h, e)
  {
    var next := h.(now := h.now + 1);
    match e
    case Called => next.(gate := Wake(h.gate, Top), calls := h.calls + {h.now})
    case Begin(i) => next.(gate := h.gate.(running := h.gate.running[i := Body(h.now)]), starts := h.starts + {h.now})
    case End(i, failed) =>
      next.(gate := EndPass(h.gate, i, failed, Top),
            failures := h.failures + if failed then {(h.gate.running[i].began, h.now)} else {})
  }

  ghost predicate Runs(h: History, events: seq<Event>, last: History)
    decreases |events|
  {
    if events == [] then last == h
    else Possible(h, events[0]) && Runs(Happen(h, events[0]), events[1..], last)
  }

  ghost predicate Served(h: History, c: nat) { exists s :: s in h.starts && s > c }

  /** No pass starts after `t`. */
  ghost predicate Newest(h: History, t: nat) { forall s :: s in h.starts ==> s <= t }

  /** The call was made while the newest pass ran, and that pass ended in an error. */
  ghost predicate Dropped(h: History, c: nat) { exists f :: f in h.failures && f.0 < c < f.1 && Newest(h, f.0) }

  /** A further pass will start: the goroutine is at the top of its loop, or a wake-up is noted. */
  ghost predicate Outstanding(h: History) {
    h.gate.running != [] && (h.gate.running[0].Top? || h.gate.live == Some(true))
  }

  ghost predicate Inv(h: History) {
    && Single(h.gate)
    && (forall c :: c in h.calls ==> c < h.now)
    && (forall p :: p in h.gate.running && p.Body? ==> p.began in h.starts && Newest(h, p.began))
    && (forall s :: s in h.starts ==> s !in h.calls)
    && (forall s :: s in h.starts ==> s < h.now)
    && (forall c :: c in h.calls ==> Served(h, c) || Dropped(h, c) || Outstanding(h))
  }

  lemma EndKeeps(h: History, failed: bool, c: nat)
    requires Inv(h) && Possible(h, End(0, failed)) && c in h.calls
    ensures var r := Happen(h, End(0, failed)); Served(r, c) || Dropped(r, c) || Outstanding(r)
  {
    var r := Happen(h, End(0, failed));
    var began := h.gate.running[0].began;
    if Served(h, c) {
      var s :| s in h.starts && s > c;
      assert s in r.starts;
    } else if Dropped(h, c) {
      var f :| f in h.failures && f.0 < c < f.1 && Newest(h, f.0);
      assert f in r.failures && Newest(r, f.0);
    } else if failed {
      assert began in h.starts && began != c;
      assert (began, h.now) in r.failures && Newest(r, began);
    }
  }

  lemma StepKeepsInv(h: History, e: Event)
    requires Inv(h) && Possible(h, e)
    ensures Inv(Happen(h, e))
  {
    var r := Happen(h, e);
    match e {
      case Called =>
        forall c | c in r.calls ensures Served(r, c) || Dropped(r, c) || Outstanding(r) {
          assert h.gate.live.Some? ==> h.gate.running != [];
          assert Outstanding(r);
        }
      case Begin(i) =>
        forall c | c in r.calls ensures Served(r, c) {
          assert h.now in r.starts && h.now > c;
        }
      case End(i, failed) =>
        assert i == 0;
        forall c | c in r.calls ensures Served(r, c) || Dropped(r, c) || Outstanding(r) {
          EndKeeps(h, failed, c);
        }
    }
  }

  lemma {:induction false} RunsKeepInv(h: History, events: seq<Event>, last: History)
    requires Inv(h) && Runs(h, events, last)
    ensures Inv(last)
    decreases |events|
  {
    if events != [] {
      StepKeepsInv(h, events[0]);
      RunsKeepInv(Happen(h, events[0]), events[1..], last);
    }
  }

  /**
   In every run there is at most one gate, and unless a further pass is certain, as it is not once the
   gate is at rest, a call has no later pass exactly when it fell into the newest pass and that failed.
   */
  lemma NoLostWakeUp(events: seq<Event>, last: History, c: nat)
    requires Runs(NEW, events, last) && c in last.calls
    ensures |last.gate.running| <= 1 && (last.gate.running == [] ==> !Outstanding(last))
    ensures !Outstanding(last) ==> (Served(last, c) <==> !Dropped(last, c))
  {
    RunsKeepInv(NEW, events, last);
  }

  /** Whenever a pass ends in an error, no further pass is due, and every call made since it began is forgotten. */
  lemma FailureDropsWakeUps(events: seq<Event>, h: History, i: nat, c: nat)
    requires Runs(NEW, events, h) && Possible(h, End(i, true)) && c in h.calls
    ensures !Outstanding(Happen(h, End(i, true)))
    ensures Served(Happen(h, End(i, true)), c) <==> c < h.gate.running[i].began
  {
    RunsKeepInv(NEW, events, h);
    var began := h.gate.running[i].began;
    assert h.gate.running[i] in h.gate.running;
    assert began in h.starts && Newest(h, began);
  }

  // ------------------------------------------------------------ workers first

  datatype Phase = HostPrepared | Started | OtherPhase

  /** Where a pass of rank 0's gate stands; `Decided` holds what its row snapshot showed. */
  datatype HeadPass = AtTop | Entered | Decided(ready: bool) | MustWake | Ending

  /** A result handler that still has to wake rank 0, or to look whether it should. */
  datatype Handler = MustRead | MustCall | Done

  datatype World = World(phases: map<nat, Phase>, gate: Gate<HeadPass>, handlers: map<nat, Handler>, startSent: bool)

  datatype Step =
    | HeadPrepared(t: nat)
    | WorkerStarted(t: nat, rank: nat)
    | PhaseMoves(rank: nat, to: Phase)
    | HandlerReads(t: nat)
    | HandlerCalls(t: nat)
    | OtherWake
    | PassEnters
    | PassReads
    | PassStarts
    | PassSkips
    | PassPreparesHead
    | PassWakes
    | PassEnds

  ghost predicate Armed(w: World) {
    forall r :: r in w.phases ==> w.phases[r] == if r == 0 then HostPrepared else Started
  }

  predicate At(w: World, p: HeadPass) { w.gate.running == [p] }

  ghost predicate Enabled(w: World, s: Step) {
    match s
    case HeadPrepared(t) => t !in w.handlers
    case WorkerStarted(t, rank) => t !in w.handlers && rank > 0 && rank in w.phases
    case PhaseMoves(rank, to) => rank in w.phases && to != (if rank == 0 then HostPrepared else Started)
    case HandlerReads(t) => t in w.handlers && w.handlers[t] == MustRead
    case HandlerCalls(t) => t in w.handlers && w.handlers[t] == MustCall
    case OtherWake => true
    case PassEnters => At(w, AtTop)
    case PassReads => At(w, Entered)
    case PassStarts => At(w, Decided(true))
    case PassSkips => At(w, Decided(false))
    case PassPreparesHead => At(w, Decided(false))
    case PassWakes => At(w, MustWake)
    case PassEnds => At(w, Ending)
  }

  ghost function Take(w: World, s: Step): (r: World)
    requires Enabled(w, s)
  {
    match s
    case HeadPrepared(t) => w.(phases := w.phases[0 := HostPrepared], handlers := w.handlers[t := MustCall], startSent := false)
    case WorkerStarted(t, rank) => w.(phases := w.phases[rank := Started], handlers := w.handlers[t := MustRead])
    case PhaseMoves(rank, to) => w.(phases := w.phases[rank := to])
    case HandlerReads(t) =>
      var head := 0 in w.phases && w.phases[0] == HostPrepared;
      w.(handlers := w.handlers[t := if head then MustCall else Done])
    case HandlerCalls(t) => w.(gate := Wake(w.gate, AtTop), handlers := w.handlers[t := Done])
    case OtherWake => w.(gate := Wake(w.gate, AtTop))
    case PassEnters => w.(gate := w.gate.(running := [Entered]))
    case PassReads => w.(gate := w.gate.(running := [Decided(Armed(w))]))
    case PassStarts => w.(gate := w.gate.(running := [Ending]), startSent := true)
    case PassSkips => w.(gate := w.gate.(running := [Ending]))
    case PassPreparesHead => w.(gate := w.gate.(running := [MustWake]), phases := w.phases[0 := HostPrepared], startSent := false)
    case PassWakes => w.(gate := Wake(w.gate, AtTop).(running := [Ending]))
    case PassEnds => w.(gate := EndPass(w.gate, 0, false, AtTop))
  }

  ghost predicate Goes(w: World, steps: seq<Step>, last: World)
    decreases |steps|
  {
    if steps == [] then last == w
    else Enabled(w, steps[0]) && Goes(Take(w, steps[0]), steps[1..], last)
  }

  /** A handler is on its way to wake rank 0. */
  ghost predicate HandlerDue(w: World) {
    exists t :: t in w.handlers && w.handlers[t] != Done
  }

  /** A pass of rank 0 that will see the present phases, or has seen them, is outstanding. */
  ghost predicate PassDue(w: World) {
    || w.gate.live == Some(true)
    || At(w, AtTop) || At(w, Entered) || At(w, Decided(true)) || At(w, MustWake)
  }

  ghost predicate Covered(w: World) {
    Armed(w) ==> w.startSent || PassDue(w) || HandlerDue(w)
  }

  ghost predicate WorldInv(w: World) {
    Single(w.gate) && 0 in w.phases && Covered(w)
  }

  lemma TakeKeeps(w: World, s: Step)
    requires WorldInv(w) && Enabled(w, s)
    ensures WorldInv(Take(w, s))
  {
    var r := Take(w, s);
    match s {
      case HeadPrepared(t) => assert r.handlers[t] != Done && t in r.handlers;
      case WorkerStarted(t, rank) => assert r.handlers[t] != Done && t in r.handlers;
      case HandlerReads(t) =>
        if Armed(w) { assert t in r.handlers && r.handlers[t] == MustCall; }
      case PhaseMoves(rank, to) =>
        assert r.phases[rank] == to;
      case HandlerCalls(t) =>
      case _ =>
        if HandlerDue(w) {
          var t :| t in w.handlers && w.handlers[t] != Done;
          assert t in r.handlers && r.handlers[t] != Done;
        }
        assert Armed(w) == Armed(r) || s.PassPreparesHead?;
    }
  }

  lemma {:induction false} GoesKeeps(w: World, steps: seq<Step>, last: World)
    requires WorldInv(w) && Goes(w, steps, last)
    ensures WorldInv(last)
    decreases |steps|
  {
    if steps != [] {
      TakeKeeps(w, steps[0]);
      GoesKeeps(Take(w, steps[0]), steps[1..], last);
    }
  }

  /**
   Workers first: from a world without gate, once rank 0 is prepared and every worker started, its
   START was sent or is certain to be considered again; when nothing is in flight it was sent.
   */
  lemma HeadIsNeverForgotten(w: World, steps: seq<Step>, last: World)
    requires w.gate == Gate(None, []) && 0 in w.phases && !Armed(w)
    requires Goes(w, steps, last) && Armed(last)
    ensures last.startSent || PassDue(last) || HandlerDue(last)
    ensures last.gate.running == [] && !HandlerDue(last) ==> last.startSent
  {
    GoesKeeps(w, steps, last);
  }
}
