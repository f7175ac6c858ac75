/**
 Desired state, observed state and per-rank dispatch phases of one deployment, through every
 handler that writes them. Here a handler is one step, as if no other one came between its statements;
 `StopSerial` shows that this is what an uninterrupted handler does, and `StopInterleavings` takes the
 statements apart.
 */
module StopBookkeeping {

  datatype Desired = WantRunning | WantStopped

  datatype Observed = Unknown | Starting | Healthy | Degraded | Failed | Stopping | Stopped

  datatype Phase =
    | PhaseNone | PhasePreparing | PhasePrepared | PhasePulled | PhaseCreated | PhaseHostPreparing
    | PhaseHostPrepared | PhaseVerifying | PhaseStarted | PhaseStopping | PhaseStopped

  /**
   The deployment row, with what the service keeps in memory: the rank states, and the ranks that were sent
   a stop since the last start.
   */
  datatype Row = Row(desired: Desired, observed: Observed, phases: map<int, Phase>, ranks: seq<int>,
                     run: nat, states: map<int, string>, asked: set<int>)

  /** As created. */
  function New(ranks: seq<int>, run: nat): (row: Row) { Row(WantRunning, Unknown, map[], ranks, run, map[], {}) }

  function Get(row: Row, rank: int): (p: Phase) {
    if rank in row.phases then row.phases[rank] else PhaseNone
  }

  function SetPhase(row: Row, rank: int, p: Phase): (r: Row) { row.(phases := row.phases[rank := p]) }

  function SetState(row: Row, rank: int, state: string): (r: Row) { row.(states := row.states[rank := state]) }

  /** `SetDeploymentStopping` */
  function SetStopping(row: Row): (r: Row) { row.(desired := WantStopped, observed := Stopping) }

  predicate AllStopped(row: Row) {
    forall k :: k in row.ranks ==> Get(row, k) == PhaseStopped
  }

  function CheckStopComplete(row: Row): (r: Row) {
    if AllStopped(row) then row.(desired := WantStopped, observed := Stopped) else row
  }

  function ConfirmStopped(row: Row, rank: int): (r: Row) { CheckStopComplete(SetPhase(row, rank, PhaseStopped)) }

  function FailDispatch(row: Row): (r: Row) { row.(observed := Failed) }

  // ------------------------------------------------------------ dispatch

  /** What the recipe, the node and the commands in flight answer during one dispatch. */
  datatype Env = Env(manifestOk: bool, prepare: bool, verify: bool, hostPreparation: bool, specOk: bool,
                     extensionInFlight: bool, hostInFlight: bool, sendOk: bool, orderOk: bool)

  /** `sendExtension`: the row, and whether it returned an error. */
  function SendExtension(row: Row, rank: int, p: Phase, e: Env): (r: (Row, bool)) {
    if e.extensionInFlight then (row, false)
    else if !e.specOk then (row, true)
    else (SetPhase(row, rank, p), !e.sendOk)
  }

  function ReadyRunning(row: Row, rank: int, e: Env): (r: Row) {
    match Get(row, rank)
    case PhaseNone =>
      if !e.manifestOk then FailDispatch(row)
      else if e.prepare then
        var (sent, failed) := SendExtension(row, rank, PhasePreparing, e);
        if failed then FailDispatch(sent) else sent
      else SetPhase(row, rank, PhasePrepared)
    case PhasePreparing =>
      if !e.manifestOk || !e.prepare then FailDispatch(row) else SendExtension(row, rank, PhasePreparing, e).0
    case PhasePrepared => SetPhase(row, rank, PhasePulled)
    case PhasePulled => row
    case PhaseCreated => ReadyCreated(row, rank, e)
    case PhaseHostPreparing => ReadyCreated(row, rank, e)
    case PhaseHostPrepared => if !e.orderOk || !e.specOk then FailDispatch(row) else row
    case PhaseStarted => row
    case PhaseVerifying =>
      if !e.manifestOk || !e.verify then FailDispatch(row) else SendExtension(row, rank, PhaseVerifying, e).0
    case PhaseStopping => row
    case PhaseStopped => row
  }

  function ReadyCreated(row: Row, rank: int, e: Env): (r: Row) {
    if e.hostInFlight then row
    else if !e.specOk then FailDispatch(row)
    else if !e.hostPreparation then SetPhase(row, rank, PhaseHostPrepared)
    else SetPhase(row, rank, PhaseHostPreparing)
  }

  /** STOP, or the stop of a running extension, is sent to the rank. */
  function Ask(row: Row, rank: int): (r: Row) { row.(asked := row.asked + {rank}) }

  function ReadyStopped(row: Row, rank: int): (r: Row) {
    match Get(row, rank)
    case PhaseNone => ConfirmStopped(row, rank)
    case PhasePrepared => ConfirmStopped(row, rank)
    case PhaseStarted => Ask(SetPhase(row, rank, PhaseStopping), rank)
    case PhaseHostPreparing => row
    case PhaseStopped => row
    case _ => Ask(row, rank)
  }

  function DispatchReady(row: Row, rank: int, e: Env): (r: Row) {
    match row.desired
    case WantRunning => ReadyRunning(row, rank, e)
    case WantStopped => ReadyStopped(row, rank)
  }

  /** `dispatchNext`: a running deployment only wakes its gate, whose pass is a later step. */
  function DispatchNext(row: Row, rank: int): (r: Row) {
    match row.desired
    case WantRunning => row
    case WantStopped => ReadyStopped(row, rank)
  }

  function DispatchAll(row: Row, ranks: seq<int>): (r: Row) {
    if ranks == [] then row else DispatchNext(DispatchAll(row, ranks[..|ranks| - 1]), ranks[|ranks| - 1])
  }

  // ------------------------------------------------------------ operator requests

  function StopDeployment(row: Row, cancelFails: bool): (r: Row) {
    if row.desired == WantStopped && row.observed == Stopped then row
    else if row.desired == WantRunning && cancelFails then SetStopping(row)
    else CheckStopComplete(DispatchAll(SetStopping(row), row.ranks))
  }

  predicate MayStart(row: Row) { row.desired != WantRunning && row.observed == Stopped }

  predicate MayDelete(row: Row) { row.desired == WantStopped && row.observed == Stopped }

  /** `RestartDeployment`, once the plan is ready again. */
  function Restart(row: Row, ranks: seq<int>, run: nat): (r: Row) {
    row.(desired := WantRunning, observed := Unknown, phases := map[], ranks := ranks, run := run, asked := {})
  }

  // ------------------------------------------------------------ command results

  datatype Op = OpPrepare | OpStopPrepare | OpStopVerify | OpVerify | OpArtifact | OpPull | OpCreate | OpHostPrepare
              | OpStart | OpInspect | OpStop

  datatype Ack = Ack(ok: bool, exists_: bool, running: bool, missing: bool, state: string, diagnosed: bool, ready: bool)

  function DriveStop(row: Row, rank: int): (r: Row) { DispatchNext(SetPhase(row, rank, PhaseStopping), rank) }

  function Advance(row: Row, rank: int, p: Phase): (r: Row) { DispatchNext(SetPhase(row, rank, p), rank) }

  function OnCommandResult(row: Row, op: Op, rank: int, a: Ack, e: Env): (r: Row) {
    var stopping := row.desired == WantStopped;
    if Get(row, rank) == PhaseStopped && stopping then row
    else match op
      case OpPrepare => if !a.ok then FailDispatch(row) else Advance(row, rank, PhasePrepared)
      case OpStopPrepare => if !a.ok then FailDispatch(row) else ConfirmStopped(row, rank)
      case OpStopVerify => if !a.ok then FailDispatch(row) else Advance(row, rank, PhaseStarted)
      case OpVerify => if !a.ok then FailDispatch(row) else WakeHead(Advance(row, rank, PhaseStarted))
      case OpArtifact => if a.ok then row else FailDispatch(row)
      case OpPull =>
        if stopping then ConfirmStopped(row, rank)
        else if !a.ok then FailDispatch(row)
        else Advance(row, rank, PhasePulled)
      case OpCreate =>
        if !a.ok && !a.exists_ then if stopping then ConfirmStopped(row, rank) else FailDispatch(row)
        else if stopping then DriveStop(row, rank)
        else Advance(row, rank, PhaseCreated)
      case OpHostPrepare =>
        if stopping then DriveStop(row, rank)
        else if !a.ok then FailDispatch(row)
        else Advance(row, rank, PhaseHostPrepared)
      case OpStart =>
        if stopping then DriveStop(row, rank)
        else if !a.ok && !a.exists_ && !a.running then FailDispatch(row)
        else if !e.manifestOk then FailDispatch(row)
        else if e.verify then Advance(row, rank, PhaseVerifying)
        else WakeHead(Advance(row, rank, PhaseStarted))
      case OpInspect =>
        if a.ok then OnStateUpdate(row, row.run, rank, a.state, a.diagnosed, a.ready)
        else if a.missing then OnStateUpdate(row, row.run, rank, "missing", a.diagnosed, a.ready)
        else row
      case OpStop => if a.ok || a.missing then ConfirmStopped(row, rank) else row
  }

  function WakeHead(row: Row): (r: Row) {
    if Get(row, 0) == PhaseHostPrepared && 0 in row.ranks then DispatchNext(row, 0) else row
  }

  // ------------------------------------------------------------ reports

  predicate Terminal(state: string) { state in {"exited", "dead", "missing"} }

  /** A container that is up although a stop was confirmed. */
  predicate Alive(state: string) { state in {"running", "paused", "restarting"} }

  function StateOf(states: map<int, string>, rank: int): (r: string) { if rank in states then states[rank] else "" }

  function Count(states: map<int, string>, ranks: seq<int>, which: set<string>): (n: nat)
    ensures n <= |ranks|
  {
    if ranks == [] then 0
    else (if StateOf(states, ranks[0]) in which then 1 else 0) + Count(states, ranks[1..], which)
  }

  /** `aggregateRankState` */
  function Aggregate(states: map<int, string>, ranks: seq<int>): (o: Observed)
    ensures o in {Healthy, Degraded, Starting, Unknown}
  {
    var ready := Count(states, ranks, {"ready"});
    var active := Count(states, ranks, {"running"}) + ready;
    var offline := Count(states, ranks, {"offline"});
    var failed := Count(states, ranks, {"degraded", "exited", "dead", "missing"});
    var preparing := Count(states, ranks, {"created", "installing", "starting", "observing", "restarting", ""});
    if ranks == [] then Unknown
    else if ready > 0 && active == |ranks| then Healthy
    else if failed > 0 || (active > 0 && offline > 0) then Degraded
    else if active > 0 || preparing > 0 then Starting
    else Unknown
  }

  function Others(ranks: seq<int>, rank: int): (r: seq<int>) {
    if ranks == [] then []
    else Others(ranks[..|ranks| - 1], rank) + (if ranks[|ranks| - 1] == rank then [] else [ranks[|ranks| - 1]])
  }

  function FailWorkload(row: Row, rank: int, state: string): (r: Row) {
    var down := SetPhase(SetState(SetStopping(row), rank, state), rank, PhaseStopped);
    CheckStopComplete(DispatchAll(down, Others(row.ranks, rank)))
  }

  function OnStateUpdate(row: Row, run: nat, rank: int, state: string, diagnosed: bool, ready: bool): (r: Row) {
    if run != row.run then row
    else if row.desired == WantStopped then
      if Terminal(state) then ConfirmStopped(SetState(row, rank, state), rank)
      else if Get(row, rank) == PhaseStopped && !Alive(state) then row
      else DispatchNext(SetStopping(SetPhase(SetState(row, rank, "stopping"), rank, PhaseStopping)), rank)
    else if Terminal(state) then FailWorkload(row, rank, state)
    else
      var rankState :=
        if diagnosed then "degraded"
        else if state == "running" && rank == 0 then if ready then "ready" else "created"
        else state;
      var next := SetState(row, rank, rankState);
      var seen := next.(observed := Aggregate(next.states, row.ranks));
      if state == "observing" || state == "running" then WakeHead(seen) else seen
  }

  function MarkOffline(row: Row, ranks: seq<int>, otherOnline: bool): (r: Row) {
    if row.desired != WantRunning || ranks == [] then row
    else row.(observed := if otherOnline then Degraded else Unknown,
              states := map k | k in row.states.Keys + (set j | j in ranks) :: if k in ranks then "offline" else row.states[k])
  }

  // ------------------------------------------------------------ the row, in place

  class Deployment {
    var desired: Desired
    var observed: Observed
    var phases: map<int, Phase>
    var ranks: seq<int>
    var run: nat
    var states: map<int, string>
    var asked: set<int>

    function Now(): (row: Row)
      reads this
    {
      Row(desired, observed, phases, ranks, run, states, asked)
    }

    ghost predicate Valid()
      reads this
    {
      Inv(Now())
    }

    constructor (ranks0: seq<int>, run0: nat)
      ensures Valid() && Now() == New(ranks0, run0)
    {
      desired, observed, phases, ranks, run, states, asked := WantRunning, Unknown, map[], ranks0, run0, map[], {};
    }

    method Finish()
      requires Valid()
      modifies this
      ensures Valid()
      ensures Now() == CheckStopComplete(old(Now()))
      ensures observed == Stopped <==> AllStopped(Now())
    {
      CheckKeeps(Now());
      for i := 0 to |ranks|
        invariant Now() == old(Now())
        invariant forall j :: 0 <= j < i ==> Get(Now(), ranks[j]) == PhaseStopped
      {
        if Get(Now(), ranks[i]) != PhaseStopped { return; }
      }
      desired, observed := WantStopped, Stopping;
      observed := Stopped;
    }

    method Confirm(rank: int)
      requires Valid()
      modifies this
      ensures Valid()
      ensures Now() == ConfirmStopped(old(Now()), rank)
      ensures Get(Now(), rank) == PhaseStopped && (observed == Stopped <==> AllStopped(Now()))
    {
      SetStoppedKeeps(Now(), rank);
      phases := phases[rank := PhaseStopped];
      Finish();
    }

    method Next(rank: int)
      requires Valid()
      modifies this
      ensures Valid()
      ensures Now() == DispatchNext(old(Now()), rank)
      ensures desired == WantStopped ==> Underway(Now(), rank)
    {
      NextKeeps(Now(), rank);
      if desired == WantRunning { return; }
      var p := Get(Now(), rank);
      if p == PhaseNone || p == PhasePrepared {
        Confirm(rank);
      } else if p != PhaseStopped && p != PhaseHostPreparing {
        if p == PhaseStarted { phases := phases[rank := PhaseStopping]; }
        asked := asked + {rank};
      }
    }

    method NextAll(order: seq<int>)
      requires Valid()
      modifies this
      ensures Valid()
      ensures Now() == DispatchAll(old(Now()), order)
      ensures old(desired) == WantStopped ==> desired == WantStopped && forall k :: k in order ==> Underway(Now(), k)
    {
      if desired == WantStopped { AllUnderway(Now(), order); }
      hide DispatchNext, Inv, Underway;
      for i := 0 to |order|
        invariant Valid() && Now() == DispatchAll(old(Now()), order[..i])
      {
        assert order[..i + 1][..i] == order[..i];
        Next(order[i]);
      }
      assert order[..|order|] == order;
    }

    method Stop(cancelFails: bool)
      requires Valid()
      modifies this
      ensures Valid()
      ensures Now() == StopDeployment(old(Now()), cancelFails)
      ensures desired == WantStopped && (observed == Stopping || observed == Stopped)
      ensures !(old(desired) == WantRunning && cancelFails) ==>
        (observed == Stopped <==> AllStopped(Now())) && forall k :: k in ranks ==> Underway(Now(), k)
    {
      StopReaches(Now(), cancelFails);
      hide DispatchAll, CheckStopComplete;
      if desired == WantStopped && observed == Stopped { return; }
      var was := desired;
      desired, observed := WantStopped, Stopping;
      if was == WantRunning && cancelFails { return; }
      NextAll(ranks);
      Finish();
    }

    method Start(planned: seq<int>, fresh_: nat) returns (ok: bool)
      requires Valid()
      modifies this
      ensures Valid()
      ensures ok <==> MayStart(old(Now()))
      ensures ok ==> AllStopped(old(Now())) && forall k :: Get(Now(), k) == PhaseNone
      ensures Now() == if ok then Restart(old(Now()), planned, fresh_) else old(Now())
    {
      if desired == WantRunning || observed != Stopped { return false; }
      desired, observed, phases, ranks, run, asked := WantRunning, Unknown, map[], planned, fresh_, {};
      return true;
    }

    method Fail(rank: int, state: string)
      requires Valid()
      modifies this
      ensures Valid()
      ensures Now() == FailWorkload(old(Now()), rank, state)
      ensures desired == WantStopped && Get(Now(), rank) == PhaseStopped && forall k :: k in ranks ==> Underway(Now(), k)
    {
      FailReaches(Now(), rank, state);
      hide DispatchAll, CheckStopComplete;
      desired, observed := WantStopped, Stopping;
      states := states[rank := state];
      phases := phases[rank := PhaseStopped];
      ghost var down := Now();
      var order: seq<int> := [];
      for i := 0 to |ranks|
        invariant order == Others(ranks[..i], rank) && Now() == down
      {
        assert ranks[..i + 1][..i] == ranks[..i];
        if ranks[i] != rank { order := order + [ranks[i]]; }
      }
      assert ranks[..|ranks|] == ranks;
      NextAll(order);
      Finish();
    }

    method Report(reported: nat, rank: int, state: string, diagnosed: bool, ready: bool)
      requires Valid()
      modifies this
      ensures Valid()
      ensures Now() == OnStateUpdate(old(Now()), reported, rank, state, diagnosed, ready)
      ensures reported == run && Terminal(state) ==> desired == WantStopped && Get(Now(), rank) == PhaseStopped
      ensures old(observed == Stopped && rank in ranks) ==> (observed == Stopped <==> !(reported == run && Alive(state)))
    {
      ReportKeeps(Now(), reported, rank, state, diagnosed, ready);
      ReportReaches(Now(), reported, rank, state, diagnosed, ready);
      hide Aggregate, DispatchAll, CheckStopComplete;
      if reported != run { return; }
      if desired == WantStopped {
        if Terminal(state) {
          states := states[rank := state];
          Confirm(rank);
          return;
        }
        if Get(Now(), rank) == PhaseStopped && !Alive(state) { return; }
        states := states[rank := "stopping"];
        phases := phases[rank := PhaseStopping];
        desired, observed := WantStopped, Stopping;
        Next(rank);
        return;
      }
      if Terminal(state) {
        Fail(rank, state);
        return;
      }
      var rankState := state;
      if diagnosed {
        rankState := "degraded";
      } else if state == "running" && rank == 0 {
        rankState := if ready then "ready" else "created";
      }
      states := states[rank := rankState];
      observed := Aggregate(states, ranks);
      if state == "observing" || state == "running" { Wake(); }
    }

    method Enter(rank: int, p: Phase)
      requires Valid() && (desired == WantStopped ==> Get(Now(), rank) != PhaseStopped)
      modifies this
      ensures Valid()
      ensures Now() == Advance(old(Now()), rank, p)
    {
      DriveKeeps(Now(), rank, p);
      hide Inv;
      phases := phases[rank := p];
      Next(rank);
    }

    method Acknowledge(op: Op, rank: int, a: Ack, e: Env)
      requires Valid()
      modifies this
      ensures Valid()
      ensures Now() == OnCommandResult(old(Now()), op, rank, a, e)
      ensures old(observed == Stopped && rank in ranks) ==> Now() == old(Now())
      ensures op == OpStop && (a.ok || a.missing) ==> Get(Now(), rank) == PhaseStopped
    {
      ResultReaches(Now(), op, rank, a, e);
      hide DispatchNext, OnStateUpdate, ConfirmStopped, Inv;
      var stopping := desired == WantStopped;
      if Get(Now(), rank) == PhaseStopped && stopping { return; }
      match op {
        case OpPrepare => if !a.ok { observed := Failed; } else { Enter(rank, PhasePrepared); }
        case OpStopPrepare => if !a.ok { observed := Failed; } else { Confirm(rank); }
        case OpStopVerify => if !a.ok { observed := Failed; } else { Enter(rank, PhaseStarted); }
        case OpVerify => if !a.ok { observed := Failed; } else { Enter(rank, PhaseStarted); Wake(); }
        case OpArtifact => if !a.ok { observed := Failed; }
        case OpPull =>
          if !a.ok {
            if stopping { Confirm(rank); return; }
            observed := Failed;
            return;
          }
          if stopping { Confirm(rank); return; }
          Enter(rank, PhasePulled);
        case OpCreate =>
          if !a.ok && !a.exists_ {
            if stopping { Confirm(rank); return; }
            observed := Failed;
            return;
          }
          Enter(rank, if stopping then PhaseStopping else PhaseCreated);
        case OpHostPrepare =>
          if stopping { Enter(rank, PhaseStopping); return; }
          if !a.ok { observed := Failed; return; }
          Enter(rank, PhaseHostPrepared);
        case OpStart =>
          if stopping { Enter(rank, PhaseStopping); return; }
          if (!a.ok && !a.exists_ && !a.running) || !e.manifestOk { observed := Failed; return; }
          if e.verify { Enter(rank, PhaseVerifying); return; }
          Enter(rank, PhaseStarted);
          Wake();
        case OpInspect =>
          if a.ok {
            Report(run, rank, a.state, a.diagnosed, a.ready);
          } else if a.missing {
            Report(run, rank, "missing", a.diagnosed, a.ready);
          }
        case OpStop => if a.ok || a.missing { Confirm(rank); }
      }
    }

    method Wake()
      requires Valid()
      modifies this
      ensures Valid()
      ensures Now() == WakeHead(old(Now()))
      ensures Now() == old(Now()) || (desired == WantStopped && Now() == Ask(old(Now()), 0))
    {
      if Get(Now(), 0) == PhaseHostPrepared && 0 in ranks { Next(0); }
    }
  }

  // ------------------------------------------------------------ every handler keeps the bookkeeping

  datatype Event =
    | GatePass(run: nat, rank: int, acquisitionFailed: bool, cancelFails: bool, env: Env)
    | Result(op: Op, rank: int, ack: Ack, env: Env)
    | Report(run: nat, rank: int, state: string, diagnosed: bool, ready: bool)
    | StopRequest(cancelFails: bool)
    | StartRequest(planned: seq<int>, run: nat)
    | Reconnect(onNode: seq<int>)
    | Offline(onNode: seq<int>, otherOnline: bool)
    | TransferFailed

  function Handle(row: Row, e: Event): (r: Row) {
    match e
    case GatePass(run, rank, acquisitionFailed, cancelFails, env) =>
      if row.desired != WantRunning || row.run != run then row
      else if acquisitionFailed then StopDeployment(FailDispatch(row), cancelFails)
      else DispatchReady(row, rank, env)
    case Result(op, rank, ack, env) => OnCommandResult(row, op, rank, ack, env)
    case Report(run, rank, state, diagnosed, ready) => OnStateUpdate(row, run, rank, state, diagnosed, ready)
    case StopRequest(cancelFails) => StopDeployment(row, cancelFails)
    case StartRequest(planned, run) => if MayStart(row) then Restart(row, planned, run) else row
    case Reconnect(onNode) =>
      if (row.observed == Stopped && row.desired == WantStopped) || onNode == [] then row
      else
        var sent := DispatchAll(row, onNode);
        if row.desired == WantStopped then CheckStopComplete(sent) else sent
    case Offline(onNode, otherOnline) => MarkOffline(row, onNode, otherOnline)
    case TransferFailed => FailDispatch(row)
  }

  ghost predicate Inv(row: Row) {
    row.observed == Stopped ==> row.desired == WantStopped && AllStopped(row)
  }

  lemma SetStoppedKeeps(row: Row, rank: int)
    requires Inv(row)
    ensures Inv(SetPhase(row, rank, PhaseStopped))
  {
    var r := SetPhase(row, rank, PhaseStopped);
    assert forall k :: Get(r, k) == if k == rank then PhaseStopped else Get(row, k);
  }

  lemma ConfirmKeeps(row: Row, rank: int)
    requires Inv(row)
    ensures Inv(ConfirmStopped(row, rank))
  {
    SetStoppedKeeps(row, rank);
  }

  /** Dispatching may confirm a rank, or drive one that was not stopped. */
  lemma NextKeeps(row: Row, rank: int)
    requires Inv(row)
    ensures Inv(DispatchNext(row, rank))
  {
    ConfirmKeeps(row, rank);
    if Get(row, rank) != PhaseStopped { DriveKeeps(row, rank, PhaseStopping); }
  }

  lemma DriveKeeps(row: Row, rank: int, p: Phase)
    requires Inv(row) && (row.observed == Stopped ==> Get(row, rank) != PhaseStopped)
    ensures Inv(SetPhase(row, rank, p))
  {
    var r := SetPhase(row, rank, p);
    assert forall k :: Get(r, k) == if k == rank then p else Get(row, k);
  }

  lemma {:induction false} AllKeeps(row: Row, ranks: seq<int>)
    requires Inv(row)
    ensures Inv(DispatchAll(row, ranks))
  {
    if ranks != [] {
      AllKeeps(row, ranks[..|ranks| - 1]);
      NextKeeps(DispatchAll(row, ranks[..|ranks| - 1]), ranks[|ranks| - 1]);
    }
  }

  /** The rank's stop was confirmed or sent, or a host preparation's result will send it. */
  predicate Underway(row: Row, rank: int) {
    Get(row, rank) == PhaseStopped || rank in row.asked || Get(row, rank) == PhaseHostPreparing
  }

  lemma NextUnderway(row: Row, rank: int, k: int)
    requires row.desired == WantStopped
    ensures var r := DispatchNext(row, rank); r.desired == WantStopped && (k == rank || Underway(row, k) ==> Underway(r, k))
  {
  }

  lemma {:induction false} AllUnderway(row: Row, order: seq<int>)
    requires row.desired == WantStopped
    ensures var r := DispatchAll(row, order);
      && r.desired == WantStopped && r.ranks == row.ranks
      && (forall k :: k in order || Underway(row, k) ==> Underway(r, k))
      && (r.observed == row.observed || r.observed == Stopped)
      && (forall k :: Get(row, k) == PhaseStopped ==> Get(r, k) == PhaseStopped)
  {
    if order != [] {
      var front, last := order[..|order| - 1], order[|order| - 1];
      AllUnderway(row, front);
      assert order == front + [last];
      forall k { NextUnderway(DispatchAll(row, front), last, k); }
    }
  }

  lemma StopReaches(row: Row, cancelFails: bool)
    requires Inv(row)
    ensures var r := StopDeployment(row, cancelFails);
      && r.desired == WantStopped && (r.observed == Stopping || r.observed == Stopped)
      && (!(row.desired == WantRunning && cancelFails) ==>
            (r.observed == Stopped <==> AllStopped(r)) && forall k :: k in r.ranks ==> Underway(r, k))
  {
    StopKeeps(row, cancelFails);
    AllUnderway(SetStopping(row), row.ranks);
  }

  lemma FailReaches(row: Row, rank: int, state: string)
    ensures var r := FailWorkload(row, rank, state);
      r.desired == WantStopped && Get(r, rank) == PhaseStopped && forall k :: k in r.ranks ==> Underway(r, k)
  {
    var down := SetPhase(SetState(SetStopping(row), rank, state), rank, PhaseStopped);
    assert Get(down, rank) == PhaseStopped;
    AllUnderway(down, Others(row.ranks, rank));
    AllOthers(row.ranks, rank);
    hide DispatchAll, Others;
    var all := DispatchAll(down, Others(row.ranks, rank));
    assert Underway(all, rank) && forall k :: Get(CheckStopComplete(all), k) == Get(all, k);
  }

  lemma {:induction false} AllOthers(ranks: seq<int>, rank: int)
    ensures forall k :: k in Others(ranks, rank) <==> k in ranks && k != rank
  {
    if ranks != [] {
      AllOthers(ranks[..|ranks| - 1], rank);
      assert ranks == ranks[..|ranks| - 1] + [ranks[|ranks| - 1]];
    }
  }

  lemma ReportReaches(row: Row, run: nat, rank: int, state: string, diagnosed: bool, ready: bool)
    requires Inv(row)
    ensures var r := OnStateUpdate(row, run, rank, state, diagnosed, ready);
      && (run == row.run && Terminal(state) ==> r.desired == WantStopped && Get(r, rank) == PhaseStopped)
      && (row.observed == Stopped && rank in row.ranks ==> (r.observed == Stopped <==> !(run == row.run && Alive(state))))
  {
    if row.observed == Stopped && rank in row.ranks {
      ConfirmedStopHolds(row, Report(run, rank, state, diagnosed, ready));
    }
    if run == row.run && Terminal(state) && row.desired == WantRunning { FailReaches(row, rank, state); }
  }

  lemma ResultReaches(row: Row, op: Op, rank: int, a: Ack, e: Env)
    requires Inv(row)
    ensures var r := OnCommandResult(row, op, rank, a, e);
      && (row.observed == Stopped && rank in row.ranks ==> r == row)
      && (op == OpStop && (a.ok || a.missing) ==> Get(r, rank) == PhaseStopped)
  {
  }

  lemma StopKeeps(row: Row, cancelFails: bool)
    requires Inv(row)
    ensures Inv(StopDeployment(row, cancelFails))
  {
    AllKeeps(SetStopping(row), row.ranks);
  }

  lemma AdvanceKeeps(row: Row, rank: int, p: Phase)
    requires Inv(row) && (row.desired == WantStopped ==> Get(row, rank) != PhaseStopped)
    ensures Inv(Advance(row, rank, p)) && Inv(WakeHead(Advance(row, rank, p)))
  {
    DriveKeeps(row, rank, p);
    NextKeeps(SetPhase(row, rank, p), rank);
    NextKeeps(Advance(row, rank, p), 0);
  }

  lemma ReportKeeps(row: Row, run: nat, rank: int, state: string, diagnosed: bool, ready: bool)
    requires Inv(row)
    ensures Inv(OnStateUpdate(row, run, rank, state, diagnosed, ready))
  {
    hide Aggregate, DispatchNext, DispatchAll, CheckStopComplete;
    if run == row.run && row.desired == WantStopped {
      ConfirmKeeps(SetState(row, rank, state), rank);
      NextKeeps(SetStopping(SetPhase(SetState(row, rank, "stopping"), rank, PhaseStopping)), rank);
    } else if run == row.run && Terminal(state) {
      var down := SetPhase(SetState(SetStopping(row), rank, state), rank, PhaseStopped);
      AllKeeps(down, Others(row.ranks, rank));
      CheckKeeps(DispatchAll(down, Others(row.ranks, rank)));
    } else if run == row.run {
      SeenKeeps(row, run, rank, state, diagnosed, ready);
    }
  }

  lemma SeenKeeps(row: Row, run: nat, rank: int, state: string, diagnosed: bool, ready: bool)
    requires Inv(row) && run == row.run && row.desired == WantRunning && !Terminal(state)
    ensures Inv(OnStateUpdate(row, run, rank, state, diagnosed, ready))
  {
    hide Aggregate;
  }

  lemma CheckKeeps(row: Row)
    requires Inv(row)
    ensures Inv(CheckStopComplete(row))
  {
  }

  lemma ResultKeeps(row: Row, op: Op, rank: int, a: Ack, e: Env)
    requires Inv(row)
    ensures Inv(OnCommandResult(row, op, rank, a, e))
  {
    hide Advance, DriveStop, ConfirmStopped, WakeHead, OnStateUpdate;
    if !(Get(row, rank) == PhaseStopped && row.desired == WantStopped) {
      forall p { AdvanceKeeps(row, rank, p); }
      DriveStopKeeps(row, rank);
      ConfirmKeeps(row, rank);
      ReportKeeps(row, row.run, rank, a.state, a.diagnosed, a.ready);
      ReportKeeps(row, row.run, rank, "missing", a.diagnosed, a.ready);
    }
  }

  lemma DriveStopKeeps(row: Row, rank: int)
    requires Inv(row) && (row.desired == WantStopped ==> Get(row, rank) != PhaseStopped)
    ensures Inv(DriveStop(row, rank))
  {
    AdvanceKeeps(row, rank, PhaseStopping);
  }

  lemma HandleKeepsInv(row: Row, e: Event)
    requires Inv(row)
    ensures Inv(Handle(row, e))
  {
    hide OnCommandResult, OnStateUpdate, StopDeployment, DispatchAll, ReadyRunning, Inv;
    match e {
      case GatePass(run, rank, acquisitionFailed, cancelFails, env) =>
        if row.desired == WantRunning {
          RunningKeeps(row, rank, env);
          FailKeeps(row);
          StopKeeps(FailDispatch(row), cancelFails);
        }
      case Result(op, rank, ack, env) => ResultKeeps(row, op, rank, ack, env);
      case Report(run, rank, state, diagnosed, ready) => ReportKeeps(row, run, rank, state, diagnosed, ready);
      case StopRequest(cancelFails) => StopKeeps(row, cancelFails);
      case StartRequest(planned, run) => RestartKeeps(row, planned, run);
      case Reconnect(onNode) =>
        AllKeeps(row, onNode);
        CheckKeeps(DispatchAll(row, onNode));
      case Offline(onNode, otherOnline) => OfflineKeeps(row, onNode, otherOnline);
      case TransferFailed => FailKeeps(row);
    }
  }

  lemma RunningKeeps(row: Row, rank: int, e: Env)
    requires Inv(row) && row.desired == WantRunning
    ensures Inv(ReadyRunning(row, rank, e))
  {
  }

  lemma FailKeeps(row: Row)
    ensures Inv(FailDispatch(row))
  {
  }

  lemma RestartKeeps(row: Row, ranks: seq<int>, run: nat)
    ensures Inv(Restart(row, ranks, run))
  {
  }

  lemma OfflineKeeps(row: Row, onNode: seq<int>, otherOnline: bool)
    requires Inv(row)
    ensures Inv(MarkOffline(row, onNode, otherOnline))
  {
  }

  ghost function HandleAll(row: Row, events: seq<Event>): (r: Row)
    decreases |events|
  {
    if events == [] then row else HandleAll(Handle(row, events[0]), events[1..])
  }

  lemma {:induction false} AllHandlersKeepInv(row: Row, events: seq<Event>)
    requires Inv(row)
    ensures Inv(HandleAll(row, events))
    decreases |events|
  {
    if events != [] {
      HandleKeepsInv(row, events[0]);
      AllHandlersKeepInv(Handle(row, events[0]), events[1..]);
    }
  }

  /**
   When handlers follow one another, then from creation on, through late acknowledgements, stale reports,
   retries and restarts, a start or a delete passes its guard only when every rank is recorded stopped.
   */
  lemma GuardsSeeStoppedRanks(ranks: seq<int>, run: nat, events: seq<Event>)
    ensures var row := HandleAll(New(ranks, run), events);
      && (row.observed == Stopped ==> row.desired == WantStopped)
      && (MayStart(row) || MayDelete(row) ==> AllStopped(row))
  {
    AllHandlersKeepInv(New(ranks, run), events);
  }

  // ------------------------------------------------------------ a stop completes

  /** Accepted STOP acknowledgements, one rank after another. */
  ghost function Acks(order: seq<int>, a: Ack, e: Env): (events: seq<Event>)
    ensures |events| == |order|
  {
    seq(|order|, i requires 0 <= i < |order| => Result(OpStop, order[i], a, e))
  }

  /** Once every rank has acknowledged its stop, in any order and however often, the stop is observed. */
  lemma {:induction false} StopCompletes(row: Row, order: seq<int>, a: Ack, e: Env)
    requires row.desired == WantStopped && (a.ok || a.missing)
    requires forall k :: k in row.ranks ==> k in order || Get(row, k) == PhaseStopped
    requires row.observed == Stopped || !AllStopped(row)
    requires Inv(row)
    ensures HandleAll(row, Acks(order, a, e)).observed == Stopped
    decreases |order|
  {
    if order != [] {
      var k, rest := order[0], order[1..];
      var next := Handle(row, Result(OpStop, k, a, e));
      assert Acks(order, a, e)[0] == Result(OpStop, k, a, e) && Acks(order, a, e)[1..] == Acks(rest, a, e);
      HandleKeepsInv(row, Result(OpStop, k, a, e));
      hide HandleAll, Inv;
      assert order == [k] + rest;
      if Get(row, k) != PhaseStopped {
        var marked := SetPhase(row, k, PhaseStopped);
        assert forall j :: Get(marked, j) == if j == k then PhaseStopped else Get(row, j);
        assert next == CheckStopComplete(marked);
      }
      StopCompletes(next, rest, a, e);
      HandleAllCons(row, Acks(order, a, e));
    }
  }

  lemma HandleAllCons(row: Row, events: seq<Event>)
    requires events != []
    ensures HandleAll(row, events) == HandleAll(Handle(row, events[0]), events[1..])
  {
  }

  // ------------------------------------------------------------ health

  /** A deployment is healthy exactly when every rank runs and at least one is ready. */
  lemma HealthyIffAllActive(states: map<int, string>, ranks: seq<int>)
    ensures Aggregate(states, ranks) == Healthy <==>
      && (forall k :: k in ranks ==> StateOf(states, k) == "running" || StateOf(states, k) == "ready")
      && (exists k :: k in ranks && StateOf(states, k) == "ready")
  {
    SomeReady(states, ranks);
    AllActive(states, ranks);
  }

  lemma {:induction false} SomeReady(states: map<int, string>, ranks: seq<int>)
    ensures Count(states, ranks, {"ready"}) > 0 <==> exists k :: k in ranks && StateOf(states, k) == "ready"
  {
    if ranks != [] {
      SomeReady(states, ranks[1..]);
      hide StateOf;
      assert ranks == [ranks[0]] + ranks[1..];
      assert StateOf(states, ranks[0]) in {"ready"} <==> StateOf(states, ranks[0]) == "ready";
    }
  }

  lemma {:induction false} AllActive(states: map<int, string>, ranks: seq<int>)
    ensures Count(states, ranks, {"running"}) + Count(states, ranks, {"ready"}) <= |ranks|
    ensures Count(states, ranks, {"running"}) + Count(states, ranks, {"ready"}) == |ranks| <==>
      forall k :: k in ranks ==> StateOf(states, k) == "running" || StateOf(states, k) == "ready"
  {
    if ranks != [] {
      AllActive(states, ranks[1..]);
      hide StateOf;
      assert ranks == [ranks[0]] + ranks[1..];
      var here := StateOf(states, ranks[0]);
      assert here in {"ready"} <==> here == "ready";
      assert here in {"running"} <==> here == "running";
      assert |"running"| != |"ready"|;
    }
  }

  // ------------------------------------------------------------ a confirmed stop holds

  /** What may reopen a confirmed stop: a restart, a container that is up, a failed transfer. */
  ghost predicate Disturbs(row: Row, e: Event) {
    || e.StartRequest?
    || (e.Report? && e.run == row.run && Alive(e.state))
    || e.TransferFailed?
  }

  ghost predicate Placed(row: Row, e: Event) {
    match e
    case GatePass(_, rank, _, _, _) => rank in row.ranks
    case Result(_, rank, _, _) => rank in row.ranks
    case Report(_, rank, _, _, _) => rank in row.ranks
    case _ => true
  }

  /** Nothing else about a placed rank does, and each of the three does. */
  lemma ConfirmedStopHolds(row: Row, e: Event)
    requires Inv(row) && row.observed == Stopped && Placed(row, e)
    ensures Handle(row, e).observed == Stopped <==> !Disturbs(row, e)
  {
    match e {
      case Report(run, rank, state, diagnosed, ready) =>
        assert Get(row, rank) == PhaseStopped;
        if run == row.run && Terminal(state) {
          SetStoppedKeeps(SetState(row, rank, state), rank);
          assert AllStopped(SetPhase(SetState(row, rank, state), rank, PhaseStopped));
        }
      case _ =>
    }
  }

  /** Between the two statements of a live report the bookkeeping does not hold yet. */
  lemma LiveReportWindow(row: Row, rank: int)
    requires Inv(row) && row.observed == Stopped && rank in row.ranks
    ensures !Inv(SetPhase(row, rank, PhaseStopping))
    ensures Inv(SetStopping(SetPhase(row, rank, PhaseStopping)))
  {
    assert Get(SetPhase(row, rank, PhaseStopping), rank) == PhaseStopping;
  }
}
