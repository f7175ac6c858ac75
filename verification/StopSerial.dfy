/**
 A handler that no other goroutine interrupts does exactly what `StopBookkeeping` says of it in one step,
 so its theorems hold of all runs in which handlers follow one another.
 */
module StopSerial {
  import opened Prelude
  import opened StopBookkeeping
  import opened StopInterleavings

  /** What an action amounts to when nothing comes between its statements. */
  function Does(row: Row, a: Action, env: Env): (r: Row) {
    match a
    case Enter(e) => Handle(row, e)
    case Ready(rank) => DispatchReady(row, rank, env)
    case Next(rank) => DispatchNext(row, rank)
    case Wake => WakeHead(row)
    case Summarise(ranks) => row.(observed := Aggregate(row.states, ranks))
    case Put(rank, to) => SetPhase(row, rank, to)
    case Check => CheckStopComplete(row)
    case _ => Written(row, a)
  }

  function DoesAll(row: Row, actions: seq<Action>, env: Env): (r: Row)
    decreases |actions|
  {
    if actions == [] then row else DoesAll(Does(row, actions[0], env), actions[1..], env)
  }

  lemma {:induction false} DoesConcat(row: Row, a: seq<Action>, b: seq<Action>, env: Env)
    ensures DoesAll(row, a + b, env) == DoesAll(DoesAll(row, a, env), b, env)
    decreases |a|
  {
    if a == [] {
      assert a + b == b;
    } else {
      assert (a + b)[1..] == a[1..] + b;
      DoesConcat(Does(row, a[0], env), a[1..], b, env);
    }
  }

  lemma DoesTwo(row: Row, a: Action, b: Action, env: Env)
    ensures DoesAll(row, [a], env) == Does(row, a, env)
    ensures DoesAll(row, [a, b], env) == Does(Does(row, a, env), b, env)
  {
    hide Does;
    var one, two := [a], [a, b];
    assert one[1..] == [] && two[1..] == [b] && [b][1..] == [];
    assert DoesAll(Does(row, a, env), [b], env) == DoesAll(Does(Does(row, a, env), b, env), [], env);
  }

  lemma {:induction false} NextsDispatch(row: Row, ranks: seq<int>, env: Env)
    ensures DoesAll(row, Nexts(ranks), env) == DispatchAll(row, ranks)
  {
    if ranks != [] {
      var front, last := ranks[..|ranks| - 1], ranks[|ranks| - 1];
      NextsDispatch(row, front, env);
      assert Nexts(ranks) == Nexts(front) + [Next(last)];
      DoesConcat(row, Nexts(front), [Next(last)], env);
      DoesTwo(DispatchAll(row, front), Next(last), Next(last), env);
    }
  }

  lemma FailDoes(row: Row, env: Env)
    ensures DoesAll(row, FAIL, env) == FailDispatch(row) && DoesAll(row, [], env) == row
  {
    DoesTwo(row, Observe(Failed), Observe(Failed), env);
  }

  lemma PutDoes(row: Row, rank: int, p: Phase, env: Env)
    ensures DoesAll(row, [Put(rank, p)], env) == SetPhase(row, rank, p)
    ensures DoesAll(row, [Put(rank, p)] + FAIL, env) == FailDispatch(SetPhase(row, rank, p))
    ensures row.desired == WantRunning ==> DoesAll(row, [Put(rank, p), Next(rank)], env) == SetPhase(row, rank, p)
  {
    DoesTwo(row, Put(rank, p), Observe(Failed), env);
    DoesTwo(row, Put(rank, p), Next(rank), env);
    assert [Put(rank, p)] + FAIL == [Put(rank, p), Observe(Failed)];
  }

  lemma ExtensionDoes(row: Row, rank: int, p: Phase, e: Env, env: Env)
    ensures var (sent, failed) := SendExtension(row, rank, p, e);
      && DoesAll(row, ExtensionActions(rank, p, e, []), env) == sent
      && DoesAll(row, ExtensionActions(rank, p, e, FAIL), env) == if failed then FailDispatch(sent) else sent
  {
    hide DoesAll;
    FailDoes(row, env);
    PutDoes(row, rank, p, env);
    assert [Put(rank, p)] + [] == [Put(rank, p)];
  }

  lemma RunningDoes(row: Row, rank: int, env: Env)
    requires row.desired == WantRunning
    ensures DoesAll(row, RunningActions(Get(row, rank), rank, env), env) == ReadyRunning(row, rank, env)
  {
    hide DoesAll, ExtensionActions, SendExtension, FailDispatch;
    FailDoes(row, env);
    ExtensionDoes(row, rank, PhasePreparing, env, env);
    ExtensionDoes(row, rank, PhaseVerifying, env, env);
    PutDoes(row, rank, PhaseHostPreparing, env);
    PutDoes(row, rank, PhasePrepared, env);
    PutDoes(row, rank, PhasePulled, env);
    PutDoes(row, rank, PhaseHostPrepared, env);
  }

  lemma StoppedDoes(row: Row, rank: int, env: Env)
    ensures DoesAll(row, StoppedActions(Get(row, rank), rank), env) == ReadyStopped(row, rank)
  {
    DoesTwo(row, Put(rank, PhaseStopped), Check, env);
    DoesTwo(row, Put(rank, PhaseStopping), Send(rank), env);
    DoesTwo(row, Send(rank), Send(rank), env);
  }

  lemma AdvancingDoes(row: Row, rank: int, p: Phase, env: Env)
    ensures DoesAll(row, Advancing(rank, p), env) == Advance(row, rank, p)
    ensures DoesAll(row, Advancing(rank, p) + [Wake], env) == WakeHead(Advance(row, rank, p))
  {
    DoesTwo(row, Put(rank, p), Next(rank), env);
    DoesConcat(row, Advancing(rank, p), [Wake], env);
    DoesTwo(Advance(row, rank, p), Wake, Wake, env);
  }

  lemma ConfirmingDoes(row: Row, rank: int, env: Env)
    ensures DoesAll(row, Confirming(rank), env) == ConfirmStopped(row, rank)
  {
    DoesTwo(row, Put(rank, PhaseStopped), Check, env);
  }

  lemma InspectDoes(row: Row, rank: int, state: string, diagnosed: bool, ready: bool, env: Env)
    ensures DoesAll(row, [Enter(Report(row.run, rank, state, diagnosed, ready))], env)
         == OnStateUpdate(row, row.run, rank, state, diagnosed, ready)
  {
    hide OnStateUpdate;
    DoesTwo(row, Enter(Report(row.run, rank, state, diagnosed, ready)), Wake, env);
  }

  lemma ResultDoes(row: Row, op: Op, rank: int, a: Ack, e: Env, env: Env)
    ensures DoesAll(row, ResultActions(row, op, rank, a, e), env) == OnCommandResult(row, op, rank, a, e)
  {
    hide DoesAll, Advancing, Confirming, WakeHead, OnStateUpdate, DispatchNext, ConfirmStopped, FailDispatch;
    forall p ensures DoesAll(row, Advancing(rank, p), env) == Advance(row, rank, p) { AdvancingDoes(row, rank, p, env); }
    AdvancingDoes(row, rank, PhaseStarted, env);
    ConfirmingDoes(row, rank, env);
    FailDoes(row, env);
    InspectDoes(row, rank, a.state, a.diagnosed, a.ready, env);
    InspectDoes(row, rank, "missing", a.diagnosed, a.ready, env);
  }

  lemma FailureDoes(row: Row, rank: int, state: string, env: Env)
    ensures var first := [MarkStopping, Remember(rank, state), Put(rank, PhaseStopped)];
      DoesAll(row, first + Nexts(Others(row.ranks, rank)) + [Check], env) == FailWorkload(row, rank, state)
  {
    hide DoesAll, DispatchAll, Others, CheckStopComplete, Nexts, Handle, DispatchReady, WakeHead, Aggregate;
    var first := [MarkStopping, Remember(rank, state), Put(rank, PhaseStopped)];
    var others := Others(row.ranks, rank);
    var down := SetPhase(SetState(SetStopping(row), rank, state), rank, PhaseStopped);
    assert first == [MarkStopping, Remember(rank, state)] + [Put(rank, PhaseStopped)];
    DoesConcat(row, [MarkStopping, Remember(rank, state)], [Put(rank, PhaseStopped)], env);
    DoesTwo(row, MarkStopping, Remember(rank, state), env);
    DoesTwo(SetState(SetStopping(row), rank, state), Put(rank, PhaseStopped), Check, env);
    DoesConcat(row, first, Nexts(others), env);
    NextsDispatch(down, others, env);
    DoesConcat(row, first + Nexts(others), [Check], env);
    DoesTwo(DispatchAll(down, others), Check, Check, env);
  }

  lemma ReportDoes(row: Row, run: nat, rank: int, state: string, diagnosed: bool, ready: bool, env: Env)
    ensures DoesAll(row, ReportActions(row, run, rank, state, diagnosed, ready), env)
         == OnStateUpdate(row, run, rank, state, diagnosed, ready)
  {
    DoesNone(row, env);
    hide DoesAll;
    if run == row.run && row.desired == WantStopped {
      StoppedReportDoes(row, rank, state, env);
      hide DispatchNext, ConfirmStopped;
    } else if run == row.run && Terminal(state) {
      FailureDoes(row, rank, state, env);
      hide FailWorkload;
    } else if run == row.run {
      SeenDoes(row, run, rank, state, diagnosed, ready, env);
    }
  }

  lemma DoesNone(row: Row, env: Env)
    ensures DoesAll(row, [], env) == row
  {
  }

  lemma SeenDoes(row: Row, run: nat, rank: int, state: string, diagnosed: bool, ready: bool, env: Env)
    requires run == row.run && row.desired == WantRunning && !Terminal(state)
    ensures DoesAll(row, ReportActions(row, run, rank, state, diagnosed, ready), env)
         == OnStateUpdate(row, run, rank, state, diagnosed, ready)
  {
    hide DoesAll, Aggregate, WakeHead, Terminal;
    var rankState := if diagnosed then "degraded"
      else if state == "running" && rank == 0 then if ready then "ready" else "created"
      else state;
    var wake := if state == "observing" || state == "running" then [Wake] else [];
    var seen := SetState(row, rank, rankState);
    var observed := seen.(observed := Aggregate(seen.states, row.ranks));
    DoesTwo(row, Remember(rank, rankState), Summarise(row.ranks), env);
    DoesConcat(row, [Remember(rank, rankState), Summarise(row.ranks)], wake, env);
    DoesTwo(observed, Wake, Wake, env);
    DoesNone(observed, env);
  }

  lemma StoppedReportDoes(row: Row, rank: int, state: string, env: Env)
    ensures DoesAll(row, [Remember(rank, state)] + Confirming(rank), env) == ConfirmStopped(SetState(row, rank, state), rank)
    ensures DoesAll(row, [Remember(rank, "stopping"), Put(rank, PhaseStopping), MarkStopping, Next(rank)], env)
         == DispatchNext(SetStopping(SetPhase(SetState(row, rank, "stopping"), rank, PhaseStopping)), rank)
  {
    hide DoesAll, DispatchNext, ConfirmStopped, Handle, DispatchReady, WakeHead, Aggregate;
    DoesConcat(row, [Remember(rank, state)], Confirming(rank), env);
    DoesTwo(row, Remember(rank, state), Check, env);
    ConfirmingDoes(SetState(row, rank, state), rank, env);
    var live := [Remember(rank, "stopping"), Put(rank, PhaseStopping), MarkStopping, Next(rank)];
    assert live == [Remember(rank, "stopping"), Put(rank, PhaseStopping)] + [MarkStopping, Next(rank)];
    DoesConcat(row, [Remember(rank, "stopping"), Put(rank, PhaseStopping)], [MarkStopping, Next(rank)], env);
    DoesTwo(row, Remember(rank, "stopping"), Put(rank, PhaseStopping), env);
    DoesTwo(SetPhase(SetState(row, rank, "stopping"), rank, PhaseStopping), MarkStopping, Next(rank), env);
  }

  lemma StopDoes(row: Row, env: Env)
    ensures DoesAll(row, [MarkStopping] + Nexts(row.ranks) + [Check], env)
         == CheckStopComplete(DispatchAll(SetStopping(row), row.ranks))
  {
    var mark, nexts := [MarkStopping], Nexts(row.ranks);
    DoesTwo(row, MarkStopping, Check, env);
    DoesConcat(row, mark, nexts, env);
    NextsDispatch(SetStopping(row), row.ranks, env);
    DoesConcat(row, mark + nexts, [Check], env);
    DoesTwo(DispatchAll(SetStopping(row), row.ranks), Check, Check, env);
    hide DoesAll, Nexts, DispatchAll, CheckStopComplete;
  }

  lemma {:induction false} RunningDispatch(row: Row, ranks: seq<int>)
    requires row.desired == WantRunning
    ensures DispatchAll(row, ranks) == row
  {
    if ranks != [] { RunningDispatch(row, ranks[..|ranks| - 1]); }
  }

  lemma StartDoes(row: Row, planned: seq<int>, run: nat, now: nat, env: Env)
    ensures DoesAll(row, [Commit(planned, run, now)] + Nexts(planned), env) == Restart(row, planned, run)
  {
    hide DoesAll, Nexts, DispatchAll;
    DoesConcat(row, [Commit(planned, run, now)], Nexts(planned), env);
    DoesTwo(row, Commit(planned, run, now), Check, env);
    NextsDispatch(Restart(row, planned, run), planned, env);
    RunningDispatch(Restart(row, planned, run), planned);
  }

  lemma ReconnectDoes(row: Row, onNode: seq<int>, env: Env)
    ensures DoesAll(row, Nexts(onNode) + [], env) == DispatchAll(row, onNode)
    ensures DoesAll(row, Nexts(onNode) + [Check], env) == CheckStopComplete(DispatchAll(row, onNode))
  {
    NextsDispatch(row, onNode, env);
    assert Nexts(onNode) + [] == Nexts(onNode);
    DoesConcat(row, Nexts(onNode), [Check], env);
    DoesTwo(DispatchAll(row, onNode), Check, Check, env);
  }

  /** A gate pass asks its own environment. */
  predicate Answers(env: Env, a: Action) { a.Enter? && a.e.GatePass? ==> a.e.env == env }

  lemma ProgramDoes(row: Row, e: Event, now: nat, env: Env)
    requires Answers(env, Enter(e))
    ensures DoesAll(row, Program(row, e, now), env) == Handle(row, e)
  {
    hide DispatchReady, StopDeployment, DispatchAll, ResultActions, ReportActions, OnCommandResult, OnStateUpdate;
    hide CheckStopComplete, MarkOffline;
    match e {
      case GatePass(run, rank, acquisitionFailed, cancelFails, _) =>
        DoesTwo(row, Observe(Failed), Enter(StopRequest(cancelFails)), env);
        DoesTwo(row, Ready(rank), Check, env);
      case Result(op, rank, ack, own) => ResultDoes(row, op, rank, ack, own, env);
      case Report(run, rank, state, diagnosed, ready) => ReportDoes(row, run, rank, state, diagnosed, ready, env);
      case StopRequest(cancelFails) => StopRequestDoes(row, cancelFails, now, env);
      case StartRequest(planned, run) => StartDoes(row, planned, run, now, env);
      case Reconnect(onNode) => ReconnectDoes(row, onNode, env);
      case Offline(onNode, otherOnline) => DoesTwo(row, GoOffline(onNode, otherOnline), Check, env);
      case TransferFailed => DoesTwo(row, Observe(Failed), Check, env);
    }
  }

  lemma StopRequestDoes(row: Row, cancelFails: bool, now: nat, env: Env)
    ensures DoesAll(row, Program(row, StopRequest(cancelFails), now), env) == StopDeployment(row, cancelFails)
  {
    StopDoes(row, env);
    DoesTwo(row, MarkStopping, Check, env);
    hide DispatchAll, CheckStopComplete;
  }

  // ------------------------------------------------------------ a goroutine on its own

  /** `n` steps of goroutine `t` alone. */
  ghost predicate Alone(w: World, t: nat, env: Env, n: nat, last: World)
    decreases n
  {
    if n == 0 then last == w
    else Enabled(w, Go(t, env)) && Alone(Apply(w, Go(t, env)), t, env, n - 1, last)
  }

  lemma {:induction false} AloneThen(w: World, t: nat, env: Env, n: nat, mid: World, m: nat, last: World)
    requires Alone(w, t, env, n, mid) && Alone(mid, t, env, m, last)
    ensures Alone(w, t, env, n + m, last)
    decreases n
  {
    hide Apply, Enabled;
    if n > 0 { AloneThen(Apply(w, Go(t, env)), t, env, n - 1, mid, m, last); }
  }

  /** `t` is about to do `a` and then `rest`, and nobody holds the lock. */
  ghost predicate Poised(w: World, t: nat, todo: seq<Action>) {
    !w.gone && w.holder == None && t in w.threads && w.threads[t] == todo
  }

  /** Everything but the row, the log and what `t` still does is as before. */
  ghost predicate Done(w: World, t: nat, rest: seq<Action>, row: Row, last: World) {
    last == w.(row := row, threads := w.threads[t := rest], log := last.log)
  }

  lemma PutAlone(w: World, t: nat, env: Env, rank: int, to: Phase, rest: seq<Action>) returns (last: World)
    requires Poised(w, t, [Put(rank, to)] + rest)
    ensures Alone(w, t, env, 2, last) && Done(w, t, rest, SetPhase(w.row, rank, to), last)
  {
    var mid := Apply(w, Go(t, env));
    assert mid.threads[t] == [Store(w.row.phases[rank := to])] + rest;
    last := Apply(mid, Go(t, env));
    assert Alone(last, t, env, 0, last) && Alone(mid, t, env, 1, last);
  }

  lemma CheckAlone(w: World, t: nat, env: Env, rest: seq<Action>) returns (n: nat, last: World)
    requires Poised(w, t, [Check] + rest)
    ensures Alone(w, t, env, n, last) && Done(w, t, rest, CheckStopComplete(w.row), last)
  {
    var mid := Apply(w, Go(t, env));
    if AllStopped(w.row) {
      var next := Apply(mid, Go(t, env));
      n, last := 3, Apply(next, Go(t, env));
      assert Alone(last, t, env, 0, last) && Alone(next, t, env, 1, last) && Alone(mid, t, env, 2, last);
    } else {
      n, last := 1, mid;
      assert Alone(last, t, env, 0, last);
    }
  }

  predicate Plain(a: Action) {
    a.MarkStopping? || a.Observe? || a.Remember? || a.Send? || a.GoOffline? || a.Commit?
  }

  lemma PlainAlone(w: World, t: nat, env: Env, a: Action, rest: seq<Action>) returns (last: World)
    requires Poised(w, t, [a] + rest) && Plain(a)
    ensures Alone(w, t, env, 1, last) && Done(w, t, rest, Written(w.row, a), last)
  {
    last := Apply(w, Go(t, env));
    assert ([a] + rest)[1..] == rest;
    assert Alone(last, t, env, 0, last);
  }

  lemma ReadAlone(w: World, t: nat, env: Env, a: Action, rest: seq<Action>) returns (last: World)
    requires Poised(w, t, [a] + rest) && Reads(a)
    ensures Alone(w, t, env, 1, last) && last == w.(threads := w.threads[t := Expand(w.row, a, env, |w.log|) + rest])
  {
    hide Expand;
    last := Apply(w, Go(t, env));
    assert ([a] + rest)[1..] == rest;
    assert Alone(last, t, env, 0, last);
  }

  /** How often a handler may call another one. */
  function Depth(a: Action): (d: nat) {
    match a
    case Enter(e) => if e.GatePass? || e.Result? then 5 else 4
    case Wake => 3
    case Next(_) => 2
    case Ready(_) => 1
    case Summarise(_) => 1
    case _ => 0
  }

  /** Neither a delete nor a note, nor a write whose first half is past. */
  predicate Whole(a: Action) { Plain(a) || a.Put? || a.Check? || (Reads(a) && !a.AskDelete? && !a.Note?) }

  lemma ExpandDoes(row: Row, a: Action, env: Env, now: nat)
    requires Reads(a) && Whole(a) && Answers(env, a)
    ensures DoesAll(row, Expand(row, a, env, now), env) == Does(row, a, env)
  {
    hide DoesAll;
    DoesNone(row, env);
    match a {
      case Enter(e) => ProgramDoes(row, e, now, env);
      case Ready(rank) =>
        if row.desired == WantRunning { RunningDoes(row, rank, env); } else { StoppedDoes(row, rank, env); }
        hide ReadyRunning, ReadyStopped, RunningActions, StoppedActions;
      case Next(rank) =>
        hide ReadyStopped;
        DoesTwo(row, Ready(rank), Check, env);
      case Wake =>
        hide DispatchNext;
        DoesTwo(row, Next(0), Check, env);
      case Summarise(ranks) => DoesTwo(row, Observe(Aggregate(row.states, ranks)), Check, env);
    }
  }

  ghost predicate Shallow(actions: seq<Action>, d: nat) {
    forall x :: x in actions ==> Whole(x) && Depth(x) < d && (x.Enter? ==> !x.e.GatePass?)
  }

  lemma ProgramShallow(row: Row, e: Event, now: nat)
    ensures Shallow(Program(row, e, now), Depth(Enter(e)))
  {
    if e.Result? { ResultShallow(row, e.op, e.rank, e.ack, e.env); }
    if e.Report? { ReportShallow(row, e.run, e.rank, e.state, e.diagnosed, e.ready); }
    hide ResultActions, ReportActions;
  }

  lemma ResultShallow(row: Row, op: Op, rank: int, a: Ack, e: Env)
    ensures Shallow(ResultActions(row, op, rank, a, e), 5)
  {
  }

  lemma ReportShallow(row: Row, run: nat, rank: int, state: string, diagnosed: bool, ready: bool)
    ensures Shallow(ReportActions(row, run, rank, state, diagnosed, ready), 4)
  {
  }

  lemma ExpandShallow(row: Row, a: Action, env: Env, now: nat)
    requires Reads(a) && Whole(a) && !(a.Ready? && row.desired == WantRunning)
    ensures Shallow(Expand(row, a, env, now), Depth(a))
  {
    if a.Enter? { ProgramShallow(row, a.e, now); }
    hide Program, Aggregate;
  }

  /** While the deployment is to run, dispatching a rank only wakes its gate. */
  ghost predicate Calm(actions: seq<Action>) {
    forall x :: x in actions ==> x.Put? || x.Observe? || x.Next?
  }

  lemma RunningCalm(p: Phase, rank: int, env: Env)
    ensures Calm(RunningActions(p, rank, env))
  {
  }

  lemma StepDone(w: World, t: nat, env: Env, todo: seq<Action>, rest: seq<Action>, n: nat, mid: World, m: nat,
                 last: World, row: Row)
    requires todo != [] && Alone(w, t, env, n, mid) && Done(w, t, todo[1..] + rest, row, mid)
    requires Alone(mid, t, env, m, last) && Done(mid, t, rest, DoesAll(row, todo[1..], env), last)
    requires row == Does(w.row, todo[0], env)
    ensures Alone(w, t, env, n + m, last) && Done(w, t, rest, DoesAll(w.row, todo, env), last)
  {
    AloneThen(w, t, env, n, mid, m, last);
    hide Alone, Does;
  }

  lemma DonePoised(w: World, t: nat, todo: seq<Action>, rest: seq<Action>, row: Row, mid: World)
    requires Poised(w, t, todo) && Done(w, t, rest, row, mid)
    ensures Poised(mid, t, rest) && mid.row == row
  {
  }

  lemma NothingAlone(w: World, t: nat, env: Env, rest: seq<Action>)
    requires Poised(w, t, [] + rest)
    ensures Alone(w, t, env, 0, w) && Done(w, t, rest, DoesAll(w.row, [], env), w)
  {
    assert [] + rest == rest;
  }

  lemma {:induction false} CalmAlone(w: World, t: nat, env: Env, todo: seq<Action>, rest: seq<Action>)
    returns (n: nat, last: World)
    requires Poised(w, t, todo + rest) && Calm(todo) && w.row.desired == WantRunning
    ensures Alone(w, t, env, n, last) && Done(w, t, rest, DoesAll(w.row, todo, env), last)
    decreases |todo|
  {
    hide Alone, DoesAll;
    if todo == [] {
      n, last := 0, w;
      NothingAlone(w, t, env, rest);
    } else {
      var a, more := todo[0], todo[1..] + rest;
      assert todo + rest == [a] + more;
      assert forall x :: x in todo[1..] ==> x in todo;
      var k, mid;
      if a.Put? {
        mid := PutAlone(w, t, env, a.rank, a.to, more);
        k := 2;
      } else if a.Observe? {
        mid := PlainAlone(w, t, env, a, more);
        k := 1;
      } else {
        mid := ReadAlone(w, t, env, a, more);
        assert [] + more == more;
        k := 1;
      }
      assert Done(w, t, more, Does(w.row, a, env), mid) && mid.row.desired == WantRunning;
      hide Does;
      DonePoised(w, t, [a] + more, more, Does(w.row, a, env), mid);
      hide Poised, Done;
      var m;
      m, last := CalmAlone(mid, t, env, todo[1..], rest);
      StepDone(w, t, env, todo, rest, k, mid, m, last, mid.row);
      n := k + m;
    }
  }

  lemma {:induction false} SeqAlone(w: World, t: nat, env: Env, todo: seq<Action>, rest: seq<Action>, d: nat)
    returns (n: nat, last: World)
    requires Poised(w, t, todo + rest) && Shallow(todo, d)
    ensures Alone(w, t, env, n, last) && Done(w, t, rest, DoesAll(w.row, todo, env), last)
    decreases d, 0, |todo|
  {
    hide Alone, Does, DoesAll, Poised, Done, Depth, Whole;
    if todo == [] {
      n, last := 0, w;
      NothingAlone(w, t, env, rest);
    } else {
      var a, more := todo[0], todo[1..] + rest;
      assert todo + rest == [a] + more && a in todo;
      assert forall x :: x in todo[1..] ==> x in todo;
      var k, mid := ActionAlone(w, t, env, a, more);
      DonePoised(w, t, [a] + more, more, Does(w.row, a, env), mid);
      var m;
      m, last := SeqAlone(mid, t, env, todo[1..], rest, d);
      StepDone(w, t, env, todo, rest, k, mid, m, last, mid.row);
      n := k + m;
    }
  }

  /** An action nobody interrupts does what it amounts to. */
  lemma {:induction false} ActionAlone(w: World, t: nat, env: Env, a: Action, rest: seq<Action>)
    returns (n: nat, last: World)
    requires Poised(w, t, [a] + rest) && Whole(a) && Answers(env, a)
    ensures Alone(w, t, env, n, last) && Done(w, t, rest, Does(w.row, a, env), last)
    decreases Depth(a), 2, 0
  {
    hide Alone, Poised, Done, DoesAll, Expand, Handle, DispatchReady, DispatchNext, WakeHead, Aggregate, CheckStopComplete;
    if a.Put? {
      last := PutAlone(w, t, env, a.rank, a.to, rest);
      n := 2;
    } else if a.Check? {
      n, last := CheckAlone(w, t, env, rest);
    } else if Plain(a) {
      last := PlainAlone(w, t, env, a, rest);
      n := 1;
    } else {
      n, last := ReaderAlone(w, t, env, a, rest);
    }
  }

  lemma ReadPoised(w: World, t: nat, todo: seq<Action>, next: seq<Action>, mid: World)
    requires Poised(w, t, todo) && mid == w.(threads := w.threads[t := next])
    ensures Poised(mid, t, next) && mid.row == w.row
  {
  }

  lemma ReadDone(w: World, t: nat, next: seq<Action>, mid: World, rest: seq<Action>, row: Row, last: World)
    requires mid == w.(threads := w.threads[t := next]) && Done(mid, t, rest, row, last)
    ensures Done(w, t, rest, row, last)
  {
  }

  lemma {:induction false} ReaderAlone(w: World, t: nat, env: Env, a: Action, rest: seq<Action>)
    returns (n: nat, last: World)
    requires Poised(w, t, [a] + rest) && Whole(a) && Answers(env, a) && Reads(a)
    ensures Alone(w, t, env, n, last) && Done(w, t, rest, Does(w.row, a, env), last)
    decreases Depth(a), 1, 0
  {
    var mid := ReadAlone(w, t, env, a, rest);
    var todo := Expand(w.row, a, env, |w.log|);
    ExpandDoes(w.row, a, env, |w.log|);
    ReadPoised(w, t, [a] + rest, todo + rest, mid);
    hide Alone, Poised, Done, Does, DoesAll, Shallow, Calm;
    var m;
    if a.Ready? && w.row.desired == WantRunning {
      RunningCalm(Get(w.row, a.rank), a.rank, env);
      assert todo == RunningActions(Get(w.row, a.rank), a.rank, env);
      m, last := CalmAlone(mid, t, env, todo, rest);
    } else {
      ExpandShallow(w.row, a, env, |w.log|);
      hide Expand;
      m, last := SeqAlone(mid, t, env, todo, rest, Depth(a));
    }
    ReadDone(w, t, todo + rest, mid, rest, Does(w.row, a, env), last);
    AloneThen(w, t, env, 1, mid, m, last);
    n := 1 + m;
  }

  /** A handler that arrives and is not interrupted changes the row as its one step does, and then is through. */
  lemma HandlerAlone(w: World, t: nat, e: Event, env: Env) returns (n: nat, last: World)
    requires !w.gone && w.holder == None && t !in w.threads && (e.GatePass? ==> e.env == env)
    ensures Alone(Apply(w, Arrive(t, Enter(e))), t, env, n, last)
    ensures last.row == Handle(w.row, e) && last.threads == w.threads[t := []] && last.holder == None && !last.gone
  {
    var mid := Apply(w, Arrive(t, Enter(e)));
    assert mid.threads[t] == [Enter(e)] + [];
    hide Apply, Handle;
    n, last := ActionAlone(mid, t, env, Enter(e), []);
  }
}
