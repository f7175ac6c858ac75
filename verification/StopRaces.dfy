/**
 Runs in which handlers do interrupt one another and the stopped bookkeeping breaks, some of them for good:
 after all handlers have returned the deployment passes for stopped while a rank is not.
 */
module StopRaces {
  import opened Prelude
  import opened StopBookkeeping
  import opened StopInterleavings
  import opened StopSerial

  lemma {:induction false} RunsConcat(w: World, a: seq<Step>, mid: World, b: seq<Step>, last: World)
    requires Runs(w, a, mid) && Runs(mid, b, last)
    ensures Runs(w, a + b, last)
    decreases |a|
  {
    hide Apply, Enabled;
    if a == [] {
      assert a + b == b;
    } else {
      assert (a + b)[1..] == a[1..] + b;
      RunsConcat(Apply(w, a[0]), a[1..], mid, b, last);
    }
  }

  function Gos(t: nat, env: Env, n: nat): (steps: seq<Step>) { seq(n, _ => Go(t, env)) }

  lemma {:induction false} AloneRuns(w: World, t: nat, env: Env, n: nat, last: World)
    requires Alone(w, t, env, n, last)
    ensures Runs(w, Gos(t, env, n), last)
    decreases n
  {
    hide Apply, Enabled;
    if n > 0 {
      AloneRuns(Apply(w, Go(t, env)), t, env, n - 1, last);
      assert Gos(t, env, n)[1..] == Gos(t, env, n - 1);
    }
  }

  lemma OneStep(w: World, steps: seq<Step>, mid: World, s: Step)
    requires Runs(w, steps, mid) && Enabled(mid, s)
    ensures Runs(w, steps + [s], Apply(mid, s))
  {
    hide Apply, Enabled;
    assert [s][1..] == [];
    assert Runs(Apply(mid, s), [], Apply(mid, s));
    RunsConcat(w, steps, mid, [s], Apply(mid, s));
  }

  /** A whole handler, uninterrupted. */
  lemma ThenHandler(w: World, steps: seq<Step>, mid: World, t: nat, e: Event, env: Env)
    returns (more: seq<Step>, last: World)
    requires Runs(w, steps, mid) && !mid.gone && mid.holder == None && t !in mid.threads
    requires (e.GatePass? ==> e.env == env)
    ensures Runs(w, more, last)
    ensures last.row == Handle(mid.row, e) && last.threads == mid.threads[t := []] && last.holder == None && !last.gone
  {
    OneStep(w, steps, mid, Arrive(t, Enter(e)));
    var n;
    n, last := HandlerAlone(mid, t, e, env);
    hide Apply, Enabled, Handle;
    AloneRuns(Apply(mid, Arrive(t, Enter(e))), t, env, n, last);
    more := (steps + [Arrive(t, Enter(e))]) + Gos(t, env, n);
    RunsConcat(w, steps + [Arrive(t, Enter(e))], Apply(mid, Arrive(t, Enter(e))), Gos(t, env, n), last);
  }

  lemma ThenAction(w: World, steps: seq<Step>, mid: World, t: nat, a: Action, rest: seq<Action>, env: Env)
    returns (more: seq<Step>, last: World)
    requires Runs(w, steps, mid) && Poised(mid, t, [a] + rest) && Whole(a) && Answers(env, a)
    ensures Runs(w, more, last) && Done(mid, t, rest, Does(mid.row, a, env), last)
  {
    var n;
    n, last := ActionAlone(mid, t, env, a, rest);
    hide Does;
    AloneRuns(mid, t, env, n, last);
    more := steps + Gos(t, env, n);
    RunsConcat(w, steps, mid, Gos(t, env, n), last);
  }

  /** A handler arrives and reads. */
  lemma ThenRead(w: World, before: seq<Step>, mid: World, t: nat, a: Action, env: Env)
    returns (steps: seq<Step>, last: World)
    requires Runs(w, before, mid) && !mid.gone && t !in mid.threads && (a.Enter? || a.Note?)
    ensures Runs(w, steps, last) && last == mid.(threads := mid.threads[t := Expand(mid.row, a, env, |mid.log|)])
  {
    hide Expand;
    OneStep(w, before, mid, Arrive(t, a));
    var b := Apply(mid, Arrive(t, a));
    OneStep(w, before + [Arrive(t, a)], b, Go(t, env));
    steps, last := before + [Arrive(t, a)] + [Go(t, env)], Apply(b, Go(t, env));
    var todo := Expand(mid.row, a, env, |mid.log|);
    assert [a][1..] == [] && todo + [] == todo;
    assert last.threads == mid.threads[t := todo];
  }

  lemma ThenPut(w: World, before: seq<Step>, mid: World, t: nat, rank: int, to: Phase, rest: seq<Action>, env: Env)
    returns (steps: seq<Step>, last: World)
    requires Runs(w, before, mid) && Poised(mid, t, [Put(rank, to)] + rest)
    ensures Runs(w, steps, last)
    ensures last == mid.(row := SetPhase(mid.row, rank, to), threads := mid.threads[t := rest], log := last.log)
  {
    hide Runs;
    steps, last := ThenAction(w, before, mid, t, Put(rank, to), rest, env);
  }

  lemma ThenWrite(w: World, before: seq<Step>, mid: World, t: nat, a: Action, rest: seq<Action>, env: Env)
    returns (steps: seq<Step>, last: World)
    requires Runs(w, before, mid) && Poised(mid, t, [a] + rest) && (a.Observe? || a.Remember?)
    ensures Runs(w, steps, last)
    ensures last == mid.(row := Written(mid.row, a), threads := mid.threads[t := rest], log := last.log)
  {
    hide Runs;
    steps, last := ThenAction(w, before, mid, t, a, rest, env);
  }

  /** The deployment passes for stopped, nobody is at work on it, and `t`, `u`, `v` are new. */
  ghost predicate AtRest(w: World, fresh_: set<nat>) {
    && Inv(w.row) && w.row.observed == Stopped && !w.gone && w.holder == None && w.threads.Keys !! fresh_
  }

  /** Start and delete pass although a placed rank is not recorded stopped. */
  ghost predicate Deceived(row: Row, k: int) {
    MayStart(row) && MayDelete(row) && k in row.ranks && Get(row, k) != PhaseStopped
  }

  /** A rank that never went further than preparing, or is stopped. */
  ghost predicate Early(row: Row, ranks: seq<int>) {
    forall k :: k in ranks ==> Get(row, k) in {PhaseNone, PhasePrepared, PhaseStopped}
  }

  lemma {:induction false} EarlyStops(row: Row, order: seq<int>)
    requires row.desired == WantStopped && Early(row, order)
    ensures var r := DispatchAll(row, order);
      && r.desired == WantStopped && r.ranks == row.ranks
      && forall k :: Get(r, k) == if k in order then PhaseStopped else Get(row, k)
  {
    if order != [] {
      var front, last := order[..|order| - 1], order[|order| - 1];
      assert order == front + [last];
      assert forall k :: k in front ==> k in order;
      EarlyStops(row, front);
      assert last in order;
    }
  }

  /** A stop before any container exists is confirmed at once. */
  lemma EarlyStopCompletes(row: Row)
    requires Early(row, row.ranks) && row.desired == WantRunning
    ensures StopDeployment(row, false).observed == Stopped && StopDeployment(row, false).ranks == row.ranks
    ensures Inv(row) ==> Inv(StopDeployment(row, false))
    ensures forall k :: Get(StopDeployment(row, false), k) == if k in row.ranks then PhaseStopped else Get(row, k)
  {
    EarlyStops(SetStopping(row), row.ranks);
    if Inv(row) { StopKeeps(row, false); }
  }

  /** Such worlds are reachable: a stop right after creation leads to one. */
  lemma RestIsReachable(ranks: seq<int>, run: nat, t: nat, env: Env, fresh_: set<nat>)
    returns (steps: seq<Step>, last: World)
    requires t !in fresh_
    ensures Runs(Created(ranks, run), steps, last) && AtRest(last, fresh_) && last.row.ranks == ranks
    ensures last.row.run == run
  {
    var w := Created(ranks, run);
    assert Runs(w, [], w);
    EarlyStopCompletes(w.row);
    assert Handle(w.row, StopRequest(false)) == StopDeployment(w.row, false);
    SameRun(SetStopping(w.row), ranks);
    assert StopDeployment(w.row, false).run == run;
    hide Runs, Handle, StopDeployment, Inv;
    steps, last := ThenHandler(w, [], w, t, StopRequest(false), env);
  }

  lemma {:induction false} SameRun(row: Row, ranks: seq<int>)
    ensures DispatchAll(row, ranks).run == row.run
  {
    if ranks != [] { SameRun(row, ranks[..|ranks| - 1]); }
  }

  // ------------------------------------------------------------ a start between check and finish

  lemma ProgramsRead(row: Row, now: nat, env: Env)
    ensures Expand(row, Note, env, now) == [Observe(row.observed)]
    ensures forall planned, run :: MayStart(row) ==>
      Expand(row, Enter(StartRequest(planned, run)), env, now) == [Commit(planned, run, now)] + Nexts(planned)
  {
  }

  /** A late terminal report has read that every rank is stopped and is about to write so. */
  lemma LateReportChecks(w: World, t: nat, rank: int, state: string, env: Env) returns (steps: seq<Step>, last: World)
    requires AtRest(w, {t}) && rank in w.row.ranks && Terminal(state)
    ensures Runs(w, steps, last) && last.holder == Some(t)
    ensures last.threads == w.threads[t := [FinishStopping(|last.log|)]]
    ensures MayStart(last.row) && last.row.run == w.row.run && last.row.ranks == w.row.ranks && !last.gone
  {
    var report := Enter(Report(w.row.run, rank, state, false, false));
    assert Runs(w, [], w);
    var b, c, d;
    steps, b := ThenRead(w, [], w, t, report, env);
    assert b.threads[t] == [Remember(rank, state)] + Confirming(rank);
    hide Runs, Expand;
    steps, c := ThenWrite(w, steps, b, t, Remember(rank, state), Confirming(rank), env);
    assert c.threads[t] == [Put(rank, PhaseStopped)] + [Check];
    steps, d := ThenPut(w, steps, c, t, rank, PhaseStopped, [Check], env);
    assert AllStopped(d.row) by { SetStoppedKeeps(SetState(w.row, rank, state), rank); }
    assert d.threads == w.threads[t := [Check]];
    steps, last := ThenChecked(w, steps, d, t, env);
  }

  lemma ThenChecked(w: World, before: seq<Step>, mid: World, t: nat, env: Env) returns (steps: seq<Step>, last: World)
    requires Runs(w, before, mid) && Poised(mid, t, [Check]) && AllStopped(mid.row)
    ensures Runs(w, steps, last)
    ensures last == mid.(holder := Some(t), threads := mid.threads[t := [FinishStopping(|mid.log|)]])
  {
    OneStep(w, before, mid, Go(t, env));
    steps, last := before + [Go(t, env)], Apply(mid, Go(t, env));
    assert [Check][1..] == [] && [FinishStopping(|mid.log|)] + [] == [FinishStopping(|mid.log|)];
  }

  /** While the deployment is to run, a dispatch only wakes the gate, whoever holds the lock. */
  lemma {:induction false} NextsIdle(w: World, u: nat, ranks: seq<int>, env: Env)
    requires !w.gone && u in w.threads && w.threads[u] == Nexts(ranks) && w.row.desired == WantRunning
    ensures Runs(w, Gos(u, env, |ranks|), w.(threads := w.threads[u := []]))
    decreases |ranks|
  {
    if ranks == [] {
      assert w.threads[u] == [] && w.threads[u := []] == w.threads;
    } else {
      var next := Apply(w, Go(u, env));
      assert Nexts(ranks)[1..] == Nexts(ranks[1..]) && [] + Nexts(ranks[1..]) == Nexts(ranks[1..]);
      assert next == w.(threads := w.threads[u := Nexts(ranks[1..])]);
      NextsIdle(next, u, ranks[1..], env);
      assert Gos(u, env, |ranks|)[1..] == Gos(u, env, |ranks| - 1);
      assert next.threads[u := []] == w.threads[u := []];
    }
  }

  /** A start passes its guard, commits and returns. */
  lemma ThenStart(w: World, before: seq<Step>, mid: World, u: nat, planned: seq<int>, run: nat, env: Env)
    returns (steps: seq<Step>, last: World)
    requires Runs(w, before, mid) && MayStart(mid.row) && !mid.gone && u !in mid.threads
    ensures Runs(w, steps, last)
    ensures last == mid.(row := Restart(mid.row, planned, run), threads := mid.threads[u := []],
                         log := mid.log + [Write(map[], true)])
  {
    ProgramsRead(mid.row, |mid.log|, env);
    hide Runs, Expand, Nexts;
    var b, head;
    head, b := ThenRead(w, before, mid, u, Enter(StartRequest(planned, run)), env);
    assert b.threads[u] == [Commit(planned, run, |mid.log|)] + Nexts(planned);
    OneStep(w, head, b, Go(u, env));
    var c := Committed(b, u, planned, run, |mid.log|, Nexts(planned), env);
    NextsIdle(c, u, planned, env);
    last := c.(threads := c.threads[u := []]);
    steps := head + [Go(u, env)] + Gos(u, env, |planned|);
    RunsConcat(w, head + [Go(u, env)], c, Gos(u, env, |planned|), last);
    assert c.threads[u := []] == mid.threads[u := []];
  }

  /** The recipe has a prepare extension, and it can be sent. */
  predicate Prepares(env: Env) { env.manifestOk && env.prepare && env.specOk && env.sendOk && !env.extensionInFlight }

  /** A gate pass has decided to prepare rank `k`. */
  lemma ThenGate(w: World, before: seq<Step>, mid: World, v: nat, k: int, env: Env)
    returns (steps: seq<Step>, last: World)
    requires Runs(w, before, mid) && mid.row.desired == WantRunning && Get(mid.row, k) == PhaseNone && Prepares(env)
    requires !mid.gone && v !in mid.threads
    ensures Runs(w, steps, last) && last == mid.(threads := mid.threads[v := [Put(k, PhasePreparing)]])
  {
    var pass := Enter(GatePass(mid.row.run, k, false, false, env));
    OneStep(w, before, mid, Arrive(v, pass));
    var a := Apply(mid, Arrive(v, pass));
    OneStep(w, before + [Arrive(v, pass)], a, Go(v, env));
    var b := Apply(a, Go(v, env));
    assert b.threads[v] == [Ready(k)];
    OneStep(w, before + [Arrive(v, pass)] + [Go(v, env)], b, Go(v, env));
    last := Apply(b, Go(v, env));
    assert last.threads[v] == [Put(k, PhasePreparing)];
    steps := before + [Arrive(v, pass)] + [Go(v, env)] + [Go(v, env)];
  }

  /** The completion check writes what it has read long before. */
  lemma ThenFinish(w: World, before: seq<Step>, mid: World, t: nat, since: nat, env: Env)
    returns (steps: seq<Step>, last: World)
    requires Runs(w, before, mid) && !mid.gone && t in mid.threads && mid.threads[t] == [FinishStopping(since)]
    ensures Runs(w, steps, last)
    ensures last == mid.(row := mid.row.(desired := WantStopped, observed := Stopped), holder := None,
                         threads := mid.threads[t := []])
  {
    OneStep(w, before, mid, Go(t, env));
    var a := Apply(mid, Go(t, env));
    assert a.threads[t] == [FinishStopped(since)];
    OneStep(w, before + [Go(t, env)], a, Go(t, env));
    last := Apply(a, Go(t, env));
    assert last.threads == mid.threads[t := []];
    steps := before + [Go(t, env)] + [Go(t, env)];
  }

  /**
   From every world at rest: a late terminal report reads that all ranks are stopped, a start commits, its
   gate decides to prepare a rank, and the report writes "stopped" over it. All three return, the extension
   runs, and both a start and a delete would pass.
   */
  lemma FinishOverRestart(w: World, t: nat, u: nat, v: nat, rank: int, state: string, planned: seq<int>, run: nat,
                          k: int, env: Env)
    returns (steps: seq<Step>, last: World)
    requires AtRest(w, {t, u, v}) && t != u && u != v && t != v && rank in w.row.ranks && Terminal(state)
    requires k in planned && Prepares(env)
    ensures Runs(w, steps, last) && last.holder == None && last.threads == w.threads[t := []][u := []][v := []]
    ensures last.row.run == run && Get(last.row, k) == PhasePreparing && Deceived(last.row, k)
  {
    hide Runs, Terminal;
    var a, b, c, d;
    steps, a := LateReportChecks(w, t, rank, state, env);
    var since := |a.log|;
    steps, b := ThenStart(w, steps, a, u, planned, run, env);
    steps, c := ThenGate(w, steps, b, v, k, env);
    steps, d := ThenFinish(w, steps, c, t, since, env);
    assert d.threads[v] == [Put(k, PhasePreparing)] + [];
    steps, last := ThenPut(w, steps, d, v, k, PhasePreparing, [], env);
    assert last.threads == w.threads[t := []][u := []][v := []];
  }

  // ------------------------------------------------------------ a live report after the guard

  /** The live report, uninterrupted: the rank is stopping again and was sent a stop. */
  lemma LiveReportReopens(row: Row, rank: int, state: string)
    requires Inv(row) && row.observed == Stopped && rank in row.ranks && Alive(state) && !Terminal(state)
    ensures var r := Handle(row, Report(row.run, rank, state, false, false));
      && r.desired == WantStopped && r.observed == Stopping && r.ranks == row.ranks && r.run == row.run
      && Get(r, rank) == PhaseStopping && rank in r.asked
  {
  }

  /** Thread `u` has read, and then the live report is handled. */
  lemma ReadThenReport(w: World, t: nat, u: nat, ask: Action, rank: int, state: string, env: Env)
    returns (steps: seq<Step>, last: World)
    requires AtRest(w, {t, u}) && t != u && rank in w.row.ranks && Alive(state) && !Terminal(state)
    requires (ask.Enter? || ask.Note?)
    ensures Runs(w, steps, last) && Reported(w, t, u, Expand(w.row, ask, env, |w.log|), rank, last)
  {
    assert Runs(w, [], w);
    hide Runs, Expand, Handle, Terminal, Alive;
    LiveReportReopens(w.row, rank, state);
    hide Inv;
    var b;
    steps, b := ThenRead(w, [], w, u, ask, env);
    steps, last := ThenHandler(w, steps, b, t, Report(w.row.run, rank, state, false, false), env);
  }

  ghost predicate Reported(w: World, t: nat, u: nat, todo: seq<Action>, rank: int, last: World) {
    && !last.gone && last.holder == None && last.threads == w.threads[u := todo][t := []]
    && last.row.desired == WantStopped && last.row.observed == Stopping && last.row.ranks == w.row.ranks
    && Get(last.row, rank) == PhaseStopping
  }

  /**
   From every world at rest: a start passes its guard, a rank is reported running and is sent a stop, and
   the start commits over it: the rank counts as never started.
   */
  lemma StartOverReopened(w: World, t: nat, u: nat, rank: int, state: string, planned: seq<int>, run: nat, env: Env)
    returns (steps: seq<Step>, mid: World, last: World)
    requires AtRest(w, {t, u}) && t != u && rank in w.row.ranks && Alive(state) && !Terminal(state)
    ensures Runs(w, steps, mid) && Enabled(mid, Go(u, env)) && mid.threads[u][0] == Commit(planned, run, |w.log|)
    ensures mid.row.observed == Stopping && Get(mid.row, rank) == PhaseStopping && !MayStart(mid.row)
    ensures last == Apply(mid, Go(u, env)) && last.row.desired == WantRunning
    ensures forall k :: Get(last.row, k) == PhaseNone
  {
    var ask := Enter(StartRequest(planned, run));
    ProgramsRead(w.row, |w.log|, env);
    assert MayStart(w.row);
    hide Runs, Expand, Nexts, Terminal, Alive, Inv;
    steps, mid := ReadThenReport(w, t, u, ask, rank, state, env);
    assert mid.threads[u] == [Commit(planned, run, |w.log|)] + Nexts(planned);
    last := Committed(mid, u, planned, run, |w.log|, Nexts(planned), env);
  }

  lemma Committed(mid: World, u: nat, planned: seq<int>, run: nat, since: nat, rest: seq<Action>, env: Env)
    returns (last: World)
    requires !mid.gone && u in mid.threads && mid.threads[u] == [Commit(planned, run, since)] + rest
    ensures Enabled(mid, Go(u, env)) && last == Apply(mid, Go(u, env))
    ensures last == mid.(row := Restart(mid.row, planned, run), threads := mid.threads[u := rest],
                         log := mid.log + [Write(map[], true)])
  {
    assert ([Commit(planned, run, since)] + rest)[1..] == rest;
    last := Apply(mid, Go(u, env));
  }

  // ------------------------------------------------------------ a note that writes back what it read

  /**
   From every world at rest: a note reads "stopped", a rank is reported running and is sent a stop, and the
   note writes "stopped" back. Both return, and a start and a delete would pass.
   */
  lemma NoteOverReopened(w: World, t: nat, u: nat, rank: int, state: string, env: Env)
    returns (steps: seq<Step>, last: World)
    requires AtRest(w, {t, u}) && t != u && rank in w.row.ranks && Alive(state) && !Terminal(state)
    ensures Runs(w, steps, last) && last.holder == None && last.threads == w.threads[u := []][t := []]
    ensures Get(last.row, rank) == PhaseStopping && Deceived(last.row, rank)
  {
    ProgramsRead(w.row, |w.log|, env);
    hide Runs, Expand, Terminal, Alive, Inv;
    var c;
    steps, c := ReadThenReport(w, t, u, Note, rank, state, env);
    assert c.threads[u] == [Observe(Stopped)] + [];
    steps, last := ThenWrite(w, steps, c, u, Observe(Stopped), [], env);
    assert last.threads == w.threads[u := []][t := []];
  }

  // ------------------------------------------------------------ a result read before the stop

  /**
   From creation: the acknowledgement of a START is read while the deployment is to run, the stop is
   confirmed, and the acknowledgement is then applied. Both return, the rank is stopping under a deployment
   that passes for stopped.
   */
  lemma StaleResultReopens(ranks: seq<int>, run: nat, rank: int, t: nat, u: nat, ack: Ack, env: Env)
    returns (steps: seq<Step>, last: World)
    requires rank in ranks && t != u && ack.ok && env.manifestOk && !env.verify
    ensures Runs(Created(ranks, run), steps, last) && last.holder == None && last.threads == map[t := [], u := []]
    ensures Get(last.row, rank) == PhaseStopping && Deceived(last.row, rank)
  {
    var w := Created(ranks, run);
    var rest := [Next(rank), Wake];
    hide Runs, Deceived;
    var c, d;
    steps, c := ResultThenStop(ranks, run, rank, t, u, ack, env);
    steps, d := ThenPut(w, steps, c, t, rank, PhaseStarted, rest, env);
    assert Get(d.row, 0) == if rank == 0 then PhaseStarted else Get(c.row, 0);
    steps, last := ThenReopened(w, steps, d, t, rank, env);
    assert last.threads == map[t := [], u := []];
    assert Deceived(last.row, rank) by { DeceivedBy(c.row, rank, d.row, last.row); }
  }

  lemma DeceivedBy(c: Row, rank: int, d: Row, last: Row)
    requires c.desired == WantStopped && c.observed == Stopped && rank in c.ranks
    requires d == SetPhase(c, rank, PhaseStarted) && last == Ask(SetPhase(d, rank, PhaseStopping), rank)
    ensures Deceived(last, rank)
  {
  }

  lemma ResultThenStop(ranks: seq<int>, run: nat, rank: int, t: nat, u: nat, ack: Ack, env: Env)
    returns (steps: seq<Step>, c: World)
    requires rank in ranks && t != u && ack.ok && env.manifestOk && !env.verify
    ensures Runs(Created(ranks, run), steps, c) && Poised(c, t, [Put(rank, PhaseStarted)] + [Next(rank), Wake])
    ensures c.threads == map[t := [Put(rank, PhaseStarted)] + [Next(rank), Wake], u := []]
    ensures c.row.desired == WantStopped && c.row.observed == Stopped && c.row.ranks == ranks
    ensures Get(c.row, 0) != PhaseHostPrepared
  {
    var w, result := Created(ranks, run), Enter(Result(OpStart, rank, ack, env));
    assert Runs(w, [], w);
    assert Expand(w.row, result, env, 0) == [Put(rank, PhaseStarted)] + [Next(rank), Wake];
    assert Handle(w.row, StopRequest(false)) == StopDeployment(w.row, false);
    hide Runs, Expand, Handle, StopDeployment;
    EarlyStopCompletes(w.row);
    var b;
    steps, b := ThenRead(w, [], w, t, result, env);
    steps, c := ThenHandler(w, steps, b, u, StopRequest(false), env);
    assert c.row.desired == WantStopped;
  }

  lemma ThenReopened(w: World, before: seq<Step>, mid: World, t: nat, rank: int, env: Env)
    returns (steps: seq<Step>, last: World)
    requires Runs(w, before, mid) && Poised(mid, t, [Next(rank), Wake])
    requires mid.row.desired == WantStopped && mid.row.observed == Stopped && Get(mid.row, rank) == PhaseStarted
    requires Get(mid.row, 0) != PhaseHostPrepared
    ensures Runs(w, steps, last) && last.holder == None && last.threads == mid.threads[t := []]
    ensures last.row == Ask(SetPhase(mid.row, rank, PhaseStopping), rank)
  {
    hide Runs;
    var c;
    assert mid.threads[t] == [Next(rank)] + [Wake];
    steps, c := ThenAction(w, before, mid, t, Next(rank), [Wake], env);
    assert c.row == Ask(SetPhase(mid.row, rank, PhaseStopping), rank);
    assert c.threads[t] == [Wake] + [];
    steps, last := ThenAction(w, steps, c, t, Wake, [], env);
    assert last.threads == mid.threads[t := []];
  }
}
