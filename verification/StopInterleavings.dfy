/**
 The handlers of `StopBookkeeping` as the goroutines they are. Every SQL statement on the deployment row is
 a step of its own. `dispatchMu` covers phase writes and the completion check; starts, deletes, marks and
 notes take no lock, and the controller may crash anywhere. A note of a diagnostic, which reads the observed
 state and writes it back, is a goroutine of its own, since it may fall anywhere.
 */
module StopInterleavings {
  import opened Prelude
  import opened StopBookkeeping

  datatype Action =
    // one read, which decides what follows
    | Enter(e: Event)
    | AskDelete
    | Note
    | Ready(rank: int)
    | Next(rank: int)
    | Wake
    | Summarise(ranks: seq<int>)
    // lock `dispatchMu` and read
    | Put(rank: int, to: Phase)
    | Check
    // write; the last write under the lock unlocks
    | Store(phases: map<int, Phase>)
    | FinishStopping(since: nat)
    | FinishStopped(since: nat)
    // write without the lock
    | MarkStopping
    | Observe(o: Observed)
    | Remember(rank: int, state: string)
    | Send(rank: int)
    | GoOffline(ranks: seq<int>, otherOnline: bool)
    | Commit(planned: seq<int>, run: nat, since: nat)
    | Remove(since: nat)

  predicate Reads(a: Action) {
    a.Enter? || a.AskDelete? || a.Note? || a.Ready? || a.Next? || a.Wake? || a.Summarise?
  }

  /** Only under `dispatchMu`. */
  predicate Locked(a: Action) { a.Store? || a.FinishStopping? || a.FinishStopped? }

  /** Rests on a guard read when `since` phase writes had been made. */
  predicate Waiting(a: Action) { a.Commit? || a.Remove? }

  // ------------------------------------------------------------ what a handler does after its read

  function Nexts(ranks: seq<int>): (r: seq<Action>)
    ensures |r| == |ranks| && forall i :: 0 <= i < |r| ==> r[i] == Next(ranks[i])
  {
    seq(|ranks|, i requires 0 <= i < |ranks| => Next(ranks[i]))
  }

  const FAIL := [Observe(Failed)]

  function ExtensionActions(rank: int, p: Phase, e: Env, failed: seq<Action>): (r: seq<Action>) {
    if e.extensionInFlight then []
    else if !e.specOk then failed
    else [Put(rank, p)] + (if e.sendOk then [] else failed)
  }

  function CreatedActions(rank: int, e: Env): (r: seq<Action>) {
    if e.hostInFlight then []
    else if !e.specOk then FAIL
    else if !e.hostPreparation then [Put(rank, PhaseHostPrepared), Next(rank)]
    else [Put(rank, PhaseHostPreparing)]
  }

  function RunningActions(p: Phase, rank: int, e: Env): (r: seq<Action>) {
    match p
    case PhaseNone =>
      if !e.manifestOk then FAIL
      else if e.prepare then ExtensionActions(rank, PhasePreparing, e, FAIL)
      else [Put(rank, PhasePrepared), Next(rank)]
    case PhasePreparing => if !e.manifestOk || !e.prepare then FAIL else ExtensionActions(rank, PhasePreparing, e, [])
    case PhasePrepared => [Put(rank, PhasePulled), Next(rank)]
    case PhaseCreated => CreatedActions(rank, e)
    case PhaseHostPreparing => CreatedActions(rank, e)
    case PhaseHostPrepared => if !e.orderOk || !e.specOk then FAIL else []
    case PhaseVerifying => if !e.manifestOk || !e.verify then FAIL else ExtensionActions(rank, PhaseVerifying, e, [])
    case _ => []
  }

  function Confirming(rank: int): (r: seq<Action>) { [Put(rank, PhaseStopped), Check] }

  function StoppedActions(p: Phase, rank: int): (r: seq<Action>) {
    match p
    case PhaseNone => Confirming(rank)
    case PhasePrepared => Confirming(rank)
    case PhaseStarted => [Put(rank, PhaseStopping), Send(rank)]
    case PhaseHostPreparing => []
    case PhaseStopped => []
    case _ => [Send(rank)]
  }

  function Advancing(rank: int, p: Phase): (r: seq<Action>) { [Put(rank, p), Next(rank)] }

  function ResultActions(row: Row, op: Op, rank: int, a: Ack, e: Env): (r: seq<Action>) {
    var stopping := row.desired == WantStopped;
    if Get(row, rank) == PhaseStopped && stopping then []
    else match op
      case OpPrepare => if !a.ok then FAIL else Advancing(rank, PhasePrepared)
      case OpStopPrepare => if !a.ok then FAIL else Confirming(rank)
      case OpStopVerify => if !a.ok then FAIL else Advancing(rank, PhaseStarted)
      case OpVerify => if !a.ok then FAIL else Advancing(rank, PhaseStarted) + [Wake]
      case OpArtifact => if a.ok then [] else FAIL
      case OpPull =>
        if stopping then Confirming(rank) else if !a.ok then FAIL else Advancing(rank, PhasePulled)
      case OpCreate =>
        if !a.ok && !a.exists_ then if stopping then Confirming(rank) else FAIL
        else Advancing(rank, if stopping then PhaseStopping else PhaseCreated)
      case OpHostPrepare =>
        if stopping then Advancing(rank, PhaseStopping) else if !a.ok then FAIL else Advancing(rank, PhaseHostPrepared)
      case OpStart =>
        if stopping then Advancing(rank, PhaseStopping)
        else if (!a.ok && !a.exists_ && !a.running) || !e.manifestOk then FAIL
        else if e.verify then Advancing(rank, PhaseVerifying)
        else Advancing(rank, PhaseStarted) + [Wake]
      case OpInspect =>
        if a.ok then [Enter(Report(row.run, rank, a.state, a.diagnosed, a.ready))]
        else if a.missing then [Enter(Report(row.run, rank, "missing", a.diagnosed, a.ready))]
        else []
      case OpStop => if a.ok || a.missing then Confirming(rank) else []
  }

  function ReportActions(row: Row, run: nat, rank: int, state: string, diagnosed: bool, ready: bool): (r: seq<Action>) {
    if run != row.run then []
    else if row.desired == WantStopped then
      if Terminal(state) then [Remember(rank, state)] + Confirming(rank)
      else if Get(row, rank) == PhaseStopped && !Alive(state) then []
      else [Remember(rank, "stopping"), Put(rank, PhaseStopping), MarkStopping, Next(rank)]
    else if Terminal(state) then
      [MarkStopping, Remember(rank, state), Put(rank, PhaseStopped)] + Nexts(Others(row.ranks, rank)) + [Check]
    else
      var rankState :=
        if diagnosed then "degraded"
        else if state == "running" && rank == 0 then if ready then "ready" else "created"
        else state;
      [Remember(rank, rankState), Summarise(row.ranks)]
      + (if state == "observing" || state == "running" then [Wake] else [])
  }

  /** What a handler does, decided by the row it reads first. */
  function Program(row: Row, e: Event, now: nat): (r: seq<Action>) {
    match e
    case GatePass(run, rank, acquisitionFailed, cancelFails, env) =>
      if row.desired != WantRunning || row.run != run then []
      else if acquisitionFailed then [Observe(Failed), Enter(StopRequest(cancelFails))]
      else [Ready(rank)]
    case Result(op, rank, ack, env) => ResultActions(row, op, rank, ack, env)
    case Report(run, rank, state, diagnosed, ready) => ReportActions(row, run, rank, state, diagnosed, ready)
    case StopRequest(cancelFails) =>
      if row.desired == WantStopped && row.observed == Stopped then []
      else if row.desired == WantRunning && cancelFails then [MarkStopping]
      else [MarkStopping] + Nexts(row.ranks) + [Check]
    case StartRequest(planned, run) => if MayStart(row) then [Commit(planned, run, now)] + Nexts(planned) else []
    case Reconnect(onNode) =>
      if (row.observed == Stopped && row.desired == WantStopped) || onNode == [] then []
      else Nexts(onNode) + (if row.desired == WantStopped then [Check] else [])
    case Offline(onNode, otherOnline) => [GoOffline(onNode, otherOnline)]
    case TransferFailed => FAIL
  }

  /** `env` answers whatever the action asks the recipe, the node or the commands in flight. */
  function Expand(row: Row, a: Action, env: Env, now: nat): (r: seq<Action>)
    requires Reads(a)
  {
    match a
    case Enter(e) => Program(row, e, now)
    case AskDelete => if MayDelete(row) then [Remove(now)] else []
    case Note => [Observe(row.observed)]
    case Ready(rank) =>
      if row.desired == WantRunning then RunningActions(Get(row, rank), rank, env) else StoppedActions(Get(row, rank), rank)
    case Next(rank) => if row.desired == WantRunning then [] else [Ready(rank)]
    case Wake => if Get(row, 0) == PhaseHostPrepared && 0 in row.ranks then [Next(0)] else []
    case Summarise(ranks) => [Observe(Aggregate(row.states, ranks))]
  }

  // ------------------------------------------------------------ all handlers together

  /** A write of the phases; a restart empties them. */
  datatype Write = Write(phases: map<int, Phase>, restart: bool)

  datatype World = World(row: Row, gone: bool, holder: Option<nat>, threads: map<nat, seq<Action>>, log: seq<Write>)

  function Created(ranks: seq<int>, run: nat): (w: World) { World(New(ranks, run), false, None, map[], []) }

  datatype Step = Arrive(t: nat, a: Action) | Go(t: nat, env: Env) | Crash

  predicate Enabled(w: World, s: Step) {
    match s
    case Arrive(t, a) => t !in w.threads && (a.Enter? || a.AskDelete? || a.Note?)
    case Go(t, _) =>
      && !w.gone && t in w.threads && w.threads[t] != []
      && (w.threads[t][0].Put? || w.threads[t][0].Check? ==> w.holder.None?)
    case Crash => true
  }

  /** The statement of an action that is one write without the lock. */
  function Written(row: Row, a: Action): (r: Row) {
    match a
    case MarkStopping => SetStopping(row)
    case Observe(o) => row.(observed := o)
    case Remember(rank, state) => SetState(row, rank, state)
    case Send(rank) => Ask(row, rank)
    case GoOffline(ranks, otherOnline) => MarkOffline(row, ranks, otherOnline)
    case Commit(planned, run, _) => Restart(row, planned, run)
    case _ => row
  }

  function Perform(w: World, t: nat, a: Action, rest: seq<Action>, env: Env): (r: World) {
    if Reads(a) then w.(threads := w.threads[t := Expand(w.row, a, env, |w.log|) + rest])
    else match a
      case Put(rank, to) => w.(holder := Some(t), threads := w.threads[t := [Store(w.row.phases[rank := to])] + rest])
      case Check =>
        if AllStopped(w.row) then w.(holder := Some(t), threads := w.threads[t := [FinishStopping(|w.log|)] + rest])
        else w.(threads := w.threads[t := rest])
      case Store(phases) =>
        w.(row := w.row.(phases := phases), holder := None, threads := w.threads[t := rest],
           log := w.log + [Write(phases, false)])
      case FinishStopping(since) => w.(row := SetStopping(w.row), threads := w.threads[t := [FinishStopped(since)] + rest])
      case FinishStopped(_) => w.(row := w.row.(observed := Stopped), holder := None, threads := w.threads[t := rest])
      case Commit(_, _, _) =>
        w.(row := Written(w.row, a), threads := w.threads[t := rest], log := w.log + [Write(map[], true)])
      case Remove(_) => w.(gone := true, threads := w.threads[t := rest])
      case _ => w.(row := Written(w.row, a), threads := w.threads[t := rest])
  }

  function Apply(w: World, s: Step): (r: World)
    requires Enabled(w, s)
  {
    match s
    case Arrive(t, a) => w.(threads := w.threads[t := [a]])
    case Go(t, env) => Perform(w, t, w.threads[t][0], w.threads[t][1..], env)
    case Crash => w.(row := w.row.(states := map[], asked := {}), holder := None, threads := map[])
  }

  ghost predicate Runs(w: World, steps: seq<Step>, last: World)
    decreases |steps|
  {
    if steps == [] then last == w else Enabled(w, steps[0]) && Runs(Apply(w, steps[0]), steps[1..], last)
  }

  // ------------------------------------------------------------ which writes keep the bookkeeping

  ghost predicate Down(row: Row) { row.desired == WantStopped && AllStopped(row) }

  function PhaseOf(phases: map<int, Phase>,
                   rank: int): (p: Phase) { if rank in phases then phases[rank] else PhaseNone }

  /** The write of "stopped" finds a rank not recorded stopped, or a phase write reopens a rank under it. */
  ghost predicate Breaks(row: Row, a: Action) {
    match a
    case FinishStopped(_) => !Down(row)
    case Observe(o) => o == Stopped && !Down(row)
    case Store(phases) => row.observed == Stopped && exists k :: k in row.ranks && PhaseOf(phases, k) != PhaseStopped
    case _ => false
  }

  ghost predicate StepBreaks(w: World, s: Step)
    requires Enabled(w, s)
  {
    s.Go? && Breaks(w.row, w.threads[s.t][0])
  }

  /** Statement by statement, in whatever state the other handlers are. */
  lemma StepKeepsIff(w: World, s: Step)
    requires Inv(w.row) && Enabled(w, s)
    ensures Inv(Apply(w, s).row) <==> !StepBreaks(w, s)
  {
    if s.Go? { PerformKeepsIff(w, s.t, w.threads[s.t][0], w.threads[s.t][1..], s.env); }
  }

  lemma PerformKeepsIff(w: World, t: nat, a: Action, rest: seq<Action>, env: Env)
    requires Inv(w.row)
    ensures Inv(Perform(w, t, a, rest, env).row) <==> !Breaks(w.row, a)
  {
    hide Expand;
    var r := Perform(w, t, a, rest, env).row;
    if a.Store? {
      assert forall k :: Get(r, k) == PhaseOf(a.phases, k);
    } else if !a.Commit? {
      assert forall k :: Get(r, k) == Get(w.row, k);
    }
  }

  /** No write of the run is one that breaks it. */
  ghost predicate CleanRuns(w: World, steps: seq<Step>, last: World)
    decreases |steps|
  {
    if steps == [] then last == w
    else Enabled(w, steps[0]) && !StepBreaks(w, steps[0]) && CleanRuns(Apply(w, steps[0]), steps[1..], last)
  }

  /** The bookkeeping holds at every moment of the run. */
  ghost predicate KeptRuns(w: World, steps: seq<Step>, last: World)
    decreases |steps|
  {
    Inv(w.row)
    && if steps == [] then last == w else Enabled(w, steps[0]) && KeptRuns(Apply(w, steps[0]), steps[1..], last)
  }

  /** The bookkeeping holds throughout a run, between and inside handlers, exactly when no write breaks it. */
  lemma {:induction false} KeptIffClean(w: World, steps: seq<Step>, last: World)
    requires Inv(w.row)
    ensures KeptRuns(w, steps, last) <==> CleanRuns(w, steps, last)
    decreases |steps|
  {
    hide Inv, Apply, Enabled, StepBreaks;
    if steps != [] && Enabled(w, steps[0]) {
      StepKeepsIff(w, steps[0]);
      if !StepBreaks(w, steps[0]) { KeptIffClean(Apply(w, steps[0]), steps[1..], last); }
    }
  }

  // ------------------------------------------------------------ a finishing write and restarts

  ghost predicate Heads(holder: Option<nat>, threads: map<nat, seq<Action>>) {
    && (forall t :: t in threads ==> forall i :: 1 <= i < |threads[t]| ==> !Locked(threads[t][i]))
    && (forall t :: t in threads && threads[t] != [] ==> (Locked(threads[t][0]) <==> holder == Some(t)))
    && (holder.Some? ==> holder.value in threads && threads[holder.value] != [])
  }

  ghost predicate Restarts(log: seq<Write>, since: nat) {
    since <= |log| && forall i :: since <= i < |log| ==> log[i].restart
  }

  /** What a completion check knows between its read and its last write. */
  ghost predicate Finishing(row: Row, log: seq<Write>, a: Action) {
    a.FinishStopping? || a.FinishStopped? ==>
      && Restarts(log, a.since)
      && (|log| == a.since ==> AllStopped(row) && (a.FinishStopped? ==> row.desired == WantStopped))
  }

  ghost predicate Logged(row: Row, log: seq<Write>) {
    && (log != [] ==> row.phases == log[|log| - 1].phases)
    && forall i :: 0 <= i < |log| && log[i].restart ==> log[i].phases == map[]
  }

  ghost predicate Sys(w: World) {
    && Heads(w.holder, w.threads) && Logged(w.row, w.log)
    && forall t :: t in w.threads && w.threads[t] != [] ==> Finishing(w.row, w.log, w.threads[t][0])
  }

  lemma ProgramUnlocked(row: Row, e: Event, now: nat)
    ensures forall x :: x in Program(row, e, now) ==> !Locked(x) && (Waiting(x) ==> x.since == now && MayStart(row))
  {
    if e.Result? { ResultUnlocked(row, e.op, e.rank, e.ack, e.env); }
    if e.Report? { ReportUnlocked(row, e.run, e.rank, e.state, e.diagnosed, e.ready); }
    hide ResultActions, ReportActions;
  }

  lemma ResultUnlocked(row: Row, op: Op, rank: int, a: Ack, e: Env)
    ensures forall x :: x in ResultActions(row, op, rank, a, e) ==> !Locked(x) && !Waiting(x)
  {
  }

  lemma ReportUnlocked(row: Row, run: nat, rank: int, state: string, diagnosed: bool, ready: bool)
    ensures forall x :: x in ReportActions(row, run, rank, state, diagnosed, ready) ==> !Locked(x) && !Waiting(x)
  {
  }

  lemma ExpandUnlocked(row: Row, a: Action, env: Env, now: nat)
    requires Reads(a)
    ensures forall x :: x in Expand(row, a, env, now) ==>
      !Locked(x) && (Waiting(x) ==> x.since == now && (MayStart(row) || MayDelete(row)))
  {
    if a.Enter? { ProgramUnlocked(row, a.e, now); }
    hide Program, Aggregate;
  }

  /** Replacing a thread's actions by unlocked ones keeps the others' heads. */
  lemma HeadsReplaced(holder: Option<nat>, threads: map<nat, seq<Action>>, t: nat, now: seq<Action>)
    requires Heads(holder, threads) && forall x :: x in now ==> !Locked(x)
    requires holder != Some(t)
    ensures Heads(holder, threads[t := now])
  {
    forall i | 0 <= i < |now| ensures !Locked(now[i]) { assert now[i] in now; }
  }

  lemma HeadsUnlocked(threads: map<nat, seq<Action>>, t: nat)
    requires Heads(Some(t), threads) && t in threads && threads[t] != []
    ensures Heads(None, threads[t := threads[t][1..]])
  {
  }

  lemma HeadsLocked(holder: Option<nat>, threads: map<nat, seq<Action>>, t: nat, a: Action)
    requires Heads(holder, threads) && t in threads && threads[t] != [] && Locked(a)
    requires (holder == None || holder == Some(t))
    ensures Heads(Some(t), threads[t := [a] + threads[t][1..]])
  {
  }

  lemma GoHeads(w: World, t: nat, env: Env)
    requires Enabled(w, Go(t, env)) && Heads(w.holder, w.threads)
    ensures var r := Apply(w, Go(t, env)); Heads(r.holder, r.threads)
  {
    var a, rest := w.threads[t][0], w.threads[t][1..];
    assert Locked(a) <==> w.holder == Some(t);
    assert forall i :: 0 <= i < |rest| ==> rest[i] == w.threads[t][i + 1];
    var next := if Reads(a) then Expand(w.row, a, env, |w.log|) + rest else rest;
    if Reads(a) { ExpandUnlocked(w.row, a, env, |w.log|); }
    hide Expand, Heads, Written;
    match a {
      case Put(rank, to) => HeadsLocked(w.holder, w.threads, t, Store(w.row.phases[rank := to]));
      case Check =>
        HeadsLocked(w.holder, w.threads, t, FinishStopping(|w.log|));
        HeadsReplaced(w.holder, w.threads, t, rest);
      case Store(_) => HeadsUnlocked(w.threads, t);
      case FinishStopping(since) => HeadsLocked(w.holder, w.threads, t, FinishStopped(since));
      case FinishStopped(_) => HeadsUnlocked(w.threads, t);
      case _ => HeadsReplaced(w.holder, w.threads, t, next);
    }
  }

  /** Writes without the lock leave a pending completion check what it knows, or restart the deployment under it. */
  lemma OthersFinish(row: Row, log: seq<Write>, x: Action, a: Action)
    requires Finishing(row, log, x) && !Locked(a)
    ensures Finishing(Written(row, a), if a.Commit? then log + [Write(map[], true)] else log, x)
  {
    var next := Written(row, a);
    if !a.Commit? { assert forall k :: Get(next, k) == Get(row, k); }
  }

  lemma GoesFreely(w: World, t: nat, env: Env)
    requires Enabled(w, Go(t, env)) && !Locked(w.threads[t][0])
    ensures var a, r := w.threads[t][0], Apply(w, Go(t, env));
      && r.row == Written(w.row, a)
      && r.log == if a.Commit? then w.log + [Write(map[], true)] else w.log
  {
    hide Expand;
  }

  lemma GoFinishing(w: World, t: nat, env: Env, u: nat)
    requires Enabled(w, Go(t, env)) && Sys(w)
    requires var r := Apply(w, Go(t, env)); Heads(r.holder, r.threads) && u in r.threads && r.threads[u] != []
    ensures var r := Apply(w, Go(t, env)); Finishing(r.row, r.log, r.threads[u][0])
  {
    var a, r := w.threads[t][0], Apply(w, Go(t, env));
    hide Expand, Written;
    if u != t {
      var x := w.threads[u][0];
      assert r.threads[u] == w.threads[u] && (Locked(x) ==> !Locked(a));
      if Locked(x) {
        OthersFinish(w.row, w.log, x, a);
        GoesFreely(w, t, env);
      }
    } else if a.FinishStopping? {
      assert forall k :: Get(r.row, k) == Get(w.row, k);
    }
  }

  lemma StepKeepsSys(w: World, s: Step)
    requires Sys(w) && Enabled(w, s)
    ensures Sys(Apply(w, s))
  {
    var r := Apply(w, s);
    match s {
      case Go(t, env) =>
        GoHeads(w, t, env);
        GoLogged(w, t, env);
        hide Logged, Finishing, Heads, Apply;
        forall u | u in r.threads && r.threads[u] != [] ensures Finishing(r.row, r.log, r.threads[u][0]) {
          GoFinishing(w, t, env, u);
        }
      case Arrive(t, a) => assert r.threads[t] == [a] && !Locked(a);
      case Crash =>
    }
  }

  lemma GoLogged(w: World, t: nat, env: Env)
    requires Enabled(w, Go(t, env)) && Logged(w.row, w.log)
    ensures var r := Apply(w, Go(t, env)); Logged(r.row, r.log)
  {
    hide Expand;
  }

  lemma {:induction false} RunsKeepSys(w: World, steps: seq<Step>, last: World)
    requires Sys(w) && Runs(w, steps, last)
    ensures Sys(last)
    decreases |steps|
  {
    hide Sys, Apply, Enabled;
    if steps != [] {
      StepKeepsSys(w, steps[0]);
      RunsKeepSys(Apply(w, steps[0]), steps[1..], last);
    }
  }

  lemma CreatedSys(ranks: seq<int>, run: nat)
    ensures Sys(Created(ranks, run)) && Inv(Created(ranks, run).row)
  {
  }

  /**
   On every interleaving from creation on, the last write of a completion check keeps the bookkeeping
   exactly when no restart was committed since its read.
   */
  lemma FinishIffNotRestarted(ranks: seq<int>, run: nat, steps: seq<Step>, w: World, t: nat, env: Env)
    requires Runs(Created(ranks, run), steps, w) && w.row.ranks != []
    requires Enabled(w, Go(t, env)) && w.threads[t][0].FinishStopped?
    ensures Inv(Apply(w, Go(t, env)).row) <==> forall i :: w.threads[t][0].since <= i < |w.log| ==> !w.log[i].restart
  {
    CreatedSys(ranks, run);
    RunsKeepSys(Created(ranks, run), steps, w);
    var a, r := w.threads[t][0], Apply(w, Go(t, env)).row;
    assert Finishing(w.row, w.log, a);
    assert forall k :: Get(r, k) == Get(w.row, k);
    if a.since < |w.log| {
      assert w.log[|w.log| - 1].restart && w.row.phases == map[];
      assert w.row.ranks[0] in r.ranks && Get(r, w.row.ranks[0]) == PhaseNone;
    }
  }

  // ------------------------------------------------------------ a guard and what happened since

  predicate Opens(write: Write, k: int) { PhaseOf(write.phases, k) != PhaseStopped }

  /** A placed rank was reopened since, and no later write records it stopped. */
  ghost predicate Reopened(log: seq<Write>, since: nat, ranks: seq<int>) {
    exists i, k :: since <= i < |log| && k in ranks && Opens(log[i], k) && StaysOpen(log, i, k)
  }

  ghost predicate StaysOpen(log: seq<Write>, i: int, k: int) { forall j :: 0 <= i < j < |log| ==> Opens(log[j], k) }

  lemma LastDecides(log: seq<Write>, since: nat, ranks: seq<int>)
    requires since < |log|
    ensures Reopened(log, since, ranks) <==> exists k :: k in ranks && Opens(log[|log| - 1], k)
  {
    var n := |log| - 1;
    if k :| k in ranks && Opens(log[n], k) {
      assert StaysOpen(log, n, k);
    }
    if Reopened(log, since, ranks) {
      var i, k :| since <= i < |log| && k in ranks && Opens(log[i], k) && StaysOpen(log, i, k);
      assert Opens(log[n], k);
    }
  }

  ghost predicate Exact(row: Row, log: seq<Write>, since: nat) {
    since <= |log| && (AllStopped(row) <==> !Reopened(log, since, row.ranks))
  }

  /** After a write of the phases, what was written decides. */
  lemma WriteDecides(row: Row, log: seq<Write>, since: nat)
    requires since < |log| && row.phases == log[|log| - 1].phases
    ensures Exact(row, log, since)
  {
    LastDecides(log, since, row.ranks);
    assert forall k :: Get(row, k) == PhaseOf(log[|log| - 1].phases, k);
  }

  lemma GuardRead(row: Row, log: seq<Write>)
    requires Inv(row) && (MayStart(row) || MayDelete(row))
    ensures Exact(row, log, |log|)
  {
  }

  lemma GoExact(w: World, t: nat, env: Env, since: nat)
    requires Enabled(w, Go(t, env)) && Exact(w.row, w.log, since)
    ensures var r := Apply(w, Go(t, env)); Exact(r.row, r.log, since)
  {
    var a, r := w.threads[t][0], Apply(w, Go(t, env));
    hide Expand;
    if a.Store? || a.Commit? {
      hide Exact;
      WriteDecides(r.row, r.log, since);
    } else {
      assert r.log == w.log && r.row.ranks == w.row.ranks;
      assert forall k :: Get(r.row, k) == Get(w.row, k);
    }
  }

  lemma {:induction false} ExactStays(w: World, steps: seq<Step>, last: World, since: nat)
    requires Exact(w.row, w.log, since) && Runs(w, steps, last)
    ensures Exact(last.row, last.log, since)
    decreases |steps|
  {
    if steps != [] {
      var s := steps[0];
      if s.Go? {
        GoExact(w, s.t, s.env, since);
      } else {
        assert forall k :: Get(Apply(w, s).row, k) == Get(w.row, k);
      }
      hide Exact, Apply, Enabled;
      ExactStays(Apply(w, s), steps[1..], last, since);
    }
  }

  /**
   Whatever runs after the guard of a start or a delete has passed on a row that keeps the bookkeeping: at any
   later moment every rank is recorded stopped exactly when nothing reopened one since the guard. Asking the
   guard again at the write would do, as long as the bookkeeping is kept.
   */
  lemma GuardHoldsIffNotReopened(w: World, t: nat, env: Env, steps: seq<Step>, last: World)
    requires Inv(w.row) && Enabled(w, Go(t, env)) && (w.threads[t][0].AskDelete? || w.threads[t][0].Enter?)
    requires Apply(w, Go(t, env)).threads[t] != [] && Waiting(Apply(w, Go(t, env)).threads[t][0])
    requires w.threads[t][1..] == []
    requires Runs(Apply(w, Go(t, env)), steps, last)
    ensures Apply(w, Go(t, env)).threads[t][0].since == |w.log|
    ensures AllStopped(last.row) <==> !Reopened(last.log, |w.log|, last.row.ranks)
    ensures Inv(last.row) && (MayStart(last.row) || MayDelete(last.row)) ==> AllStopped(last.row)
  {
    var mid := Apply(w, Go(t, env));
    var a := mid.threads[t][0];
    ExpandUnlocked(w.row, w.threads[t][0], env, |w.log|);
    assert a in Expand(w.row, w.threads[t][0], env, |w.log|);
    assert mid.row == w.row && mid.log == w.log;
    hide Expand;
    GuardRead(w.row, w.log);
    ExactStays(mid, steps, last, |w.log|);
  }
}
