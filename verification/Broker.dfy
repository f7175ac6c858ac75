/**
 The command-result broker: waiters keyed by command ID, and a bounded window of results for
 waiters that attach late.
 */
module Broker {

  const REPLAY_SIZE: nat := 1024

  datatype Result = Result(id: string, body: string)

  // ------------------------------------------------------------ the replay window

  datatype Window = Window(order: seq<string>, replay: map<string, Result>)

  /** Drops the oldest deliveries; an ID listed twice is forgotten with its first listing. */
  function Evict(w: Window): (r: Window)
    ensures |r.order| <= REPLAY_SIZE
    decreases |w.order|
  {
    if |w.order| <= REPLAY_SIZE then w else Evict(Window(w.order[1..], w.replay - {w.order[0]}))
  }

  function Push(w: Window, cr: Result): (r: Window) {
    Evict(Window(w.order + [cr.id], w.replay[cr.id := cr]))
  }

  /** The window after a log of deliveries. */
  function After(log: seq<Result>): (w: Window) {
    if log == [] then Window([], map[]) else Push(After(log[..|log| - 1]), log[|log| - 1])
  }

  function Ids(log: seq<Result>): (r: seq<string>)
    ensures |r| == |log| && forall i :: 0 <= i < |r| ==> r[i] == log[i].id
  {
    seq(|log|, i requires 0 <= i < |log| => log[i].id)
  }

  lemma {:induction false} OrderIsTail(log: seq<Result>)
    ensures After(log).order == Ids(log)[if |log| <= REPLAY_SIZE then 0 else |log| - REPLAY_SIZE..]
  {
    if log != [] {
      var front, last := log[..|log| - 1], log[|log| - 1];
      OrderIsTail(front);
      assert Ids(log) == Ids(front) + [last.id];
      var pushed := Window(After(front).order + [last.id], After(front).replay[last.id := last]);
      if |log| > REPLAY_SIZE {
        assert |pushed.order| == REPLAY_SIZE + 1;
        EvictOne(pushed);
        assert pushed.order[1..] == Ids(log)[|log| - REPLAY_SIZE..];
      }
    }
  }

  lemma EvictOne(w: Window)
    requires |w.order| == REPLAY_SIZE + 1
    ensures Evict(w) == Window(w.order[1..], w.replay - {w.order[0]})
  {
  }

  /** The delivery at `p` is the last of its ID, and none of that ID has been evicted since. */
  ghost predicate Survives(log: seq<Result>, x: string, p: nat) {
    && p < |log| && log[p].id == x
    && (forall q :: p < q < |log| ==> log[q].id != x)
    && (forall q :: 0 <= q && p <= q + REPLAY_SIZE < |log| ==> log[q].id != x)
  }

  lemma ReplayStep(log: seq<Result>)
    requires log != []
    ensures var front, last := log[..|log| - 1], log[|log| - 1];
      var set_ := After(front).replay[last.id := last];
      After(log).replay == if |log| <= REPLAY_SIZE then set_ else set_ - {log[|log| - 1 - REPLAY_SIZE].id}
  {
    var front, last := log[..|log| - 1], log[|log| - 1];
    OrderIsTail(front);
    var w := Window(After(front).order + [last.id], After(front).replay[last.id := last]);
    if |log| > REPLAY_SIZE {
      assert |w.order| == REPLAY_SIZE + 1;
      assert w.order[0] == log[|log| - 1 - REPLAY_SIZE].id;
      EvictOne(w);
    }
  }

  /** For every log, with repeated IDs or not: what the window answers, and with which delivery. */
  lemma {:induction false} WindowIsExact(log: seq<Result>, x: string)
    ensures x in After(log).replay <==> exists p: nat :: Survives(log, x, p)
    ensures forall p: nat :: Survives(log, x, p) ==> x in After(log).replay && After(log).replay[x] == log[p]
  {
    if log != [] {
      var front, last := log[..|log| - 1], log[|log| - 1];
      var n := |log|;
      WindowIsExact(front, x);
      ReplayStep(log);
      var evicts := n > REPLAY_SIZE && log[n - 1 - REPLAY_SIZE].id == x;
      if evicts {
        forall p: nat ensures !Survives(log, x, p) {
          assert (n - 1 - REPLAY_SIZE) + REPLAY_SIZE == n - 1;
        }
      } else if last.id == x {
        assert Survives(log, x, n - 1);
      } else {
        forall p: nat ensures Survives(log, x, p) <==> Survives(front, x, p) {
          SurvivesSnoc(log, x, p);
        }
      }
    }
  }

  lemma SurvivesSnoc(log: seq<Result>, x: string, p: nat)
    requires log != [] && log[|log| - 1].id != x
    requires |log| > REPLAY_SIZE ==> log[|log| - 1 - REPLAY_SIZE].id != x
    ensures Survives(log, x, p) <==> Survives(log[..|log| - 1], x, p)
  {
    var front := log[..|log| - 1];
    assert forall q :: 0 <= q < |front| ==> front[q] == log[q];
    if Survives(front, x, p) {
      forall q | 0 <= q && p <= q + REPLAY_SIZE < |log| ensures log[q].id != x {
        if q + REPLAY_SIZE < |front| { assert front[q].id != x; }
      }
    }
    if Survives(log, x, p) {
      forall q | 0 <= q && p <= q + REPLAY_SIZE < |front| ensures front[q].id != x {
        assert log[q].id != x;
      }
    }
  }

  /** With distinct IDs the window is exactly the last 1024 results. */
  lemma DistinctWindow(log: seq<Result>, x: string)
    requires forall i, j :: 0 <= i < j < |log| ==> log[i].id != log[j].id
    ensures x in After(log).replay <==> exists p :: 0 <= p < |log| && |log| - REPLAY_SIZE <= p && log[p].id == x
  {
    WindowIsExact(log, x);
    forall p: nat | p < |log| && log[p].id == x ensures Survives(log, x, p) <==> |log| - REPLAY_SIZE <= p {
      assert forall q :: 0 <= q < |log| && log[q].id == x ==> q == p;
    }
  }

  // ------------------------------------------------------------ waiters

  /** `inbox[ch]` is everything ever sent on channel `ch`, whose buffer holds one result. */
  datatype State = State(waiters: map<string, seq<nat>>, window: Window, inbox: map<nat, seq<Result>>)

  const EMPTY := State(map[], Window([], map[]), map[])

  function Listed(s: State, id: string): (chs: seq<nat>) { if id in s.waiters then s.waiters[id] else [] }

  function SendAll(inbox: map<nat, seq<Result>>, chs: seq<nat>, cr: Result): (r: map<nat, seq<Result>>)
    requires forall ch :: ch in chs ==> ch in inbox
    ensures r.Keys == inbox.Keys
  {
    if chs == [] then inbox
    else
      var rest := SendAll(inbox, chs[..|chs| - 1], cr);
      rest[chs[|chs| - 1] := rest[chs[|chs| - 1]] + [cr]]
  }

  function Without(chs: seq<nat>, ch: nat): (r: seq<nat>)
    ensures forall c :: c in r <==> c in chs && c != ch
  {
    if chs == [] then []
    else
      var last := chs[|chs| - 1];
      assert chs == chs[..|chs| - 1] + [last];
      Without(chs[..|chs| - 1], ch) + (if last == ch then [] else [last])
  }

  datatype Op = Wait(id: string, ch: nat) | Release(id: string, ch: nat) | Deliver(cr: Result)

  /** A channel is made once; releasing one that is not listed changes nothing. */
  predicate Possible(s: State, op: Op) {
    match op
    case Wait(_, ch) => ch !in s.inbox
    case Release(_, _) => true
    case Deliver(cr) => forall ch :: ch in Listed(s, cr.id) ==> ch in s.inbox
  }

  function Do(s: State, op: Op): (r: State)
    requires Possible(s, op)
  {
    match op
    case Wait(id, ch) =>
      if id in s.window.replay then s.(inbox := s.inbox[ch := [s.window.replay[id]]])
      else s.(inbox := s.inbox[ch := []], waiters := s.waiters[id := Listed(s, id) + [ch]])
    case Release(id, ch) =>
      var out := Without(Listed(s, id), ch);
      s.(waiters := if out == [] then s.waiters - {id} else s.waiters[id := out])
    case Deliver(cr) =>
      State(s.waiters - {cr.id}, Push(s.window, cr), SendAll(s.inbox, Listed(s, cr.id), cr))
  }

  ghost predicate NoRepeat(chs: seq<nat>) { forall i, j :: 0 <= i < j < |chs| ==> chs[i] != chs[j] }

  lemma {:induction false} WithoutNoRepeat(chs: seq<nat>, ch: nat)
    requires NoRepeat(chs)
    ensures NoRepeat(Without(chs, ch))
  {
    if chs != [] {
      var front, last := chs[..|chs| - 1], chs[|chs| - 1];
      assert chs == front + [last];
      WithoutNoRepeat(front, ch);
      var r := Without(front, ch);
      forall i | 0 <= i < |r| ensures r[i] != last { assert r[i] in front; }
    }
  }

  /** Waiting lists are non-empty, hold each channel once, and share none. */
  ghost predicate ListsOk(waiters: map<string, seq<nat>>) {
    && (forall id :: id in waiters ==> waiters[id] != [] && NoRepeat(waiters[id]))
    && (forall a, b, ch :: a in waiters && b in waiters && ch in waiters[a] && ch in waiters[b] ==> a == b)
  }

  ghost predicate InboxOk(waiters: map<string, seq<nat>>, inbox: map<nat, seq<Result>>) {
    && (forall id, ch :: id in waiters && ch in waiters[id] ==> ch in inbox && inbox[ch] == [])
    && (forall ch :: ch in inbox ==> |inbox[ch]| <= 1)
  }

  ghost predicate Inv(s: State) {
    && ListsOk(s.waiters) && InboxOk(s.waiters, s.inbox)
    && s.waiters.Keys !! s.window.replay.Keys
    && |s.window.order| <= REPLAY_SIZE
  }

  lemma {:induction false} SendsOnce(inbox: map<nat, seq<Result>>, chs: seq<nat>, cr: Result)
    requires NoRepeat(chs) && forall ch :: ch in chs ==> ch in inbox
    ensures forall ch :: ch in inbox ==> SendAll(inbox, chs, cr)[ch] == inbox[ch] + (if ch in chs then [cr] else [])
  {
    if chs != [] {
      var front, last := chs[..|chs| - 1], chs[|chs| - 1];
      assert chs == front + [last];
      SendsOnce(inbox, front, cr);
      assert last !in front;
    }
  }

  lemma {:induction false} EvictSubset(w: Window)
    ensures Evict(w).replay.Keys <= w.replay.Keys
    decreases |w.order|
  {
    if |w.order| > REPLAY_SIZE { EvictSubset(Window(w.order[1..], w.replay - {w.order[0]})); }
  }

  lemma DeliverKeeps(s: State, cr: Result)
    requires Inv(s) && Possible(s, Deliver(cr))
    ensures Inv(Do(s, Deliver(cr)))
    ensures forall ch :: ch in s.inbox ==>
      Do(s, Deliver(cr)).inbox[ch] == if ch in Listed(s, cr.id) then [cr] else s.inbox[ch]
  {
    var chs := Listed(s, cr.id);
    SendsOnce(s.inbox, chs, cr);
    EvictSubset(Window(s.window.order + [cr.id], s.window.replay[cr.id := cr]));
    hide Evict, SendAll, NoRepeat;
    var r := Do(s, Deliver(cr));
    forall id, ch | id in r.waiters && ch in r.waiters[id] ensures ch in r.inbox && r.inbox[ch] == [] {
      assert id in s.waiters && s.waiters[id] == r.waiters[id];
      assert ch !in chs;
    }
  }

  lemma WaitKeeps(s: State, id: string, ch: nat)
    requires Inv(s) && Possible(s, Wait(id, ch))
    ensures Inv(Do(s, Wait(id, ch)))
  {
    var r := Do(s, Wait(id, ch));
    if id !in s.window.replay {
      hide Inv;
      WaitLists(s.waiters, id, ch, Listed(s, id), s.inbox);
      WaitInbox(s.waiters, id, ch, Listed(s, id), s.inbox);
    }
  }

  lemma NotListed(s: State, id: string, ch: nat)
    requires Inv(s) && Possible(s, Wait(id, ch))
    ensures ch !in Listed(s, id) && (id in s.window.replay ==> Listed(s, id) == [])
  {
  }

  lemma WaitLists(waiters: map<string, seq<nat>>, id: string, ch: nat, chs: seq<nat>, inbox: map<nat, seq<Result>>)
    requires ListsOk(waiters) && InboxOk(waiters, inbox) && ch !in inbox
    requires chs == if id in waiters then waiters[id] else []
    ensures ListsOk(waiters[id := chs + [ch]])
  {
    var r := waiters[id := chs + [ch]];
    assert forall c :: c in chs + [ch] <==> c in chs || c == ch;
    assert forall x :: x in waiters ==> ch !in waiters[x];
    assert ch !in chs && NoRepeat(chs + [ch]);
  }

  lemma WaitInbox(waiters: map<string, seq<nat>>, id: string, ch: nat, chs: seq<nat>, inbox: map<nat, seq<Result>>)
    requires InboxOk(waiters, inbox) && ch !in inbox && chs == if id in waiters then waiters[id] else []
    ensures InboxOk(waiters[id := chs + [ch]], inbox[ch := []])
  {
    assert forall c :: c in chs + [ch] <==> c in chs || c == ch;
  }

  lemma ReleaseKeeps(s: State, id: string, ch: nat)
    requires Inv(s)
    ensures Inv(Do(s, Release(id, ch)))
  {
    var r := Do(s, Release(id, ch));
    WithoutNoRepeat(Listed(s, id), ch);
    hide Without, NoRepeat;
    assert forall x :: x in r.waiters ==> x in s.waiters && forall c :: c in r.waiters[x] ==> c in s.waiters[x];
  }

  lemma DoKeeps(s: State, op: Op)
    requires Inv(s) && Possible(s, op)
    ensures Inv(Do(s, op))
  {
    hide Inv, Do, Possible;
    match op {
      case Wait(id, ch) => WaitKeeps(s, id, ch);
      case Release(id, ch) => ReleaseKeeps(s, id, ch);
      case Deliver(cr) => DeliverKeeps(s, cr);
    }
  }

  ghost predicate Runs(s: State, ops: seq<Op>, last: State)
    decreases |ops|
  {
    if ops == [] then last == s else Possible(s, ops[0]) && Runs(Do(s, ops[0]), ops[1..], last)
  }

  /** What was delivered, in order. */
  ghost function Delivered(ops: seq<Op>): (log: seq<Result>) {
    if ops == [] then []
    else Delivered(ops[..|ops| - 1]) + (if ops[|ops| - 1].Deliver? then [ops[|ops| - 1].cr] else [])
  }

  lemma StepWindow(s: State, op: Op, done: seq<Result>)
    requires Possible(s, op) && s.window == After(done)
    ensures Do(s, op).window == After(done + (if op.Deliver? then [op.cr] else []))
  {
    hide SendAll, Without, Push;
    if op.Deliver? {
      assert (done + [op.cr])[..|done|] == done;
    } else {
      assert done + [] == done;
    }
  }

  lemma {:induction false} RunsKeep(s: State, ops: seq<Op>, last: State, done: seq<Result>)
    requires Inv(s) && Runs(s, ops, last) && s.window == After(done)
    ensures Inv(last) && last.window == After(done + Delivered(ops))
    decreases |ops|
  {
    hide Inv, Possible, Do, After;
    if ops == [] {
      assert done + [] == done;
    } else {
      var op := ops[0];
      var next := done + (if op.Deliver? then [op.cr] else []);
      DoKeeps(s, op);
      StepWindow(s, op, done);
      RunsKeep(Do(s, op), ops[1..], last, next);
      DeliveredCons(ops);
      assert done + Delivered(ops) == next + Delivered(ops[1..]);
    }
  }

  lemma {:induction false} DeliveredCons(ops: seq<Op>)
    requires ops != []
    ensures Delivered(ops) == (if ops[0].Deliver? then [ops[0].cr] else []) + Delivered(ops[1..])
    decreases |ops|
  {
    if |ops| > 1 {
      DeliveredCons(ops[..|ops| - 1]);
      assert ops[1..][..|ops| - 2] == ops[..|ops| - 1][1..];
    } else {
      assert ops[..0] == [] && ops[1..] == [];
    }
  }

  lemma StartEmpty()
    ensures Inv(EMPTY) && EMPTY.window == After([])
  {
  }

  /**
   In every run a channel is sent at most one result, a delivery finds every buffer it sends on
   empty, no ID is both waited for and answerable, and the window is the one of the delivery log.
   */
  lemma BrokerIsExact(ops: seq<Op>, last: State, cr: Result, x: string)
    requires Runs(EMPTY, ops, last)
    ensures forall ch :: ch in last.inbox ==> |last.inbox[ch]| <= 1
    ensures forall ch :: ch in Listed(last, cr.id) ==> ch in last.inbox && last.inbox[ch] == []
    ensures !(x in last.waiters && x in last.window.replay)
    ensures |last.window.order| <= REPLAY_SIZE
    ensures x in last.window.replay <==> exists p: nat :: Survives(Delivered(ops), x, p)
  {
    hide Runs, Survives, NoRepeat, After, Delivered, ListsOk;
    StartEmpty();
    RunsKeep(EMPTY, ops, last, []);
    assert [] + Delivered(ops) == Delivered(ops);
    WindowIsExact(Delivered(ops), x);
  }

  // ------------------------------------------------------------ the broker, in place

  class Hub {
    var waiters: map<string, seq<nat>>
    var replay: map<string, Result>
    var order: seq<string>
    var inbox: map<nat, seq<Result>>

    ghost function View(): (s: State)
      reads this
    {
      State(waiters, Window(order, replay), inbox)
    }

    ghost predicate Valid()
      reads this
    {
      Inv(View())
    }

    constructor ()
      ensures Valid() && View() == EMPTY
    {
      waiters, replay, order, inbox := map[], map[], [], map[];
    }

    /** Answered at once from the window, or listed until a delivery answers. */
    method Await(id: string, ch: nat)
      requires Valid() && Possible(View(), Wait(id, ch))
      modifies this
      ensures Valid() && View() == Do(old(View()), Wait(id, ch))
      ensures inbox[ch] == (if id in replay then [replay[id]] else [])
      ensures ch in Listed(View(), id) <==> inbox[ch] == []
    {
      WaitKeeps(View(), id, ch);
      NotListed(View(), id, ch);
      hide Inv;
      if id in replay {
        inbox := inbox[ch := [replay[id]]];
        return;
      }
      inbox := inbox[ch := []];
      waiters := waiters[id := (if id in waiters then waiters[id] else []) + [ch]];
    }

    method RemoveWaiter(id: string, ch: nat)
      requires Valid()
      modifies `waiters
      ensures Valid() && View() == Do(old(View()), Release(id, ch))
      ensures ch !in Listed(View(), id)
    {
      ReleaseKeeps(View(), id, ch);
      hide Inv;
      var list := if id in waiters then waiters[id] else [];
      var out: seq<nat> := [];
      for i := 0 to |list|
        invariant out == Without(list[..i], ch)
      {
        assert list[..i + 1][..i] == list[..i];
        if list[i] != ch { out := out + [list[i]]; }
      }
      assert list[..|list|] == list;
      waiters := if out == [] then waiters - {id} else waiters[id := out];
    }

    /** Never blocks: every channel it sends on has an empty buffer. */
    method Dispatch(cr: Result)
      requires Valid()
      modifies this
      ensures Valid() && View() == Do(old(View()), Deliver(cr))
      ensures forall ch :: ch in old(inbox) ==>
        ch in inbox && inbox[ch] == if ch in Listed(old(View()), cr.id) then [cr] else old(inbox)[ch]
    {
      DeliverKeeps(View(), cr);
      hide SendAll;
      ghost var pushed := Window(order + [cr.id], replay[cr.id := cr]);
      replay, order := replay[cr.id := cr], order + [cr.id];
      while |order| > REPLAY_SIZE
        invariant Evict(Window(order, replay)) == Evict(pushed) && waiters == old(waiters) && inbox == old(inbox)
        decreases |order|
      {
        replay, order := replay - {order[0]}, order[1..];
      }
      SendEach(cr);
      waiters := waiters - {cr.id};
    }

    method SendEach(cr: Result)
      requires forall ch :: ch in Listed(View(), cr.id) ==> ch in inbox && inbox[ch] == []
      requires NoRepeat(Listed(View(), cr.id))
      modifies `inbox
      ensures inbox == SendAll(old(inbox), Listed(old(View()), cr.id), cr)
    {
      var list := if cr.id in waiters then waiters[cr.id] else [];
      for i := 0 to |list|
        invariant forall ch :: ch in list ==> ch in old(inbox) && old(inbox)[ch] == []
        invariant inbox == SendAll(old(inbox), list[..i], cr)
      {
        ghost var sent := list[..i];
        assert NoRepeat(sent) && list[i] !in sent && list[i] in list;
        SendsOnce(old(inbox), sent, cr);
        SendNext(old(inbox), list, i, cr);
        hide SendAll, NoRepeat;
        assert inbox[list[i]] == [];
        inbox := inbox[list[i] := inbox[list[i]] + [cr]];
      }
      assert list[..|list|] == list;
    }
  }

  lemma SendNext(inbox: map<nat, seq<Result>>, list: seq<nat>, i: nat, cr: Result)
    requires i < |list| && forall ch :: ch in list ==> ch in inbox
    ensures var was := SendAll(inbox, list[..i], cr);
      list[i] in was && SendAll(inbox, list[..i + 1], cr) == was[list[i] := was[list[i]] + [cr]]
  {
    assert list[..i + 1][..i] == list[..i] && list[i] in list;
  }
}
