/**
 Publishing a pulled snapshot into a live model cache: entries are only ever added, and the
 snapshot record is added last. A published file and its staged file are one file on disk.
 */
module Publish {
  import opened Prelude
  import Pull = ResumablePull

  const RECORDS := ".lmw/snapshots/"

  /** A file is a name for its bytes, which other names may share. */
  datatype Node = Regular(inode: nat) | Symlink(target: string) | OtherNode

  type Tree = map<string, Node>

  /** The bytes of every file. */
  type Store = map<nat, Bytes>

  /** `path` as listed by the peer, `rel` its cleaned form when that is safe. */
  datatype Entry = Entry(path: string, rel: Option<string>, size: nat, sha: Digest, link: string)

  predicate IsRecord(e: Entry) { RECORDS <= e.path }

  function Ordinary(entries: seq<Entry>): (r: seq<Entry>)
    ensures forall e :: e in r <==> e in entries && !IsRecord(e)
  {
    if entries == [] then []
    else
      var last := entries[|entries| - 1];
      assert entries == entries[..|entries| - 1] + [last];
      Ordinary(entries[..|entries| - 1]) + (if IsRecord(last) then [] else [last])
  }

  /** The last record listed; earlier ones are never published. */
  function Completion(entries: seq<Entry>): (r: Option<Entry>)
    ensures r.Some? ==> r.value in entries && IsRecord(r.value)
    ensures r.None? ==> forall e :: e in entries ==> !IsRecord(e)
  {
    if entries == [] then None
    else
      var last := entries[|entries| - 1];
      assert entries == entries[..|entries| - 1] + [last];
      if IsRecord(last) then Some(last) else Completion(entries[..|entries| - 1])
  }

  function Order(entries: seq<Entry>): (r: seq<Entry>) {
    Ordinary(entries) + (if Completion(entries).Some? then [Completion(entries).value] else [])
  }

  predicate Matches(e: Entry, content: Bytes) { |content| == e.size && Sha256(content) == e.sha }

  /** The entry is in the tree as the manifest describes it. */
  predicate Holds(store: Store, tree: Tree, e: Entry) {
    && e.rel.Some? && e.rel.value in tree
    && if e.link != "" then tree[e.rel.value] == Symlink(e.link)
       else
         && tree[e.rel.value].Regular? && tree[e.rel.value].inode in store
         && Matches(e, store[tree[e.rel.value].inode])
  }

  /** Every name is still there, and every file behind one has the bytes it had. */
  ghost predicate Extends(store: Store, tree: Tree, store': Store, tree': Tree) {
    forall p :: p in tree ==>
      && p in tree' && tree'[p] == tree[p]
      && (tree[p].Regular? && tree[p].inode in store ==>
            tree[p].inode in store' && store'[tree[p].inode] == store[tree[p].inode])
  }

  lemma HoldsLater(store: Store, tree: Tree, store': Store, tree': Tree, e: Entry)
    requires Extends(store, tree, store', tree') && Holds(store, tree, e)
    ensures Holds(store', tree', e)
  {
  }

  lemma ExtendsOn(s: Store, t: Tree, s': Store, t': Tree, s'': Store, t'': Tree)
    requires Extends(s, t, s', t') && Extends(s', t', s'', t'')
    ensures Extends(s, t, s'', t'')
  {
  }

  lemma AllHoldLater(store: Store, tree: Tree, tree': Tree, es: seq<Entry>)
    requires Extends(store, tree, store, tree') && forall e :: e in es ==> Holds(store, tree, e)
    ensures forall e :: e in es ==> Holds(store, tree', e)
  {
    forall e | e in es ensures Holds(store, tree', e) { HoldsLater(store, tree, store, tree', e); }
  }

  lemma NothingLost(store: Store, tree: Tree)
    ensures Extends(store, tree, store, tree)
  {
  }

  /** Staged bytes have been checked against the manifest. */
  ghost predicate Verified(store: Store, staging: map<string, nat>, entries: seq<Entry>) {
    forall e :: e in entries && e.link == "" && e.rel.Some? && e.rel.value in staging ==>
      staging[e.rel.value] in store && Matches(e, store[staging[e.rel.value]])
  }

  /** What creating the entry would add, if its source is there. */
  function Source(e: Entry, staging: map<string, nat>): (n: Option<Node>)
    requires e.rel.Some?
  {
    if e.link != "" then Some(Symlink(e.link))
    else if e.rel.value in staging then Some(Regular(staging[e.rel.value]))
    else None
  }

  // ------------------------------------------------------------ one undisturbed run

  class Cache {
    var store: Store
    var tree: Tree
    var staging: map<string, nat>

    constructor (bytes: Store, present: Tree, staged: map<string, nat>)
      ensures store == bytes && tree == present && staging == staged
    {
      store, tree, staging := bytes, present, staged;
    }

    method PublishOne(e: Entry) returns (ok: bool)
      requires Verified(store, staging, [e])
      modifies `tree
      ensures Extends(store, old(tree), store, tree) && (ok ==> Holds(store, tree, e))
      ensures !ok ==> tree == old(tree)
    {
      assert e in [e];
      if e.rel.None? { return false; }
      var place := e.rel.value;
      if place in tree { return Holds(store, tree, e); }
      var source := Source(e, staging);
      if source.None? { return false; }
      tree := tree[place := source.value];
      return true;
    }

    /** Success means every published entry is in place; nothing present is ever changed. */
    method PublishAll(entries: seq<Entry>) returns (ok: bool)
      requires Verified(store, staging, entries)
      modifies `tree, `staging
      ensures Extends(store, old(tree), store, tree)
      ensures ok ==> Completion(entries).Some? && forall e :: e in Order(entries) ==> Holds(store, tree, e)
    {
      hide Holds, Extends;
      NothingLost(store, tree);
      var completion: Option<Entry> := None;
      for i := 0 to |entries|
        invariant Extends(store, old(tree), store, tree) && staging == old(staging)
        invariant completion == Completion(entries[..i])
        invariant forall e :: e in Ordinary(entries[..i]) ==> Holds(store, tree, e)
      {
        assert entries[..i + 1][..i] == entries[..i] && entries[i] in entries;
        var e := entries[i];
        if IsRecord(e) {
          completion := Some(e);
        } else {
          ghost var before := tree;
          var done := PublishOne(e);
          if !done { return false; }
          AllHoldLater(store, before, tree, Ordinary(entries[..i]));
          ExtendsOn(store, old(tree), store, before, store, tree);
        }
      }
      assert entries[..|entries|] == entries;
      if completion.None? { return false; }
      ghost var before := tree;
      ok := PublishOne(completion.value);
      AllHoldLater(store, before, tree, Ordinary(entries));
      ExtendsOn(store, old(tree), store, before, store, tree);
      if ok { staging := map[]; }
    }
  }

  // ------------------------------------------------------------ pulls, crashes, re-runs and racers

  datatype Pc = Pulling | At(i: nat) | Creating(i: nat) | Failed | Done

  /** `saved` is the checkpoint on disk; `made` are the places this publisher created, over all its runs. */
  datatype World = World(store: Store, staging: map<string, nat>, saved: map<string, Pull.Prefix>, tree: Tree,
                         pc: Pc, made: set<string>)

  datatype Step =
    | Open(e: Entry, fresh_: nat)
    | Append(e: Entry, data: Bytes, record: bool)
    | Begin
    | Look
    | Create
    | Finish
    | Drop(rel: string)
    | Error
    | Restart
    | Racer(place: string, node: Node, bytes: Bytes)

  /** The file is pulled in full, and the checkpoint says so. */
  predicate Complete(w: World, e: Entry) {
    e.link == "" ==>
      && e.rel.Some? && e.rel.value in w.staging && w.staging[e.rel.value] in w.store
      && Matches(e, w.store[w.staging[e.rel.value]])
      && (e.size > 0 ==> Pull.Recorded(w.saved, e.rel.value) == Some(Pull.Prefix(e.size, e.sha)))
  }

  predicate Staged(w: World, e: Entry) {
    e.link == "" && e.rel.Some? && e.rel.value in w.staging && w.staging[e.rel.value] in w.store
  }

  predicate Enabled(w: World, s: Step, entries: seq<Entry>) {
    match s
    case Open(e, fresh_) => w.pc.Pulling? && e in entries && e.link == "" && e.rel.Some? && fresh_ !in w.store
    case Append(e, data, _) =>
      w.pc.Pulling? && e in entries && Staged(w, e) && 0 < |data|
      && |w.store[w.staging[e.rel.value]]| + |data| <= e.size
    case Begin => w.pc.Pulling? && forall e :: e in entries ==> Complete(w, e)
    case Look => w.pc.At? && w.pc.i < |Order(entries)|
    case Create => w.pc.Creating? && w.pc.i < |Order(entries)| && Order(entries)[w.pc.i].rel.Some?
    case Finish => w.pc.At? && w.pc.i == |Order(entries)|
    case Drop(_) => w.pc.Done?
    case Error => true
    case Restart => true
    case Racer(place, node, _) => place !in w.tree && (node.Regular? ==> node.inode !in w.store)
  }

  function Apply(w: World, s: Step, entries: seq<Entry>): (r: World)
    requires Enabled(w, s, entries)
  {
    match s
    case Open(e, fresh_) =>
      // the staged file is opened, or made, and cut to its recorded prefix
      var rel := e.rel.value;
      if rel in w.staging && w.staging[rel] in w.store then
        w.(store := w.store[w.staging[rel] := Pull.Kept(w.saved, rel, w.store[w.staging[rel]], e.size)])
      else w.(store := w.store[fresh_ := []], staging := w.staging[rel := fresh_])
    case Append(e, data, record) =>
      var rel := e.rel.value;
      var content := w.store[w.staging[rel]] + data;
      w.(store := w.store[w.staging[rel] := content],
         saved := if record then w.saved[rel := Pull.Prefix(|content|, Sha256(content))] else w.saved)
    case Begin => w.(pc := At(0))
    case Look =>
      var e := Order(entries)[w.pc.i];
      if e.rel.None? then w.(pc := Failed)
      else if e.rel.value !in w.tree then w.(pc := Creating(w.pc.i))
      else if Holds(w.store, w.tree, e) then w.(pc := At(w.pc.i + 1))
      else w.(pc := Failed)
    case Create =>
      var e := Order(entries)[w.pc.i];
      var source := Source(e, w.staging);
      if e.rel.value in w.tree || source.None? then w.(pc := Failed)
      else w.(tree := w.tree[e.rel.value := source.value], pc := At(w.pc.i + 1), made := w.made + {e.rel.value})
    case Finish => if Completion(entries).Some? then w.(pc := Done) else w.(pc := Failed)
    case Drop(rel) => w.(staging := w.staging - {rel})
    case Error => w.(pc := Failed)
    case Restart => w.(pc := Pulling)
    case Racer(place, node, bytes) =>
      w.(tree := w.tree[place := node], store := if node.Regular? then w.store[node.inode := bytes] else w.store)
  }

  ghost predicate Runs(w: World, steps: seq<Step>, entries: seq<Entry>, last: World)
    decreases |steps|
  {
    if steps == [] then last == w
    else Enabled(w, steps[0], entries) && Runs(Apply(w, steps[0], entries), steps[1..], entries, last)
  }

  // ------------------------------------------------------------ what survives a re-pull

  /** Every content a re-pull of the file can leave, for any peer and any point where it stops. */
  ghost predicate Repulled(saved: map<string, Pull.Prefix>, rel: string, content: Bytes, size: nat, after: Bytes) {
    var kept := Pull.Kept(saved, rel, content, size);
    exists data: Bytes :: |kept| + |data| <= size && after == kept + data
  }

  /**
   Bytes already published survive every re-pull of their staged name exactly when the manifest still lists
   their size and the checkpoint records them in full.
   */
  lemma SurvivesRepullIff(saved: map<string, Pull.Prefix>, rel: string, content: Bytes, size: nat)
    ensures (forall after :: Repulled(saved, rel, content, size, after) ==> after == content) <==>
      size == |content| && (content == [] || Pull.Recorded(saved, rel) == Some(Pull.Prefix(size, Sha256(content))))
  {
    var kept := Pull.Kept(saved, rel, content, size);
    assert kept + [] == kept && Repulled(saved, rel, content, size, kept);
    assert content[..|content|] == content;
    if kept == content && size > |content| {
      var more := content + [0];
      assert |content| + |[0 as Byte]| <= size && Repulled(saved, rel, content, size, more);
      assert more != content;
    }
    if size == |content| && kept == content {
      forall after | Repulled(saved, rel, content, size, after) ensures after == content {
        var data: Bytes :| |kept| + |data| <= size && after == kept + data;
      }
    }
  }

  // ------------------------------------------------------------ the manifests that show the record early

  /** Two entries that describe the same thing at the same place. */
  predicate SameAs(e: Entry, f: Entry) {
    e.rel == f.rel && e.link == f.link && (e.link == "" ==> e.size == f.size && e.sha == f.sha)
  }

  ghost predicate Consistent(es: seq<Entry>) {
    forall i, j :: 0 <= i < |es| && 0 <= j < |es| && es[i].rel == es[j].rel ==> SameAs(es[i], es[j])
  }

  /**
   Ordinary entry `i` stands at the record's place, what is listed up to it can be published together, and
   entry `j` after it describes something not described up to it.
   */
  ghost predicate EarlyAt(entries: seq<Entry>, i: nat, j: nat) {
    var ord := Ordinary(entries);
    && i < j < |ord| && Completion(entries).Some? && ord[i].rel == Completion(entries).value.rel
    && (forall k :: 0 <= k <= i ==> ord[k].rel.Some?)
    && Consistent(ord[..i + 1])
    && (forall k :: 0 <= k <= i ==> !SameAs(ord[k], ord[j]))
  }

  ghost predicate Early(entries: seq<Entry>) { exists i, j: nat :: EarlyAt(entries, i, j) }

  lemma HoldsSame(store: Store, tree: Tree, e: Entry, f: Entry)
    ensures Holds(store, tree, e) && SameAs(e, f) ==> Holds(store, tree, f)
    ensures Holds(store, tree, e) && Holds(store, tree, f) && e.rel == f.rel ==> SameAs(e, f)
  {
  }

  // ------------------------------------------------------------ the invariant

  ghost predicate UpTo(w: World, order: seq<Entry>, n: nat) {
    n <= |order| && forall k :: 0 <= k < n ==> Holds(w.store, w.tree, order[k])
  }

  ghost predicate RecordMade(w: World, entries: seq<Entry>) {
    Completion(entries).Some? && Completion(entries).value.rel.Some? && Completion(entries).value.rel.value in w.made
  }

  /** Every file has its bytes, and staged names do not share them among themselves. */
  ghost predicate Files(w: World) {
    && (forall r :: r in w.staging ==> w.staging[r] in w.store)
    && (forall r, q :: r in w.staging && q in w.staging && w.staging[r] == w.staging[q] ==> r == q)
    && (forall p :: p in w.tree && w.tree[p].Regular? ==> w.tree[p].inode in w.store)
  }

  /** The staged file is as long as every entry for it says, and recorded in full. */
  ghost predicate Whole(w: World, rel: string, entries: seq<Entry>)
    requires rel in w.staging && w.staging[rel] in w.store
  {
    var c := w.store[w.staging[rel]];
    && (c == [] || Pull.Recorded(w.saved, rel) == Some(Pull.Prefix(|c|, Sha256(c))))
    && (forall e :: e in entries && e.link == "" && e.rel == Some(rel) ==> e.size == |c|)
  }

  ghost predicate SharedAreWhole(w: World, entries: seq<Entry>)
    requires Files(w)
  {
    forall p, r :: p in w.tree && r in w.staging && w.tree[p] == Regular(w.staging[r]) ==> Whole(w, r, entries)
  }

  ghost predicate Inv(w: World, entries: seq<Entry>) {
    && Files(w) && SharedAreWhole(w, entries)
    && (w.pc.At? || w.pc.Creating? ==>
          UpTo(w, Order(entries), w.pc.i) && forall e :: e in entries ==> Complete(w, e))
    && (w.pc.Done? ==> Completion(entries).Some? && UpTo(w, Order(entries), |Order(entries)|))
    && (!Early(entries) && RecordMade(w, entries) ==> UpTo(w, Order(entries), |Ordinary(entries)|))
  }

  ghost predicate Grown(w: World, r: World) { Extends(w.store, w.tree, r.store, r.tree) }

  lemma UpToLater(w: World, r: World, order: seq<Entry>, n: nat)
    requires Grown(w, r) && UpTo(w, order, n)
    ensures UpTo(r, order, n)
  {
    forall k | 0 <= k < n ensures Holds(r.store, r.tree, order[k]) {
      HoldsLater(w.store, w.tree, r.store, r.tree, order[k]);
    }
  }

  /** A step that keeps the program counter, or leaves publishing, and lets the cache grow. */
  lemma CarryOver(w: World, r: World, entries: seq<Entry>)
    requires Inv(w, entries) && Grown(w, r) && r.made == w.made && Files(r) && SharedAreWhole(r, entries)
    requires r.pc.Pulling? || r.pc.Failed? || (r.pc == w.pc && (r.pc.Done? || forall e :: e in entries ==> Complete(r, e)))
    ensures Inv(r, entries)
  {
    hide Complete, Files, SharedAreWhole, Early, Grown, UpTo;
    if (w.pc.At? || w.pc.Creating?) && r.pc == w.pc { UpToLater(w, r, Order(entries), w.pc.i); }
    if w.pc.Done? { UpToLater(w, r, Order(entries), |Order(entries)|); }
    if !Early(entries) && RecordMade(w, entries) { UpToLater(w, r, Order(entries), |Ordinary(entries)|); }
  }

  lemma OpenKeeps(w: World, s: Step, entries: seq<Entry>)
    requires Inv(w, entries) && s.Open? && Enabled(w, s, entries)
    ensures Inv(Apply(w, s, entries), entries) && Grown(w, Apply(w, s, entries))
  {
    var r := Apply(w, s, entries);
    var rel := s.e.rel.value;
    hide Order, Ordinary, Completion, Early, Holds;
    if rel in w.staging {
      var ino := w.staging[rel];
      var c := w.store[ino];
      forall p | p in w.tree && w.tree[p] == Regular(ino) ensures r.store[ino] == c {
        assert Whole(w, rel, entries);
        SurvivesRepullIff(w.saved, rel, c, s.e.size);
        assert r.store[ino] + [] == r.store[ino] && Repulled(w.saved, rel, c, s.e.size, r.store[ino]);
      }
      assert Grown(w, r);
      forall p, q | p in r.tree && q in r.staging && r.tree[p] == Regular(r.staging[q]) ensures Whole(r, q, entries) {
        assert Whole(w, q, entries);
      }
    } else {
      assert Grown(w, r);
      forall p, q | p in r.tree && q in r.staging && r.tree[p] == Regular(r.staging[q]) ensures Whole(r, q, entries) {
        assert q != rel && Whole(w, q, entries);
      }
    }
    hide Grown, Files, SharedAreWhole;
    CarryOver(w, r, entries);
  }

  lemma AppendKeeps(w: World, s: Step, entries: seq<Entry>)
    requires Inv(w, entries) && s.Append? && Enabled(w, s, entries)
    ensures Inv(Apply(w, s, entries), entries) && Grown(w, Apply(w, s, entries))
  {
    var r := Apply(w, s, entries);
    var rel := s.e.rel.value;
    var ino := w.staging[rel];
    hide Order, Ordinary, Completion, Early, Holds;
    NotShared(w, s, entries);
    assert Grown(w, r);
    forall p, q | p in r.tree && q in r.staging && r.tree[p] == Regular(r.staging[q]) ensures Whole(r, q, entries) {
      assert q != rel && Whole(w, q, entries);
    }
    hide Grown, Files, SharedAreWhole;
    CarryOver(w, r, entries);
  }

  /** A file that can still grow is not in the cache. */
  lemma NotShared(w: World, s: Step, entries: seq<Entry>)
    requires Files(w) && SharedAreWhole(w, entries) && s.Append? && Enabled(w, s, entries)
    ensures forall p :: p in w.tree ==> w.tree[p] != Regular(w.staging[s.e.rel.value])
  {
    var rel := s.e.rel.value;
    assert |w.store[w.staging[rel]]| < s.e.size;
    assert !Whole(w, rel, entries);
  }

  lemma CreateShared(w: World, r: World, e: Entry, entries: seq<Entry>)
    requires Files(w) && SharedAreWhole(w, entries) && (forall d :: d in entries ==> Complete(w, d))
    requires e in entries && e.rel.Some? && e.rel.value !in w.tree && Source(e, w.staging).Some?
    requires r.store == w.store && r.staging == w.staging && r.saved == w.saved
    requires r.tree == w.tree[e.rel.value := Source(e, w.staging).value]
    ensures Files(r) && SharedAreWhole(r, entries) && Grown(w, r) && Holds(r.store, r.tree, e)
  {
    assert Complete(w, e);
    forall p, q | p in r.tree && q in r.staging && r.tree[p] == Regular(r.staging[q]) ensures Whole(r, q, entries) {
      if p == e.rel.value {
        assert q == e.rel.value;
        forall d | d in entries && d.link == "" && d.rel == Some(q) ensures d.size == |w.store[w.staging[q]]| {
          assert Complete(w, d);
        }
      } else {
        assert Whole(w, q, entries);
      }
    }
  }

  /** Reaching the record's place among the ordinary entries is harmless when nothing new is described later. */
  lemma RecordAmongOrdinary(r: World, entries: seq<Entry>, n: nat)
    requires !Early(entries) && n < |Ordinary(entries)| && UpTo(r, Order(entries), n + 1)
    requires Completion(entries).Some? && Ordinary(entries)[n].rel == Completion(entries).value.rel
    ensures UpTo(r, Order(entries), |Ordinary(entries)|)
  {
    var ord := Ordinary(entries);
    hide Ordinary, Completion;
    assert forall k :: 0 <= k < |ord| ==> Order(entries)[k] == ord[k];
    var front := ord[..n + 1];
    forall i, j | 0 <= i < |front| && 0 <= j < |front| && front[i].rel == front[j].rel ensures SameAs(front[i], front[j]) {
      assert front[i] == ord[i] && front[j] == ord[j];
      HoldsSame(r.store, r.tree, ord[i], ord[j]);
    }
    forall j | n < j < |ord| ensures Holds(r.store, r.tree, ord[j]) {
      assert !EarlyAt(entries, n, j);
      var k :| 0 <= k <= n && SameAs(ord[k], ord[j]);
      HoldsSame(r.store, r.tree, ord[k], ord[j]);
    }
  }

  lemma InOrder(entries: seq<Entry>, k: nat)
    requires k < |Order(entries)|
    ensures Order(entries)[k] in entries
    ensures k < |Ordinary(entries)| ==> Order(entries)[k] == Ordinary(entries)[k]
    ensures k >= |Ordinary(entries)| ==> Completion(entries) == Some(Order(entries)[k])
  {
    hide Ordinary, Completion;
    if k < |Ordinary(entries)| { assert Order(entries)[k] in Ordinary(entries); }
  }

  /** One more entry is there; if it is the record's place, all ordinary ones are. */
  lemma CreatedOrder(w: World, r: World, entries: seq<Entry>)
    requires w.pc.Creating? && w.pc.i < |Order(entries)| && UpTo(w, Order(entries), w.pc.i) && Grown(w, r)
    requires !Early(entries) && RecordMade(w, entries) ==> UpTo(w, Order(entries), |Ordinary(entries)|)
    requires Order(entries)[w.pc.i].rel.Some? && r.made == w.made + {Order(entries)[w.pc.i].rel.value}
    requires Holds(r.store, r.tree, Order(entries)[w.pc.i])
    ensures UpTo(r, Order(entries), w.pc.i + 1)
    ensures !Early(entries) && RecordMade(r, entries) ==> UpTo(r, Order(entries), |Ordinary(entries)|)
  {
    hide Ordinary, Completion, Order, Holds, Early, Grown;
    var order, n := Order(entries), |Ordinary(entries)|;
    UpToLater(w, r, order, w.pc.i);
    InOrder(entries, w.pc.i);
    if !Early(entries) && RecordMade(r, entries) {
      if RecordMade(w, entries) {
        UpToLater(w, r, order, n);
      } else if w.pc.i < n {
        RecordAmongOrdinary(r, entries, w.pc.i);
      }
    }
  }

  lemma CreateKeeps(w: World, entries: seq<Entry>)
    requires Inv(w, entries) && Enabled(w, Create, entries)
    ensures Inv(Apply(w, Create, entries), entries) && Grown(w, Apply(w, Create, entries))
  {
    var r := Apply(w, Create, entries);
    var e := Order(entries)[w.pc.i];
    hide Ordinary, Completion, Order, Holds, Early;
    InOrder(entries, w.pc.i);
    if r.pc.Failed? {
      assert Grown(w, r);
      CarryOver(w, r, entries);
    } else {
      CreateShared(w, r, e, entries);
      hide Files, SharedAreWhole, Grown, Complete, RecordMade, UpTo;
      CreateCompletes(w, r, entries);
      CreatedOrder(w, r, entries);
    }
  }

  lemma CreateCompletes(w: World, r: World, entries: seq<Entry>)
    requires r.store == w.store && r.staging == w.staging && r.saved == w.saved
    requires forall e :: e in entries ==> Complete(w, e)
    ensures forall e :: e in entries ==> Complete(r, e)
  {
    forall e | e in entries ensures Complete(r, e) { assert Complete(w, e); }
  }

  lemma RacerKeeps(w: World, s: Step, entries: seq<Entry>)
    requires Inv(w, entries) && s.Racer? && Enabled(w, s, entries)
    ensures Inv(Apply(w, s, entries), entries) && Grown(w, Apply(w, s, entries))
  {
    var r := Apply(w, s, entries);
    hide Order, Ordinary, Completion, Early, Holds;
    assert Grown(w, r);
    forall p, q | p in r.tree && q in r.staging && r.tree[p] == Regular(r.staging[q]) ensures Whole(r, q, entries) {
      assert p != s.place && Whole(w, q, entries);
    }
    if w.pc.At? || w.pc.Creating? {
      forall e | e in entries ensures Complete(r, e) { assert Complete(w, e); }
    }
    hide Grown, Files, SharedAreWhole, Complete;
    CarryOver(w, r, entries);
  }

  lemma SameFiles(w: World, r: World, entries: seq<Entry>)
    requires Files(w) && SharedAreWhole(w, entries)
    requires r.store == w.store && r.tree == w.tree && r.saved == w.saved
    requires forall q :: q in r.staging ==> q in w.staging && r.staging[q] == w.staging[q]
    ensures Files(r) && SharedAreWhole(r, entries) && Grown(w, r)
  {
    forall p, q | p in r.tree && q in r.staging && r.tree[p] == Regular(r.staging[q]) ensures Whole(r, q, entries) {
      assert Whole(w, q, entries);
    }
  }

  lemma BeginOrLookKeeps(w: World, s: Step, entries: seq<Entry>)
    requires Inv(w, entries) && Enabled(w, s, entries) && (s.Begin? || s.Look?)
    ensures Inv(Apply(w, s, entries), entries) && Grown(w, Apply(w, s, entries))
  {
    hide Order, Ordinary, Completion, Early, Holds, Complete;
    var r := Apply(w, s, entries);
    assert r.store == w.store && r.tree == w.tree && r.saved == w.saved && r.made == w.made && r.staging == w.staging;
    SameFiles(w, r, entries);
    hide Files, SharedAreWhole, Grown;
    CompleteSame(w, r, entries);
  }

  lemma OtherKeeps(w: World, s: Step, entries: seq<Entry>)
    requires Inv(w, entries) && Enabled(w, s, entries) && (s.Finish? || s.Drop? || s.Error? || s.Restart?)
    ensures Inv(Apply(w, s, entries), entries) && Grown(w, Apply(w, s, entries))
  {
    hide Order, Ordinary, Completion, Early, Holds, Complete;
    var r := Apply(w, s, entries);
    assert r.store == w.store && r.tree == w.tree && r.saved == w.saved && r.made == w.made;
    SameFiles(w, r, entries);
    hide Files, SharedAreWhole, Grown;
  }

  lemma CompleteSame(w: World, r: World, entries: seq<Entry>)
    requires r.store == w.store && r.staging == w.staging && r.saved == w.saved
    ensures forall e :: e in entries && Complete(w, e) ==> Complete(r, e)
  {
  }

  lemma StepKeeps(w: World, s: Step, entries: seq<Entry>)
    requires Inv(w, entries) && Enabled(w, s, entries)
    ensures Inv(Apply(w, s, entries), entries) && Grown(w, Apply(w, s, entries))
  {
    hide Inv, Enabled, Apply, Grown;
    match s {
      case Open(_, _) => OpenKeeps(w, s, entries);
      case Append(_, _, _) => AppendKeeps(w, s, entries);
      case Create => CreateKeeps(w, entries);
      case Racer(_, _, _) => RacerKeeps(w, s, entries);
      case Begin => BeginOrLookKeeps(w, s, entries);
      case Look => BeginOrLookKeeps(w, s, entries);
      case _ => OtherKeeps(w, s, entries);
    }
  }

  lemma {:induction false} RunsKeep(w: World, steps: seq<Step>, entries: seq<Entry>, last: World)
    requires Inv(w, entries) && Runs(w, steps, entries, last)
    ensures Inv(last, entries) && Grown(w, last)
    decreases |steps|
  {
    if steps == [] {
      assert Grown(w, last);
    } else {
      hide Inv, Enabled, Apply;
      var r := Apply(w, steps[0], entries);
      StepKeeps(w, steps[0], entries);
      RunsKeep(r, steps[1..], entries, last);
      ExtendsOn(w.store, w.tree, r.store, r.tree, last.store, last.tree);
    }
  }

  /** Before the first pull: no file of the cache is staged. */
  ghost predicate Init(w: World) {
    && w.pc.Pulling? && w.made == {} && Files(w)
    && forall p, r :: p in w.tree && r in w.staging ==> w.tree[p] != Regular(w.staging[r])
  }

  /**
   For one manifest, through every pull, crash, re-pull and re-run and with any racer that only adds: every
   file of the cache keeps its name and its bytes; unless the manifest is an early one, a record made by the
   publisher means every ordinary entry is there as listed; a finished run has them all.
   */
  lemma PublishIsCrashSafe(w: World, steps: seq<Step>, entries: seq<Entry>, last: World)
    requires Init(w) && Runs(w, steps, entries, last)
    ensures Extends(w.store, w.tree, last.store, last.tree)
    ensures !Early(entries) && RecordMade(last, entries) ==>
      forall e :: e in Ordinary(entries) ==> Holds(last.store, last.tree, e)
    ensures last.pc.Done? ==> forall e :: e in Order(entries) ==> Holds(last.store, last.tree, e)
  {
    RunsKeep(w, steps, entries, last);
    hide Ordinary, Completion, Holds, Runs, Early;
    if !Early(entries) && RecordMade(last, entries) {
      forall e | e in Ordinary(entries) ensures Holds(last.store, last.tree, e) {
        var k :| 0 <= k < |Ordinary(entries)| && Ordinary(entries)[k] == e;
        assert Order(entries)[k] == e;
      }
    }
  }

  // ------------------------------------------------------------ early manifests do show the record early

  lemma {:induction false} RunsThen(w: World, steps: seq<Step>, entries: seq<Entry>, mid: World, s: Step)
    requires Runs(w, steps, entries, mid) && Enabled(mid, s, entries)
    ensures Runs(w, steps + [s], entries, Apply(mid, s, entries))
    decreases |steps|
  {
    hide Enabled, Apply;
    if steps == [] {
      assert steps + [s] == [s] && [s][1..] == [];
      assert Runs(Apply(mid, s, entries), [], entries, Apply(mid, s, entries));
    } else {
      assert (steps + [s])[0] == steps[0] && (steps + [s])[1..] == steps[1..] + [s];
      RunsThen(Apply(w, steps[0], entries), steps[1..], entries, mid, s);
    }
  }

  /** The first `n` entries are published from an empty cache, and nothing else. */
  ghost predicate Published(w: World, r: World, entries: seq<Entry>, n: nat) {
    var ord := Ordinary(entries);
    && n <= |ord| && r.pc == At(n) && r.store == w.store && r.staging == w.staging && r.saved == w.saved
    && (forall k :: 0 <= k < n ==> Holds(r.store, r.tree, ord[k]) && ord[k].rel.value in r.made)
    && (forall p :: p in r.tree ==> exists k :: 0 <= k < n && ord[k].rel == Some(p))
    && (forall p :: p in r.tree && r.tree[p].Regular? ==> p in w.staging && r.tree[p] == Regular(w.staging[p]))
  }

  /** The manifest has been pulled and the cache is empty. */
  ghost predicate Ready(w: World, entries: seq<Entry>) {
    Init(w) && w.tree == map[] && forall e :: e in entries ==> Complete(w, e)
  }

  lemma AlreadyThere(w: World, r: World, entries: seq<Entry>, n: nat)
    requires Published(w, r, entries, n) && n < |Ordinary(entries)| && Consistent(Ordinary(entries)[..n + 1])
    requires Ordinary(entries)[n].rel.Some? && Ordinary(entries)[n].rel.value in r.tree
    ensures Holds(r.store, r.tree, Ordinary(entries)[n]) && Published(w, r.(pc := At(n + 1)), entries, n + 1)
  {
    var ord := Ordinary(entries);
    hide Ordinary;
    var k :| 0 <= k < n && ord[k].rel == Some(ord[n].rel.value);
    var front := ord[..n + 1];
    assert front[k] == ord[k] && front[n] == ord[n] && SameAs(front[k], front[n]);
    HoldsSame(r.store, r.tree, ord[k], ord[n]);
    assert ord[k].rel.value in r.made;
  }

  lemma LookStep(r: World, entries: seq<Entry>, n: nat, e: Entry)
    requires r.pc == At(n) && n < |Order(entries)| && Order(entries)[n] == e && e.rel.Some?
    requires e.rel.value in r.tree ==> Holds(r.store, r.tree, e)
    ensures Enabled(r, Look, entries)
    ensures Apply(r, Look, entries) == r.(pc := if e.rel.value in r.tree then At(n + 1) else Creating(n))
  {
    hide Order, Holds;
  }

  lemma CreateStep(r: World, entries: seq<Entry>, n: nat, e: Entry)
    requires r.pc == Creating(n) && n < |Order(entries)| && Order(entries)[n] == e && e.rel.Some?
    requires e.rel.value !in r.tree
    requires Source(e, r.staging).Some?
    ensures Enabled(r, Create, entries)
    ensures Apply(r, Create, entries) ==
      r.(tree := r.tree[e.rel.value := Source(e, r.staging).value], pc := At(n + 1), made := r.made + {e.rel.value})
  {
    hide Order;
  }

  lemma PublishNext(w: World, steps: seq<Step>, r: World, entries: seq<Entry>, n: nat)
    returns (more: seq<Step>, next: World)
    requires Ready(w, entries) && Runs(w, steps, entries, r) && Published(w, r, entries, n)
    requires n < |Ordinary(entries)| && Ordinary(entries)[n].rel.Some? && Consistent(Ordinary(entries)[..n + 1])
    ensures Runs(w, more, entries, next) && Published(w, next, entries, n + 1)
  {
    var e := Ordinary(entries)[n];
    InOrder(entries, n);
    assert Complete(w, e) && r.pc == At(n) && r.staging == w.staging;
    assert e.rel.value !in r.tree ==> Source(e, r.staging).Some?;
    hide Ordinary, Completion, Order, Runs, Consistent, Holds, Published, Enabled, Apply, Ready, Complete;
    if e.rel.value in r.tree { AlreadyThere(w, r, entries, n); }
    LookStep(r, entries, n, e);
    RunsThen(w, steps, entries, r, Look);
    more, next := steps + [Look], Apply(r, Look, entries);
    if e.rel.value !in r.tree {
      CreateStep(next, entries, n, e);
      RunsThen(w, more, entries, next, Create);
      more, next := more + [Create], Apply(next, Create, entries);
      PublishedCreate(w, r, next, entries, n);
    }
  }

  lemma PublishedCreate(w: World, r: World, next: World, entries: seq<Entry>, n: nat)
    requires Published(w, r, entries, n) && n < |Ordinary(entries)| && Ordinary(entries)[n].rel.Some?
    requires var e := Ordinary(entries)[n];
      && Complete(w, e) && e.rel.value !in r.tree
      && next == r.(tree := r.tree[e.rel.value := Source(e, r.staging).value], pc := At(n + 1), made := r.made + {e.rel.value})
    ensures Published(w, next, entries, n + 1)
  {
    var ord := Ordinary(entries);
    hide Ordinary;
    assert Extends(r.store, r.tree, next.store, next.tree);
    forall k | 0 <= k < n + 1 ensures Holds(next.store, next.tree, ord[k]) && ord[k].rel.value in next.made {
      if k < n { HoldsLater(r.store, r.tree, next.store, next.tree, ord[k]); }
    }
  }

  lemma PublishNone(w: World, entries: seq<Entry>) returns (steps: seq<Step>, r: World)
    requires Ready(w, entries)
    ensures Runs(w, steps, entries, r) && Published(w, r, entries, 0)
  {
    steps, r := [Begin], Apply(w, Begin, entries);
    assert [Begin][1..] == [] && Runs(r, [], entries, r);
  }

  lemma {:induction false} PublishFirst(w: World, entries: seq<Entry>, n: nat) returns (steps: seq<Step>, r: World)
    requires Ready(w, entries) && n <= |Ordinary(entries)|
    requires n > 0 ==> Consistent(Ordinary(entries)[..n]) && forall k :: 0 <= k < n ==> Ordinary(entries)[k].rel.Some?
    ensures Runs(w, steps, entries, r) && Published(w, r, entries, n)
  {
    if n == 0 {
      steps, r := PublishNone(w, entries);
    } else {
      ConsistentFront(Ordinary(entries), n);
      hide Ordinary, Runs, Published, Ready, Consistent;
      steps, r := PublishFirst(w, entries, n - 1);
      steps, r := PublishNext(w, steps, r, entries, n - 1);
    }
  }

  lemma ConsistentFront(ord: seq<Entry>, n: nat)
    requires 0 < n <= |ord| && Consistent(ord[..n])
    ensures Consistent(ord[..n - 1])
  {
    var a, b := ord[..n], ord[..n - 1];
    forall i, j | 0 <= i < |b| && 0 <= j < |b| && b[i].rel == b[j].rel ensures SameAs(b[i], b[j]) {
      assert a[i] == b[i] && a[j] == b[j];
    }
  }

  /** From a pulled manifest of that kind, a run makes the record while an ordinary entry is missing. */
  lemma EarlyRecord(w: World, entries: seq<Entry>, i: nat, j: nat) returns (steps: seq<Step>, last: World)
    requires Ready(w, entries) && EarlyAt(entries, i, j)
    ensures Runs(w, steps, entries, last) && RecordMade(last, entries)
    ensures Ordinary(entries)[j] in Ordinary(entries) && !Holds(last.store, last.tree, Ordinary(entries)[j])
  {
    steps, last := PublishFirst(w, entries, i + 1);
    var ord := Ordinary(entries);
    hide Ordinary, Completion, Runs;
    assert ord[i].rel.value in last.made;
    if Holds(last.store, last.tree, ord[j]) {
      var k :| 0 <= k < i + 1 && ord[k].rel == Some(ord[j].rel.value);
      HoldsSame(last.store, last.tree, ord[k], ord[j]);
      assert false;
    }
  }

  /** Record last, exactly: on a pulled manifest every run keeps the promise if and only if the manifest is not an early one. */
  lemma RecordLastIff(w: World, entries: seq<Entry>)
    requires Ready(w, entries)
    ensures !Early(entries) <==>
      forall steps, last :: Runs(w, steps, entries, last) && RecordMade(last, entries) ==>
        forall e :: e in Ordinary(entries) ==> Holds(last.store, last.tree, e)
  {
    hide Ordinary, Completion, Runs, Holds, RecordMade, Ready;
    if Early(entries) {
      var i: nat, j: nat :| EarlyAt(entries, i, j);
      var steps, last := EarlyRecord(w, entries, i, j);
    } else {
      forall steps, last | Runs(w, steps, entries, last) && RecordMade(last, entries)
        ensures forall e :: e in Ordinary(entries) ==> Holds(last.store, last.tree, e)
      {
        ReadyInit(w, entries);
        PublishIsCrashSafe(w, steps, entries, last);
      }
    }
  }

  lemma ReadyInit(w: World, entries: seq<Entry>)
    requires Ready(w, entries)
    ensures Init(w)
  {
  }

  // ------------------------------------------------------------ a re-run with another manifest

  /**
   After a crash between publishing and clearing the staging, a re-run whose manifest lists a smaller size
   cuts a file that is already in the cache.
   */
  lemma RepullCutsPublished(w: World, entries: seq<Entry>, k: nat, again: Entry, fresh_: nat)
    returns (steps: seq<Step>, last: World)
    requires Ready(w, entries) && k < |Ordinary(entries)| && Ordinary(entries)[k].link == "" && fresh_ !in w.store
    requires Consistent(Ordinary(entries)[..k + 1]) && forall j :: 0 <= j <= k ==> Ordinary(entries)[j].rel.Some?
    requires again.link == "" && again.rel == Ordinary(entries)[k].rel && again.size < Ordinary(entries)[k].size
    ensures Runs(w, steps, entries, last) && Enabled(last, Open(again, fresh_), [again])
    ensures var place := again.rel.value; var r := Apply(last, Open(again, fresh_), [again]);
      && Holds(last.store, last.tree, Ordinary(entries)[k])
      && r.tree == last.tree && !Holds(r.store, r.tree, Ordinary(entries)[k])
  {
    var mid;
    steps, mid := PublishFirst(w, entries, k + 1);
    var e := Ordinary(entries)[k];
    hide Ordinary, Runs, Consistent;
    assert Holds(mid.store, mid.tree, e) && mid.store == w.store && mid.staging == w.staging && again in [again];
    RunsThen(w, steps, entries, mid, Restart);
    steps, last := steps + [Restart], Apply(mid, Restart, entries);
    assert last.tree[again.rel.value] == Regular(w.staging[again.rel.value]);
  }
}
