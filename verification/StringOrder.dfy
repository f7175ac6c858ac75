/** Lexicographic order of strings and sorting by it, as `sort.Strings` does. */
module StringOrder {

  predicate Less(a: string, b: string) {
    b != "" && (a == "" || a[0] < b[0] || (a[0] == b[0] && Less(a[1..], b[1..])))
  }

  /** One insertion. */
  function Insert(t: string, sorted: seq<string>): (r: seq<string>)
    ensures multiset(r) == multiset{t} + multiset(sorted)
  {
    if sorted == [] then [t]
    else if Less(t, sorted[0]) then [t] + sorted
    else
      assert sorted == [sorted[0]] + sorted[1..];
      [sorted[0]] + Insert(t, sorted[1..])
  }

  function Sort(tokens: seq<string>): (r: seq<string>)
    ensures multiset(r) == multiset(tokens)
  {
    if tokens == [] then []
    else
      assert tokens == [tokens[0]] + tokens[1..];
      Insert(tokens[0], Sort(tokens[1..]))
  }

  /** In order and without repetition. */
  ghost predicate Ascending(s: seq<string>) {
    forall i, j :: 0 <= i < j < |s| ==> Less(s[i], s[j])
  }

  lemma {:induction false} Trichotomy(a: string, b: string)
    ensures a == b || Less(a, b) || Less(b, a)
    ensures !(Less(a, b) && Less(b, a))
  {
    if a != "" && b != "" {
      Trichotomy(a[1..], b[1..]);
      if a[0] == b[0] && a[1..] == b[1..] { assert a == [a[0]] + a[1..] && b == [b[0]] + b[1..]; }
    }
  }

  lemma {:induction false} Transitive(a: string, b: string, c: string)
    requires Less(a, b) && Less(b, c)
    ensures Less(a, c)
    decreases |a|
  {
    if a != "" && a[0] == b[0] && b[0] == c[0] { Transitive(a[1..], b[1..], c[1..]); }
  }

  lemma Members(t: string, sorted: seq<string>)
    ensures forall x :: x in Insert(t, sorted) <==> x == t || x in sorted
  {
    var r := Insert(t, sorted);
    assert forall x :: x in r <==> x in multiset(r);
    assert forall x :: x in sorted <==> x in multiset(sorted);
  }

  lemma {:induction false} InsertAscending(t: string, sorted: seq<string>)
    requires Ascending(sorted) && t !in sorted
    ensures Ascending(Insert(t, sorted))
  {
    if sorted != [] {
      var head, tail := sorted[0], sorted[1..];
      Trichotomy(t, head);
      assert head in sorted && forall x :: x in tail ==> x in sorted;
      forall x | x in tail ensures Less(head, x) {
        var i :| 0 <= i < |tail| && tail[i] == x;
        assert sorted[i + 1] == x;
      }
      if Less(t, head) {
        forall x | x in tail ensures Less(t, x) { Transitive(t, head, x); }
        AscendingCons(t, sorted);
      } else {
        assert forall i, j :: 0 <= i < j < |tail| ==> tail[i] == sorted[i + 1] && tail[j] == sorted[j + 1];
        InsertAscending(t, tail);
        Members(t, tail);
        AscendingCons(head, Insert(t, tail));
      }
    }
  }

  lemma AscendingCons(t: string, rest: seq<string>)
    requires Ascending(rest) && forall x :: x in rest ==> Less(t, x)
    ensures Ascending([t] + rest)
  {
  }

  lemma {:induction false} SortAscending(tokens: seq<string>)
    requires forall i, j :: 0 <= i < j < |tokens| ==> tokens[i] != tokens[j]
    ensures Ascending(Sort(tokens)) && forall x :: x in Sort(tokens) <==> x in tokens
  {
    if tokens != [] {
      var head, tail := tokens[0], tokens[1..];
      assert head !in tail && tokens == [head] + tail;
      SortAscending(tail);
      InsertAscending(head, Sort(tail));
      Members(head, Sort(tail));
    }
  }

  /** Two ascending sequences with the same members are the same sequence. */
  lemma {:induction false} AscendingUnique(a: seq<string>, b: seq<string>)
    requires Ascending(a) && Ascending(b) && forall x :: x in a <==> x in b
    ensures a == b
  {
    if a == [] {
      assert forall x :: multiset(b)[x] == 0 by { assert forall x :: x in multiset(b) <==> x in b; }
      assert |multiset(b)| == |b|;
    } else {
      assert a[0] in b;
      var j :| 0 <= j < |b| && b[j] == a[0];
      assert b[0] in a;
      var i :| 0 <= i < |a| && a[i] == b[0];
      Trichotomy(a[0], b[0]);
      assert a[0] == b[0];
      forall x ensures x in a[1..] <==> x in b[1..] {
        TailMembers(a, x);
        TailMembers(b, x);
      }
      assert forall i, j :: 0 <= i < j < |a[1..]| ==> a[1..][i] == a[i + 1] && a[1..][j] == a[j + 1];
      assert forall i, j :: 0 <= i < j < |b[1..]| ==> b[1..][i] == b[i + 1] && b[1..][j] == b[j + 1];
      AscendingUnique(a[1..], b[1..]);
      assert a == [a[0]] + a[1..] && b == [b[0]] + b[1..];
    }
  }

  lemma TailMembers(s: seq<string>, x: string)
    requires Ascending(s) && s != []
    ensures x in s[1..] <==> x in s && x != s[0]
  {
    Trichotomy(s[0], s[0]);
    assert s == [s[0]] + s[1..];
    if x in s[1..] {
      var i :| 0 <= i < |s[1..]| && s[1..][i] == x;
      assert s[i + 1] == x;
    }
  }
}
