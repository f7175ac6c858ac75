/**
 Containment of one cleaned absolute path in another, by text and by components.
 */
module Paths {

  /** `pathWithin` on paths already cleaned. */
  predicate PathWithin(path: string, root: string) {
    path == root || root + "/" <= path
  }

  predicate Component(c: string) { c != "" && '/' !in c }

  type Components = seq<string>

  predicate WellFormed(cs: Components) {
    forall i :: 0 <= i < |cs| ==> Component(cs[i])
  }

  function Join(cs: Components): (s: string) {
    if cs == [] then "" else "/" + cs[0] + Join(cs[1..])
  }

  /** The cleaned text of an absolute path. */
  function Text(cs: Components): (s: string) {
    if cs == [] then "/" else Join(cs)
  }

  predicate Nested(a: Components, b: Components) { a <= b || b <= a }

  lemma {:induction false} JoinConcat(a: Components, b: Components)
    ensures Join(a + b) == Join(a) + Join(b)
  {
    if a == [] { assert a + b == b; } else {
      assert (a + b)[1..] == a[1..] + b;
      JoinConcat(a[1..], b);
    }
  }

  function FirstSlash(s: string): (k: nat) {
    if s == "" || s[0] == '/' then 0 else 1 + FirstSlash(s[1..])
  }

  lemma {:induction false} FirstSlashAfter(c: string, x: string)
    requires '/' !in c && (x == "" || x[0] == '/')
    ensures FirstSlash(c + x) == |c|
  {
    if c == "" { assert c + x == x; } else {
      assert (c + x)[1..] == c[1..] + x;
      FirstSlashAfter(c[1..], x);
    }
  }

  /** The first component ends at the first separator after the leading one. */
  lemma FirstComponent(c: string, d: string, x: string, y: string)
    requires Component(c) && Component(d)
    requires x != "" && x[0] == '/'
    requires y == "" || y[0] == '/'
    requires "/" + c + x <= "/" + d + y
    ensures c == d && x <= y
  {
    var l, r := "/" + c + x, "/" + d + y;
    var x' := r[1 + |c|..];
    assert x'[0] == l[1 + |c|] == '/';
    assert d + y == r[1..] == c + x' by { assert r[1..1 + |c|] == l[1..1 + |c|] == c; }
    FirstSlashAfter(c, x');
    FirstSlashAfter(d, y);
    assert c == (c + x')[..|c|] == (d + y)[..|d|] == d;
    assert x == l[1 + |c|..] && y == r[1 + |c|..];
  }

  lemma {:induction false} JoinPrefix(a: Components, b: Components)
    requires WellFormed(a) && WellFormed(b) && Join(b) + "/" <= Join(a)
    ensures b < a
  {
    if b != [] {
      var x, y := Join(b[1..]) + "/", Join(a[1..]);
      assert Join(b) + "/" == "/" + b[0] + x;
      FirstComponent(b[0], a[0], x, y);
      JoinPrefix(a[1..], b[1..]);
      assert a == [a[0]] + a[1..] && b == [b[0]] + b[1..];
    }
  }

  lemma JoinTail(a: Components)
    requires a != []
    ensures Join(a) + "/" == "/" + a[0] + (Join(a[1..]) + "/")
  {
  }

  lemma {:induction false} JoinInjective(a: Components, b: Components)
    requires WellFormed(a) && WellFormed(b) && Join(a) == Join(b)
    ensures a == b
  {
    if a != [] && b != [] {
      var x, y := Join(a[1..]) + "/", Join(b[1..]) + "/";
      JoinTail(a);
      JoinTail(b);
      hide Join;
      FirstComponent(a[0], b[0], x, y);
      FirstComponent(b[0], a[0], y, x);
      assert Join(a[1..]) == x[..|x| - 1] && Join(b[1..]) == y[..|y| - 1];
      JoinInjective(a[1..], b[1..]);
      assert a == [a[0]] + a[1..] && b == [b[0]] + b[1..];
    }
  }

  /** The text test is containment of components, except below the root directory. */
  lemma WithinIsPrefix(path: Components, root: Components)
    requires WellFormed(path) && WellFormed(root)
    ensures PathWithin(Text(path), Text(root)) <==> root <= path && (root == [] ==> path == [])
  {
    if root == [] {
      if path != [] {
        assert Text(path)[1] == path[0][0];
      }
    } else if path == [] {
      assert Text(root)[1] == root[0][0];
    } else {
      if root <= path {
        var rest := path[|root|..];
        assert path == root + rest;
        JoinConcat(root, rest);
      }
      if Join(path) == Join(root) { JoinInjective(path, root); }
      if Join(root) + "/" <= Join(path) { JoinPrefix(path, root); }
    }
  }

  /** A file below two directories makes one of them contain the other. */
  lemma SharedFileNests(file: string, a: string, b: string)
    requires PathWithin(file, a) && PathWithin(file, b)
    ensures PathWithin(a, b) || PathWithin(b, a)
  {
    if |a| < |b| {
      assert a + "/" <= file && b <= file;
      assert b[..|a| + 1] == file[..|a| + 1] == a + "/";
    } else if |b| < |a| {
      assert b + "/" <= file && a <= file;
      assert a[..|b| + 1] == file[..|b| + 1] == b + "/";
    } else {
      assert a == file[..|a|] == file[..|b|] == b;
    }
  }
}
