/**
 How sharp the hypotheses of binding recovery are: when a template can form new variables, and that
 wherever it can, or a value brings one along, the order of the observations decides.
 */
module BindingSharpness {
  import opened Prelude
  import opened Templates
  import opened BindingRecovery

  lemma {:induction false} ClosedConcat(a: Template, b: Template)
    requires Closed(a + b) && a != [] && b != []
    ensures !Open(a[|a| - 1], b[0])
    decreases |a|
  {
    assert (a + b)[1..] == a[1..] + b;
    if |a| > 1 {
      ClosedConcat(a[1..], b);
    } else {
      assert (a + b)[1] == b[0];
    }
  }

  lemma {:induction false} UnjointPair(ts: Template, kind: Kind) returns (i: nat)
    requires !Jointed(ts, kind)
    ensures i + 1 < |ts| && !Joint(ts[i], ts[i + 1], kind)
    decreases |ts|
  {
    if !Joint(ts[0], ts[1], kind) {
      i := 0;
    } else {
      i := UnjointPair(ts[1..], kind);
      i := i + 1;
    }
  }

  lemma SealedSubstituted(ts: Template, m: Bindings, ctx: Context, kind: Kind)
    requires Sealed(ts, kind) && InertMap(m, kind) && InertContext(ctx, kind)
    ensures Clean(SubstAll(ts, m, ctx))
  {
    VarsWell(ts);
    SubstituteAllFlat(ts, Vars(ts), m, ctx, kind);
    SequentialIsSimultaneous(ts, Vars(ts), m, ctx);
    SealedIsClean(SubstAll(ts, m, ctx), kind);
  }

  /** Values of the kind that open a variable between two neighbours. */
  function Opening(x: Segment, y: Segment, kind: Kind): (m: Bindings) {
    match (x, y)
    case (Var(t), Var(t')) => map[t := "{$", t' := "{$"]
    case (Var(t), Ch(_)) => map[t := "$"]
    case (Ch(_), Var(t)) => map[t := "{"]
    case _ => map[]
  }

  lemma OpeningOpens(x: Segment, y: Segment, kind: Kind, ctx: Context)
    requires !Joint(x, y, kind)
    ensures var m := Opening(x, y, kind);
      && InertMap(m, kind)
      && var a, c := SubstHead(x, m, ctx), SubstHead(y, m, ctx);
         a != [] && c != [] && Open(a[|a| - 1], c[0])
  {
    assert Chars("{$")[0] == Ch('{') && Chars("{$")[1] == Ch('$') && Chars("$") == [Ch('$')] && Chars("{") == [Ch('{')];
  }

  lemma OpenedPair(ts: Template, i: nat, m: Bindings, ctx: Context)
    requires i + 1 < |ts|
    requires var a, c := SubstHead(ts[i], m, ctx), SubstHead(ts[i + 1], m, ctx);
      a != [] && c != [] && Open(a[|a| - 1], c[0])
    ensures !Closed(SubstAll(ts, m, ctx))
  {
    var x, y := ts[i], ts[i + 1];
    var a, c := SubstHead(x, m, ctx), SubstHead(y, m, ctx);
    var left, right := ts[..i] + [x], [y] + ts[i + 2..];
    assert ts == left + right;
    SubstSingle(x, m, ctx);
    SubstSingle(y, m, ctx);
    hide SubstAll, SubstHead, Closed;
    SubstAllConcat(left, right, m, ctx);
    SubstAllConcat(ts[..i], [x], m, ctx);
    SubstAllConcat([y], ts[i + 2..], m, ctx);
    NotClosedAt(SubstAll(ts[..i], m, ctx) + a, c + SubstAll(ts[i + 2..], m, ctx));
  }

  lemma NotClosedAt(a: Template, c: Template)
    requires a != [] && c != [] && Open(a[|a| - 1], c[0])
    ensures !Closed(a + c)
  {
    if Closed(a + c) { ClosedConcat(a, c); }
  }

  /**
   A template is sealed exactly when no values of the kind, put in for its variables, make a `${` that
   is not the start of a variable.
   */
  lemma SealIsExact(ts: Template, ctx: Context, kind: Kind)
    requires WellTokens(ts) && InertContext(ctx, kind)
    ensures Sealed(ts, kind) <==> forall m :: InertMap(m, kind) ==> Closed(SubstAll(ts, m, ctx))
  {
    hide SubstAll, Closed, SubstHead;
    if Sealed(ts, kind) {
      forall m | InertMap(m, kind) ensures Closed(SubstAll(ts, m, ctx)) {
        SealedSubstituted(ts, m, ctx, kind);
      }
    } else {
      var i := UnjointPair(ts, kind);
      OpeningOpens(ts[i], ts[i + 1], kind, ctx);
      OpenedPair(ts, i, Opening(ts[i], ts[i + 1], kind), ctx);
    }
  }

  // ------------------------------------------------------------ where the order decides

  lemma NoOpenConcat(a: string, c: string)
    requires NoOpen(a) && NoOpen(c) && !(a != "" && c != "" && a[|a| - 1] == '$' && c[0] == '{')
    ensures NoOpen(a + c)
  {
    var s := a + c;
    forall i | 0 <= i < |s| - 1 && s[i] == '$' ensures s[i + 1] != '{' {
      if i + 1 < |a| { assert a[i + 1] != '{'; } else if i >= |a| { assert c[i - |a|] == '$' && c[i - |a| + 1] == s[i + 1]; }
    }
  }

  lemma {:induction false} ClosedChars(v: string)
    requires NoOpen(v)
    ensures Clean(Chars(v))
  {
    JointedChars(v, Any);
    SealedIsClean(Chars(v), Any);
  }

  lemma {:induction false} ClosedJoin(a: Template, c: Template)
    requires Closed(a) && Closed(c) && (a != [] && c != [] ==> !Open(a[|a| - 1], c[0]))
    ensures Closed(a + c)
    decreases |a|
  {
    if a == [] {
      assert a + c == c;
    } else {
      assert (a + c)[1..] == a[1..] + c;
      ClosedJoin(a[1..], c);
      assert |a + c| > 1 ==> (a + c)[1] == if |a| > 1 then a[1] else c[0];
    }
  }

  /** Text, one variable, text: a clean template. */
  lemma Surrounded(pre: string, u: string, post: string)
    requires NoOpen(pre) && NoOpen(post) && WellToken(u)
    ensures var ts := Chars(pre) + [Var(u)] + Chars(post); Clean(ts) && Flat(ts) == pre + u + post && Vars(ts) == [u]
    ensures TemplateVars(pre + u + post) == [u]
  {
    var ts := Chars(pre) + [Var(u)] + Chars(post);
    ClosedChars(pre);
    ClosedChars(post);
    ClosedJoin(Chars(pre), [Var(u)]);
    ClosedJoin(Chars(pre) + [Var(u)], Chars(post));
    assert Clean(ts);
    FlatAround(Chars(pre), u, Chars(post));
    FlatChars(pre);
    FlatChars(post);
    VarsConcat(Chars(pre) + [Var(u)], Chars(post));
    VarsConcat(Chars(pre), [Var(u)]);
    VarsChars(pre);
    VarsChars(post);
    assert Vars([Var(u)]) == [u];
    FindVarsFlat(ts);
    OneTemplateVar(pre + u + post, u);
  }

  lemma SurroundedRead(pre: string, u: string, post: string, value: string)
    requires NoOpen(pre) && NoOpen(post) && WellToken(u)
    ensures Read(pre + u + post, value) == Between(u, value, pre, post)
  {
    hide Read, Between;
    var ts := Chars(pre) + [Var(u)] + Chars(post);
    Surrounded(pre, u, post);
    VarsChars(pre);
    FlatChars(pre);
    FlatChars(post);
    ReadOne(ts, Chars(pre), u, Chars(post), value);
  }

  lemma SubstSurrounded(pre: string, u: string, post: string, v: string)
    ensures Flat(SubstOne(Chars(pre) + [Var(u)] + Chars(post), u, v)) == pre + v + post
  {
    var a, c := Chars(pre), Chars(post);
    SubstOneConcat(a + [Var(u)], c, u, v);
    SubstOneConcat(a, [Var(u)], u, v);
    SubstOneChars(pre, u, v);
    SubstOneChars(post, u, v);
    assert SubstOne([Var(u)], u, v) == Chars(v) + [] == Chars(v);
    assert SubstOne(a + [Var(u)] + c, u, v) == a + Chars(v) + c;
    hide SubstOne;
    FlatConcat(a + Chars(v), c);
    FlatConcat(a, Chars(v));
    FlatChars(pre);
    FlatChars(v);
    FlatChars(post);
  }

  lemma SurroundedReplaced(pre: string, u: string, post: string, v: string)
    requires NoOpen(pre) && NoOpen(post) && WellToken(u)
    ensures ReplaceAll(pre + u + post, u, v) == pre + v + post
  {
    hide ReplaceAll, SubstOne, Clean, Flat, WellToken, NoOpen;
    assert u != "" by { TokenNonempty(u); }
    var ts := Chars(pre) + [Var(u)] + Chars(post);
    Surrounded(pre, u, post);
    ReplaceAllFlat(ts, u, v);
    SubstSurrounded(pre, u, post, v);
  }

  lemma TokenNonempty(u: string)
    requires WellToken(u)
    ensures u != ""
  {
  }

  lemma OneToken(template: string, u: string, b: Bindings, ctx: Context)
    requires TemplateVars(template) == [u] && ctx.Resolve(u).None? && u != ""
    ensures Substitute(template, b, ctx) == if u in b then ReplaceAll(template, u, b[u]) else template
  {
    hide TemplateVars, ReplaceAll;
    var next := match Lookup(u, b, ctx) case Some(v) => ReplaceAll(template, u, v) case None => template;
    assert SubstituteAll(template, [u], b, ctx) == SubstituteAll(next, [u][1..], b, ctx) == next;
  }

  /** One variable in quiet text, with and without a binding. */
  lemma SurroundedSubstituted(pre: string, u: string, post: string, b: Bindings, ctx: Context)
    requires NoOpen(pre) && NoOpen(post) && WellToken(u) && ctx.Resolve(u).None?
    ensures Substitute(pre + u + post, b, ctx) == pre + (if u in b then b[u] else u) + post
  {
    hide Substitute, TemplateVars, ReplaceAll;
    Surrounded(pre, u, post);
    OneToken(pre + u + post, u, b, ctx);
    if u in b { SurroundedReplaced(pre, u, post, b[u]); }
  }

  lemma ReadPlain(s: string, value: string)
    requires NoOpen(s)
    ensures Read(s, value) == if s == value then Nothing else Refused(InconsistentValues)
  {
    hide Read;
    ClosedChars(s);
    FlatChars(s);
    VarsChars(s);
    ReadNone(Chars(s), value);
  }

  /** The lone variable as a template. */
  lemma PlainExamined(u: string, v: string, b: Bindings, ctx: Context)
    requires WellToken(u) && ctx.Resolve(u).None? && NoOpen(v) && (u in b ==> NoOpen(b[u]))
    ensures Examine(Observation(u, v), b, ctx) ==
      if u !in b then Bind(u, v) else if b[u] == v then Keep else Reject(InconsistentValues)
  {
    hide Read, Substitute, Between;
    SurroundedSubstituted("", u, "", b, ctx);
    assert "" + u + "" == u && forall x: string :: "" + x + "" == x;
    if u in b {
      ReadPlain(b[u], v);
    } else {
      SurroundedRead("", u, "", v);
      LoneBetween(u, v);
    }
  }

  lemma LoneBetween(u: string, v: string)
    ensures Between(u, v, "", "") == Solved(u, v)
  {
    assert v[0..] == v && v[|v|..] == "" && v[0..|v|] == v;
  }

  /**
   A template that names `u` and, once `u` has value `v`, shows a new variable `w`: read before the plain
   observation of `u` it binds `u` wrongly and recovery fails, read after it recovery succeeds.
   */
  lemma JunctionDecidesOrder(u: string, v: string, y: string, template: string, pre: string, post: string,
                             a: string, w: string, c: string, start: Bindings, ctx: Context)
    requires WellToken(u) && WellToken(w) && u != w && ctx.Resolve(u).None? && u !in start && w !in start
    requires NoOpen(v) && NoOpen(y) && v != y && NoOpen(pre) && NoOpen(post) && NoOpen(a) && NoOpen(c)
    requires w !in TemplateVars(template)
    requires Substitute(template, start, ctx) == pre + u + post
    requires Substitute(template, start[u := v], ctx) == a + w + c
    requires Fits(pre + y + post, a, c)
    ensures var plain, joined := Observation(u, v), Observation(template, pre + y + post);
      && Solve([plain, joined], start, ctx).Ok?
      && Solve([joined, plain], start, ctx).Err?
  {
    var value := pre + y + post;
    var plain, joined := Observation(u, v), Observation(template, value);
    assert |a| + |c| <= |value|;
    hide Read, Substitute, Fits, TemplateVars, Examine, WellToken, NoOpen, Solve;
    var z := value[|a|..|value| - |c|];
    JoinedExamined(template, pre, u, post, y, value, start, ctx);
    WatchedExamined(template, a, w, c, value, start[u := v], ctx);
    PlainExamined(u, v, start, ctx);
    PlainExamined(u, v, start[u := y], ctx);
    PlainExamined(u, v, start[u := v][w := z], ctx);
    TwoBindings(plain, joined, start, u, v, w, z, ctx);
    BindThenReject(joined, plain, start, u, y, ctx);
  }

  lemma TwoBindings(o: Observation, o': Observation, b: Bindings, u: string, v: string, w: string, z: string,
                    ctx: Context)
    requires Examine(o, b, ctx) == Bind(u, v) && Examine(o', b[u := v], ctx) == Bind(w, z)
    requires Examine(o, b[u := v][w := z], ctx) == Keep && Examine(o', b[u := v][w := z], ctx) == Keep
    ensures Solve([o, o'], b, ctx) == Ok(b[u := v][w := z])
  {
    hide Examine;
    var last := b[u := v][w := z];
    assert [o, o'][1..] == [o'] && [o'][1..] == [];
    assert Pass([o'], b[u := v], true, ctx) == Pass([], last, true, ctx);
    assert Pass([o'], last, false, ctx) == Pass([], last, false, ctx);
    assert Pass([o, o'], b, false, ctx) == Passed(last, true);
    assert Pass([o, o'], last, false, ctx) == Passed(last, false);
  }

  lemma BindThenReject(o: Observation, o': Observation, b: Bindings, u: string, v: string, ctx: Context)
    requires Examine(o, b, ctx) == Bind(u, v) && Examine(o', b[u := v], ctx).Reject?
    ensures Solve([o, o'], b, ctx).Err?
  {
    hide Examine;
    assert [o, o'][1..] == [o'];
    assert Pass([o'], b[u := v], true, ctx).Failed?;
  }

  lemma JoinedExamined(template: string, pre: string, u: string, post: string, y: string, value: string,
                       b: Bindings, ctx: Context)
    requires NoOpen(pre) && NoOpen(post) && WellToken(u) && u !in b && value == pre + y + post
    requires Substitute(template, b, ctx) == pre + u + post
    ensures Examine(Observation(template, value), b, ctx) == Bind(u, y)
  {
    hide Read, Substitute;
    SurroundedRead(pre, u, post, value);
    MiddleUnique(pre, y, post);
  }

  /** The new variable is bound once and then kept: the template's own variables do not name it. */
  lemma WatchedExamined(template: string, a: string, w: string, c: string, value: string, b: Bindings, ctx: Context)
    requires NoOpen(a) && NoOpen(c) && WellToken(w) && w !in b && w !in TemplateVars(template) && Fits(value, a, c)
    requires Substitute(template, b, ctx) == a + w + c
    ensures var z := value[|a|..|value| - |c|];
      && Examine(Observation(template, value), b, ctx) == Bind(w, z)
      && Examine(Observation(template, value), b[w := z], ctx) == Keep
  {
    var z := value[|a|..|value| - |c|];
    SameSubstitution(template, TemplateVars(template), b, b[w := z], ctx);
    hide Read, TemplateVars, SubstituteAll;
    SurroundedRead(a, w, c, value);
  }

  /** The same for a template of one variable in quiet text. */
  lemma SurroundedJunction(pre: string, u: string, post: string, v: string, y: string, a: string, w: string, c: string,
                           ctx: Context)
    requires WellToken(u) && WellToken(w) && u != w && ctx.Resolve(u).None?
    requires NoOpen(v) && NoOpen(y) && v != y && NoOpen(pre) && NoOpen(post) && NoOpen(a) && NoOpen(c)
    requires pre + v + post == a + w + c && Fits(pre + y + post, a, c)
    ensures var plain, joined := Observation(u, v), Observation(pre + u + post, pre + y + post);
      Solve([plain, joined], map[], ctx).Ok? && Solve([joined, plain], map[], ctx).Err?
  {
    hide Substitute, TemplateVars, Solve, Fits, WellToken, NoOpen;
    var empty: Bindings := map[];
    SurroundedSubstituted(pre, u, post, empty, ctx);
    SurroundedSubstituted(pre, u, post, empty[u := v], ctx);
    Surrounded(pre, u, post);
    JunctionDecidesOrder(u, v, y, pre + u + post, pre, post, a, w, c, empty, ctx);
  }

  lemma Regroup3(a: string, x: string, y: string, c: string)
    ensures (a + x) + y + c == a + (x + y) + c
  {
  }

  lemma Regroup3'(a: string, x: string, y: string, c: string)
    ensures a + x + (y + c) == a + (x + y) + c
  {
  }

  lemma FitsEnds(a: string, mid: string, c: string)
    ensures Fits(a + mid + c, a, c)
  {
    var s := a + mid + c;
    assert s[|s| - |c|..] == c && s[..|a|] == a;
  }

  /** A `$` directly before a variable whose value may begin with `{`. */
  lemma DollarBeforeVariable(p: string, u: string, n: string, q: string, y: string, ctx: Context)
    requires WellToken(u) && WellToken("${" + n + "}") && u != "${" + n + "}" && ctx.Resolve(u).None?
    requires NoOpen(p) && NoOpen(q) && NoOpen(y) && y != "{" + n + "}"
    ensures var plain, joined := Observation(u, "{" + n + "}"), Observation(p + "$" + u + q, p + "$" + y + q);
      Solve([plain, joined], map[], ctx).Ok? && Solve([joined, plain], map[], ctx).Err?
  {
    var v, w, pre := "{" + n + "}", "${" + n + "}", p + "$";
    NoOpenConcat(p, "$");
    assert v == w[1..] && w == "$" + v;
    hide Solve, Fits, WellToken, NoOpen;
    Regroup3(p, "$", v, q);
    Regroup3(p, "$", y, q);
    FitsEnds(p, "$" + y, q);
    SurroundedJunction(pre, u, q, v, y, p, w, q, ctx);
  }

  /** A `{` directly after a variable whose value may end with `$`. */
  lemma BraceAfterVariable(p: string, u: string, n: string, q: string, y: string, ctx: Context)
    requires WellToken(u) && WellToken("${" + n + "}") && u != "${" + n + "}" && ctx.Resolve(u).None?
    requires NoOpen(p) && NoOpen("{" + n + "}" + q) && NoOpen(q) && NoOpen(y) && y != "$"
    ensures var tail := "{" + n + "}" + q;
      var plain, joined := Observation(u, "$"), Observation(p + u + tail, p + y + tail);
      Solve([plain, joined], map[], ctx).Ok? && Solve([joined, plain], map[], ctx).Err?
  {
    var v, w := "{" + n + "}", "${" + n + "}";
    var post := v + q;
    hide Solve, Fits, WellToken;
    assert NoOpen("$");
    hide NoOpen;
    assert w == "$" + v;
    Regroup3'(p, "$", v, q);
    Regroup3'(p, y, v, q);
    FitsEnds(p, y + v, q);
    SurroundedJunction(p, u, post, "$", y, p, w, q, ctx);
  }

  /** A variable between `$` and `{` whose value may be empty, though values hold neither of the two. */
  lemma EmptyValueJoins(p: string, u: string, n: string, q: string, y: string, ctx: Context)
    requires WellToken(u) && WellToken("${" + n + "}") && u != "${" + n + "}" && ctx.Resolve(u).None?
    requires NoOpen(p) && NoOpen("{" + n + "}" + q) && NoOpen(q) && '$' !in y && '{' !in y && y != ""
    ensures var tail := "{" + n + "}" + q;
      var plain, joined := Observation(u, ""), Observation(p + "$" + u + tail, p + "$" + y + tail);
      Solve([plain, joined], map[], ctx).Ok? && Solve([joined, plain], map[], ctx).Err?
  {
    var v, w, pre := "{" + n + "}", "${" + n + "}", p + "$";
    var post := v + q;
    NoOpenConcat(p, "$");
    assert NoOpen("") && NoOpen(y);
    hide Solve, Fits, WellToken, NoOpen;
    assert w == "$" + v;
    assert pre + "" + post == p + w + q;
    assert pre + y + post == p + ("$" + y + v) + q;
    FitsEnds(p, "$" + y + v, q);
    SurroundedJunction(pre, u, post, "", y, p, w, q, ctx);
  }

  /** The template is clean before each of the replacements. */
  ghost predicate CleanSteps(ts: Template, tokens: seq<string>, b: Bindings, ctx: Context)
    decreases |tokens|
  {
    tokens == [] ||
    (Clean(ts) && WellToken(tokens[0]) &&
     CleanSteps(match Lookup(tokens[0], b, ctx) case Some(v) => SubstOne(ts, tokens[0], v) case None => ts, tokens[1..], b, ctx))
  }

  lemma {:induction false} SubstituteSteps(ts: Template, tokens: seq<string>, b: Bindings, ctx: Context)
    requires "" !in tokens && CleanSteps(ts, tokens, b, ctx)
    ensures SubstituteAll(Flat(ts), tokens, b, ctx) == Flat(SubstTokens(ts, tokens, b, ctx))
    decreases |tokens|
  {
    if tokens != [] {
      match Lookup(tokens[0], b, ctx)
      case Some(v) =>
        ReplaceAllFlat(ts, tokens[0], v);
        SubstituteSteps(SubstOne(ts, tokens[0], v), tokens[1..], b, ctx);
      case None =>
        SubstituteSteps(ts, tokens[1..], b, ctx);
    }
  }

  /** Two neighbouring segments in quiet text. */
  function Pair(p: string, x: Template, y: Template, q: string): (ts: Template) { Chars(p) + x + y + Chars(q) }

  lemma PairClean(p: string, x: Template, y: Template, q: string)
    requires NoOpen(p) && NoOpen(q) && Clean(x) && Clean(y)
    requires x != [] && y != [] && x[0] != Ch('{') && !Open(x[|x| - 1], y[0]) && y[|y| - 1] != Ch('$')
    ensures Clean(Pair(p, x, y, q))
  {
    ClosedChars(p);
    ClosedChars(q);
    ClosedJoin(Chars(p), x);
    ClosedJoin(Chars(p) + x, y);
    ClosedJoin(Chars(p) + x + y, Chars(q));
  }

  lemma PairSubst(p: string, x: Template, y: Template, q: string, t: string, v: string)
    ensures SubstOne(Pair(p, x, y, q), t, v) == Pair(p, SubstOne(x, t, v), SubstOne(y, t, v), q)
  {
    SubstOneConcat(Chars(p) + x + y, Chars(q), t, v);
    SubstOneConcat(Chars(p) + x, y, t, v);
    SubstOneConcat(Chars(p), x, t, v);
    SubstOneChars(p, t, v);
    SubstOneChars(q, t, v);
  }

  lemma PairFlat(p: string, x: Template, y: Template, q: string)
    ensures Flat(Pair(p, x, y, q)) == p + Flat(x) + Flat(y) + q
  {
    hide Flat;
    FlatConcat(Chars(p) + x + y, Chars(q));
    FlatConcat(Chars(p) + x, y);
    FlatConcat(Chars(p), x);
    FlatChars(p);
    FlatChars(q);
  }

  lemma PairVars(p: string, x: Template, y: Template, q: string)
    ensures Vars(Pair(p, x, y, q)) == Vars(x) + Vars(y)
  {
    hide Vars;
    VarsConcat(Chars(p) + x + y, Chars(q));
    VarsConcat(Chars(p) + x, y);
    VarsConcat(Chars(p), x);
    VarsChars(p);
    VarsChars(q);
  }

  lemma VarAlone(t: string)
    ensures Flat([Var(t)]) == t && Vars([Var(t)]) == [t]
  {
    assert t + "" == t;
  }

  lemma SubstVar(t: string, r: string, v: string)
    ensures SubstOne([Var(t)], r, v) == if t == r then Chars(v) else [Var(t)]
  {
    assert Chars(v) + [] == Chars(v);
  }

  /** After the first of two replacements, in whichever order, the template is clean. */
  lemma PairAfterFirst(p: string, t: string, u: string, q: string)
    requires NoOpen(p) && NoOpen(q) && WellToken(t) && WellToken(u) && t != u
    ensures Clean(SubstOne(Pair(p, [Var(t)], [Var(u)], q), t, "$"))
  {
    SubstVar(t, t, "$");
    SubstVar(u, t, "$");
    PairSubst(p, [Var(t)], [Var(u)], q, t, "$");
    assert Chars("$") == [Ch('$')];
    PairClean(p, Chars("$"), [Var(u)], q);
  }

  lemma PairAfterSecond(p: string, t: string, u: string, q: string, v: string)
    requires NoOpen(p) && NoOpen(q) && WellToken(t) && WellToken(u) && t != u && WellToken("$" + v)
    ensures Clean(SubstOne(Pair(p, [Var(t)], [Var(u)], q), u, v))
  {
    assert v == ("$" + v)[1..];
    ClosedChars(v);
    SubstVar(t, u, v);
    SubstVar(u, u, v);
    PairSubst(p, [Var(t)], [Var(u)], q, u, v);
    assert Chars(v)[|v| - 1] == Ch('}');
    PairClean(p, [Var(t)], Chars(v), q);
  }

  lemma PairSteps(p: string, t: string, u: string, q: string, tokens: seq<string>, b: Bindings, ctx: Context)
    requires NoOpen(p) && NoOpen(q) && WellToken(t) && WellToken(u) && t != u && ctx.Resolve(u).None?
    requires t in b && b[t] == "$" && (u in b ==> WellToken("$" + b[u]))
    requires tokens == [t, u] || tokens == [u, t]
    ensures CleanSteps(Pair(p, [Var(t)], [Var(u)], q), tokens, b, ctx)
  {
    PairClean(p, [Var(t)], [Var(u)], q);
    PairAfterFirst(p, t, u, q);
    if u in b { PairAfterSecond(p, t, u, q, b[u]); }
    hide Clean, NoOpen, WellToken, SubstOne, Pair;
    TwoSteps(Pair(p, [Var(t)], [Var(u)], q), tokens, b, ctx);
  }

  lemma TwoSteps(ts: Template, tokens: seq<string>, b: Bindings, ctx: Context)
    requires |tokens| == 2 && Clean(ts) && WellToken(tokens[0]) && WellToken(tokens[1])
    requires Lookup(tokens[0], b, ctx).Some? ==> Clean(SubstOne(ts, tokens[0], Lookup(tokens[0], b, ctx).value))
    ensures CleanSteps(ts, tokens, b, ctx)
  {
    hide Clean, WellToken, SubstOne;
    assert tokens[1..] == [tokens[1]] && tokens[1..][1..] == [];
    var next := match Lookup(tokens[0], b, ctx) case Some(v) => SubstOne(ts, tokens[0], v) case None => ts;
    assert Clean(next) && tokens[1..][0] == tokens[1];
    assert CleanSteps(next, tokens[1..], b, ctx);
  }

  lemma PairTokens(p: string, t: string, u: string, q: string)
    requires NoOpen(p) && NoOpen(q) && WellToken(t) && WellToken(u) && t != u
    ensures var tokens := TemplateVars(p + t + u + q); tokens == [t, u] || tokens == [u, t]
  {
    var ts := Pair(p, [Var(t)], [Var(u)], q);
    PairClean(p, [Var(t)], [Var(u)], q);
    PairFlat(p, [Var(t)], [Var(u)], q);
    PairVars(p, [Var(t)], [Var(u)], q);
    VarAlone(t);
    VarAlone(u);
    FindVarsFlat(ts);
    TwoTemplateVars(p + t + u + q, t, u);
  }

  lemma PairList(r: seq<string>, t: string, u: string)
    requires |r| == 2 && t in r && u in r && t != u
    ensures r == [t, u] || r == [u, t]
  {
  }

  lemma TwoTemplateVars(s: string, t: string, u: string)
    requires FindVars(s) == [t, u] && t != u
    ensures TemplateVars(s) == [t, u] || TemplateVars(s) == [u, t]
  {
    assert Distinct([t, u]) == [t, u] by { assert [t, u][..1] == [t] && Distinct([t]) == [t]; }
    hide TemplateVars, FindVars, Distinct;
    PairList(TemplateVars(s), t, u);
  }

  lemma PairSubstituted(p: string, t: string, u: string, q: string, b: Bindings, ctx: Context)
    requires NoOpen(p) && NoOpen(q) && WellToken(t) && WellToken(u) && t != u && ctx.Resolve(u).None?
    requires t in b && b[t] == "$" && (u in b ==> WellToken("$" + b[u]))
    ensures Substitute(p + t + u + q, b, ctx) == p + "$" + (if u in b then b[u] else u) + q
  {
    var ts := Pair(p, [Var(t)], [Var(u)], q);
    var tokens := TemplateVars(p + t + u + q);
    PairTokens(p, t, u, q);
    PairFlat(p, [Var(t)], [Var(u)], q);
    PairVars(p, [Var(t)], [Var(u)], q);
    VarAlone(t);
    VarAlone(u);
    PairSteps(p, t, u, q, tokens, b, ctx);
    SubstituteSteps(ts, tokens, b, ctx);
    SequentialIsSimultaneous(ts, tokens, b, ctx);
    hide TemplateVars, SubstituteAll, SubstTokens, CleanSteps, WellToken, NoOpen;
    PairSubstAll(p, t, u, q, b, ctx);
  }

  lemma PairSubstAll(p: string, t: string, u: string, q: string, b: Bindings, ctx: Context)
    requires t in b && b[t] == "$" && ctx.Resolve(u).None?
    ensures Flat(SubstAll(Pair(p, [Var(t)], [Var(u)], q), b, ctx)) == p + "$" + (if u in b then b[u] else u) + q
  {
    var x, y := SubstHead(Var(t), b, ctx), SubstHead(Var(u), b, ctx);
    SubstAllConcat(Chars(p) + [Var(t)] + [Var(u)], Chars(q), b, ctx);
    SubstAllConcat(Chars(p) + [Var(t)], [Var(u)], b, ctx);
    SubstAllConcat(Chars(p), [Var(t)], b, ctx);
    VarsChars(p);
    VarsChars(q);
    SubstAllLiteral(Chars(p), b, ctx);
    SubstAllLiteral(Chars(q), b, ctx);
    assert SubstAll([Var(t)], b, ctx) == x + [] == x && SubstAll([Var(u)], b, ctx) == y + [] == y;
    assert SubstAll(Pair(p, [Var(t)], [Var(u)], q), b, ctx) == Pair(p, x, y, q);
    PairFlat(p, x, y, q);
    FlatChars("$");
    if u in b { FlatChars(b[u]); } else { assert Flat([Var(u)]) == u; }
  }

  /** Two adjacent variables, the first already known to be a `$`. */
  lemma AdjacentVariables(p: string, t: string, u: string, n: string, q: string, y: string, ctx: Context)
    requires WellToken(t) && WellToken(u) && WellToken("${" + n + "}") && t != u && ctx.Resolve(u).None?
    requires u != "${" + n + "}" && t != "${" + n + "}"
    requires NoOpen(p) && NoOpen(q) && NoOpen(y) && y != "{" + n + "}"
    ensures var plain, joined := Observation(u, "{" + n + "}"), Observation(p + t + u + q, p + "$" + y + q);
      Solve([plain, joined], map[t := "$"], ctx).Ok? && Solve([joined, plain], map[t := "$"], ctx).Err?
  {
    var v, w, pre, start := "{" + n + "}", "${" + n + "}", p + "$", map[t := "$"];
    NoOpenConcat(p, "$");
    assert v == w[1..] && w == "$" + v;
    PairTokens(p, t, u, q);
    hide Solve, Fits, WellToken, NoOpen, TemplateVars, Substitute;
    PairSubstituted(p, t, u, q, start, ctx);
    PairSubstituted(p, t, u, q, start[u := v], ctx);
    Regroup3(p, "$", v, q);
    Regroup3(p, "$", y, q);
    FitsEnds(p, "$" + y, q);
    JunctionDecidesOrder(u, v, y, p + t + u + q, pre, q, p, w, q, start, ctx);
  }

  // ------------------------------------------------------------ template text inside a value

  lemma ReadDoubled(d: string, tail: string, value: string)
    requires WellToken(d) && NoOpen(tail)
    ensures Read(d + d + tail, value) == Nothing
  {
    var ts := Pair("", [Var(d)], [Var(d)], tail);
    PairClean("", [Var(d)], [Var(d)], tail);
    VarAlone(d);
    hide Read, Clean, Pair, Flat, Vars, WellToken, NoOpen;
    PairFlat("", [Var(d)], [Var(d)], tail);
    PairVars("", [Var(d)], [Var(d)], tail);
    assert "" + d + d + tail == d + d + tail;
    ReadMany(ts, value);
  }

  lemma TextAfter(u: string, tail: string, b: Bindings, ctx: Context)
    requires WellToken(u) && NoOpen(tail) && ctx.Resolve(u).None?
    ensures Substitute(u + tail, b, ctx) == (if u in b then b[u] else u) + tail
  {
    hide Substitute;
    SurroundedSubstituted("", u, tail, b, ctx);
    assert forall x: string :: "" + x + tail == x + tail;
  }

  /**
   When a frozen value itself contains template text, the map order decides: the same
   two observations are refused in one order and accepted in the other.
   */
  lemma NonInertValuesBreakOrder(u: string, d: string, p: string, ctx: Context)
    requires WellToken(u) && WellToken(d) && ctx.Resolve(u).None? && NoOpen(p)
    ensures var plain, nested := Observation(u, p), Observation(u + "!", d + d + "!");
      && Solve([plain, nested], map[], ctx).Err?
      && Solve([nested, plain], map[], ctx) == Ok(map[u := d + d])
  {
    var plain, nested := Observation(u, p), Observation(u + "!", d + d + "!");
    var empty, b: Bindings := map[], map[u := d + d];
    NestedBound(u, d, ctx);
    NestedRefused(u, d, p, ctx);
    PlainExamined(u, p, empty, ctx);
    DoubledKept(u, d, p, ctx);
    hide Examine;
    BindThenReject(plain, nested, empty, u, p, ctx);
    assert empty[u := d + d] == b;
    assert [nested, plain][1..] == [plain] && [plain][1..] == [];
    assert Pass([plain], b, true, ctx) == Pass([], b, true, ctx) && Pass([plain], b, false, ctx) == Pass([], b, false, ctx);
    assert Pass([nested, plain], empty, false, ctx) == Passed(b, true);
    assert Pass([nested, plain], b, false, ctx) == Passed(b, false);
  }

  lemma NestedBound(u: string, d: string, ctx: Context)
    requires WellToken(u) && ctx.Resolve(u).None?
    ensures Examine(Observation(u + "!", d + d + "!"), map[], ctx) == Bind(u, d + d)
  {
    hide Read, Substitute;
    TextAfter(u, "!", map[], ctx);
    SurroundedRead("", u, "!", d + d + "!");
    assert "" + u + "!" == u + "!" && "" + (d + d) + "!" == d + d + "!";
    MiddleUnique("", d + d, "!");
  }

  lemma NestedRefused(u: string, d: string, p: string, ctx: Context)
    requires WellToken(u) && WellToken(d) && ctx.Resolve(u).None? && NoOpen(p)
    ensures Examine(Observation(u + "!", d + d + "!"), map[u := p], ctx).Reject?
  {
    var value := d + d + "!";
    NoOpenConcat(p, "!");
    assert value[0] == '$' && value[0 + 1] == '{' && !NoOpen(value);
    hide Read, Substitute, NoOpen;
    TextAfter(u, "!", map[u := p], ctx);
    ReadPlain(p + "!", value);
  }

  lemma DoubledKept(u: string, d: string, p: string, ctx: Context)
    requires WellToken(u) && WellToken(d) && ctx.Resolve(u).None?
    ensures Examine(Observation(u, p), map[u := d + d], ctx) == Keep
    ensures Examine(Observation(u + "!", d + d + "!"), map[u := d + d], ctx) == Keep
  {
    hide Read, Substitute;
    TextAfter(u, "", map[u := d + d], ctx);
    TextAfter(u, "!", map[u := d + d], ctx);
    assert u + "" == u && d + d + "" == d + d;
    ReadDoubled(d, "", p);
    ReadDoubled(d, "!", d + d + "!");
  }
}
