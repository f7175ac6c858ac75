/**
 Recovery of the substitutions behind a frozen installation: given templates and
 the values they were once rendered to, find the variables.

 The observations arrive in the random order of a Go map. `Solve` is the loop of
 `recoverInstallationBindings`; what is proved of it is that its answer is the
 least assignment that settles every observation, whatever the order.
 */
module BindingRecovery {
  import opened Prelude
  import opened Templates

  type Bindings = map<string, string>

  datatype Observation = Observation(template: string, value: string)

  const NODE_RANK := "${node.rank}"
  const SETTING := "${setting."

  /** The rank and the saved parameters, already formatted as text. */
  datatype Context = Context(rank: string, settings: map<string, string>) {
    function Resolve(token: string): (r: Option<string>) {
      if token == NODE_RANK then Some(rank)
      else if HasPrefix(token, SETTING) && HasSuffix(token, "}") && |token| > |SETTING| then
        var name := token[|SETTING|..|token| - 1];
        if name in settings then Some(settings[name]) else None
      else None
    }
  }

  function Lookup(token: string, b: Bindings, ctx: Context): (r: Option<string>) {
    if token in b then Some(b[token]) else ctx.Resolve(token)
  }

  function SubstituteAll(template: string, tokens: seq<string>, b: Bindings, ctx: Context): (r: string)
    requires "" !in tokens
    decreases |tokens|
  {
    if tokens == [] then template
    else
      var next := match Lookup(tokens[0], b, ctx)
                  case Some(v) => ReplaceAll(template, tokens[0], v)
                  case None => template;
      SubstituteAll(next, tokens[1..], b, ctx)
  }

  function Substitute(template: string, b: Bindings, ctx: Context): (r: string) {
    SubstituteAll(template, TemplateVars(template), b, ctx)
  }

  datatype Reason = InconsistentValues | DoesNotMatch(token: string) | InconsistentBinding(token: string)

  datatype Verdict = Keep | Bind(token: string, value: string) | Reject(reason: Reason)

  predicate Fits(value: string, prefix: string, suffix: string) {
    HasPrefix(value, prefix) && HasSuffix(value, suffix) && |prefix| + |suffix| <= |value|
  }

  datatype Reading = Nothing | Solved(token: string, value: string) | Refused(reason: Reason)

  /** What a partly substituted template says about the value it produced. */
  function Read(t: string, value: string): (r: Reading) {
    var unknown := TemplateVars(t);
    if |unknown| == 0 then
      if t == value then Nothing else Refused(InconsistentValues)
    else if |unknown| != 1 then Nothing
    else
      assert unknown[0] in unknown;
      var u := unknown[0];
      if Count(t, u) != 1 then Nothing
      else
        var (prefix, suffix) := Cut(t, u);
        Between(u, value, prefix, suffix)
  }

  /** The text of `value` between two ends it must have. */
  function Between(u: string, value: string, prefix: string, suffix: string): (r: Reading) {
    if !Fits(value, prefix, suffix) then Refused(DoesNotMatch(u))
    else Solved(u, value[|prefix|..|value| - |suffix|])
  }

  /** What one turn of the inner loop decides about one observation. */
  function Examine(o: Observation, b: Bindings, ctx: Context): (v: Verdict)
    ensures v.Bind? ==> v.token !in b
  {
    match Read(Substitute(o.template, b, ctx), o.value)
    case Nothing => Keep
    case Refused(reason) => Reject(reason)
    case Solved(u, v) =>
      if u !in b then Bind(u, v)
      else if b[u] == v then Keep
      else Reject(InconsistentBinding(u))
  }

  // ------------------------------------------------------------ the loop

  datatype PassResult = Failed(reason: Reason) | Passed(bindings: Bindings, changed: bool)

  datatype Result = Err(reason: Reason) | Ok(bindings: Bindings)

  /** One sweep over the observations from `b`. */
  function Pass(obs: seq<Observation>, b: Bindings, changed: bool, ctx: Context): (r: PassResult) {
    if obs == [] then Passed(b, changed)
    else match Examine(obs[0], b, ctx)
      case Reject(reason) => Failed(reason)
      case Keep => Pass(obs[1..], b, changed, ctx)
      case Bind(u, v) => Pass(obs[1..], b[u := v], true, ctx)
  }

  ghost function Originals(obs: seq<Observation>): (r: set<string>) {
    set i, t | 0 <= i < |obs| && t in TemplateVars(obs[i].template) :: t
  }

  ghost function Unbound(obs: seq<Observation>, b: Bindings): (n: nat) {
    |Originals(obs) - b.Keys|
  }

  /** How many observations are ready to bind a variable. */
  ghost function Ready(obs: seq<Observation>, b: Bindings, ctx: Context): (n: nat) {
    if obs == [] then 0
    else (if Examine(obs[0], b, ctx).Bind? then 1 else 0) + Ready(obs[1..], b, ctx)
  }

  ghost predicate Below(obs: seq<Observation>, b': Bindings, b: Bindings, ctx: Context) {
    Unbound(obs, b') < Unbound(obs, b)
    || (Unbound(obs, b') == Unbound(obs, b) && Ready(obs, b', ctx) < Ready(obs, b, ctx))
  }

  lemma {:induction false} ReadyDrops(obs: seq<Observation>, b: Bindings, b': Bindings, ctx: Context)
    requires forall o :: o in obs && Examine(o, b', ctx).Bind? ==> Examine(o, b, ctx).Bind?
    ensures Ready(obs, b', ctx) <= Ready(obs, b, ctx)
    ensures (exists o :: o in obs && Examine(o, b, ctx).Bind? && !Examine(o, b', ctx).Bind?) ==>
      Ready(obs, b', ctx) < Ready(obs, b, ctx)
  {
    if obs != [] {
      assert obs[0] in obs;
      assert forall o :: o in obs <==> o == obs[0] || o in obs[1..];
      ReadyDrops(obs[1..], b, b', ctx);
    }
  }

  lemma {:induction false} SameSubstitution(template: string, tokens: seq<string>, b: Bindings, b': Bindings,
                                            ctx: Context)
    requires "" !in tokens
    requires forall t :: t in tokens ==> Lookup(t, b, ctx) == Lookup(t, b', ctx)
    ensures SubstituteAll(template, tokens, b, ctx) == SubstituteAll(template, tokens, b', ctx)
    decreases |tokens|
  {
    if tokens != [] {
      assert tokens[0] in tokens;
      var next := match Lookup(tokens[0], b, ctx)
                  case Some(v) => ReplaceAll(template, tokens[0], v)
                  case None => template;
      SameSubstitution(next, tokens[1..], b, b', ctx);
    }
  }

  /** Binding a variable that no template names opens no observation, and closes its own. */
  lemma BindStranger(o: Observation, b: Bindings, u: string, v: string, ctx: Context)
    requires u !in TemplateVars(o.template)
    ensures Examine(o, b[u := v], ctx).Bind? ==> Examine(o, b, ctx).Bind?
    ensures Examine(o, b, ctx).Bind? && Examine(o, b, ctx).token == u ==> !Examine(o, b[u := v], ctx).Bind?
  {
    hide Read, TemplateVars, SubstituteAll;
    SameSubstitution(o.template, TemplateVars(o.template), b, b[u := v], ctx);
  }

  /** Every binding makes progress: no sweep can repeat forever. */
  lemma BindProgress(obs: seq<Observation>, o: Observation, b: Bindings, u: string, v: string, ctx: Context)
    requires o in obs && Examine(o, b, ctx) == Bind(u, v)
    ensures Below(obs, b[u := v], b, ctx)
  {
    hide Examine, TemplateVars, Ready;
    if u in Originals(obs) {
      assert Originals(obs) - b[u := v].Keys == Originals(obs) - b.Keys - {u};
      assert u in Originals(obs) - b.Keys;
    } else {
      assert Originals(obs) - b[u := v].Keys == Originals(obs) - b.Keys;
      forall p | p in obs
        ensures Examine(p, b[u := v], ctx).Bind? ==> Examine(p, b, ctx).Bind?
        ensures Examine(p, b, ctx).Bind? && Examine(p, b, ctx).token == u ==> !Examine(p, b[u := v], ctx).Bind?
      {
        NotOriginal(obs, p, u);
        BindStranger(p, b, u, v, ctx);
      }
      ReadyDrops(obs, b, b[u := v], ctx);
    }
  }

  lemma NotOriginal(obs: seq<Observation>, o: Observation, u: string)
    requires o in obs && u !in Originals(obs)
    ensures u !in TemplateVars(o.template)
  {
    var j :| 0 <= j < |obs| && obs[j] == o;
  }

  lemma {:induction false} PassProgress(obs: seq<Observation>, k: nat, b: Bindings, changed: bool, ctx: Context)
    requires k <= |obs|
    ensures var r := Pass(obs[k..], b, changed, ctx); r.Passed? ==>
      (r.bindings == b && r.changed == changed) || (r.changed && Below(obs, r.bindings, b, ctx))
    decreases |obs| - k
  {
    if k < |obs| {
      assert obs[k..][0] == obs[k] && obs[k..][1..] == obs[k + 1..];
      match Examine(obs[k], b, ctx)
      case Reject(_) =>
      case Keep => PassProgress(obs, k + 1, b, changed, ctx);
      case Bind(u, v) =>
        BindProgress(obs, obs[k], b, u, v, ctx);
        PassProgress(obs, k + 1, b[u := v], true, ctx);
    }
  }

  /** Sweeps until one of them binds nothing. */
  function Solve(obs: seq<Observation>, b: Bindings, ctx: Context): (r: Result)
    decreases Unbound(obs, b), Ready(obs, b, ctx)
  {
    PassProgress(obs, 0, b, false, ctx);
    assert obs[0..] == obs;
    match Pass(obs, b, false, ctx)
    case Failed(reason) => Err(reason)
    case Passed(b', changed) => if changed then Solve(obs, b', ctx) else Ok(b')
  }

  method RecoverInstallationBindings(obs: seq<Observation>, ctx: Context, start: Bindings) returns (r: Result)
    ensures r == Solve(obs, start, ctx)
  {
    hide Read, Substitute, Unbound, Ready;
    var bindings := start;
    var changed := true;
    while changed
      invariant if changed then Solve(obs, start, ctx) == Solve(obs, bindings, ctx)
                else Solve(obs, start, ctx) == Ok(bindings)
      decreases Unbound(obs, bindings), Ready(obs, bindings, ctx), if changed then 1 else 0
    {
      ghost var entry := bindings;
      changed := false;
      for i := 0 to |obs|
        invariant Pass(obs[i..], bindings, changed, ctx) == Pass(obs, entry, false, ctx)
        invariant changed ==> Below(obs, bindings, entry, ctx)
        invariant !changed ==> bindings == entry
      {
        assert obs[i..][0] == obs[i] && obs[i..][1..] == obs[i + 1..];
        match Examine(obs[i], bindings, ctx)
        case Reject(reason) => return Err(reason);
        case Keep =>
        case Bind(u, v) =>
          BindProgress(obs, obs[i], bindings, u, v, ctx);
          bindings := bindings[u := v];
          changed := true;
      }
    }
    return Ok(bindings);
  }

  // ------------------------------------------------------------ templates and values that cannot form new variables

  ghost predicate InertMap(m: map<string, string>, kind: Kind) {
    forall t :: t in m ==> Inert(m[t], kind)
  }

  ghost predicate InertContext(ctx: Context, kind: Kind) {
    Inert(ctx.rank, kind) && InertMap(ctx.settings, kind)
  }

  ghost predicate SealedObservation(o: Observation, kind: Kind) {
    Sealed(Parse(o.template), kind) && Inert(o.value, kind)
  }

  ghost predicate SealedProblem(obs: seq<Observation>, ctx: Context, kind: Kind) {
    InertContext(ctx, kind) && forall o :: o in obs ==> SealedObservation(o, kind)
  }

  /** No value holds a `${`, and no template has a place where values of the kind could form one. */
  ghost predicate InertProblem(obs: seq<Observation>, ctx: Context, start: Bindings, kind: Kind) {
    SealedProblem(obs, ctx, kind) && InertMap(start, kind)
  }

  function SubstHead(g: Segment, b: Bindings, ctx: Context): (r: Template) {
    match g
    case Ch(_) => [g]
    case Var(t) => match Lookup(t, b, ctx) case Some(v) => Chars(v) case None => [g]
  }

  /** The simultaneous substitution of every known variable. */
  function SubstAll(ts: Template, b: Bindings, ctx: Context): (r: Template) {
    if ts == [] then [] else SubstHead(ts[0], b, ctx) + SubstAll(ts[1..], b, ctx)
  }

  function SubstTokens(ts: Template, tokens: seq<string>, b: Bindings, ctx: Context): (r: Template)
    decreases |tokens|
  {
    if tokens == [] then ts
    else
      var next := match Lookup(tokens[0], b, ctx)
                  case Some(v) => SubstOne(ts, tokens[0], v)
                  case None => ts;
      SubstTokens(next, tokens[1..], b, ctx)
  }

  lemma LookupInert(t: string, b: Bindings, ctx: Context, kind: Kind)
    requires InertMap(b, kind) && InertContext(ctx, kind) && Lookup(t, b, ctx).Some?
    ensures Inert(Lookup(t, b, ctx).value, kind)
  {
  }

  lemma {:induction false} SubstituteAllFlat(ts: Template, tokens: seq<string>, b: Bindings, ctx: Context, kind: Kind)
    requires Sealed(ts, kind) && InertMap(b, kind) && InertContext(ctx, kind)
    requires "" !in tokens && forall t :: t in tokens ==> WellToken(t)
    ensures SubstituteAll(Flat(ts), tokens, b, ctx) == Flat(SubstTokens(ts, tokens, b, ctx))
    ensures Sealed(SubstTokens(ts, tokens, b, ctx), kind)
    decreases |tokens|
  {
    if tokens != [] {
      var t := tokens[0];
      assert t in tokens;
      match Lookup(t, b, ctx)
      case Some(v) =>
        LookupInert(t, b, ctx, kind);
        SealedIsClean(ts, kind);
        ReplaceAllFlat(ts, t, v);
        SubstOneVars(ts, t, v);
        SubstOneSealed(ts, t, v, kind);
        SubstituteAllFlat(SubstOne(ts, t, v), tokens[1..], b, ctx, kind);
      case None =>
        SubstituteAllFlat(ts, tokens[1..], b, ctx, kind);
    }
  }

  lemma {:induction false} SubstOneConcat(a: Template, c: Template, t: string, v: string)
    ensures SubstOne(a + c, t, v) == SubstOne(a, t, v) + SubstOne(c, t, v)
  {
    if a == [] { assert a + c == c; } else {
      assert (a + c)[1..] == a[1..] + c;
      SubstOneConcat(a[1..], c, t, v);
    }
  }

  lemma {:induction false} SubstTokensConcat(a: Template, c: Template, tokens: seq<string>, b: Bindings, ctx: Context)
    ensures SubstTokens(a + c, tokens, b, ctx) == SubstTokens(a, tokens, b, ctx) + SubstTokens(c, tokens, b, ctx)
    decreases |tokens|
  {
    if tokens != [] {
      match Lookup(tokens[0], b, ctx)
      case Some(v) =>
        SubstOneConcat(a, c, tokens[0], v);
        SubstTokensConcat(SubstOne(a, tokens[0], v), SubstOne(c, tokens[0], v), tokens[1..], b, ctx);
      case None =>
        SubstTokensConcat(a, c, tokens[1..], b, ctx);
    }
  }

  lemma {:induction false} SubstOneChars(s: string, t: string, v: string)
    ensures SubstOne(Chars(s), t, v) == Chars(s)
  {
    if s != "" {
      assert Chars(s)[1..] == Chars(s[1..]);
      SubstOneChars(s[1..], t, v);
    }
  }

  lemma {:induction false} SubstTokensChars(s: string, tokens: seq<string>, b: Bindings, ctx: Context)
    ensures SubstTokens(Chars(s), tokens, b, ctx) == Chars(s)
    decreases |tokens|
  {
    if tokens != [] {
      if Lookup(tokens[0], b, ctx).Some? {
        SubstOneChars(s, tokens[0], Lookup(tokens[0], b, ctx).value);
      }
      SubstTokensChars(s, tokens[1..], b, ctx);
    }
  }

  lemma {:induction false} SubstTokensVar(t: string, tokens: seq<string>, b: Bindings, ctx: Context)
    ensures t in tokens ==> SubstTokens([Var(t)], tokens, b, ctx) == SubstHead(Var(t), b, ctx)
    ensures Lookup(t, b, ctx).None? ==> SubstTokens([Var(t)], tokens, b, ctx) == [Var(t)]
    decreases |tokens|
  {
    if tokens != [] {
      var known := Lookup(tokens[0], b, ctx);
      if known.Some? && tokens[0] == t {
        assert SubstOne([Var(t)], t, known.value) == Chars(known.value);
        SubstTokensChars(known.value, tokens[1..], b, ctx);
      } else {
        SubstTokensVar(t, tokens[1..], b, ctx);
        if known.Some? { assert SubstOne([Var(t)], tokens[0], known.value) == [Var(t)]; }
      }
    }
  }

  /** Replacing the variables one after another is replacing them at once. */
  lemma {:induction false} SequentialIsSimultaneous(ts: Template, tokens: seq<string>, b: Bindings, ctx: Context)
    requires forall x :: x in Vars(ts) ==> x in tokens
    ensures SubstTokens(ts, tokens, b, ctx) == SubstAll(ts, b, ctx)
  {
    if ts == [] {
      assert Chars("") == ts;
      SubstTokensChars("", tokens, b, ctx);
    } else {
      SequentialIsSimultaneous(ts[1..], tokens, b, ctx);
      assert ts == [ts[0]] + ts[1..];
      SubstTokensConcat([ts[0]], ts[1..], tokens, b, ctx);
      match ts[0]
      case Ch(c) =>
        assert Chars([c]) == [Ch(c)];
        SubstTokensChars([c], tokens, b, ctx);
      case Var(t) =>
        assert t in Vars(ts);
        SubstTokensVar(t, tokens, b, ctx);
    }
  }

  lemma {:induction false} VarsWell(ts: Template)
    requires WellTokens(ts)
    ensures forall x :: x in Vars(ts) ==> WellToken(x)
  {
    if ts != [] {
      assert ts[0] in ts && forall g :: g in ts[1..] ==> g in ts;
      VarsWell(ts[1..]);
    }
  }

  /** On sealed templates the string-level substitution is the simultaneous one. */
  lemma SubstituteClean(template: string, b: Bindings, ctx: Context, kind: Kind)
    requires Sealed(Parse(template), kind) && InertMap(b, kind) && InertContext(ctx, kind)
    ensures Substitute(template, b, ctx) == Flat(SubstAll(Parse(template), b, ctx))
    ensures Sealed(SubstAll(Parse(template), b, ctx), kind) && Clean(SubstAll(Parse(template), b, ctx))
  {
    var ts := Parse(template);
    FlatParse(template);
    SealedIsClean(ts, kind);
    FindVarsFlat(ts);
    VarsWell(ts);
    var tokens := TemplateVars(template);
    SubstituteAllFlat(ts, tokens, b, ctx, kind);
    SequentialIsSimultaneous(ts, tokens, b, ctx);
    SealedIsClean(SubstAll(ts, b, ctx), kind);
  }

  // ------------------------------------------------------------ what a reading means

  /** Position of the first variable. */
  function FirstVar(t: Template): (k: nat)
    requires Vars(t) != []
    ensures k < |t| && t[k].Var? && Vars(t[..k]) == [] && Vars(t) == [t[k].token] + Vars(t[k + 1..])
  {
    if t[0].Var? then 0
    else
      var k := 1 + FirstVar(t[1..]);
      assert t[..k][0] == t[0] && t[..k][1..] == t[1..][..k - 1];
      assert t[k + 1..] == t[1..][k..];
      k
  }

  function SplitVar(t: Template): (r: (Template, string, Template))
    requires Vars(t) != []
    ensures t == r.0 + [Var(r.1)] + r.2
    ensures Vars(r.0) == [] && Vars(t) == [r.1] + Vars(r.2)
  {
    var k := FirstVar(t);
    (t[..k], t[k].token, t[k + 1..])
  }

  lemma {:induction false} LiteralQuiet(p: Template, rest: Template)
    requires Clean(p + rest) && Vars(p) == []
    ensures NoOpen(Flat(p))
    decreases |p|
  {
    if p != [] {
      var t := p + rest;
      CleanTail(t);
      assert t[1..] == p[1..] + rest;
      LiteralQuiet(p[1..], rest);
      var s := Flat(p[1..]);
      if |p| > 1 {
        assert t[1] == p[1] && p[1].Ch? by { assert Vars(p[1..]) == []; }
        assert s[0] == p[1].c;
      }
      NoOpenCons(p[0].c, s);
    }
  }

  lemma NoOpenCons(c: char, s: string)
    requires NoOpen(s) && !(c == '$' && s != "" && s[0] == '{')
    ensures NoOpen([c] + s)
  {
    var t := [c] + s;
    forall i | 0 <= i < |t| - 1 && t[i] == '$' ensures t[i + 1] != '{' {
      if i > 0 { assert s[i - 1] == '$' && s[i - 1 + 1] == t[i + 1]; }
    }
  }

  /** Every part of an inert value is inert. */
  lemma InertPart(a: string, part: string, c: string, kind: Kind)
    requires Inert(a + part + c, kind)
    ensures Inert(part, kind)
  {
    var s := a + part + c;
    forall i | 0 <= i < |part| - 1 && part[i] == '$' ensures part[i + 1] != '{' {
      assert s[|a| + i] == '$' && s[|a| + i + 1] == part[i + 1];
    }
    assert forall x :: x in part ==> x in s;
  }

  /** With one variable left, the reading is the text between the known ends. */
  lemma ReadOne(t: Template, p: Template, u: string, q: Template, value: string)
    requires Clean(t) && t == p + [Var(u)] + q && Vars(p) == [] && Vars(t) == [u]
    ensures Read(Flat(t), value) == Between(u, value, Flat(p), Flat(q))
  {
    hide TemplateVars, Count, Cut, Between, Flat, Vars;
    FindVarsFlat(t);
    VarsWell(t);
    assert u in Vars(t);
    OneTemplateVar(Flat(t), u);
    CountFlat(t, u);
    AroundVar(t, p, u, q);
  }

  lemma OneTemplateVar(s: string, u: string)
    requires FindVars(s) == [u]
    ensures TemplateVars(s) == [u]
  {
    assert Distinct([u]) == [u];
    assert TemplateVars(s)[0] in TemplateVars(s);
  }

  lemma FlatAround(p: Template, u: string, q: Template)
    ensures Flat(p + [Var(u)] + q) == Flat(p) + u + Flat(q)
  {
    FlatConcat(p + [Var(u)], q);
    FlatConcat(p, [Var(u)]);
    assert Flat([Var(u)]) == u;
  }

  lemma AroundVar(t: Template, p: Template, u: string, q: Template)
    requires Clean(t) && WellToken(u) && t == p + [Var(u)] + q && Vars(p) == []
    ensures Flat(t) == Flat(p) + u + Flat(q)
    ensures Cut(Flat(t), u) == (Flat(p), Flat(q))
  {
    assert t == p + ([Var(u)] + q);
    hide Cut, Flat, Vars, WellToken;
    FlatAround(p, u, q);
    LiteralQuiet(p, [Var(u)] + q);
    CutAround(Flat(p), u, Flat(q));
  }

  lemma ReadNone(t: Template, value: string)
    requires Clean(t) && Vars(t) == []
    ensures Read(Flat(t), value) == if Flat(t) == value then Nothing else Refused(InconsistentValues)
  {
    FindVarsFlat(t);
  }

  /** With two or more occurrences left, nothing is guessed. */
  lemma ReadMany(t: Template, value: string)
    requires Clean(t) && |Vars(t)| >= 2
    ensures Read(Flat(t), value) == Nothing
  {
    FindVarsFlat(t);
    VarsWell(t);
    var s := Flat(t);
    var unknown := TemplateVars(s);
    assert Vars(t)[0] in unknown;
    if |unknown| == 1 {
      SingleVariable(s, unknown[0]);
      AllSame(Vars(t), unknown[0]);
      CountFlat(t, unknown[0]);
    }
  }

  lemma {:induction false} AllSame(vars: seq<string>, u: string)
    requires forall x :: x in vars ==> x == u
    ensures multiset(vars)[u] == |vars|
  {
    if vars != [] {
      assert vars[0] in vars && forall x :: x in vars[1..] ==> x in vars;
      AllSame(vars[1..], u);
      assert vars == [vars[0]] + vars[1..];
    }
  }

  // ------------------------------------------------------------ the least settled extension

  ghost predicate Submap(a: Bindings, m: Bindings) {
    forall t :: t in a ==> t in m && m[t] == a[t]
  }

  /** `m` extends `b` by variables the rank and the parameters do not already fix. */
  ghost predicate Extends(b: Bindings, m: Bindings, ctx: Context) {
    Submap(b, m) && forall t :: t in m && t !in b ==> ctx.Resolve(t).None?
  }

  /** Under `m` the template renders to the value, or too little is known to say. */
  ghost predicate Settled(o: Observation, m: Bindings, ctx: Context) {
    var t := SubstAll(Parse(o.template), m, ctx);
    |Vars(t)| >= 2 || (Vars(t) == [] && Flat(t) == o.value)
  }

  ghost predicate SettledExtension(obs: seq<Observation>, ctx: Context, start: Bindings, m: Bindings) {
    Extends(start, m, ctx) && forall o :: o in obs ==> Settled(o, m, ctx)
  }

  lemma {:induction false} SubstAllConcat(a: Template, c: Template, b: Bindings, ctx: Context)
    ensures SubstAll(a + c, b, ctx) == SubstAll(a, b, ctx) + SubstAll(c, b, ctx)
  {
    if a == [] { assert a + c == c; } else {
      assert (a + c)[1..] == a[1..] + c;
      SubstAllConcat(a[1..], c, b, ctx);
    }
  }

  lemma {:induction false} SubstAllLiteral(a: Template, b: Bindings, ctx: Context)
    requires Vars(a) == []
    ensures SubstAll(a, b, ctx) == a
  {
    if a != [] {
      SubstAllLiteral(a[1..], b, ctx);
      assert a == [a[0]] + a[1..];
    }
  }

  /** Knowing more later gives what knowing it at once gives. */
  lemma {:induction false} SubstInStages(ts: Template, b: Bindings, m: Bindings, ctx: Context)
    requires Extends(b, m, ctx)
    ensures SubstAll(SubstAll(ts, b, ctx), m, ctx) == SubstAll(ts, m, ctx)
  {
    if ts != [] {
      SubstInStages(ts[1..], b, m, ctx);
      var head := SubstHead(ts[0], b, ctx);
      SubstAllConcat(head, SubstAll(ts[1..], b, ctx), m, ctx);
      if ts[0].Var? && Lookup(ts[0].token, b, ctx).Some? {
        VarsChars(Lookup(ts[0].token, b, ctx).value);
        SubstAllLiteral(head, m, ctx);
      } else {
        assert head == [ts[0]] && SubstAll(head, m, ctx) == SubstHead(ts[0], m, ctx) + [];
      }
    }
  }

  /** A substituted template only mentions variables still unknown. */
  lemma {:induction false} RemainingUnknown(ts: Template, b: Bindings, ctx: Context)
    ensures forall u :: u in Vars(SubstAll(ts, b, ctx)) ==> Lookup(u, b, ctx).None?
  {
    if ts != [] {
      RemainingUnknown(ts[1..], b, ctx);
      var head := SubstHead(ts[0], b, ctx);
      VarsConcat(head, SubstAll(ts[1..], b, ctx));
      if ts[0].Var? && Lookup(ts[0].token, b, ctx).Some? {
        VarsChars(Lookup(ts[0].token, b, ctx).value);
      } else {
        assert Vars([ts[0]]) == match ts[0] case Ch(_) => [] case Var(t) => [t];
      }
    }
  }

  /** How many variables are left decides which of the three readings applies. */
  lemma ExamineClean(o: Observation, b: Bindings, ctx: Context, kind: Kind)
    requires SealedObservation(o, kind) && InertMap(b, kind) && InertContext(ctx, kind)
    ensures var t := SubstAll(Parse(o.template), b, ctx);
      && (Vars(t) == [] ==> Examine(o, b, ctx) == if Flat(t) == o.value then Keep else Reject(InconsistentValues))
      && (|Vars(t)| >= 2 ==> Examine(o, b, ctx) == Keep)
      && (|Vars(t)| == 1 ==> var (p, u, q) := SplitVar(t);
           Examine(o, b, ctx) ==
             if Fits(o.value, Flat(p), Flat(q)) then Bind(u, o.value[|Flat(p)|..|o.value| - |Flat(q)|])
             else Reject(DoesNotMatch(u)))
  {
    hide Substitute, Read, SubstAll, Fits, Parse, Clean, Flat, Inert, Sealed, InertMap, InertContext;
    var t := SubstAll(Parse(o.template), b, ctx);
    SubstituteClean(o.template, b, ctx, kind);
    if Vars(t) == [] {
      ReadNone(t, o.value);
    } else if |Vars(t)| >= 2 {
      ReadMany(t, o.value);
    } else {
      ExamineOne(o, t, b, ctx);
    }
  }

  lemma ExamineOne(o: Observation, t: Template, b: Bindings, ctx: Context)
    requires t == SubstAll(Parse(o.template), b, ctx) && Substitute(o.template, b, ctx) == Flat(t)
    requires Clean(t) && |Vars(t)| == 1
    ensures var (p, u, q) := SplitVar(t);
      Examine(o, b, ctx) ==
        if Fits(o.value, Flat(p), Flat(q)) then Bind(u, o.value[|Flat(p)|..|o.value| - |Flat(q)|])
        else Reject(DoesNotMatch(u))
  {
    hide Substitute, Read, SubstAll, Fits, Parse, Clean, Flat;
    var (p, u, q) := SplitVar(t);
    ReadOne(t, p, u, q, o.value);
    RemainingUnknown(Parse(o.template), b, ctx);
    assert u in Vars(t);
  }

  lemma KeepIffSettled(o: Observation, b: Bindings, ctx: Context, kind: Kind)
    requires SealedObservation(o, kind) && InertMap(b, kind) && InertContext(ctx, kind)
    ensures Examine(o, b, ctx) == Keep <==> Settled(o, b, ctx)
  {
    ExamineClean(o, b, ctx, kind);
  }

  /** A middle part is determined by its ends. */
  lemma MiddleUnique(prefix: string, middle: string, suffix: string)
    ensures var value := prefix + middle + suffix;
      Fits(value, prefix, suffix) && value[|prefix|..|value| - |suffix|] == middle
  {
  }

  /**
   The step of the whole argument: below a settled assignment `m` an observation is
   never refused, and whatever it binds is what `m` says.
   */
  lemma StepBelow(o: Observation, b: Bindings, m: Bindings, ctx: Context, kind: Kind)
    requires SealedObservation(o, kind) && InertMap(b, kind) && InertContext(ctx, kind)
    requires Extends(b, m, ctx) && Settled(o, m, ctx)
    ensures Examine(o, b, ctx) == Keep
      || (exists u :: u in m && Examine(o, b, ctx) == Bind(u, m[u]) && Inert(m[u], kind))
  {
    hide Fits, Examine;
    var ts := Parse(o.template);
    var t := SubstAll(ts, b, ctx);
    ExamineClean(o, b, ctx, kind);
    SubstInStages(ts, b, m, ctx);
    if Vars(t) == [] {
      SubstAllLiteral(t, m, ctx);
    } else if |Vars(t)| == 1 {
      var (p, u, q) := SplitVar(t);
      assert u in Vars(t);
      RemainingUnknown(ts, b, ctx);
      SettledAround(t, p, u, q, m, ctx, o.value, kind);
      MiddleUnique(Flat(p), m[u], Flat(q));
    }
  }

  lemma SettledAround(t: Template, p: Template, u: string, q: Template, m: Bindings, ctx: Context, value: string,
                      kind: Kind)
    requires t == p + [Var(u)] + q && Vars(p) == [] && Vars(q) == [] && ctx.Resolve(u).None?
    requires var s := SubstAll(t, m, ctx); |Vars(s)| >= 2 || (Vars(s) == [] && Flat(s) == value)
    requires Inert(value, kind)
    ensures u in m && value == Flat(p) + m[u] + Flat(q) && Inert(m[u], kind)
  {
    hide SubstAll, SubstHead, Flat, Vars;
    var mid := SubstHead(Var(u), m, ctx);
    SubstAround(t, p, u, q, m, ctx);
    VarsConcat(p + mid, q);
    VarsConcat(p, mid);
    FlatConcat(p + mid, q);
    FlatConcat(p, mid);
    HeadOf(u, m, ctx);
    if u in m {
      assert value == Flat(p) + m[u] + Flat(q);
      InertPart(Flat(p), m[u], Flat(q), kind);
    }
  }

  lemma SubstSingle(x: Segment, m: Bindings, ctx: Context)
    ensures SubstAll([x], m, ctx) == SubstHead(x, m, ctx)
  {
    assert SubstHead(x, m, ctx) + [] == SubstHead(x, m, ctx);
  }

  lemma SubstAround(t: Template, p: Template, u: string, q: Template, m: Bindings, ctx: Context)
    requires t == p + [Var(u)] + q && Vars(p) == [] && Vars(q) == []
    ensures SubstAll(t, m, ctx) == p + SubstHead(Var(u), m, ctx) + q
  {
    SubstSingle(Var(u), m, ctx);
    hide SubstAll, SubstHead, Vars;
    SubstAllConcat(p + [Var(u)], q, m, ctx);
    SubstAllConcat(p, [Var(u)], m, ctx);
    SubstAllLiteral(p, m, ctx);
    SubstAllLiteral(q, m, ctx);
  }

  lemma HeadOf(u: string, m: Bindings, ctx: Context)
    requires ctx.Resolve(u).None?
    ensures var mid := SubstHead(Var(u), m, ctx);
      if u in m then Vars(mid) == [] && Flat(mid) == m[u] else Vars(mid) == [u]
  {
    if u in m {
      VarsChars(m[u]);
      FlatChars(m[u]);
    } else {
      assert Vars([Var(u)]) == [u];
    }
  }

  /** A sweep below a settled assignment succeeds and stays below it. */
  lemma {:induction false} PassBelow(obs: seq<Observation>, b: Bindings, changed: bool, m: Bindings, ctx: Context,
                                     kind: Kind)
    requires SealedProblem(obs, ctx, kind) && InertMap(b, kind)
    requires Extends(b, m, ctx) && forall o :: o in obs ==> Settled(o, m, ctx)
    ensures var r := Pass(obs, b, changed, ctx);
      r.Passed? && InertMap(r.bindings, kind) && Extends(r.bindings, m, ctx)
  {
    hide Examine, Settled, SealedObservation;
    if obs != [] {
      assert obs[0] in obs;
      StepBelow(obs[0], b, m, ctx, kind);
      var b' := match Examine(obs[0], b, ctx) case Bind(u, v) => b[u := v] case _ => b;
      PassBelow(obs[1..], b', Examine(obs[0], b, ctx).Bind? || changed, m, ctx, kind);
    }
  }

  lemma {:induction false} SolveBelow(obs: seq<Observation>, b: Bindings, m: Bindings, ctx: Context, kind: Kind)
    requires SealedProblem(obs, ctx, kind) && InertMap(b, kind)
    requires Extends(b, m, ctx) && forall o :: o in obs ==> Settled(o, m, ctx)
    ensures var r := Solve(obs, b, ctx); r.Ok? && Submap(r.bindings, m)
    decreases Unbound(obs, b), Ready(obs, b, ctx)
  {
    hide Settled, SealedObservation;
    PassBelow(obs, b, false, m, ctx, kind);
    PassProgress(obs, 0, b, false, ctx);
    assert obs[0..] == obs;
    var r := Pass(obs, b, false, ctx);
    if r.changed {
      SolveBelow(obs, r.bindings, m, ctx, kind);
    }
  }

  /** Sweeps only add variables that nothing else fixes. */
  lemma {:induction false} PassExtends(obs: seq<Observation>, b: Bindings, changed: bool, ctx: Context, kind: Kind)
    requires SealedProblem(obs, ctx, kind) && InertMap(b, kind)
    ensures var r := Pass(obs, b, changed, ctx);
      r.Passed? ==>
        && InertMap(r.bindings, kind) && Extends(b, r.bindings, ctx)
        && (!r.changed ==> r.bindings == b && forall o :: o in obs ==> Examine(o, b, ctx) == Keep)
    ensures changed && Pass(obs, b, changed, ctx).Passed? ==> Pass(obs, b, changed, ctx).changed
  {
    hide Examine, SealedObservation;
    if obs != [] {
      assert obs[0] in obs;
      match Examine(obs[0], b, ctx)
      case Reject(_) =>
      case Keep =>
        PassExtends(obs[1..], b, changed, ctx, kind);
      case Bind(u, v) =>
        BindUnknown(obs[0], b, ctx, kind);
        PassExtends(obs[1..], b[u := v], true, ctx, kind);
    }
  }

  lemma BindUnknown(o: Observation, b: Bindings, ctx: Context, kind: Kind)
    requires SealedObservation(o, kind) && InertMap(b, kind) && InertContext(ctx, kind) && Examine(o, b, ctx).Bind?
    ensures Lookup(Examine(o, b, ctx).token, b, ctx).None? && Inert(Examine(o, b, ctx).value, kind)
  {
    hide Examine, SubstAll, Parse, Inert, Flat;
    var t := SubstAll(Parse(o.template), b, ctx);
    ExamineClean(o, b, ctx, kind);
    RemainingUnknown(Parse(o.template), b, ctx);
    var (p, u, q) := SplitVar(t);
    assert u in Vars(t);
    var v := Examine(o, b, ctx).value;
    assert o.value == Flat(p) + v + Flat(q);
    InertPart(Flat(p), v, Flat(q), kind);
  }

  lemma SettledWiden(obs: seq<Observation>, ctx: Context, b: Bindings, b': Bindings, m: Bindings)
    requires Extends(b, b', ctx) && SettledExtension(obs, ctx, b', m)
    ensures SettledExtension(obs, ctx, b, m)
  {
  }

  lemma AllKeptIsSettled(obs: seq<Observation>, b: Bindings, ctx: Context, kind: Kind)
    requires SealedProblem(obs, ctx, kind) && InertMap(b, kind)
    requires forall o :: o in obs ==> Examine(o, b, ctx) == Keep
    ensures SettledExtension(obs, ctx, b, b)
  {
    hide Examine, Settled, SealedObservation;
    forall o | o in obs ensures Settled(o, b, ctx) {
      KeepIffSettled(o, b, ctx, kind);
    }
  }

  lemma {:induction false} SolveSettles(obs: seq<Observation>, b: Bindings, ctx: Context, kind: Kind)
    requires SealedProblem(obs, ctx, kind) && InertMap(b, kind)
    ensures Solve(obs, b, ctx).Ok? ==> SettledExtension(obs, ctx, b, Solve(obs, b, ctx).bindings)
    decreases Unbound(obs, b), Ready(obs, b, ctx)
  {
    hide Examine, Originals, Ready, Pass, SettledExtension, Extends, SealedProblem, InertMap;
    PassExtends(obs, b, false, ctx, kind);
    PassProgress(obs, 0, b, false, ctx);
    assert obs[0..] == obs;
    var r := Pass(obs, b, false, ctx);
    if r.Passed? && r.changed {
      SolveSettles(obs, r.bindings, ctx, kind);
      if Solve(obs, b, ctx).Ok? {
        SettledWiden(obs, ctx, b, r.bindings, Solve(obs, b, ctx).bindings);
      }
    } else if r.Passed? {
      AllKeptIsSettled(obs, b, ctx, kind);
    }
  }

  /**
   The recovered bindings are the least assignment extending `start` that settles
   every observation, and recovery fails exactly when no assignment does.
   */
  lemma RecoversLeastSettled(obs: seq<Observation>, ctx: Context, start: Bindings, kind: Kind)
    requires InertProblem(obs, ctx, start, kind)
    ensures var r := Solve(obs, start, ctx);
      && (r.Ok? <==> exists m :: SettledExtension(obs, ctx, start, m))
      && (r.Ok? ==>
          && SettledExtension(obs, ctx, start, r.bindings)
          && forall m :: SettledExtension(obs, ctx, start, m) ==> Submap(r.bindings, m))
  {
    SolveSettles(obs, start, ctx, kind);
    forall m | SettledExtension(obs, ctx, start, m)
      ensures Solve(obs, start, ctx).Ok? && Submap(Solve(obs, start, ctx).bindings, m)
    {
      SolveBelow(obs, start, m, ctx, kind);
    }
  }

  /** Go's map order cannot change the outcome. */
  lemma OrderIsIrrelevant(obs: seq<Observation>, obs': seq<Observation>, ctx: Context, start: Bindings, kind: Kind)
    requires InertProblem(obs, ctx, start, kind)
    requires forall o :: o in obs <==> o in obs'
    ensures Solve(obs, start, ctx).Ok? <==> Solve(obs', start, ctx).Ok?
    ensures Solve(obs, start, ctx).Ok? ==> Solve(obs, start, ctx) == Solve(obs', start, ctx)
  {
    hide Solve, Settled, Parse, Clean;
    RecoversLeastSettled(obs, ctx, start, kind);
    RecoversLeastSettled(obs', ctx, start, kind);
    assert forall m :: SettledExtension(obs, ctx, start, m) <==> SettledExtension(obs', ctx, start, m);
    var r, r' := Solve(obs, start, ctx), Solve(obs', start, ctx);
    if r.Ok? {
      assert Submap(r.bindings, r'.bindings) && Submap(r'.bindings, r.bindings);
      assert r.bindings == r'.bindings;
    }
  }

  /** Values that really were rendered from `truth` are never refused, and only true values come back. */
  lemma RecoversOnlyTruth(obs: seq<Observation>, ctx: Context, start: Bindings, truth: Bindings, kind: Kind)
    requires InertProblem(obs, ctx, start, kind) && Extends(start, truth, ctx)
    requires forall o :: o in obs ==>
      Vars(SubstAll(Parse(o.template), truth, ctx)) == []
      && o.value == Flat(SubstAll(Parse(o.template), truth, ctx))
    ensures Solve(obs, start, ctx).Ok? && Submap(Solve(obs, start, ctx).bindings, truth)
  {
    assert SettledExtension(obs, ctx, start, truth);
    RecoversLeastSettled(obs, ctx, start, kind);
  }
}
