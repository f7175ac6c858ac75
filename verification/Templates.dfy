/**
 The string operations `recoverInstallationBindings` is written with, and the
 reading of a template as a list of characters and variables under which those
 operations become substitutions.

 A template variable is what the pattern `\$\{([^}]*)\}` matches.
 */
module Templates {

  import StringOrder

  // ------------------------------------------------------------ string operations

  predicate HasPrefix(s: string, prefix: string) { prefix <= s }

  predicate HasSuffix(s: string, suffix: string) {
    |suffix| <= |s| && s[|s| - |suffix|..] == suffix
  }

  /** `strings.ReplaceAll` for a non-empty pattern: left to right, never overlapping. */
  function ReplaceAll(s: string, pattern: string, text: string): (r: string)
    requires pattern != ""
    decreases |s|
  {
    if s == "" then ""
    else if pattern <= s then text + ReplaceAll(s[|pattern|..], pattern, text)
    else [s[0]] + ReplaceAll(s[1..], pattern, text)
  }

  /** `strings.Count` for a non-empty pattern. */
  function Count(s: string, sub: string): (n: nat)
    requires sub != ""
    decreases |s|
  {
    if s == "" then 0
    else if sub <= s then 1 + Count(s[|sub|..], sub)
    else Count(s[1..], sub)
  }

  /** `strings.Cut`: the text before and after the first occurrence. */
  function Cut(s: string, sep: string): (r: (string, string))
    requires sep != ""
    decreases |s|
  {
    if s == "" then ("", "")
    else if sep <= s then ("", s[|sep|..])
    else var (before, after) := Cut(s[1..], sep); ([s[0]] + before, after)
  }

  /** Position of the first `}`, or the length of `s`. */
  function CloseBrace(s: string): (k: nat)
    ensures k <= |s|
    ensures '}' !in s[..k]
    ensures k < |s| ==> s[k] == '}'
  {
    if s == "" || s[0] == '}' then 0 else 1 + CloseBrace(s[1..])
  }

  /** Length of the variable the pattern matches at the start of `s`, 0 when none does. */
  function MatchLength(s: string): (n: nat)
    ensures n <= |s|
    ensures n > 0 ==> n >= 3
  {
    if |s| < 3 || s[0] != '$' || s[1] != '{' then 0
    else
      var k := CloseBrace(s[2..]);
      if k == |s| - 2 then 0 else k + 3
  }

  /** `FindAllStringSubmatch`: every leftmost, non-overlapping match in order. */
  function FindVars(s: string): (vars: seq<string>)
    ensures forall v :: v in vars ==> v != ""
    decreases |s|
  {
    if s == "" then []
    else
      var n := MatchLength(s);
      if n > 0 then [s[..n]] + FindVars(s[n..]) else FindVars(s[1..])
  }

  /** The `seen` filter: first occurrences only. */
  function Distinct(vars: seq<string>): (r: seq<string>)
    ensures forall x :: x in r <==> x in vars
    ensures forall i, j :: 0 <= i < j < |r| ==> r[i] != r[j]
    ensures |r| <= |vars|
  {
    if vars == [] then []
    else
      var last := vars[|vars| - 1];
      var front := vars[..|vars| - 1];
      assert vars == front + [last];
      if last in front then Distinct(front) else Distinct(front) + [last]
  }

  /** `TemplateVars`: the distinct variables of one template, sorted. */
  function TemplateVars(s: string): (r: seq<string>)
    ensures forall x :: x in r <==> x in FindVars(s)
    ensures forall x :: x in r ==> x != ""
    ensures |r| == |Distinct(FindVars(s))|
  {
    var d := Distinct(FindVars(s));
    var r := StringOrder.Sort(d);
    assert forall x :: x in r <==> x in multiset(r);
    assert forall x :: x in d <==> x in multiset(d);
    assert |r| == |multiset(r)| == |multiset(d)| == |d|;
    r
  }

  // ------------------------------------------------------------ templates as segments

  datatype Segment = Ch(c: char) | Var(token: string)

  type Template = seq<Segment>

  /** `${` occurs nowhere in the text. */
  predicate NoOpen(s: string) {
    forall i :: 0 <= i < |s| - 1 && s[i] == '$' ==> s[i + 1] != '{'
  }

  /** A variable whose name holds neither `}` nor another `${`. */
  predicate WellToken(t: string) {
    && |t| >= 3 && t[0] == '$' && t[1] == '{' && t[|t| - 1] == '}'
    && '}' !in t[2..|t| - 1] && NoOpen(t[1..])
  }

  predicate WellTokens(ts: Template) {
    forall g :: g in ts && g.Var? ==> WellToken(g.token)
  }

  /**
   What the values put in for variables may hold besides harmless text. Values that hold neither `$` nor `{`
   are of both first kinds; they are no kind of their own, since an empty one joins its neighbours.
   */
  datatype Kind = NoDollar | NoBrace | Any

  /** A value without template text; every part of it is one too. */
  predicate Inert(value: string, kind: Kind) {
    NoOpen(value) && (kind.NoDollar? ==> '$' !in value) && (kind.NoBrace? ==> '{' !in value)
  }

  predicate Open(x: Segment, y: Segment) { x == Ch('$') && y == Ch('{') }

  /** Neighbours between which no values of the kind can form a `${`. */
  predicate Joint(x: Segment, y: Segment, kind: Kind) {
    && !Open(x, y)
    && (!kind.NoBrace? && x == Ch('$') ==> !y.Var?)
    && (!kind.NoDollar? && x.Var? ==> y != Ch('{'))
    && (kind.Any? && x.Var? ==> !y.Var?)
  }

  /** Every `${` of the template opens a variable. */
  predicate Closed(ts: Template)
    decreases |ts|
  {
    |ts| < 2 || (!Open(ts[0], ts[1]) && Closed(ts[1..]))
  }

  predicate Clean(ts: Template) { WellTokens(ts) && Closed(ts) }

  /** And so it stays whatever values of the kind are put in. */
  predicate Jointed(ts: Template, kind: Kind)
    decreases |ts|
  {
    |ts| < 2 || (Joint(ts[0], ts[1], kind) && Jointed(ts[1..], kind))
  }

  predicate Sealed(ts: Template, kind: Kind) { WellTokens(ts) && Jointed(ts, kind) }

  function Flat(ts: Template): (s: string) {
    if ts == [] then ""
    else (match ts[0] case Ch(c) => [c] case Var(t) => t) + Flat(ts[1..])
  }

  function Chars(s: string): (ts: Template)
    ensures |ts| == |s| && forall i :: 0 <= i < |s| ==> ts[i] == Ch(s[i])
  {
    seq(|s|, i requires 0 <= i < |s| => Ch(s[i]))
  }

  function Parse(s: string): (ts: Template)
    decreases |s|
  {
    if s == "" then []
    else
      var n := MatchLength(s);
      if n > 0 then [Var(s[..n])] + Parse(s[n..]) else [Ch(s[0])] + Parse(s[1..])
  }

  function Vars(ts: Template): (vars: seq<string>) {
    if ts == [] then []
    else (match ts[0] case Ch(_) => [] case Var(t) => [t]) + Vars(ts[1..])
  }

  function SubstOne(ts: Template, token: string, value: string): (r: Template) {
    if ts == [] then []
    else (if ts[0] == Var(token) then Chars(value) else [ts[0]]) + SubstOne(ts[1..], token, value)
  }

  lemma {:induction false} FlatParse(s: string)
    ensures Flat(Parse(s)) == s
    decreases |s|
  {
    hide MatchLength;
    if s != "" {
      var n := MatchLength(s);
      if n > 0 {
        FlatParse(s[n..]);
        assert Parse(s)[1..] == Parse(s[n..]);
      } else {
        FlatParse(s[1..]);
        assert Parse(s)[1..] == Parse(s[1..]);
      }
    }
  }

  lemma {:induction false} FlatConcat(a: Template, b: Template)
    ensures Flat(a + b) == Flat(a) + Flat(b)
  {
    if a == [] { assert a + b == b; } else {
      assert (a + b)[1..] == a[1..] + b;
      FlatConcat(a[1..], b);
    }
  }

  lemma {:induction false} FlatChars(s: string)
    ensures Flat(Chars(s)) == s
  {
    if s != "" {
      assert Chars(s)[1..] == Chars(s[1..]);
      FlatChars(s[1..]);
    }
  }

  lemma {:induction false} VarsConcat(a: Template, b: Template)
    ensures Vars(a + b) == Vars(a) + Vars(b)
  {
    if a == [] { assert a + b == b; } else {
      assert (a + b)[1..] == a[1..] + b;
      VarsConcat(a[1..], b);
    }
  }

  lemma {:induction false} VarsChars(s: string)
    ensures Vars(Chars(s)) == []
  {
    if s != "" {
      assert Chars(s)[1..] == Chars(s[1..]);
      VarsChars(s[1..]);
    }
  }

  lemma CleanTail(ts: Template)
    requires Clean(ts) && ts != []
    ensures Clean(ts[1..]) && (ts[0].Var? ==> WellToken(ts[0].token))
    ensures |ts| > 1 ==> !Open(ts[0], ts[1])
  {
    assert forall g :: g in ts[1..] ==> g in ts;
    assert ts[0] in ts;
  }

  lemma {:induction false} SealedIsClean(ts: Template, kind: Kind)
    requires Jointed(ts, kind)
    ensures Closed(ts)
    decreases |ts|
  {
    if |ts| >= 2 { SealedIsClean(ts[1..], kind); }
  }

  lemma {:induction false} JointedConcat(a: Template, b: Template, kind: Kind)
    ensures Jointed(a + b, kind) <==>
      Jointed(a, kind) && Jointed(b, kind) && (a != [] && b != [] ==> Joint(a[|a| - 1], b[0], kind))
    decreases |a|
  {
    if |a| == 0 {
      assert a + b == b;
    } else {
      assert (a + b)[1..] == a[1..] + b;
      JointedConcat(a[1..], b, kind);
      assert |a + b| >= 2 ==> (a + b)[1] == if |a| > 1 then a[1] else b[0];
    }
  }

  lemma {:induction false} JointedChars(v: string, kind: Kind)
    requires NoOpen(v)
    ensures Jointed(Chars(v), kind)
  {
    if |v| >= 2 {
      assert Chars(v)[1..] == Chars(v[1..]);
      assert v[0] == '$' ==> v[0 + 1] != '{';
      assert forall i :: 0 <= i < |v[1..]| ==> v[1..][i] == v[i + 1];
      JointedChars(v[1..], kind);
    }
  }

  /** A value of the kind fits where its variable stood, the empty one included. */
  lemma JointAround(x: Segment, t: string, y: Segment, v: string, kind: Kind)
    requires Inert(v, kind)
    ensures Joint(x, Var(t), kind) && v != "" ==> Joint(x, Ch(v[0]), kind)
    ensures Joint(Var(t), y, kind) && v != "" ==> Joint(Ch(v[|v| - 1]), y, kind)
    ensures Joint(x, Var(t), kind) && Joint(Var(t), y, kind) ==> Joint(x, y, kind)
  {
    if v != "" { assert v[0] in v && v[|v| - 1] in v; }
  }

  lemma {:induction false} CloseBraceAt(s: string, k: nat)
    requires k < |s| && s[k] == '}' && '}' !in s[..k]
    ensures CloseBrace(s) == k
  {
    if k > 0 {
      assert s[0] == s[..k][0];
      assert forall c :: c in s[1..][..k - 1] ==> c in s[..k];
      CloseBraceAt(s[1..], k - 1);
    }
  }

  lemma MatchToken(t: string, rest: string)
    requires WellToken(t)
    ensures MatchLength(t + rest) == |t|
  {
    var s := t + rest;
    assert s[2..][..|t| - 3] == t[2..|t| - 1];
    CloseBraceAt(s[2..], |t| - 3);
  }

  /** Two well-formed variables at one position are the same variable. */
  lemma TokenPrefix(a: string, b: string, rest: string)
    requires WellToken(a) && WellToken(b)
    ensures a <= b + rest <==> a == b
  {
    MatchToken(b, rest);
    if a <= b + rest {
      var rest' := (b + rest)[|a|..];
      assert b + rest == a + rest';
      MatchToken(a, rest');
    }
  }

  /** No `${` starts in `s` when `rest` follows it. */
  predicate Mute(s: string, rest: string) {
    forall i :: 0 <= i < |s| && s[i] == '$' && i + 1 < |s| + |rest| ==> (s + rest)[i + 1] != '{'
  }

  lemma MuteTail(s: string, rest: string)
    requires Mute(s, rest) && s != ""
    ensures Mute(s[1..], rest) && !(s[0] == '$' && |s + rest| > 1 && (s + rest)[1] == '{')
  {
    assert (s + rest)[1..] == s[1..] + rest;
    forall i | 0 <= i < |s[1..]| && s[1..][i] == '$' && i + 1 < |s[1..]| + |rest| ensures (s[1..] + rest)[i + 1] != '{' {
      assert s[i + 1] == '$' && (s + rest)[i + 1 + 1] == (s[1..] + rest)[i + 1];
    }
    assert s[0] == '$' ==> 0 + 1 < |s| + |rest| ==> (s + rest)[0 + 1] != '{';
  }

  /** Inside a variable, past its first character, no other one starts. */
  lemma MuteToken(t: string, rest: string)
    requires WellToken(t)
    ensures Mute(t[1..], rest)
  {
    var s := t[1..];
    forall i | 0 <= i < |s| && s[i] == '$' && i + 1 < |s| + |rest| ensures (s + rest)[i + 1] != '{' {
      assert s[|s| - 1] == '}';
      assert s[i + 1] != '{';
    }
  }

  lemma FlatFirst(ts: Template)
    requires WellTokens(ts) && ts != []
    ensures Flat(ts) != "" && Flat(ts)[0] == match ts[0] case Ch(c) => c case Var(_) => '$'
  {
    assert ts[0] in ts;
  }

  lemma MuteChar(ts: Template)
    requires Clean(ts) && ts != [] && ts[0].Ch?
    ensures Mute([ts[0].c], Flat(ts[1..]))
  {
    CleanTail(ts);
    if |ts| > 1 {
      FlatFirst(ts[1..]);
      assert ([ts[0].c] + Flat(ts[1..]))[1] == Flat(ts[1..])[0];
    }
  }

  /** The pattern finds exactly the variables of a clean template. */
  lemma {:induction false} FindVarsFlat(ts: Template)
    requires Clean(ts)
    ensures FindVars(Flat(ts)) == Vars(ts)
  {
    if ts != [] {
      CleanTail(ts);
      FindVarsFlat(ts[1..]);
      var rest := Flat(ts[1..]);
      match ts[0]
      case Ch(c) =>
        MuteChar(ts);
        MuteTail([c], rest);
        assert ([c] + rest)[1..] == rest;
      case Var(t) =>
        MatchToken(t, rest);
        assert (t + rest)[..|t|] == t && (t + rest)[|t|..] == rest;
    }
  }

  lemma {:induction false} ReplaceAllFlat(ts: Template, token: string, value: string)
    requires Clean(ts) && WellToken(token)
    ensures ReplaceAll(Flat(ts), token, value) == Flat(SubstOne(ts, token, value))
  {
    if ts != [] {
      CleanTail(ts);
      ReplaceAllFlat(ts[1..], token, value);
      var rest := Flat(ts[1..]);
      match ts[0]
      case Ch(c) =>
        MuteChar(ts);
        ReplaceSkipsText([c], rest, token, value);
        FlatConcat([ts[0]], SubstOne(ts[1..], token, value));
      case Var(t) =>
        TokenPrefix(token, t, rest);
        if t == token {
          assert (t + rest)[|t|..] == rest;
          FlatConcat(Chars(value), SubstOne(ts[1..], token, value));
          FlatChars(value);
        } else {
          ReplaceSkipsToken(t, rest, token, value);
          FlatConcat([ts[0]], SubstOne(ts[1..], token, value));
        }
    }
  }

  lemma {:induction false} ReplaceSkipsText(s: string, rest: string, token: string, value: string)
    requires WellToken(token) && Mute(s, rest)
    ensures ReplaceAll(s + rest, token, value) == s + ReplaceAll(rest, token, value)
  {
    if s == "" { assert s + rest == rest; } else {
      MuteTail(s, rest);
      assert (s + rest)[1..] == s[1..] + rest;
      ReplaceSkipsText(s[1..], rest, token, value);
    }
  }

  lemma ReplaceSkipsToken(t: string, rest: string, token: string, value: string)
    requires WellToken(token) && WellToken(t) && t != token
    ensures ReplaceAll(t + rest, token, value) == t + ReplaceAll(rest, token, value)
  {
    TokenPrefix(token, t, rest);
    assert (t + rest)[1..] == t[1..] + rest;
    MuteToken(t, rest);
    ReplaceSkipsText(t[1..], rest, token, value);
    assert t == [t[0]] + t[1..];
  }

  lemma {:induction false} SubstOneVars(ts: Template, token: string, value: string)
    ensures forall x :: x in Vars(SubstOne(ts, token, value)) <==> x in Vars(ts) && x != token
    ensures WellTokens(ts) ==> WellTokens(SubstOne(ts, token, value))
  {
    if ts != [] {
      SubstOneVars(ts[1..], token, value);
      var head := if ts[0] == Var(token) then Chars(value) else [ts[0]];
      VarsConcat(head, SubstOne(ts[1..], token, value));
      VarsChars(value);
      assert Vars([ts[0]]) == match ts[0] case Ch(_) => [] case Var(t) => [t];
      assert ts[0] in ts && forall g :: g in ts[1..] ==> g in ts;
    }
  }

  /** What stands at the front after a substitution still fits behind what fitted before it. */
  ghost predicate FitsBehind(x: Segment, ts: Template, kind: Kind) { ts == [] || Joint(x, ts[0], kind) }

  lemma {:induction false} SubstOneFits(x: Segment, ts: Template, token: string, value: string, kind: Kind)
    requires Inert(value, kind) && Jointed(ts, kind) && FitsBehind(x, ts, kind)
    ensures FitsBehind(x, SubstOne(ts, token, value), kind)
    decreases |ts|
  {
    if ts != [] && ts[0] == Var(token) {
      if value == "" {
        assert SubstOne(ts, token, value) == SubstOne(ts[1..], token, value);
        if |ts| > 1 { JointAround(x, token, ts[1], value, kind); }
        SubstOneFits(x, ts[1..], token, value, kind);
      } else {
        JointAround(x, token, x, value, kind);
        assert SubstOne(ts, token, value)[0] == Ch(value[0]);
      }
    }
  }

  /** Putting in a value of the kind keeps a template sealed. */
  lemma {:induction false} SubstOneSealed(ts: Template, token: string, value: string, kind: Kind)
    requires Inert(value, kind) && Jointed(ts, kind)
    ensures Jointed(SubstOne(ts, token, value), kind)
    decreases |ts|
  {
    if ts != [] {
      var rest := SubstOne(ts[1..], token, value);
      SubstOneSealed(ts[1..], token, value, kind);
      var head := if ts[0] == Var(token) then Chars(value) else [ts[0]];
      JointedChars(value, kind);
      JointedConcat(head, rest, kind);
      if head != [] && rest != [] {
        var x := head[|head| - 1];
        if |ts| > 1 { JointAround(x, token, ts[1], value, kind); }
        SubstOneFits(x, ts[1..], token, value, kind);
      }
    }
  }

  /** A single distinct variable means every occurrence is that variable. */
  lemma SingleVariable(s: string, u: string)
    requires |TemplateVars(s)| == 1 && TemplateVars(s)[0] == u
    ensures FindVars(s) != [] && forall x :: x in FindVars(s) ==> x == u
  {
    assert u in TemplateVars(s);
    forall x | x in FindVars(s) ensures x == u {
      assert x in TemplateVars(s);
    }
  }

  lemma {:induction false} CountSkipsText(s: string, rest: string, token: string)
    requires WellToken(token) && Mute(s, rest)
    ensures Count(s + rest, token) == Count(rest, token)
  {
    if s == "" { assert s + rest == rest; } else {
      MuteTail(s, rest);
      assert (s + rest)[1..] == s[1..] + rest;
      CountSkipsText(s[1..], rest, token);
    }
  }

  /** `strings.Count` of a variable counts its occurrences in a clean template. */
  lemma {:induction false} CountFlat(ts: Template, token: string)
    requires Clean(ts) && WellToken(token)
    ensures Count(Flat(ts), token) == multiset(Vars(ts))[token]
  {
    if ts != [] {
      CleanTail(ts);
      CountFlat(ts[1..], token);
      var rest := Flat(ts[1..]);
      match ts[0]
      case Ch(c) =>
        MuteChar(ts);
        CountSkipsText([c], rest, token);
      case Var(t) =>
        CountToken(t, rest, token);
    }
  }

  lemma CountToken(t: string, rest: string, token: string)
    requires WellToken(t) && WellToken(token)
    ensures Count(t + rest, token) == Count(rest, token) + (if t == token then 1 else 0)
  {
    TokenPrefix(token, t, rest);
    if t == token {
      assert (t + rest)[|t|..] == rest;
    } else {
      assert (t + rest)[1..] == t[1..] + rest;
      MuteToken(t, rest);
      CountSkipsText(t[1..], rest, token);
    }
  }

  lemma {:induction false} CutSkipsText(s: string, rest: string, token: string)
    requires WellToken(token) && Mute(s, rest)
    ensures Cut(s + rest, token) == (s + Cut(rest, token).0, Cut(rest, token).1)
  {
    if s == "" {
      assert s + rest == rest && s + Cut(rest, token).0 == Cut(rest, token).0;
    } else {
      MuteTail(s, rest);
      assert (s + rest)[1..] == s[1..] + rest;
      CutSkipsText(s[1..], rest, token);
      assert [s[0]] + (s[1..] + Cut(rest, token).0) == s + Cut(rest, token).0;
    }
  }

  lemma CutAround(before: string, token: string, after: string)
    requires WellToken(token) && NoOpen(before)
    ensures Cut(before + token + after, token) == (before, after)
  {
    assert before + token + after == before + (token + after);
    forall i | 0 <= i < |before| && before[i] == '$' && i + 1 < |before| + |token + after|
      ensures (before + (token + after))[i + 1] != '{'
    {
      if i + 1 < |before| { assert before[i + 1] != '{'; } else { assert (before + (token + after))[i + 1] == token[0]; }
    }
    CutSkipsText(before, token + after, token);
    assert token <= token + after && (token + after)[|token|..] == after;
    assert before + "" == before;
  }
}
