/**
 Canonical JSON: sorted keys, no white space, numbers kept as written. A reader for the grammar of
 sections 4 to 7 of RFC 8259 recovers the value, so equal encodings mean equal values.
 */
module CanonicalJson {
  import opened Prelude
  import StringOrder

  datatype Json =
    | JNull
    | JBool(b: bool)
    | JNumber(text: string)
    | JString(s: string)
    | JArray(items: seq<Json>)
    | JObject(members: map<string, Json>)

  // ------------------------------------------------------------ numbers, section 6

  datatype Scan = Start | Minus | Zero | Whole | Point | Fraction | Exponent | Sign | Power

  predicate Digit(c: char) { '0' <= c <= '9' }

  /** The automaton of the number grammar. */
  function Next(st: Scan, c: char): (r: Option<Scan>) {
    match st
    case Start => if c == '-' then Some(Minus) else if c == '0' then Some(Zero) else if Digit(c) then Some(Whole) else None
    case Minus => if c == '0' then Some(Zero) else if Digit(c) then Some(Whole) else None
    case Zero => if c == '.' then Some(Point) else if c == 'e' || c == 'E' then Some(Exponent) else None
    case Whole =>
      if Digit(c) then Some(Whole)
      else if c == '.' then Some(Point)
      else if c == 'e' || c == 'E' then Some(Exponent)
      else None
    case Point => if Digit(c) then Some(Fraction) else None
    case Fraction => if Digit(c) then Some(Fraction) else if c == 'e' || c == 'E' then Some(Exponent) else None
    case Exponent => if c == '+' || c == '-' then Some(Sign) else if Digit(c) then Some(Power) else None
    case Sign => if Digit(c) then Some(Power) else None
    case Power => if Digit(c) then Some(Power) else None
  }

  predicate Accepts(st: Scan, s: string)
    decreases |s|
  {
    if s == "" then st.Zero? || st.Whole? || st.Fraction? || st.Power?
    else Next(st, s[0]).Some? && Accepts(Next(st, s[0]).value, s[1..])
  }

  predicate IsNumber(s: string) { Accepts(Start, s) }

  predicate NumberChar(c: char) { Digit(c) || c == '-' || c == '+' || c == '.' || c == 'e' || c == 'E' }

  /** Every number text in the value follows the grammar. */
  ghost predicate WellFormed(v: Json) {
    match v
    case JNumber(text) => IsNumber(text)
    case JArray(items) => forall i :: 0 <= i < |items| ==> WellFormed(items[i])
    case JObject(members) => forall k :: k in members ==> WellFormed(members[k])
    case _ => true
  }

  // ------------------------------------------------------------ strings, section 7

  function HexDigit(n: nat): (c: char)
    requires n < 16
  {
    "0123456789abcdef"[n]
  }

  function Unhex(c: char): (n: Option<nat>)
    ensures n.Some? ==> n.value < 16
  {
    if '0' <= c <= '9' then Some(c as int - '0' as int)
    else if 'a' <= c <= 'f' then Some(c as int - 'a' as int + 10)
    else if 'A' <= c <= 'F' then Some(c as int - 'A' as int + 10)
    else None
  }

  function Unicode(n: nat): (r: string)
    requires n < 0x10000
    ensures |r| == 6
  {
    var q1 := n / 16;
    var q2 := q1 / 16;
    var q3 := q2 / 16;
    ['\\', 'u', HexDigit(q3), HexDigit(q2 % 16), HexDigit(q1 % 16), HexDigit(n % 16)]
  }

  /** Characters written as a Unicode escape. */
  predicate Hidden(n: nat) {
    n < 0x20 || n == '<' as int || n == '>' as int || n == '&' as int || n == 0x2028 || n == 0x2029
  }

  /** The escapes of Go's encoder, which also escapes markup and two line separators. */
  function Escape1(c: char): (r: string)
    ensures r != ""
  {
    var n := c as int;
    if c == '\"' then "\\\""
    else if c == '\\' then "\\\\"
    else if n == 8 then "\\b"
    else if n == 12 then "\\f"
    else if n == 10 then "\\n"
    else if n == 13 then "\\r"
    else if n == 9 then "\\t"
    else if Hidden(n) then Unicode(n)
    else [c]
  }

  function Escape(s: string): (r: string) {
    if s == "" then "" else Escape1(s[0]) + Escape(s[1..])
  }

  function EncodeString(s: string): (r: string) { "\"" + Escape(s) + "\"" }

  // ------------------------------------------------------------ values

  ghost function SortedKeys(keys: set<string>): (r: seq<string>)
    ensures StringOrder.Ascending(r) && forall k :: k in r <==> k in keys
  {
    if keys == {} then []
    else
      var k :| k in keys;
      var rest := SortedKeys(keys - {k});
      StringOrder.InsertAscending(k, rest);
      StringOrder.Members(k, rest);
      StringOrder.Insert(k, rest)
  }

  ghost function Encode(v: Json): (r: string)
    decreases v, 1, 0
  {
    match v
    case JNull => "null"
    case JBool(b) => if b then "true" else "false"
    case JNumber(text) => text
    case JString(s) => EncodeString(s)
    case JArray(items) => "[" + EncodeItems(v, 0) + "]"
    case JObject(members) => "{" + EncodeMembers(v, SortedKeys(members.Keys)) + "}"
  }

  ghost function EncodeItems(v: Json, i: nat): (r: string)
    requires v.JArray? && i <= |v.items|
    decreases v, 0, |v.items| - i
  {
    if i == |v.items| then ""
    else Encode(v.items[i]) + (if i + 1 < |v.items| then "," else "") + EncodeItems(v, i + 1)
  }

  ghost function EncodeMembers(v: Json, keys: seq<string>): (r: string)
    requires v.JObject? && forall k :: k in keys ==> k in v.members
    decreases v, 0, |keys|
  {
    if keys == [] then ""
    else
      EncodeString(keys[0]) + ":" + Encode(v.members[keys[0]]) + (if |keys| > 1 then "," else "")
      + EncodeMembers(v, keys[1..])
  }

  // ------------------------------------------------------------ the reader

  function ReadNumber(s: string): (r: (string, string))
    ensures |r.0| + |r.1| == |s|
  {
    if s == "" || !NumberChar(s[0]) then ("", s)
    else
      var (text, rest) := ReadNumber(s[1..]);
      ([s[0]] + text, rest)
  }

  function ReadEscape(s: string): (r: Option<(char, string)>)
    ensures r.Some? ==> |r.value.1| < |s|
  {
    if s == "" then None
    else if s[0] == '\"' || s[0] == '\\' || s[0] == '/' then Some((s[0], s[1..]))
    else if s[0] == 'b' then Some((8 as char, s[1..]))
    else if s[0] == 'f' then Some((12 as char, s[1..]))
    else if s[0] == 'n' then Some((10 as char, s[1..]))
    else if s[0] == 'r' then Some((13 as char, s[1..]))
    else if s[0] == 't' then Some((9 as char, s[1..]))
    else if s[0] == 'u' && |s| >= 5 then
      var (a, b, c, d) := (Unhex(s[1]), Unhex(s[2]), Unhex(s[3]), Unhex(s[4]));
      if a.None? || b.None? || c.None? || d.None? then None
      else
        var n := a.value * 4096 + b.value * 256 + c.value * 16 + d.value;
        if 0xD800 <= n < 0xE000 then None else Some((n as char, s[5..]))
    else None
  }

  /** Characters up to the closing quote. */
  function ReadChars(s: string): (r: Option<(string, string)>)
    ensures r.Some? ==> |r.value.1| < |s|
    decreases |s|
  {
    if s == "" then None
    else if s[0] == '\"' then Some(("", s[1..]))
    else if s[0] == '\\' then
      match ReadEscape(s[1..])
      case None => None
      case Some((c, rest)) =>
        (match ReadChars(rest)
         case None => None
         case Some((text, after)) => Some(([c] + text, after)))
    else if s[0] as int < 0x20 then None
    else
      match ReadChars(s[1..])
      case None => None
      case Some((text, after)) => Some(([s[0]] + text, after))
  }

  function Read(s: string): (r: Option<(Json, string)>)
    ensures r.Some? ==> |r.value.1| < |s|
    decreases |s|, 0
  {
    if s == "" then None
    else if s[0] == '\"' then
      match ReadChars(s[1..])
      case None => None
      case Some((text, rest)) => Some((JString(text), rest))
    else if s[0] == '[' then ReadArray(s[1..])
    else if s[0] == '{' then ReadObject(s[1..])
    else if s[0] == '-' || Digit(s[0]) then
      var (text, rest) := ReadNumber(s);
      if IsNumber(text) && text != "" then Some((JNumber(text), rest)) else None
    else if "null" <= s then Some((JNull, s[4..]))
    else if "true" <= s then Some((JBool(true), s[4..]))
    else if "false" <= s then Some((JBool(false), s[5..]))
    else None
  }

  function ReadArray(s: string): (r: Option<(Json, string)>)
    ensures r.Some? ==> |r.value.1| <= |s|
    decreases |s|, 2
  {
    if s != "" && s[0] == ']' then Some((JArray([]), s[1..]))
    else
      match ReadItems(s)
      case None => None
      case Some((items, rest)) => Some((JArray(items), rest))
  }

  function ReadObject(s: string): (r: Option<(Json, string)>)
    ensures r.Some? ==> |r.value.1| <= |s|
    decreases |s|, 2
  {
    if s != "" && s[0] == '}' then Some((JObject(map[]), s[1..]))
    else
      match ReadMembers(s)
      case None => None
      case Some((members, rest)) => Some((JObject(members), rest))
  }

  function ReadItems(s: string): (r: Option<(seq<Json>, string)>)
    ensures r.Some? ==> |r.value.1| < |s|
    decreases |s|, 1
  {
    match Read(s)
    case None => None
    case Some((v, rest)) =>
      if rest == "" then None
      else if rest[0] == ']' then Some(([v], rest[1..]))
      else if rest[0] == ',' then
        (match ReadItems(rest[1..])
         case None => None
         case Some((items, after)) => Some(([v] + items, after)))
      else None
  }

  function ReadMembers(s: string): (r: Option<(map<string, Json>, string)>)
    ensures r.Some? ==> |r.value.1| < |s|
    decreases |s|, 1
  {
    if s == "" || s[0] != '\"' then None
    else
      match ReadChars(s[1..])
      case None => None
      case Some((k, colon)) =>
        if colon == "" || colon[0] != ':' then None
        else
          match Read(colon[1..])
          case None => None
          case Some((v, rest)) =>
            if rest == "" then None
            else if rest[0] == '}' then Some((map[k := v], rest[1..]))
            else if rest[0] == ',' then
              (match ReadMembers(rest[1..])
               case None => None
               case Some((members, after)) => Some((map[k := v] + members, after)))
            else None
  }

  // ------------------------------------------------------------ reading back

  lemma {:induction false} NumberChars(st: Scan, s: string)
    requires Accepts(st, s)
    ensures forall c :: c in s ==> NumberChar(c)
    decreases |s|
  {
    if s != "" {
      NumberChars(Next(st, s[0]).value, s[1..]);
      assert s == [s[0]] + s[1..];
    }
  }

  ghost predicate Ends(rest: string) { rest == "" || !NumberChar(rest[0]) }

  lemma {:induction false} NumberReadsBack(text: string, rest: string)
    requires (forall c :: c in text ==> NumberChar(c)) && Ends(rest)
    ensures ReadNumber(text + rest) == (text, rest)
  {
    if text == "" {
      assert text + rest == rest;
    } else {
      assert (text + rest)[1..] == text[1..] + rest;
      NumberReadsBack(text[1..], rest);
      assert text == [text[0]] + text[1..];
    }
  }

  lemma HexReadsBack(n: nat)
    requires n < 16
    ensures Unhex(HexDigit(n)) == Some(n)
  {
  }

  lemma UnicodeReadsBack(n: nat, rest: string)
    requires n < 0xD800
    ensures ReadEscape(Unicode(n)[1..] + rest) == Some((n as char, rest))
  {
    var u := Unicode(n);
    var q1 := n / 16;
    var q2 := q1 / 16;
    var q3 := q2 / 16;
    HexReadsBack(q3);
    HexReadsBack(q2 % 16);
    HexReadsBack(q1 % 16);
    HexReadsBack(n % 16);
    hide HexDigit, Unhex;
    var s := u[1..] + rest;
    assert s[0] == 'u' && s[1] == u[2] && s[2] == u[3] && s[3] == u[4] && s[4] == u[5] && s[5..] == rest;
    assert q3 * 4096 + q2 % 16 * 256 + q1 % 16 * 16 + n % 16 == n;
  }

  lemma CharReadsBack(c: char, rest: string, text: string, after: string)
    requires ReadChars(rest) == Some((text, after))
    ensures ReadChars(Escape1(c) + rest) == Some(([c] + text, after))
  {
    var e := Escape1(c);
    var s := e + rest;
    if |e| == 6 {
      UnicodeReadsBack(c as int, rest);
      assert s[0] == '\\' && s[1..] == e[1..] + rest;
    } else if |e| == 2 {
      ShortReadsBack(c, rest);
      assert s[0] == '\\' && s[1..] == [e[1]] + rest;
    } else {
      assert e == [c] && s[0] == c && s[1..] == rest;
    }
  }

  lemma ShortReadsBack(c: char, rest: string)
    requires |Escape1(c)| == 2
    ensures Escape1(c)[0] == '\\' && ReadEscape([Escape1(c)[1]] + rest) == Some((c, rest))
  {
    var s := [Escape1(c)[1]] + rest;
    assert s[1..] == rest;
  }

  lemma {:induction false} CharsReadBack(s: string, rest: string)
    ensures ReadChars(Escape(s) + "\"" + rest) == Some((s, rest))
  {
    if s == "" {
      assert Escape(s) + "\"" + rest == "\"" + rest && ("\"" + rest)[1..] == rest;
    } else {
      CharsReadBack(s[1..], rest);
      var tail := Escape(s[1..]) + "\"" + rest;
      CharReadsBack(s[0], tail, s[1..], rest);
      assert Escape(s) + "\"" + rest == Escape1(s[0]) + tail;
      assert s == [s[0]] + s[1..];
    }
  }

  /** What follows a value in an encoding: nothing, a comma or a closing bracket. */
  ghost predicate Follows(rest: string) { rest == "" || rest[0] == ',' || rest[0] == ']' || rest[0] == '}' }

  lemma FirstChar(v: Json)
    requires WellFormed(v)
    ensures var e := Encode(v); e != "" && !Follows(e)
  {
    if v.JNumber? { assert v.text != "" && Next(Start, v.text[0]).Some?; }
  }

  lemma {:induction false} ReadsBack(v: Json, rest: string)
    requires WellFormed(v) && Follows(rest)
    ensures Read(Encode(v) + rest) == Some((v, rest))
    decreases v, 1, 0
  {
    match v {
      case JNumber(text) => NumberValueReadsBack(text, rest);
      case JString(s) => StringReadsBack(s, rest);
      case JArray(items) => ArrayReadsBack(v, rest);
      case JObject(members) => ObjectReadsBack(v, rest);
      case _ => ConstantReadsBack(v, rest);
    }
  }

  lemma ConstantReadsBack(v: Json, rest: string)
    requires v.JNull? || v.JBool?
    ensures Read(Encode(v) + rest) == Some((v, rest))
  {
    var s := Encode(v) + rest;
    assert s[..|Encode(v)|] == Encode(v) && s[|Encode(v)|..] == rest;
    assert s[0] == Encode(v)[0];
  }

  lemma NumberValueReadsBack(text: string, rest: string)
    requires IsNumber(text) && Follows(rest)
    ensures Read(text + rest) == Some((JNumber(text), rest))
  {
    NumberChars(Start, text);
    NumberReadsBack(text, rest);
    var s := text + rest;
    assert text != "" && s[0] == text[0] && Next(Start, text[0]).Some?;
    assert "null"[0] == 'n' && "true"[0] == 't' && "false"[0] == 'f';
    hide Accepts, ReadNumber;
  }

  lemma StringReadsBack(t: string, rest: string)
    ensures Read(EncodeString(t) + rest) == Some((JString(t), rest))
  {
    var s := EncodeString(t) + rest;
    CharsReadBack(t, rest);
    hide Escape, ReadChars, ReadNumber, ReadArray, ReadObject, Accepts;
    assert s[0] == '\"' && s[1..] == Escape(t) + "\"" + rest;
  }

  // The reader, one production at a time.

  lemma ReadsBracket(inner: string)
    ensures Read("[" + inner) == ReadArray(inner) && Read("{" + inner) == ReadObject(inner)
  {
    hide ReadArray, ReadObject, ReadItems, ReadMembers, ReadChars, ReadNumber;
    var a, o := "[" + inner, "{" + inner;
    assert a[0] == '[' && a[1..] == inner;
    assert o[0] == '{' && o[1..] == inner;
  }

  lemma ReadsLastItem(s: string, v: Json, rest: string)
    requires Read(s) == Some((v, "]" + rest))
    ensures ReadItems(s) == Some(([v], rest))
  {
    hide Read;
    assert ("]" + rest)[1..] == rest;
  }

  lemma ReadsNextItem(s: string, v: Json, tail: string, items: seq<Json>, rest: string)
    requires Read(s) == Some((v, "," + tail)) && ReadItems(tail) == Some((items, rest))
    ensures ReadItems(s) == Some(([v] + items, rest))
  {
    hide Read;
    assert ("," + tail)[1..] == tail;
  }

  lemma ReadsLastMember(s: string, k: string, colon: string, v: Json, rest: string)
    requires s != ""
    requires s[0] == '\"' && ReadChars(s[1..]) == Some((k, ":" + colon)) && Read(colon) == Some((v, "}" + rest))
    ensures ReadMembers(s) == Some((map[k := v], rest))
  {
    hide Read, ReadChars;
    assert (":" + colon)[1..] == colon && ("}" + rest)[1..] == rest;
  }

  lemma ReadsNextMember(s: string, k: string, colon: string, v: Json, tail: string, members: map<string, Json>,
                        rest: string)
    requires s != ""
    requires s[0] == '\"' && ReadChars(s[1..]) == Some((k, ":" + colon)) && Read(colon) == Some((v, "," + tail))
    requires ReadMembers(tail) == Some((members, rest))
    ensures ReadMembers(s) == Some((map[k := v] + members, rest))
  {
    hide Read, ReadChars;
    assert (":" + colon)[1..] == colon && ("," + tail)[1..] == tail;
  }

  // The encoder's output, reassociated for the reader.

  lemma Assoc(a: string, b: string, c: string)
    ensures (a + b) + c == a + (b + c)
  {
  }

  lemma ItemsSplit(v: Json, i: nat, end: string)
    requires v.JArray? && i < |v.items|
    ensures EncodeItems(v, i) + end ==
      Encode(v.items[i]) + (if i + 1 < |v.items| then "," + (EncodeItems(v, i + 1) + end) else end)
  {
    hide Encode;
    if i + 1 == |v.items| { assert EncodeItems(v, i + 1) == ""; }
  }

  lemma MembersSplit(v: Json, keys: seq<string>, end: string)
    requires v.JObject? && keys != [] && forall k :: k in keys ==> k in v.members
    ensures EncodeMembers(v, keys) + end ==
      EncodeString(keys[0]) + (":" + (Encode(v.members[keys[0]]) +
        (if |keys| > 1 then "," + (EncodeMembers(v, keys[1..]) + end) else end)))
  {
    var es, e, rest := EncodeString(keys[0]), Encode(v.members[keys[0]]), EncodeMembers(v, keys[1..]);
    var comma := if |keys| > 1 then "," else "";
    assert EncodeMembers(v, keys) == es + ":" + e + comma + rest;
    assert |keys| == 1 ==> rest == "";
    hide Encode, EncodeString, EncodeMembers;
    Assoc(es + ":" + e + comma, rest, end);
    Assoc(es + ":" + e, comma, rest + end);
    Assoc(es + ":", e, comma + (rest + end));
    Assoc(es, ":", e + (comma + (rest + end)));
    assert |keys| == 1 ==> comma + (rest + end) == end;
  }

  lemma BracketSplit(v: Json, rest: string)
    requires v.JArray? || v.JObject?
    ensures v.JArray? ==> Encode(v) + rest == "[" + (EncodeItems(v, 0) + ("]" + rest))
    ensures v.JObject? ==> Encode(v) + rest == "{" + (EncodeMembers(v, SortedKeys(v.members.Keys)) + ("}" + rest))
  {
    hide EncodeItems, EncodeMembers, SortedKeys;
    if v.JArray? {
      Assoc("[" + EncodeItems(v, 0), "]", rest);
      Assoc("[", EncodeItems(v, 0), "]" + rest);
    } else {
      var members := EncodeMembers(v, SortedKeys(v.members.Keys));
      Assoc("{" + members, "}", rest);
      Assoc("{", members, "}" + rest);
    }
  }

  lemma KeyReadsBack(k: string, colon: string)
    ensures var s := EncodeString(k) + colon; s != "" && s[0] == '\"' && ReadChars(s[1..]) == Some((k, colon))
  {
    var s := EncodeString(k) + colon;
    CharsReadBack(k, colon);
    hide Escape, ReadChars;
    assert s[1..] == Escape(k) + "\"" + colon;
  }

  lemma ArrayReadsBack(v: Json, rest: string)
    requires v.JArray? && WellFormed(v) && Follows(rest)
    ensures Read(Encode(v) + rest) == Some((v, rest))
    decreases v, 0, |v.items| + 1
  {
    var end := "]" + rest;
    var inner := EncodeItems(v, 0) + end;
    BracketSplit(v, rest);
    ReadsBracket(inner);
    if v.items == [] {
      hide Read, Encode;
      assert inner == end && end[1..] == rest;
    } else {
      ItemsReadBack(v, 0, rest);
      FirstChar(v.items[0]);
      ItemsSplit(v, 0, end);
      assert v.items[0..] == v.items;
      hide Read, ReadItems, EncodeItems, Encode, WellFormed;
      assert inner[0] == Encode(v.items[0])[0];
    }
  }

  lemma ItemsReadBack(v: Json, i: nat, rest: string)
    requires v.JArray? && WellFormed(v) && i < |v.items|
    ensures ReadItems(EncodeItems(v, i) + ("]" + rest)) == Some((v.items[i..], rest))
    decreases v, 0, |v.items| - i
  {
    var item, end := v.items[i], "]" + rest;
    var s := EncodeItems(v, i) + end;
    ItemsSplit(v, i, end);
    assert WellFormed(item);
    hide Read, ReadItems, Encode, EncodeItems, WellFormed;
    if i + 1 < |v.items| {
      var tail := EncodeItems(v, i + 1) + end;
      ReadsBack(item, "," + tail);
      ItemsReadBack(v, i + 1, rest);
      ReadsNextItem(s, item, tail, v.items[i + 1..], rest);
      assert v.items[i..] == [item] + v.items[i + 1..];
    } else {
      ReadsBack(item, end);
      ReadsLastItem(s, item, rest);
      assert v.items[i..] == [item];
    }
  }

  lemma ReadsMembers(inner: string, members: map<string, Json>, rest: string)
    requires inner != "" && inner[0] == '\"' && ReadMembers(inner) == Some((members, rest))
    ensures ReadObject(inner) == Some((JObject(members), rest))
  {
    hide ReadMembers;
  }

  lemma MembersStart(v: Json, keys: seq<string>, end: string)
    requires v.JObject? && keys != [] && forall k :: k in keys ==> k in v.members
    ensures var inner := EncodeMembers(v, keys) + end; inner != "" && inner[0] == '\"'
  {
    MembersSplit(v, keys, end);
    hide EncodeMembers, Encode, Escape;
  }

  lemma EmptyReadsBack(rest: string)
    ensures ReadObject("" + ("}" + rest)) == Some((JObject(map[]), rest))
  {
    var s := "" + ("}" + rest);
    assert s[0] == '}' && s[1..] == rest;
  }

  lemma ObjectReadsBack(v: Json, rest: string)
    requires v.JObject? && WellFormed(v) && Follows(rest)
    ensures Read(Encode(v) + rest) == Some((v, rest))
    decreases v, 0, |SortedKeys(v.members.Keys)| + 1
  {
    hide SortedKeys, Read, ReadObject, ReadMembers, Encode, WellFormed, StringOrder.Ascending;
    var keys, end := SortedKeys(v.members.Keys), "}" + rest;
    BracketSplit(v, rest);
    ReadsBracket(EncodeMembers(v, keys) + end);
    if keys == [] {
      assert v.members == map[] by { assert forall k :: k !in v.members; }
      EmptyReadsBack(rest);
    } else {
      hide EncodeMembers;
      MembersReadBack(v, keys, rest);
      MembersStart(v, keys, end);
      assert Part(v.members, keys) == v.members;
      ReadsMembers(EncodeMembers(v, keys) + end, v.members, rest);
    }
  }

  /** The members at the keys of a list. */
  ghost function Part(m: map<string, Json>, keys: seq<string>): (r: map<string, Json>) {
    map k | k in m && k in keys :: m[k]
  }

  lemma PartCons(m: map<string, Json>, keys: seq<string>)
    requires keys != [] && StringOrder.Ascending(keys) && keys[0] in m
    ensures Part(m, keys) == map[keys[0] := m[keys[0]]] + Part(m, keys[1..])
    ensures StringOrder.Ascending(keys[1..])
  {
    var more := keys[1..];
    assert keys == [keys[0]] + more;
    assert forall i, j :: 0 <= i < j < |more| ==> more[i] == keys[i + 1] && more[j] == keys[j + 1];
  }

  lemma MembersReadBack(v: Json, keys: seq<string>, rest: string)
    requires v.JObject? && WellFormed(v) && keys != [] && StringOrder.Ascending(keys)
    requires forall k :: k in keys ==> k in v.members
    ensures ReadMembers(EncodeMembers(v, keys) + ("}" + rest)) == Some((Part(v.members, keys), rest))
    decreases v, 0, |keys|
  {
    var k, more, end := keys[0], keys[1..], "}" + rest;
    var member := v.members[k];
    var s := EncodeMembers(v, keys) + end;
    assert WellFormed(member) && forall x :: x in more ==> x in keys;
    PartCons(v.members, keys);
    MembersSplit(v, keys, end);
    hide Read, ReadMembers, ReadChars, Encode, EncodeMembers, EncodeString, WellFormed, StringOrder.Ascending;
    if more == [] {
      ReadsBack(member, end);
      KeyReadsBack(k, ":" + (Encode(member) + end));
      ReadsLastMember(s, k, Encode(member) + end, member, rest);
      assert Part(v.members, more) == map[];
      assert map[k := member] + map[] == map[k := member];
    } else {
      var tail := EncodeMembers(v, more) + end;
      ReadsBack(member, "," + tail);
      MembersReadBack(v, more, rest);
      KeyReadsBack(k, ":" + (Encode(member) + ("," + tail)));
      ReadsNextMember(s, k, Encode(member) + ("," + tail), member, tail, Part(v.members, more), rest);
    }
  }

  /** Equal encodings mean equal values. */
  lemma EncodeInjective(v: Json, w: Json)
    requires WellFormed(v) && WellFormed(w) && Encode(v) == Encode(w)
    ensures v == w
  {
    ReadsBack(v, "");
    ReadsBack(w, "");
    assert Encode(v) + "" == Encode(v);
  }

  // ------------------------------------------------------------ the encoder

  /** The keys in whatever order the map is iterated, then sorted. */
  method CollectKeys(members: map<string, Json>) returns (keys: seq<string>)
    ensures keys == SortedKeys(members.Keys)
  {
    var left := members.Keys;
    var found: seq<string> := [];
    while left != {}
      invariant left <= members.Keys
      invariant forall k :: k in found <==> k in members.Keys - left
      invariant forall i, j :: 0 <= i < j < |found| ==> found[i] != found[j]
      decreases |left|
    {
      var k :| k in left;
      found, left := found + [k], left - {k};
    }
    keys := StringOrder.Sort(found);
    StringOrder.SortAscending(found);
    StringOrder.AscendingUnique(keys, SortedKeys(members.Keys));
  }

  /** `encode`: the bytes depend on the value alone, not on any iteration order. */
  method Marshal(v: Json) returns (bytes: string)
    ensures bytes == Encode(v)
    decreases v, 1
  {
    match v {
      case JNull => bytes := "null";
      case JBool(b) => bytes := if b then "true" else "false";
      case JNumber(text) => bytes := text;
      case JString(s) => bytes := EncodeString(s);
      case JArray(_) => bytes := MarshalArray(v);
      case JObject(_) => bytes := MarshalObject(v);
    }
  }

  method MarshalArray(v: Json) returns (bytes: string)
    requires v.JArray?
    ensures bytes == Encode(v)
    decreases v, 0
  {
    var buf := "[";
    BracketSplit(v, "");
    assert Encode(v) + "" == Encode(v) && "]" + "" == "]";
    assert "" + (EncodeItems(v, 0) + "]") == EncodeItems(v, 0) + "]";
    hide Encode, EncodeItems;
    assert buf + ItemsLeft(v, 0) == Encode(v);
    for i := 0 to |v.items|
      invariant buf + ItemsLeft(v, i) == Encode(v)
    {
      hide ItemsLeft;
      ItemWritten(v, i, buf);
      var b := Marshal(v.items[i]);
      if i > 0 { buf := buf + ","; } else { assert buf + "" == buf; }
      buf := buf + b;
    }
    NoItemsLeft(v);
    bytes := buf + "]";
  }

  /** What remains to be written after the first `i` items. */
  ghost function ItemsLeft(v: Json, i: nat): (r: string)
    requires v.JArray? && i <= |v.items|
  {
    (if 0 < i < |v.items| then "," else "") + (EncodeItems(v, i) + "]")
  }

  lemma NoItemsLeft(v: Json)
    requires v.JArray?
    ensures ItemsLeft(v, |v.items|) == "]"
  {
    assert "" + ("" + "]") == "]";
  }

  lemma ItemWritten(v: Json, i: nat, buf: string)
    requires v.JArray? && i < |v.items|
    ensures buf + ItemsLeft(v, i) == buf + (if i > 0 then "," else "") + Encode(v.items[i]) + ItemsLeft(v, i + 1)
  {
    var sep, comma := if i > 0 then "," else "", if i + 1 < |v.items| then "," else "";
    var tail := EncodeItems(v, i + 1) + "]";
    ItemsSplit(v, i, "]");
    assert i + 1 == |v.items| ==> tail == "]" by { assert "" + "]" == "]"; }
    hide Encode, EncodeItems;
    assert comma == "" ==> comma + tail == tail;
    Assoc(buf, sep, EncodeItems(v, i) + "]");
    Assoc(buf + sep, Encode(v.items[i]), comma + tail);
  }

  lemma Regroup(buf: string, es: string, e: string, comma: string, tail: string)
    ensures buf + (es + (":" + (e + (comma + tail)))) == (buf + es + ":" + e) + comma + tail
  {
    Assoc(buf + es + ":" + e, comma, tail);
    Assoc(buf + es + ":", e, comma + tail);
    Assoc(buf + es, ":", e + (comma + tail));
    Assoc(buf, es, ":" + (e + (comma + tail)));
  }

  /** What remains to be written after the first `i` members. */
  ghost function Remaining(v: Json, keys: seq<string>, i: nat): (r: string)
    requires v.JObject? && i <= |keys| && forall k :: k in keys ==> k in v.members
  {
    (if 0 < i < |keys| then "," else "") + (EncodeMembers(v, keys[i..]) + "}")
  }

  lemma MemberWritten(v: Json, keys: seq<string>, i: nat, buf: string)
    requires v.JObject? && i < |keys| && forall k :: k in keys ==> k in v.members
    ensures buf + Remaining(v, keys, i) ==
      buf + (if i > 0 then "," else "") + EncodeString(keys[i]) + ":" + Encode(v.members[keys[i]]) + Remaining(v, keys, i + 1)
  {
    var sep, comma := if i > 0 then "," else "", if i + 1 < |keys| then "," else "";
    var tail := EncodeMembers(v, keys[i + 1..]) + "}";
    assert keys[i..][0] == keys[i] && keys[i..][1..] == keys[i + 1..];
    MembersSplit(v, keys[i..], "}");
    assert i + 1 == |keys| ==> tail == "}" by { assert keys[|keys|..] == []; assert "" + "}" == "}"; }
    hide Encode, EncodeMembers, EncodeString;
    assert comma == "" ==> comma + tail == tail;
    Assoc(buf, sep, EncodeMembers(v, keys[i..]) + "}");
    Regroup(buf + sep, EncodeString(keys[i]), Encode(v.members[keys[i]]), comma, tail);
    Assoc(buf + sep + EncodeString(keys[i]) + ":" + Encode(v.members[keys[i]]), comma, tail);
  }

  method MarshalObject(v: Json) returns (bytes: string)
    requires v.JObject?
    ensures bytes == Encode(v)
    decreases v, 0
  {
    var keys := CollectKeys(v.members);
    var buf := "{";
    BracketSplit(v, "");
    assert Encode(v) + "" == Encode(v) && "}" + "" == "}" && keys[0..] == keys;
    assert "" + (EncodeMembers(v, keys) + "}") == EncodeMembers(v, keys) + "}";
    hide Encode, EncodeMembers, EncodeString, SortedKeys;
    assert buf + Remaining(v, keys, 0) == Encode(v);
    for i := 0 to |keys|
      invariant buf + Remaining(v, keys, i) == Encode(v)
    {
      hide Remaining;
      MemberWritten(v, keys, i, buf);
      assert keys[i] in keys;
      var b := Marshal(v.members[keys[i]]);
      if i > 0 { buf := buf + ","; } else { assert buf + "" == buf; }
      buf := buf + EncodeString(keys[i]) + ":" + b;
    }
    NothingRemains(v, keys);
    bytes := buf + "}";
  }

  lemma NothingRemains(v: Json, keys: seq<string>)
    requires v.JObject? && forall k :: k in keys ==> k in v.members
    ensures Remaining(v, keys, |keys|) == "}"
  {
    assert keys[|keys|..] == [];
    assert "" + ("" + "}") == "}";
  }
}
