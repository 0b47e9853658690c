/** JSON values as the Rust client sees them through serde_json: a value
    datatype, the compact text the client writes, the parser the client
    reads frames with, and the typed accessors its schemas use.

    Numbers are kept as their literal digits (sign, whole part, fraction
    digits), which is what decides how serde accepts them: an integer literal
    fits a `usize` or `u32` field, any number fits an `f64` field. */
module Json {
  import opened Wrappers
  import opened Digits
  import SeqFacts

  datatype Json =
    | JNull
    | JBool(b: bool)
    | JNum(negative: bool, whole: string, fraction: string)
    | JStr(s: string)
    | JArr(items: seq<Json>)
    | JObj(members: seq<Member>)

  datatype Member = Member(key: string, value: Json)

  /** Whole part: at least one digit and no leading zero. */
  predicate ValidNumber(whole: string, fraction: string) {
    |whole| > 0 && AllDigits(whole) && AllDigits(fraction) && (whole[0] == '0' ==> |whole| == 1)
  }

  /** Characters the encoder writes literally or with a named escape; other
      control characters would need `\u` escapes, which are not modelled. */
  predicate ValidChar(c: char) {
    c >= ' ' || c == '\n' || c == '\r' || c == '\t'
  }

  predicate ValidString(s: string) {
    forall i :: 0 <= i < |s| ==> ValidChar(s[i])
  }

  /** The values the compact encoder can write. */
  predicate Valid(j: Json)
    decreases j
  {
    match j
    case JNum(_, w, f) => ValidNumber(w, f)
    case JStr(s) => ValidString(s)
    case JArr(items) => forall i | 0 <= i < |items| :: Valid(items[i])
    case JObj(ms) => forall i | 0 <= i < |ms| :: ValidString(ms[i].key) && Valid(ms[i].value)
    case _ => true
  }

  // ---------------------------------------------------------------------
  // Encoding (serde_json::to_string: compact, no whitespace)
  // ---------------------------------------------------------------------

  function EscapeChar(c: char): string {
    if c == '"' then "\\\""
    else if c == '\\' then "\\\\"
    else if c == '\n' then "\\n"
    else if c == '\r' then "\\r"
    else if c == '\t' then "\\t"
    else [c]
  }

  function Escape(s: string): string {
    if s == [] then [] else EscapeChar(s[0]) + Escape(s[1..])
  }

  function Quote(s: string): string {
    "\"" + Escape(s) + "\""
  }

  function Encode(j: Json): string
    decreases j
  {
    match j
    case JNull => "null"
    case JBool(b) => if b then "true" else "false"
    case JNum(neg, w, f) => NumberText(neg, w, f)
    case JStr(s) => Quote(s)
    case JArr(items) => "[" + EncodeItems(items) + "]"
    case JObj(ms) => "{" + EncodeMembers(ms) + "}"
  }

  function NumberText(neg: bool, w: string, f: string): string {
    (if neg then "-" else "") + w + FractionText(f)
  }

  function FractionText(f: string): string {
    if f == [] then "" else "." + f
  }

  function EncodeItems(items: seq<Json>): string
    decreases items
  {
    if items == [] then ""
    else if |items| == 1 then Encode(items[0])
    else Encode(items[0]) + "," + EncodeItems(items[1..])
  }

  function EncodeMember(m: Member): string
    decreases m
  {
    Quote(m.key) + ":" + Encode(m.value)
  }

  function EncodeMembers(ms: seq<Member>): string
    decreases ms
  {
    if ms == [] then ""
    else if |ms| == 1 then EncodeMember(ms[0])
    else EncodeMember(ms[0]) + "," + EncodeMembers(ms[1..])
  }

  // ---------------------------------------------------------------------
  // Parsing (serde_json::from_str on compact text)
  // ---------------------------------------------------------------------

  /** Length of the longest all-digit prefix of `s`. */
  function DigitRun(s: string): (n: nat)
    ensures n <= |s| && AllDigits(s[..n]) && (n < |s| ==> !IsDigit(s[n]))
  {
    if s == [] || !IsDigit(s[0]) then 0
    else
      var n := 1 + DigitRun(s[1..]);
      assert s[..n] == [s[0]] + s[1..][..n - 1];
      n
  }

  function Unescape(c: char): Option<char> {
    if c == '"' then Some('"')
    else if c == '\\' then Some('\\')
    else if c == '/' then Some('/')
    else if c == 'n' then Some('\n')
    else if c == 'r' then Some('\r')
    else if c == 't' then Some('\t')
    else if c == 'b' then Some(8 as char)
    else if c == 'f' then Some(12 as char)
    else None
  }

  /** The body of a string literal after its opening quote, up to and
      including the closing quote. */
  function ParseString(s: string): (r: Option<(string, string)>)
    ensures r.Some? ==> |r.value.1| < |s|
  {
    if s == [] then None
    else if s[0] == '"' then Some(([], s[1..]))
    else if s[0] == '\\' then
      if |s| < 2 then None
      else match Unescape(s[1])
        case None => None
        case Some(c) =>
          match ParseString(s[2..])
          case None => None
          case Some((t, rest)) => Some(([c] + t, rest))
    else if s[0] < ' ' then None
    else
      match ParseString(s[1..])
      case None => None
      case Some((t, rest)) => Some(([s[0]] + t, rest))
  }

  function ParseNumber(s: string): (r: Option<(Json, string)>)
    ensures r.Some? ==> |r.value.1| < |s|
  {
    if |s| > 0 && s[0] == '-' then ParseUnsigned(true, s[1..]) else ParseUnsigned(false, s)
  }

  /** Whole digits (a lone '0', or digits not starting with '0'), then an
      optional fraction. */
  function ParseUnsigned(neg: bool, t: string): (r: Option<(Json, string)>)
    ensures r.Some? ==> |r.value.1| < |t|
  {
    if t == [] || !IsDigit(t[0]) then None
    else
      var wl := if t[0] == '0' then 1 else DigitRun(t);
      ParseFraction(neg, t[..wl], t[wl..])
  }

  function ParseFraction(neg: bool, whole: string, t: string): (r: Option<(Json, string)>)
    ensures r.Some? ==> |r.value.1| <= |t|
  {
    if |t| > 0 && t[0] == '.' then
      var fl := DigitRun(t[1..]);
      if fl == 0 then None else Some((JNum(neg, whole, t[1..][..fl]), t[1..][fl..]))
    else Some((JNum(neg, whole, []), t))
  }

  function ParseValue(s: string): (r: Option<(Json, string)>)
    decreases |s|, 1
    ensures r.Some? ==> |r.value.1| < |s|
  {
    if s == [] then None
    else if s[0] == '[' then ParseArray(s)
    else if s[0] == '{' then ParseObject(s)
    else if s[0] == '"' then ParseStringValue(s)
    else if s[0] == '-' || IsDigit(s[0]) then ParseNumber(s)
    else ParseLiteral(s)
  }

  /** `null`, `true` or `false`. */
  function ParseLiteral(s: string): (r: Option<(Json, string)>)
    ensures r.Some? ==> |r.value.1| < |s|
  {
    if |s| >= 4 && s[..4] == "null" then Some((JNull, s[4..]))
    else if |s| >= 4 && s[..4] == "true" then Some((JBool(true), s[4..]))
    else if |s| >= 5 && s[..5] == "false" then Some((JBool(false), s[5..]))
    else None
  }

  function ParseStringValue(s: string): (r: Option<(Json, string)>)
    requires |s| > 0
    ensures r.Some? ==> |r.value.1| < |s|
  {
    match ParseString(s[1..])
    case None => None
    case Some((str, rest)) => Some((JStr(str), rest))
  }

  function ParseArray(s: string): (r: Option<(Json, string)>)
    requires |s| > 0
    decreases |s|, 0
    ensures r.Some? ==> |r.value.1| < |s|
  {
    if |s| > 1 && s[1] == ']' then Some((JArr([]), s[2..]))
    else
      match ParseItems(s[1..])
      case None => None
      case Some((items, rest)) => Some((JArr(items), rest))
  }

  function ParseObject(s: string): (r: Option<(Json, string)>)
    requires |s| > 0
    decreases |s|, 0
    ensures r.Some? ==> |r.value.1| < |s|
  {
    if |s| > 1 && s[1] == '}' then Some((JObj([]), s[2..]))
    else
      match ParseMembers(s[1..])
      case None => None
      case Some((ms, rest)) => Some((JObj(ms), rest))
  }

  /** One or more comma-separated values and the closing ']'. */
  function ParseItems(s: string): (r: Option<(seq<Json>, string)>)
    decreases |s|, 2
    ensures r.Some? ==> |r.value.1| < |s|
  {
    match ParseValue(s)
    case None => None
    case Some((v, rest)) =>
      if |rest| > 0 && rest[0] == ']' then Some(([v], rest[1..]))
      else if |rest| > 0 && rest[0] == ',' then
        match ParseItems(rest[1..])
        case None => None
        case Some((vs, rest2)) => Some(([v] + vs, rest2))
      else None
  }

  /** One `"key":value` member. */
  function ParseMember(s: string): (r: Option<(Member, string)>)
    decreases |s|, 0
    ensures r.Some? ==> |r.value.1| < |s|
  {
    if s == [] || s[0] != '"' then None
    else
      match ParseString(s[1..])
      case None => None
      case Some((key, rest)) =>
        if rest == [] || rest[0] != ':' then None
        else
          match ParseValue(rest[1..])
          case None => None
          case Some((v, rest2)) => Some((Member(key, v), rest2))
  }

  /** One or more comma-separated members and the closing '}'. */
  function ParseMembers(s: string): (r: Option<(seq<Member>, string)>)
    decreases |s|, 2
    ensures r.Some? ==> |r.value.1| < |s|
  {
    match ParseMember(s)
    case None => None
    case Some((m, rest)) =>
      if |rest| > 0 && rest[0] == '}' then Some(([m], rest[1..]))
      else if |rest| > 0 && rest[0] == ',' then
        match ParseMembers(rest[1..])
        case None => None
        case Some((ms, rest2)) => Some(([m] + ms, rest2))
      else None
  }

  /** A whole text holding exactly one JSON value. */
  function Parse(s: string): Option<Json> {
    match ParseValue(s)
    case Some((j, rest)) => if rest == [] then Some(j) else None
    case None => None
  }

  // ---------------------------------------------------------------------
  // Round trip: the parser reads back what the encoder writes
  // ---------------------------------------------------------------------

  /** What may follow a value inside an enclosing text. */
  predicate Follows(rest: string) {
    rest == [] || rest[0] == ',' || rest[0] == ']' || rest[0] == '}'
  }

  lemma {:induction false} ParseStringRoundTrip(s: string, rest: string)
    requires ValidString(s)
    ensures ParseString(Escape(s) + "\"" + rest) == Some((s, rest))
  {
    if s == [] {
      assert Escape(s) + "\"" + rest == ['"'] + rest;
      SeqFacts.AfterFirst('"', rest);
    } else {
      var c := s[0];
      var e := EscapeChar(c);
      var tail := Escape(s[1..]) + "\"" + rest;
      ParseStringRoundTrip(s[1..], rest);
      assert ValidChar(c);
      EscapedSplit(s, rest);
      SeqFacts.Halves(e, tail);
      SeqFacts.FirstAndRest(s);
      EscapeCharParses(c, tail);
    }
  }

  /** The text of an escaped string is its first character's escape
      followed by the rest of the text. */
  lemma EscapedSplit(s: string, rest: string)
    requires s != []
    ensures Escape(s) + "\"" + rest == EscapeChar(s[0]) + (Escape(s[1..]) + "\"" + rest)
  {
    var e := EscapeChar(s[0]);
    var t := Escape(s[1..]);
    assert Escape(s) == e + t;
    SeqFacts.Assoc(e, t, "\"");
    SeqFacts.Assoc(e, t + "\"", rest);
  }

  /** One escaped character is read back, the rest of the text untouched. */
  lemma EscapeCharParses(c: char, tail: string)
    requires ValidChar(c)
    requires ParseString(tail).Some?
    ensures var e := EscapeChar(c); var r := ParseString(tail).value;
      ParseString(e + tail) == Some(([c] + r.0, r.1))
  {
    if c == '"' {
      EscapedParses('"', c, tail);
    } else if c == '\\' {
      EscapedParses('\\', c, tail);
    } else if c == '\n' {
      EscapedParses('n', c, tail);
    } else if c == '\r' {
      EscapedParses('r', c, tail);
    } else if c == '\t' {
      EscapedParses('t', c, tail);
    } else {
      PlainParses(c, tail);
    }
  }

  lemma EscapedParses(x: char, c: char, tail: string)
    requires Unescape(x) == Some(c) && ParseString(tail).Some?
    ensures var r := ParseString(tail).value;
      ParseString(['\\', x] + tail) == Some(([c] + r.0, r.1))
  {
    var t := ['\\', x] + tail;
    SeqFacts.Halves(['\\', x], tail);
    assert t[0] == '\\' && t[1] == x && t[2..] == tail;
  }

  lemma PlainParses(c: char, tail: string)
    requires c >= ' ' && c != '"' && c != '\\' && ParseString(tail).Some?
    ensures var r := ParseString(tail).value;
      ParseString([c] + tail) == Some(([c] + r.0, r.1))
  {
    SeqFacts.AfterFirst(c, tail);
  }

  lemma ParseFractionRoundTrip(neg: bool, w: string, f: string, rest: string)
    requires AllDigits(f) && Follows(rest)
    ensures ParseFraction(neg, w, FractionText(f) + rest) == Some((JNum(neg, w, f), rest))
  {
    var t := FractionText(f) + rest;
    if f == [] {
      assert t == rest;
      assert !(|t| > 0 && t[0] == '.');
    } else {
      SeqFacts.Assoc(".", f, rest);
      SeqFacts.AfterFirst('.', f + rest);
      assert t[1..] == f + rest;
      DigitRunOf(f, rest);
      SeqFacts.Halves(f, rest);
    }
  }

  lemma ParseUnsignedRoundTrip(neg: bool, w: string, f: string, rest: string)
    requires ValidNumber(w, f) && Follows(rest)
    ensures ParseUnsigned(neg, w + (FractionText(f) + rest)) == Some((JNum(neg, w, f), rest))
  {
    var t := w + (FractionText(f) + rest);
    if t[0] != '0' {
      assert FractionText(f) + rest == [] || !IsDigit((FractionText(f) + rest)[0]);
      DigitRunOf(w, FractionText(f) + rest);
    }
    var wl := if t[0] == '0' then 1 else DigitRun(t);
    assert wl == |w|;
    assert t[..wl] == w;
    assert t[wl..] == FractionText(f) + rest;
    ParseFractionRoundTrip(neg, w, f, rest);
  }

  lemma NumberTextSplit(neg: bool, w: string, f: string, rest: string)
    ensures NumberText(neg, w, f) + rest == (if neg then "-" else "") + (w + (FractionText(f) + rest))
  {
  }

  lemma ParseNegativeRoundTrip(w: string, f: string, rest: string)
    requires ValidNumber(w, f) && Follows(rest)
    ensures ParseNumber("-" + (w + (FractionText(f) + rest))) == Some((JNum(true, w, f), rest))
  {
    var t := w + (FractionText(f) + rest);
    ParseUnsignedRoundTrip(true, w, f, rest);
    assert ("-" + t)[1..] == t;
  }

  lemma ParseNumberRoundTrip(neg: bool, w: string, f: string, rest: string)
    requires ValidNumber(w, f) && Follows(rest)
    ensures ParseNumber(NumberText(neg, w, f) + rest) == Some((JNum(neg, w, f), rest))
  {
    NumberTextSplit(neg, w, f, rest);
    if neg {
      ParseNegativeRoundTrip(w, f, rest);
    } else {
      ParseUnsignedRoundTrip(false, w, f, rest);
      assert "" + (w + (FractionText(f) + rest)) == w + (FractionText(f) + rest);
    }
  }

  /** The digit run of `d + rest` is `d` when `rest` does not go on with a digit. */
  lemma DigitRunOf(d: string, rest: string)
    requires AllDigits(d) && (rest == [] || !IsDigit(rest[0]))
    ensures DigitRun(d + rest) == |d|
    decreases d
  {
    if d != [] {
      assert (d + rest)[1..] == d[1..] + rest;
      DigitRunOf(d[1..], rest);
    }
  }

  lemma {:induction false} ParseValueRoundTrip(j: Json, rest: string)
    requires Valid(j) && Follows(rest)
    ensures ParseValue(Encode(j) + rest) == Some((j, rest))
    decreases j, 2
  {
    var text := Encode(j) + rest;
    match j
    case JNull =>
      LiteralRoundTrip(j, rest);
    case JBool(_) =>
      LiteralRoundTrip(j, rest);
    case JNum(neg, w, f) =>
      ParseNumberRoundTrip(neg, w, f, rest);
      assert text[0] == if neg then '-' else w[0];
    case JStr(s) =>
      StringValueRoundTrip(s, rest);
    case JArr(items) =>
      ParseArrayRoundTrip(items, rest);
      assert text[0] == '[';
    case JObj(ms) =>
      ParseObjectRoundTrip(ms, rest);
      assert text[0] == '{';
  }

  lemma LiteralRoundTrip(j: Json, rest: string)
    requires j.JNull? || j.JBool?
    ensures ParseValue(Encode(j) + rest) == Some((j, rest))
  {
    var text := Encode(j) + rest;
    SeqFacts.Halves(Encode(j), rest);
    if j.JBool? && !j.b {
      assert text[..4][0] == 'f';
    }
    assert ParseLiteral(text) == Some((j, rest));
  }

  lemma StringValueRoundTrip(s: string, rest: string)
    requires ValidString(s)
    ensures ParseValue(Encode(JStr(s)) + rest) == Some((JStr(s), rest))
  {
    var text := Encode(JStr(s)) + rest;
    ParseStringRoundTrip(s, rest);
    assert text == ['"'] + (Escape(s) + "\"" + rest);
    SeqFacts.AfterFirst('"', Escape(s) + "\"" + rest);
    assert ParseStringValue(text) == Some((JStr(s), rest));
  }

  lemma {:induction false} ParseArrayRoundTrip(items: seq<Json>, rest: string)
    requires (forall i | 0 <= i < |items| :: Valid(items[i])) && Follows(rest)
    ensures ParseArray(Encode(JArr(items)) + rest) == Some((JArr(items), rest))
    decreases items, 1
  {
    var text := Encode(JArr(items)) + rest;
    if items == [] {
      assert text == "[]" + rest;
      assert text[2..] == rest;
    } else {
      ParseItemsRoundTrip(items, rest);
      SeqFacts.Enclosed('[', EncodeItems(items), "]", rest);
      EncodeStart(items[0]);
      EncodeItemsStart(items);
    }
  }

  lemma {:induction false} ParseObjectRoundTrip(ms: seq<Member>, rest: string)
    requires (forall i | 0 <= i < |ms| :: ValidString(ms[i].key) && Valid(ms[i].value)) && Follows(rest)
    ensures ParseObject(Encode(JObj(ms)) + rest) == Some((JObj(ms), rest))
    decreases ms, 1
  {
    var text := Encode(JObj(ms)) + rest;
    if ms == [] {
      assert text == "{}" + rest;
      assert text[2..] == rest;
    } else {
      ParseMembersRoundTrip(ms, rest);
      SeqFacts.Enclosed('{', EncodeMembers(ms), "}", rest);
      assert EncodeMember(ms[0])[0] == '"';
    }
  }

  /** No encoded value starts with a closing bracket. */
  lemma EncodeStart(j: Json)
    requires Valid(j)
    ensures |Encode(j)| > 0 && Encode(j)[0] != ']' && Encode(j)[0] != '}'
  {
    match j
    case JNum(neg, w, f) =>
      assert Encode(j)[0] == if neg then '-' else w[0];
    case _ =>
  }

  lemma EncodeItemsStart(items: seq<Json>)
    requires items != [] && Valid(items[0])
    ensures |EncodeItems(items)| > 0 && EncodeItems(items)[0] == Encode(items[0])[0]
  {
    EncodeStart(items[0]);
  }

  lemma {:induction false} ParseItemsRoundTrip(items: seq<Json>, rest: string)
    requires items != [] && (forall i | 0 <= i < |items| :: Valid(items[i])) && Follows(rest)
    ensures ParseItems(EncodeItems(items) + "]" + rest) == Some((items, rest))
    decreases items, 0
  {
    var v := items[0];
    if |items| == 1 {
      ParseValueRoundTrip(v, "]" + rest);
      assert EncodeItems(items) == Encode(v);
      SeqFacts.Assoc(Encode(v), "]", rest);
      SeqFacts.AfterFirst(']', rest);
      assert items == [v];
    } else {
      var tail := EncodeItems(items[1..]) + "]" + rest;
      ParseValueRoundTrip(v, "," + tail);
      ItemsTextSplit(items, rest);
      SeqFacts.AfterFirst(',', tail);
      ParseItemsRoundTrip(items[1..], rest);
      SeqFacts.FirstAndRest(items);
    }
  }

  lemma ItemsTextSplit(items: seq<Json>, rest: string)
    requires |items| > 1
    ensures EncodeItems(items) + "]" + rest == Encode(items[0]) + ("," + (EncodeItems(items[1..]) + "]" + rest))
  {
    var a := Encode(items[0]);
    var b := EncodeItems(items[1..]);
    assert EncodeItems(items) == a + "," + b;
    SeqFacts.Assoc4(a, ",", b, "]");
    SeqFacts.Assoc(a, "," + (b + "]"), rest);
    SeqFacts.Assoc(",", b + "]", rest);
  }

  lemma {:induction false} ParseMemberRoundTrip(m: Member, after: string)
    requires ValidString(m.key) && Valid(m.value) && Follows(after)
    ensures ParseMember(EncodeMember(m) + after) == Some((m, after))
    decreases m, 3
  {
    var valueText := Encode(m.value) + after;
    var text := EncodeMember(m) + after;
    MemberTextSplit(m, after);
    SeqFacts.AfterFirst('"', Escape(m.key) + "\"" + (":" + valueText));
    ParseStringRoundTrip(m.key, ":" + valueText);
    SeqFacts.AfterFirst(':', valueText);
    ParseValueRoundTrip(m.value, after);
  }

  lemma MemberTextSplit(m: Member, after: string)
    ensures EncodeMember(m) + after == ['"'] + (Escape(m.key) + "\"" + (":" + (Encode(m.value) + after)))
  {
    var k := Escape(m.key);
    var v := Encode(m.value);
    assert EncodeMember(m) == "\"" + k + "\"" + ":" + v;
    SeqFacts.Assoc4("\"" + k, "\"", ":", v);
    SeqFacts.Assoc("\"" + k, "\"" + (":" + v), after);
    SeqFacts.Assoc("\"", k, "\"" + (":" + v) + after);
    SeqFacts.Assoc(k + "\"", ":" + v, after);
    SeqFacts.Assoc(k, "\"", ":" + v + after);
    SeqFacts.Assoc(":", v, after);
  }

  lemma MembersTextSplit(ms: seq<Member>, rest: string)
    requires |ms| > 1
    ensures EncodeMembers(ms) + "}" + rest == EncodeMember(ms[0]) + ("," + (EncodeMembers(ms[1..]) + "}" + rest))
  {
    var a := EncodeMember(ms[0]);
    var b := EncodeMembers(ms[1..]);
    assert EncodeMembers(ms) == a + "," + b;
    SeqFacts.Assoc4(a, ",", b, "}");
    SeqFacts.Assoc(a, "," + (b + "}"), rest);
    SeqFacts.Assoc(",", b + "}", rest);
  }

  lemma {:induction false} ParseMembersRoundTrip(ms: seq<Member>, rest: string)
    requires ms != [] && (forall i | 0 <= i < |ms| :: ValidString(ms[i].key) && Valid(ms[i].value)) && Follows(rest)
    ensures ParseMembers(EncodeMembers(ms) + "}" + rest) == Some((ms, rest))
    decreases ms, 0
  {
    var m := ms[0];
    if |ms| == 1 {
      ParseMemberRoundTrip(m, "}" + rest);
      assert EncodeMembers(ms) == EncodeMember(m);
      SeqFacts.Assoc(EncodeMember(m), "}", rest);
      SeqFacts.AfterFirst('}', rest);
      assert ms == [m];
    } else {
      var tail := EncodeMembers(ms[1..]) + "}" + rest;
      ParseMemberRoundTrip(m, "," + tail);
      MembersTextSplit(ms, rest);
      SeqFacts.AfterFirst(',', tail);
      ParseMembersRoundTrip(ms[1..], rest);
      SeqFacts.FirstAndRest(ms);
    }
  }

  /** serde_json reads back every value its compact encoder writes. */
  lemma RoundTrip(j: Json)
    requires Valid(j)
    ensures Parse(Encode(j)) == Some(j)
  {
    ParseValueRoundTrip(j, []);
    assert Encode(j) + [] == Encode(j);
  }

  // ---------------------------------------------------------------------
  // Typed access, as serde's derived deserializers read a value
  // ---------------------------------------------------------------------

  /** The value of the first member called `key`. */
  function FieldOf(ms: seq<Member>, key: string): Option<Json> {
    if ms == [] then None
    else if ms[0].key == key then Some(ms[0].value)
    else FieldOf(ms[1..], key)
  }

  /** A lookup finds a member exactly when one has the key, and then it is
      the first such member. */
  lemma {:induction false} FieldOfFound(ms: seq<Member>, key: string)
    ensures FieldOf(ms, key).Some? <==> exists i :: 0 <= i < |ms| && ms[i].key == key
    ensures FieldOf(ms, key).Some? ==>
      exists i :: 0 <= i < |ms| && ms[i].key == key && ms[i].value == FieldOf(ms, key).value
                  && forall k :: 0 <= k < i ==> ms[k].key != key
  {
    if ms != [] && ms[0].key != key {
      FieldOfFound(ms[1..], key);
      assert forall i :: 1 <= i < |ms| ==> ms[i] == ms[1..][i - 1];
      if FieldOf(ms, key).Some? {
        var i :| 0 <= i < |ms[1..]| && ms[1..][i].key == key && ms[1..][i].value == FieldOf(ms, key).value
                 && forall k :: 0 <= k < i ==> ms[1..][k].key != key;
        assert ms[i + 1].key == key;
      } else {
        assert forall i :: 0 <= i < |ms| ==> ms[i].key != key;
      }
    }
  }

  /** A struct field: present only when the value is an object with that key. */
  function Field(j: Json, key: string): Option<Json> {
    if j.JObj? then FieldOf(j.members, key) else None
  }

  function AsString(j: Json): Option<string> {
    if j.JStr? then Some(j.s) else None
  }

  function AsBool(j: Json): Option<bool> {
    if j.JBool? then Some(j.b) else None
  }

  /** An integer literal: no sign, no fraction. */
  predicate IsUnsignedInteger(j: Json) {
    j.JNum? && !j.negative && j.fraction == [] && j.whole != [] && AllDigits(j.whole)
  }

  /** A `usize` field: a non-negative integer literal no larger than 2^64 - 1
      (a minus sign, even on zero, makes serde_json read a float). */
  function AsUsize(j: Json): (r: Option<nat>)
    ensures r.Some? ==> r.value <= USIZE_MAX
  {
    if IsUnsignedInteger(j) && DigitsValue(j.whole) <= USIZE_MAX then Some(DigitsValue(j.whole)) else None
  }

  /** A `u32` field. */
  function AsU32(j: Json): (r: Option<nat>)
    ensures r.Some? ==> r.value <= U32_MAX
  {
    if IsUnsignedInteger(j) && DigitsValue(j.whole) <= U32_MAX then Some(DigitsValue(j.whole)) else None
  }

  /** An `f64` field: any number literal, read as its exact decimal value. */
  function AsF64(j: Json): Option<real> {
    if j.JNum? && AllDigits(j.whole) && AllDigits(j.fraction) then
      Some(LiteralValue(j.negative, j.whole, j.fraction))
    else None
  }

  /** The exact value of a decimal literal `[-]whole[.fraction]`. */
  function LiteralValue(negative: bool, whole: string, fraction: string): real
    requires AllDigits(whole) && AllDigits(fraction)
  {
    var magnitude := DigitsValue(whole) as real + DigitsValue(fraction) as real / Pow10(|fraction|) as real;
    if negative then -magnitude else magnitude
  }

  /** A `Vec<String>` field. */
  function AsStringList(j: Json): (r: Option<seq<string>>)
    ensures r.Some? ==> j.JArr? && |r.value| == |j.items| && forall i :: 0 <= i < |j.items| ==> j.items[i] == JStr(r.value[i])
  {
    if j.JArr? && forall i :: 0 <= i < |j.items| ==> j.items[i].JStr? then
      Some(seq(|j.items|, i requires 0 <= i < |j.items| => j.items[i].s))
    else None
  }

  /** The JSON literal of a non-negative integer. */
  function NatJson(n: nat): Json {
    JNum(false, Decimal(n), [])
  }

  lemma NatJsonAsUsize(n: nat)
    requires n <= USIZE_MAX
    ensures AsUsize(NatJson(n)) == Some(n) && Valid(NatJson(n))
  {
    DecimalValue(n);
  }

  /** The JSON array of a list of strings. */
  function StringListJson(ss: seq<string>): (j: Json)
    ensures j.JArr? && |j.items| == |ss|
  {
    JArr(seq(|ss|, i requires 0 <= i < |ss| => JStr(ss[i])))
  }

  lemma StringListRoundTrip(ss: seq<string>)
    ensures AsStringList(StringListJson(ss)) == Some(ss)
  {
    var r := AsStringList(StringListJson(ss));
    assert r.Some?;
    assert r.value == ss;
  }

  /** A member is found when no earlier member has its key. */
  lemma {:induction false} FieldOfFirst(ms: seq<Member>, key: string, i: nat)
    requires i < |ms| && ms[i].key == key
    requires forall k :: 0 <= k < i ==> ms[k].key != key
    ensures FieldOf(ms, key) == Some(ms[i].value)
  {
    if i > 0 {
      FieldOfFirst(ms[1..], key, i - 1);
    }
  }

  /** No two members share a key. */
  predicate DistinctKeys(ms: seq<Member>) {
    forall a, b :: 0 <= a < b < |ms| ==> ms[a].key != ms[b].key
  }

  /** In an object without repeated keys every member is found by its key. */
  lemma FieldOfDistinct(ms: seq<Member>, i: nat)
    requires DistinctKeys(ms) && i < |ms|
    ensures FieldOf(ms, ms[i].key) == Some(ms[i].value)
  {
    FieldOfFirst(ms, ms[i].key, i);
  }

  /** The typed value of a struct field: `None` when the field is missing or
      has another type, which makes serde reject the whole struct. */
  function StringField(j: Json, key: string): Option<string> {
    match Field(j, key)
    case Some(v) => AsString(v)
    case None => None
  }

  function BoolField(j: Json, key: string): Option<bool> {
    match Field(j, key)
    case Some(v) => AsBool(v)
    case None => None
  }

  function UsizeField(j: Json, key: string): (r: Option<nat>)
    ensures r.Some? ==> r.value <= USIZE_MAX
  {
    match Field(j, key)
    case Some(v) => AsUsize(v)
    case None => None
  }

  function F64Field(j: Json, key: string): Option<real> {
    match Field(j, key)
    case Some(v) => AsF64(v)
    case None => None
  }

  predicate Integral(x: real) {
    x.Floor as real == x
  }

  /** The JSON literal of an integer, as a server writes a whole number. */
  function IntJson(i: int): Json {
    if i < 0 then JNum(true, Decimal(-i), []) else JNum(false, Decimal(i), [])
  }

  /** Every integer literal is writable. */
  lemma IntJsonValid(i: int)
    ensures Valid(IntJson(i))
  {
  }

  /** A whole number read as an `f64` from its integer literal. */
  lemma IntJsonAsF64(x: real)
    requires Integral(x)
    ensures AsF64(IntJson(x.Floor)) == Some(x) && Valid(IntJson(x.Floor))
  {
    var n: nat := if x < 0.0 then -x.Floor else x.Floor;
    DecimalValue(n);
    assert Pow10(0) == 1;
    assert LiteralValue(x < 0.0, Decimal(n), []) == if x < 0.0 then -(n as real) else n as real;
  }

  /** An object of two writable members is writable. */
  lemma ValidPair(k1: string, v1: Json, k2: string, v2: Json)
    requires ValidString(k1) && Valid(v1) && ValidString(k2) && Valid(v2)
    ensures Valid(JObj([Member(k1, v1), Member(k2, v2)]))
  {
    var ms := [Member(k1, v1), Member(k2, v2)];
    assert forall i | 0 <= i < |ms| :: ms[i] == Member(k1, v1) || ms[i] == Member(k2, v2);
  }

  /** An object is writable when its keys and its values are. */
  lemma ValidObject(ms: seq<Member>)
    requires forall i | 0 <= i < |ms| :: ValidString(ms[i].key)
    requires forall i | 0 <= i < |ms| :: Valid(ms[i].value)
    ensures Valid(JObj(ms))
  {
  }
}
