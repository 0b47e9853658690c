/** The frame codec of the CLI's Socket.IO client: a text frame is a decimal
    packet code (Engine.IO and Socket.IO packet types fused, e.g. "0", "40",
    "42", "44") immediately followed by a JSON object or array. */
module FrameCodec {
  import opened Wrappers
  import opened Digits

  /** Engine.IO "open". */
  const OPEN: nat := 0
  /** Engine.IO "message" + Socket.IO "CONNECT". */
  const CONNECT: nat := 40
  /** Engine.IO "message" + Socket.IO "EVENT". */
  const EVENT: nat := 42
  /** Engine.IO "message" + Socket.IO "CONNECT_ERROR". */
  const CONNECT_ERROR: nat := 44
  /** Engine.IO ping and pong: bare texts without a JSON body. */
  const PING: string := "2"
  const PONG: string := "3"

  predicate IsBracket(c: char) {
    c == '{' || c == '['
  }

  predicate NoBracket(s: string) {
    forall i :: 0 <= i < |s| ==> !IsBracket(s[i])
  }

  /** `str::find(['{', '['])`: the index of the first opening bracket. */
  function FindBracket(s: string): (r: Option<nat>)
    ensures r.Some? ==> r.value < |s| && IsBracket(s[r.value]) && NoBracket(s[..r.value])
    ensures r.None? ==> NoBracket(s)
  {
    if s == [] then None
    else if IsBracket(s[0]) then Some(0)
    else
      match FindBracket(s[1..])
      case None => None
      case Some(i) =>
        assert s[..i + 1] == [s[0]] + s[1..][..i];
        Some(i + 1)
  }

  /** `str::parse::<usize>`: an optional '+', then one or more ASCII digits
      whose value does not overflow 64 bits. */
  function ParseUsize(s: string): (r: Option<nat>)
    ensures r.Some? ==> r.value <= USIZE_MAX
  {
    var digits := if |s| > 0 && s[0] == '+' then s[1..] else s;
    if digits == [] || !AllDigits(digits) || DigitsValue(digits) > USIZE_MAX then None
    else Some(DigitsValue(digits))
  }

  /** Splits a text frame into its packet code and JSON text (`split_code_json`). */
  function SplitCodeJson(response: string): (r: Option<(nat, string)>)
    ensures r.Some? ==>
      var p := |response| - |r.value.1|;
      0 < p < |response| && response[p..] == r.value.1 && IsBracket(response[p])
      && NoBracket(response[..p]) && ParseUsize(response[..p]) == Some(r.value.0)
  {
    match FindBracket(response)
    case None => None
    case Some(pos) =>
      if pos == 0 then None
      else
        match ParseUsize(response[..pos])
        case None => None
        case Some(code) => Some((code, response[pos..]))
  }

  /** The frame the client writes: the code's decimal text, then the JSON. */
  function Frame(code: nat, json: string): string {
    Decimal(code) + json
  }

  // ---------------------------------------------------------------------
  // Properties
  // ---------------------------------------------------------------------

  /** The three ways a text fails to split: no bracket at all, a bracket
      first, or a prefix before the first bracket that is not a usize. */
  lemma SplitCodeJsonFails(s: string)
    ensures SplitCodeJson(s).None? <==>
      NoBracket(s)
      || (|s| > 0 && IsBracket(s[0]))
      || (exists p :: 0 < p < |s| && IsBracket(s[p]) && NoBracket(s[..p]) && ParseUsize(s[..p]).None?)
  {
    match FindBracket(s)
    case None =>
    case Some(pos) =>
      forall p | 0 <= p < |s| && IsBracket(s[p]) && NoBracket(s[..p])
        ensures p == pos
      {
      }
  }

  /** A prefix without brackets is skipped by the search. */
  lemma {:induction false} FindBracketAfter(prefix: string, json: string)
    requires NoBracket(prefix) && |json| > 0 && IsBracket(json[0])
    ensures FindBracket(prefix + json) == Some(|prefix|)
  {
    if prefix != [] {
      assert (prefix + json)[1..] == prefix[1..] + json;
      FindBracketAfter(prefix[1..], json);
    }
  }

  /** Every usize reads back from its decimal text. */
  lemma ParseUsizeDecimal(n: nat)
    requires n <= USIZE_MAX
    ensures ParseUsize(Decimal(n)) == Some(n)
  {
    DecimalValue(n);
  }

  /** Round trip: splitting a frame the client writes gives back its code
      and its JSON text. */
  lemma SplitFrameRoundTrip(code: nat, json: string)
    requires code <= USIZE_MAX && |json| > 0 && IsBracket(json[0])
    ensures SplitCodeJson(Frame(code, json)) == Some((code, json))
  {
    var d := Decimal(code);
    FindBracketAfter(d, json);
    assert (d + json)[..|d|] == d && (d + json)[|d|..] == json;
    ParseUsizeDecimal(code);
  }

  /** The literal prefixes the client and server use are the decimal codes. */
  lemma FramePrefixes()
    ensures Decimal(OPEN) == "0" && Decimal(CONNECT) == "40"
    ensures Decimal(EVENT) == "42" && Decimal(CONNECT_ERROR) == "44"
  {
  }

  /** The bare keep-alive texts never split as framed packets. */
  lemma KeepAliveIsNotFramed()
    ensures SplitCodeJson(PING).None? && SplitCodeJson(PONG).None?
  {
    assert NoBracket(PING) && NoBracket(PONG);
  }
}
