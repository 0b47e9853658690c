/** The auth service's duration setting parser: a decimal count followed
    by an optional unit letter (s, m, h or d, in either case), read as a
    number of seconds. */
module Duration {
  import opened Wrappers
  import opened Digits

  /** `Number.MAX_SAFE_INTEGER`, 2^53 - 1. */
  const MAX_SAFE_INTEGER: nat := 0x1F_FFFF_FFFF_FFFF

  /** The smallest integer that `Number` rounds to infinity,
      2^1024 - 2^970: halfway between the largest finite double and 2^1024. */
  const INFINITY_THRESHOLD: nat :=
    0xFFFFFFFFFFFFFC00_0000000000000000_0000000000000000_0000000000000000_0000000000000000_0000000000000000_0000000000000000_0000000000000000_0000000000000000_0000000000000000_0000000000000000_0000000000000000_0000000000000000_0000000000000000_0000000000000000_0000000000000000

  /** White space and line terminators as `String.prototype.trim` removes
      them. */
  predicate IsWhitespace(c: char) {
    c == ' ' || c == '\t' || c == '\n' || c == '\r' || c == '\U{000B}' || c == '\U{000C}'
    || c == '\U{00A0}' || c == '\U{FEFF}' || c == '\U{1680}' || ('\U{2000}' <= c <= '\U{200A}')
    || c == '\U{2028}' || c == '\U{2029}' || c == '\U{202F}' || c == '\U{205F}' || c == '\U{3000}'
  }

  /** `s` with its leading white space removed. */
  function TrimStart(s: string): (r: string)
    ensures |r| <= |s|
    ensures r == [] || !IsWhitespace(r[0])
    ensures forall i :: 0 <= i < |s| - |r| ==> IsWhitespace(s[i])
  {
    if s == [] || !IsWhitespace(s[0]) then s else TrimStart(s[1..])
  }

  /** `s` with its trailing white space removed. */
  function TrimEnd(s: string): (r: string)
    ensures |r| <= |s|
    ensures r == [] || !IsWhitespace(r[|r| - 1])
    ensures forall i :: |r| <= i < |s| ==> IsWhitespace(s[i])
  {
    if s == [] || !IsWhitespace(s[|s| - 1]) then s else TrimEnd(s[..|s| - 1])
  }

  /** What `TrimStart` leaves is a suffix of its input. */
  lemma {:induction false} TrimStartSuffix(s: string)
    ensures TrimStart(s) == s[|s| - |TrimStart(s)|..]
  {
    if s != [] && IsWhitespace(s[0]) {
      TrimStartSuffix(s[1..]);
    }
  }

  /** What `TrimEnd` leaves is a prefix of its input. */
  lemma {:induction false} TrimEndPrefix(s: string)
    ensures TrimEnd(s) == s[..|TrimEnd(s)|]
  {
    if s != [] && IsWhitespace(s[|s| - 1]) {
      TrimEndPrefix(s[..|s| - 1]);
    }
  }

  /** `trim()`. */
  function Trim(s: string): string {
    TrimStart(TrimEnd(s))
  }

  /** `toLowerCase()` on one character, for the ASCII letters. */
  function ToLowerAscii(c: char): char {
    if 'A' <= c <= 'Z' then (c as int + 32) as char else c
  }

  predicate IsLowerLetter(c: char) {
    'a' <= c <= 'z'
  }

  datatype DurationError =
    | EmptyDuration
    | InvalidNumberPart(numberPart: string)
    | InvalidNumber
    | UnknownUnit(unit: string)
    | SecondsOverflow

  /** The unit letters of the `UNIT` table. */
  predicate KnownUnit(u: char) {
    u == 's' || u == 'm' || u == 'h' || u == 'd'
  }

  /** The `UNIT` table: seconds per unit; the empty unit counts seconds. */
  function Multiplier(unit: string): Option<nat> {
    if unit == "" || unit == "s" then Some(1)
    else if unit == "m" then Some(60)
    else if unit == "h" then Some(3600)
    else if unit == "d" then Some(86400)
    else None
  }

  /** The unit (a lower-cased final letter, or none) and the number part
      of a trimmed, non-empty duration. */
  function SplitUnit(s: string): (string, string)
    requires s != []
  {
    var last := ToLowerAscii(s[|s| - 1]);
    if IsLowerLetter(last) then ([last], Trim(s[..|s| - 1])) else ([], s)
  }

  /** The number part as `Number` reads it, after the digits-only check. */
  function ReadCount(numberPart: string): Result<nat, DurationError> {
    if numberPart == [] || !AllDigits(numberPart) then Err(InvalidNumberPart(numberPart))
    else if DigitsValue(numberPart) >= INFINITY_THRESHOLD then Err(InvalidNumber)
    else Ok(DigitsValue(numberPart))
  }

  /** The count in seconds, refused when it is not a safe integer. */
  function Scale(n: nat, unit: string): (r: Result<nat, DurationError>)
    ensures r.Ok? ==> r.value <= MAX_SAFE_INTEGER
  {
    match Multiplier(unit)
    case None => Err(UnknownUnit(unit))
    case Some(mult) =>
      var seconds := n * mult;
      if seconds > MAX_SAFE_INTEGER then Err(SecondsOverflow) else Ok(seconds)
  }

  /** `parseDurationToSec`. Counts are read exactly: a count `Number`
      rounds to infinity is refused, and any other count or product above
      `MAX_SAFE_INTEGER` is one the source refuses as well. */
  function ParseDurationToSec(input: string): (r: Result<nat, DurationError>)
    ensures r.Ok? ==> r.value <= MAX_SAFE_INTEGER
  {
    ParseTrimmed(Trim(input))
  }

  /** The parse after the trim. */
  function ParseTrimmed(s: string): (r: Result<nat, DurationError>)
    ensures r.Ok? ==> r.value <= MAX_SAFE_INTEGER
  {
    if s == [] then Err(EmptyDuration)
    else
      var (unit, numberPart) := SplitUnit(s);
      match ReadCount(numberPart)
      case Err(e) => Err(e)
      case Ok(n) => Scale(n, unit)
  }

  // ---------------------------------------------------------------------
  // Properties
  // ---------------------------------------------------------------------

  /** A duration is refused as empty exactly when it is all white space. */
  lemma EmptyIffBlank(input: string)
    ensures ParseDurationToSec(input) == Err(EmptyDuration) <==> forall i :: 0 <= i < |input| ==> IsWhitespace(input[i])
  {
    var t := Trim(input);
    assert ParseTrimmed(t) == Err(EmptyDuration) <==> t == [];
    TrimEmptyIffBlank(input);
  }

  /** `trim()` leaves nothing exactly of a text that is all white space. */
  lemma TrimEmptyIffBlank(input: string)
    ensures Trim(input) == [] <==> forall i :: 0 <= i < |input| ==> IsWhitespace(input[i])
  {
    TrimEndPrefix(input);
    if forall i :: 0 <= i < |input| ==> IsWhitespace(input[i]) {
      assert TrimEnd(input) == [];
    } else {
      var k :| 0 <= k < |input| && !IsWhitespace(input[k]);
      var e := TrimEnd(input);
      assert k < |e|;
      assert e[k] == input[k];
    }
  }

  /** Appending a non-space character commutes with trimming the front. */
  lemma {:induction false} TrimStartAppend(d: string, c: char)
    requires !IsWhitespace(c)
    ensures TrimStart(d + [c]) == TrimStart(d) + [c]
  {
    if d != [] && IsWhitespace(d[0]) {
      assert (d + [c])[1..] == d[1..] + [c];
      TrimStartAppend(d[1..], c);
    }
  }

  /** Text without white space is its own trim. */
  lemma TrimNoSpace(s: string)
    requires forall i :: 0 <= i < |s| ==> !IsWhitespace(s[i])
    ensures Trim(s) == s
  {
  }

  /** Trimming text that ends in a letter trims only its front. */
  lemma TrimAppendLetter(d: string, c: char)
    requires 'A' <= c <= 'Z' || IsLowerLetter(c)
    ensures Trim(d + [c]) == TrimStart(d) + [c]
  {
    assert TrimEnd(d + [c]) == d + [c];
    TrimStartAppend(d, c);
  }

  /** The split lower-cases the unit letter. */
  lemma SplitCaseless(p: string, c: char)
    requires 'A' <= c <= 'Z'
    ensures SplitUnit(p + [c]) == SplitUnit(p + [ToLowerAscii(c)]) == ([ToLowerAscii(c)], Trim(p))
  {
    assert (p + [c])[..|p|] == p == (p + [ToLowerAscii(c)])[..|p|];
  }

  /** The parse depends only on the trimmed text's unit and number part. */
  lemma ParseBySplit(x: string, y: string)
    requires x != [] && y != [] && SplitUnit(x) == SplitUnit(y)
    ensures ParseTrimmed(x) == ParseTrimmed(y)
  {
  }

  /** The unit letter is read in either case: an upper-case unit gives what
      the lower-case one gives. */
  lemma UnitCaseInsensitive(d: string, c: char)
    requires 'A' <= c <= 'Z'
    ensures ParseDurationToSec(d + [c]) == ParseDurationToSec(d + [ToLowerAscii(c)])
  {
    var lc := ToLowerAscii(c);
    var p := TrimStart(d);
    assert ParseDurationToSec(d + [c]) == ParseTrimmed(p + [c]) by {
      TrimAppendLetter(d, c);
    }
    assert ParseDurationToSec(d + [lc]) == ParseTrimmed(p + [lc]) by {
      TrimAppendLetter(d, lc);
    }
    assert ParseTrimmed(p + [c]) == ParseTrimmed(p + [lc]) by {
      SplitCaseless(p, c);
      ParseBySplit(p + [c], p + [lc]);
    }
  }

  /** Digits are not white space. */
  lemma DigitsNoSpace(d: string)
    requires AllDigits(d)
    ensures forall i :: 0 <= i < |d| ==> !IsWhitespace(d[i])
  {
    forall i | 0 <= i < |d|
      ensures !IsWhitespace(d[i])
    {
      assert IsDigit(d[i]);
    }
  }

  /** Decimal text is never white space. */
  lemma TrimDecimal(n: nat)
    ensures Trim(Decimal(n)) == Decimal(n)
  {
    var d := Decimal(n);
    DigitsNoSpace(d);
    TrimNoSpace(d);
  }

  /** A decimal count followed by a letter is its own trim, and splits
      into that letter and the count. */
  lemma SplitDecimal(n: nat, u: char)
    requires IsLowerLetter(u)
    ensures Trim(Decimal(n) + [u]) == Decimal(n) + [u]
    ensures SplitUnit(Decimal(n) + [u]) == ([u], Decimal(n))
  {
    var t := Decimal(n) + [u];
    assert forall i :: 0 <= i < |t| ==> !IsWhitespace(t[i]);
    TrimNoSpace(t);
    assert t[..|t| - 1] == Decimal(n);
    TrimDecimal(n);
  }

  /** The count of a decimal text below the infinity threshold is read
      exactly. */
  lemma ReadDecimal(n: nat)
    requires n <= MAX_SAFE_INTEGER
    ensures ReadCount(Decimal(n)) == Ok(n)
  {
    DecimalValue(n);
  }

  /** The canonical text of a count with a known unit reads back as the
      count times the unit's seconds, as long as that is a safe integer. */
  lemma CanonicalDuration(n: nat, u: char)
    requires KnownUnit(u)
    requires n * Multiplier([u]).value <= MAX_SAFE_INTEGER
    ensures ParseDurationToSec(Decimal(n) + [u]) == Ok(n * Multiplier([u]).value)
  {
    var t := Decimal(n) + [u];
    assert ParseDurationToSec(t) == ParseTrimmed(t) by {
      SplitDecimal(n, u);
    }
    assert ParseTrimmed(t) == Scale(n, [u]) by {
      SplitDecimal(n, u);
      ReadDecimal(n);
      ParseOfSplit(t, [u], Decimal(n), n);
    }
    assert Scale(n, [u]) == Ok(n * Multiplier([u]).value);
  }

  /** The parse of a text that is its own trim, given its split and its
      count. */
  lemma ParseOfSplit(t: string, unit: string, numberPart: string, n: nat)
    requires t != [] && SplitUnit(t) == (unit, numberPart) && ReadCount(numberPart) == Ok(n)
    ensures ParseTrimmed(t) == Scale(n, unit)
  {
  }

  /** A bare count is a number of seconds. */
  lemma CanonicalSeconds(n: nat)
    requires n <= MAX_SAFE_INTEGER
    ensures ParseDurationToSec(Decimal(n)) == Ok(n)
  {
    TrimDecimal(n);
    ReadDecimal(n);
  }

  /** Any other letter is an unknown unit. */
  lemma UnknownUnitRefused(n: nat, u: char)
    requires IsLowerLetter(u) && !KnownUnit(u)
    requires n <= MAX_SAFE_INTEGER
    ensures ParseDurationToSec(Decimal(n) + [u]) == Err(UnknownUnit([u]))
  {
    SplitDecimal(n, u);
    ReadDecimal(n);
  }

  /** A product beyond the safe integers is refused as an overflow. */
  lemma OverflowRefused(n: nat, u: char)
    requires KnownUnit(u)
    requires n <= MAX_SAFE_INTEGER && n * Multiplier([u]).value > MAX_SAFE_INTEGER
    ensures ParseDurationToSec(Decimal(n) + [u]) == Err(SecondsOverflow)
  {
    SplitDecimal(n, u);
    ReadDecimal(n);
  }

  // ---------------------------------------------------------------------
  // The shape of an accepted duration
  // ---------------------------------------------------------------------

  predicate Blank(b: string) {
    forall i :: 0 <= i < |b| ==> IsWhitespace(b[i])
  }

  /** A letter of either case, which the parser takes as a unit. */
  predicate IsUnitLetter(c: char) {
    IsLowerLetter(ToLowerAscii(c))
  }

  /** A trimmed duration that is a bare count. */
  predicate CountForm(t: string) {
    t != [] && AllDigits(t)
  }

  /** A trimmed duration that is a count of `j` digits, then white space,
      then a unit letter. */
  predicate UnitForm(t: string, j: int) {
    0 < j < |t| && AllDigits(t[..j]) && Blank(t[j..|t| - 1]) && IsUnitLetter(t[|t| - 1])
  }

  /** `trim()` removes white space on both sides and keeps what lies
      between. */
  lemma TrimInfix(s: string)
    ensures var t := Trim(s);
      var lead := |TrimEnd(s)| - |t|;
      0 <= lead && lead + |t| <= |s|
      && Blank(s[..lead]) && s[lead..lead + |t|] == t && Blank(s[lead + |t|..])
  {
    var e := TrimEnd(s);
    TrimEndPrefix(s);
    TrimStartSuffix(e);
  }

  /** Trailing white space after a text that does not end in white space
      is exactly what `TrimEnd` removes. */
  lemma {:induction false} TrimEndBlankSuffix(d: string, b: string)
    requires d != [] && !IsWhitespace(d[|d| - 1]) && Blank(b)
    ensures TrimEnd(d + b) == d
  {
    if b == [] {
      assert d + b == d;
    } else {
      assert (d + b)[..|d + b| - 1] == d + b[..|b| - 1];
      TrimEndBlankSuffix(d, b[..|b| - 1]);
    }
  }

  /** For a trimmed text ending in a letter, the number part (the text
      before the letter, trimmed) is a count exactly when the text has
      the unit form, and then it is the count's digits. */
  lemma UnitNumberPart(t: string)
    requires t != [] && Trim(t) == t && IsUnitLetter(t[|t| - 1])
    ensures var np := Trim(t[..|t| - 1]);
      (np != [] && AllDigits(np)) <==> exists j :: UnitForm(t, j)
    ensures forall j :: UnitForm(t, j) ==> Trim(t[..|t| - 1]) == t[..j]
  {
    var p := t[..|t| - 1];
    var np := Trim(p);
    assert !IsWhitespace(t[0]) by {
      assert t == Trim(t);
    }
    forall j | UnitForm(t, j) ensures np == t[..j] {
      assert IsDigit(t[..j][j - 1]);
      assert p == t[..j] + t[j..|t| - 1];
      TrimEndBlankSuffix(t[..j], t[j..|t| - 1]);
      assert TrimStart(t[..j]) == t[..j] by {
        assert IsDigit(t[..j][0]);
      }
    }
    if np != [] && AllDigits(np) {
      var e := TrimEnd(p);
      TrimEndPrefix(p);
      assert e != [];
      assert e[0] == t[0];
      assert np == e;
      assert UnitForm(t, |e|) by {
        assert t[..|e|] == e;
        assert t[|e|..|t| - 1] == p[|e|..];
      }
    }
  }

  /** A duration is refused for its number part exactly when its trimmed
      text is neither a bare count nor a count followed by a unit letter. */
  lemma NumberPartRefused(input: string)
    ensures var r := ParseDurationToSec(input);
      var t := Trim(input);
      (r.Err? && r.error.InvalidNumberPart?) <==> t != [] && !CountForm(t) && !exists j :: UnitForm(t, j)
  {
    var t := Trim(input);
    if t != [] {
      assert Trim(t) == t by {
        TrimTwice(input);
      }
      if IsUnitLetter(t[|t| - 1]) {
        UnitNumberPart(t);
        assert !IsDigit(t[|t| - 1]);
      } else {
        assert forall j :: !UnitForm(t, j);
      }
    }
  }

  /** Every accepted duration is, once trimmed, a bare count of seconds or
      a count followed, maybe after white space, by s, m, h or d in either
      case; its value is the count times the unit's seconds. */
  lemma AcceptedShape(input: string)
    requires ParseDurationToSec(input).Ok?
    ensures var t := Trim(input);
      var v := ParseDurationToSec(input).value;
      (CountForm(t) && v == DigitsValue(t))
      || (exists j :: UnitForm(t, j) && KnownUnit(ToLowerAscii(t[|t| - 1]))
                      && v == DigitsValue(t[..j]) * Multiplier([ToLowerAscii(t[|t| - 1])]).value)
  {
    var t := Trim(input);
    assert Trim(t) == t by {
      TrimTwice(input);
    }
    if IsUnitLetter(t[|t| - 1]) {
      UnitNumberPart(t);
      var j :| UnitForm(t, j);
      assert Trim(t[..|t| - 1]) == t[..j];
    }
  }

  /** `trim()` of a trimmed text changes nothing. */
  lemma TrimTwice(s: string)
    ensures Trim(Trim(s)) == Trim(s)
  {
    var t := Trim(s);
    if t != [] {
      assert !IsWhitespace(t[0]);
      TrimEndPrefix(s);
      TrimStartSuffix(TrimEnd(s));
      assert !IsWhitespace(t[|t| - 1]) by {
        var e := TrimEnd(s);
        assert t == e[|e| - |t|..];
        assert t[|t| - 1] == e[|e| - 1];
      }
      assert TrimEnd(t) == t;
    }
  }
}
