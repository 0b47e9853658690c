/** Terminal input as the CLI's pages see it: crossterm events reduced to
    the keys the pages react to, the ASCII character classes they test,
    and the single-line text input they edit. */
module Keys {
  /** The key codes the pages distinguish; every other key is `OtherKey`. */
  datatype KeyCode = Esc | Char(c: char) | Backspace | Tab | Enter | Up | Down | OtherKey

  /** A terminal event: a key press, a resize, or anything else (mouse,
      focus, paste). */
  datatype Event = Key(code: KeyCode) | Resize | OtherEvent

  /** `char::is_ascii_graphic`: '!' through '~'. */
  predicate IsAsciiGraphic(c: char) {
    '!' <= c <= '~'
  }

  /** `char::is_ascii_digit`. */
  predicate IsAsciiDigit(c: char) {
    '0' <= c <= '9'
  }

  predicate IsAsciiUpper(c: char) {
    'A' <= c <= 'Z'
  }

  /** `char::is_ascii_alphanumeric`. */
  predicate IsAsciiAlphanumeric(c: char) {
    IsAsciiDigit(c) || IsAsciiUpper(c) || 'a' <= c <= 'z'
  }

  /** `char::to_ascii_uppercase`: lower-case ASCII letters are mapped, every
      other character is kept. */
  function ToAsciiUppercase(c: char): (u: char)
    ensures IsAsciiAlphanumeric(c) ==> IsAsciiAlphanumeric(u) && !('a' <= u <= 'z')
    ensures !('a' <= c <= 'z') ==> u == c
  {
    if 'a' <= c <= 'z' then (c as int - 32) as char else c
  }

  /** The text input after a backspace with the cursor at the end: the last
      character goes, an empty input stays empty. */
  function Backspaced(s: string): (r: string)
    ensures |s| > 0 ==> r == s[..|s| - 1]
    ensures |s| == 0 ==> r == s
  {
    if |s| == 0 then s else s[..|s| - 1]
  }

  predicate AllAsciiGraphic(s: string) {
    forall i | 0 <= i < |s| :: IsAsciiGraphic(s[i])
  }
}
