/** Character classes and scanning primitives for the field patterns of
    `extract_cheque_info`, read with Python `re` semantics for `str`
    patterns.

    `\d` and `\w` are the ASCII classes, case-insensitive comparison folds
    ASCII letters only, and `\s` is Python's full whitespace set (the
    characters for which `str.isspace()` holds). */
module Text {

  predicate IsDigit(ch: char) {
    '0' <= ch <= '9'
  }

  predicate IsAsciiLetter(ch: char) {
    'a' <= ch <= 'z' || 'A' <= ch <= 'Z'
  }

  /** `\w`, and the notion of word character behind `\b`. */
  predicate IsWord(ch: char) {
    IsAsciiLetter(ch) || IsDigit(ch) || ch == '_'
  }

  /** `\s`: tab to carriage return, the four information separators, space,
      next line, no-break space, the Unicode space separators and the line
      and paragraph separators. */
  predicate IsSpace(ch: char) {
    ('\t' <= ch <= '\r') || ('\U{1c}' <= ch <= '\U{1f}') || ch == ' '
    || ch == '\U{85}' || ch == '\U{a0}' || ch == '\U{1680}'
    || ('\U{2000}' <= ch <= '\U{200a}') || ch == '\U{2028}' || ch == '\U{2029}'
    || ch == '\U{202f}' || ch == '\U{205f}' || ch == '\U{3000}'
  }

  /** ASCII lower-casing, used for case-insensitive literals. */
  function Lower(ch: char): (r: char)
    ensures IsAsciiLetter(ch) ==> 'a' <= r <= 'z'
    ensures 'A' <= ch <= 'Z' ==> r as int == ch as int + 32
    ensures !('A' <= ch <= 'Z') ==> r == ch
  {
    if 'A' <= ch <= 'Z' then (ch as int + 32) as char else ch
  }

  /** The character sets used inside the field patterns. */
  datatype Class =
    | Digit              // \d
    | Space              // \s
    | ColonOrSpace       // [:\s]
    | LetterSpaceOrDash  // [a-zA-Z\s-]
    | NotNewline         // .  (no DOTALL)

  predicate In(cl: Class, ch: char) {
    match cl
    case Digit => IsDigit(ch)
    case Space => IsSpace(ch)
    case ColonOrSpace => ch == ':' || IsSpace(ch)
    case LetterSpaceOrDash => IsAsciiLetter(ch) || IsSpace(ch) || ch == '-'
    case NotNewline => ch != '\n'
  }

  /** Every character of `s[a..b]` is in `cl`. */
  predicate AllIn(cl: Class, s: string, a: int, b: int) {
    0 <= a <= b <= |s| && forall k :: a <= k < b ==> In(cl, s[k])
  }

  /** Length of the longest run of `cl` characters starting at `i`: what a
      greedy `cl*` consumes there. */
  function RunOf(cl: Class, s: string, i: nat): (n: nat)
    requires i <= |s|
    ensures i + n <= |s| && AllIn(cl, s, i, i + n)
    ensures i + n == |s| || !In(cl, s[i + n])
    decreases |s| - i
  {
    if i < |s| && In(cl, s[i]) then 1 + RunOf(cl, s, i + 1) else 0
  }

  /** No run of `cl` from `i` is longer than `RunOf`. */
  lemma RunBound(cl: Class, s: string, i: nat, j: int)
    requires i <= |s| && AllIn(cl, s, i, j)
    ensures j <= i + RunOf(cl, s, i)
  {
  }

  /** A run that is followed by a character outside `cl` (or the end) is the
      longest one. */
  lemma RunEnds(cl: Class, s: string, i: nat, j: int)
    requires i <= |s| && AllIn(cl, s, i, j) && (j == |s| || !In(cl, s[j]))
    ensures RunOf(cl, s, i) == j - i
  {
    RunBound(cl, s, i, j);
  }

  predicate WordBefore(s: string, i: int) {
    0 < i <= |s| && IsWord(s[i - 1])
  }

  predicate WordAt(s: string, i: int) {
    0 <= i < |s| && IsWord(s[i])
  }

  /** `\b` at position `i`: exactly one of the neighbours is a word character
      (outside the text counts as a non-word character). */
  predicate AtBoundary(s: string, i: int) {
    0 <= i <= |s| && WordBefore(s, i) != WordAt(s, i)
  }

  /** The literal `lit`, given in lower case, occurs case-insensitively at `i`. */
  predicate CiAt(s: string, i: int, lit: string) {
    0 <= i && i + |lit| <= |s| && forall k :: 0 <= k < |lit| ==> Lower(s[i + k]) == lit[k]
  }
}
