/**
 * Strings as the engine's JavaScript sees them: the `\s` and `\w` character
 * classes, ASCII case folding, case-insensitive literal patterns framed by
 * `\b`, global (non-overlapping) match lists, and the few string utilities
 * (split into words and sentences, `trim`, `join`, number formatting) that
 * the analysers use.
 */
module Text {

  /** JavaScript's `\s`; also the set `String.prototype.trim` strips. */
  predicate IsSpace(c: char) {
    c == ' ' || c == '\t' || c == '\n' || c == '\r' || c == '\U{B}' || c == '\U{C}'
    || c == '\U{A0}' || c == '\U{1680}' || ('\U{2000}' <= c <= '\U{200A}')
    || c == '\U{2028}' || c == '\U{2029}' || c == '\U{202F}' || c == '\U{205F}'
    || c == '\U{3000}' || c == '\U{FEFF}'
  }

  predicate IsDigit(c: char) { '0' <= c <= '9' }

  /** JavaScript's `\w`. */
  predicate IsWordChar(c: char) { 'a' <= c <= 'z' || 'A' <= c <= 'Z' || IsDigit(c) || c == '_' }

  function LowerChar(c: char): char {
    if 'A' <= c <= 'Z' then (c as int + 32) as char else c
  }

  function UpperChar(c: char): char {
    if 'a' <= c <= 'z' then (c as int - 32) as char else c
  }

  /** `toLowerCase()`, restricted to ASCII letters. */
  function Lower(s: string): string {
    seq(|s|, i requires 0 <= i < |s| => LowerChar(s[i]))
  }

  /** The end of the run of characters satisfying `p` that starts at `j`. */
  function RunEnd(text: string, j: nat, p: char -> bool): (e: nat)
    requires j <= |text|
    ensures j <= e <= |text|
    ensures forall m :: j <= m < e ==> p(text[m])
    ensures e < |text| ==> !p(text[e])
    decreases |text| - j
  {
    if j < |text| && p(text[j]) then RunEnd(text, j + 1, p) else j
  }

  /** A string with no character that `trim()` would strip everywhere: `!s.trim()`. */
  predicate IsBlank(s: string) {
    forall i :: 0 <= i < |s| ==> IsSpace(s[i])
  }

  // ---------------------------------------------------------------------------
  // Literal patterns. Every pattern of the engine carries the `i` flag, so a
  // literal character matches both of its ASCII cases.

  datatype Atom =
    | Ch(c: char)        // a literal character, matched case-insensitively
    | Digit              // `\d`
    | Space              // `\s`
    | SpaceOrHyphen      // `[\s-]`
    | AnyChar            // `.`: any character but a line terminator

  type Pattern = seq<Atom>

  function Literal(s: string): (p: Pattern)
    ensures |p| == |s|
  {
    seq(|s|, i requires 0 <= i < |s| => Ch(s[i]))
  }

  predicate AtomMatches(a: Atom, c: char) {
    match a
    case Ch(d) => LowerChar(c) == LowerChar(d)
    case Digit => IsDigit(c)
    case Space => IsSpace(c)
    case SpaceOrHyphen => IsSpace(c) || c == '-'
    case AnyChar => c != '\n' && c != '\r' && c != '\U{2028}' && c != '\U{2029}'
  }

  /** `p` matches the characters of `text` starting at `i`. */
  predicate MatchesAt(text: string, i: nat, p: Pattern) {
    i + |p| <= |text| && forall k :: 0 <= k < |p| ==> AtomMatches(p[k], text[i + k])
  }

  /** `text.toLowerCase().includes(needle.toLowerCase())` (ASCII case folding). */
  predicate ContainsCI(text: string, needle: string) {
    exists i: nat :: i <= |text| && MatchesAt(text, i, Literal(needle))
  }

  /** `text.toLowerCase().startsWith(prefix.toLowerCase())`. */
  predicate StartsWithCI(text: string, prefix: string) {
    MatchesAt(text, 0, Literal(prefix))
  }

  predicate WordCharAt(text: string, j: int) {
    0 <= j < |text| && IsWordChar(text[j])
  }

  /** The assertion `\b` holds between positions `i - 1` and `i`. */
  predicate BoundaryAt(text: string, i: int) {
    WordCharAt(text, i - 1) != WordCharAt(text, i)
  }

  /**
   * Length of the match at `i` of the alternation `alts` (tried left to right,
   * as a backtracking regex engine does), framed by `\b` on both sides when
   * `bounded`; 0 when no alternative matches there.
   */
  function AltMatchAt(text: string, i: nat, alts: seq<Pattern>, bounded: bool): (n: nat)
    ensures n > 0 ==> i + n <= |text|
  {
    if |alts| == 0 then 0
    else if MatchesAt(text, i, alts[0])
      && (!bounded || (BoundaryAt(text, i) && BoundaryAt(text, i + |alts[0]|)))
    then |alts[0]|
    else AltMatchAt(text, i, alts[1..], bounded)
  }

  /**
   * The substrings `text.match(re)` returns, scanning from `i`, for a global
   * regular expression `re` that is the alternation `alts`: leftmost match first,
   * and the next search resumes where the previous match ended.
   */
  function MatchesFrom(text: string, alts: seq<Pattern>, bounded: bool, i: nat): seq<string>
    decreases |text| - i
  {
    if i >= |text| then []
    else
      var n := AltMatchAt(text, i, alts, bounded);
      if n > 0 then [text[i..i + n]] + MatchesFrom(text, alts, bounded, i + n)
      else MatchesFrom(text, alts, bounded, i + 1)
  }

  /** `(text.match(re) || []).length` for the global alternation `alts`. */
  function CountMatches(text: string, alts: seq<Pattern>, bounded: bool): nat {
    |MatchesFrom(text, alts, bounded, 0)|
  }

  /** `re.test(text)` for the alternation `alts`. */
  predicate Test(text: string, alts: seq<Pattern>, bounded: bool) {
    exists i: nat :: i < |text| && AltMatchAt(text, i, alts, bounded) > 0
  }

  /** `new RegExp('\\b' + word + '\\b', 'i').test(text)`. */
  predicate HasWholeWord(text: string, word: string) {
    Test(text, [Literal(word)], true)
  }

  /** The patterns of a list of words, for an alternation. */
  function Literals(words: seq<string>): (ps: seq<Pattern>)
    ensures |ps| == |words|
  {
    seq(|words|, i requires 0 <= i < |words| => Literal(words[i]))
  }

  // ---------------------------------------------------------------------------
  // Word and sentence counts.

  /** The number of non-empty pieces of `text.trim().split(/\s+/)` at or after `i`. */
  function WordCountFrom(text: string, i: nat): nat
    decreases |text| - i
  {
    if i >= |text| then 0
    else
      var start := if !IsSpace(text[i]) && (i == 0 || IsSpace(text[i - 1])) then 1 else 0;
      start + WordCountFrom(text, i + 1)
  }

  function WordCount(text: string): nat {
    WordCountFrom(text, 0)
  }

  predicate IsSentenceEnd(c: char) { c == '.' || c == '!' || c == '?' }

  /**
   * The number of pieces of `text.split(/[.!?]+/)` from `i` on that are not
   * blank; `open` says whether the current piece already holds a visible
   * character.
   */
  function SentenceCountFrom(text: string, i: nat, open: bool): nat
    decreases |text| - i
  {
    if i >= |text| then 0
    else if IsSentenceEnd(text[i]) then SentenceCountFrom(text, i + 1, false)
    else if !IsSpace(text[i]) && !open then 1 + SentenceCountFrom(text, i + 1, true)
    else SentenceCountFrom(text, i + 1, open)
  }

  function SentenceCount(text: string): nat {
    SentenceCountFrom(text, 0, false)
  }

  // ---------------------------------------------------------------------------
  // String utilities.

  function TrimStart(s: string): string {
    if |s| > 0 && IsSpace(s[0]) then TrimStart(s[1..]) else s
  }

  function TrimEnd(s: string): string {
    if |s| > 0 && IsSpace(s[|s| - 1]) then TrimEnd(s[..|s| - 1]) else s
  }

  function Trim(s: string): string {
    TrimEnd(TrimStart(s))
  }

  /** `parts.join(sep)`. */
  function Join(parts: seq<string>, sep: string): string {
    if |parts| == 0 then ""
    else if |parts| == 1 then parts[0]
    else parts[0] + sep + Join(parts[1..], sep)
  }

  /** `s.split(' ').map(w => w.charAt(0).toUpperCase() + w.slice(1)).join(' ')`. */
  function TitleCase(s: string): string {
    seq(|s|, i requires 0 <= i < |s| => if i == 0 || s[i - 1] == ' ' then UpperChar(s[i]) else s[i])
  }

  function DigitChar(d: nat): char
    requires d < 10
  {
    ('0' as int + d) as char
  }

  /** The decimal numeral of `n`, as a template literal prints it. */
  function NatToString(n: nat): string
    decreases n
  {
    if n < 10 then [DigitChar(n)] else NatToString(n / 10) + [DigitChar(n % 10)]
  }

  /** `parseInt` of a string of ASCII digits. */
  function DigitsValue(s: string): nat
    requires forall i :: 0 <= i < |s| ==> IsDigit(s[i])
  {
    if s == [] then 0
    else
      assert IsDigit(s[|s| - 1]);
      DigitsValue(s[..|s| - 1]) * 10 + (s[|s| - 1] as int - '0' as int)
  }
}
