/**
 * String helpers of the activity engine (app/lib/activityUtils.ts): the cleaning applied to window
 * titles and process names, and the few `String.prototype` operations the narrative branches use.
 *
 * Unicode tables are modelled only in part: NFKC folds the full-width ASCII variants and the
 * ideographic space, and lower-casing maps the ASCII letters; every other character is kept.
 */
module Text {

  // ---------------------------------------------------------------------------------------------
  // Character classes

  /** The zero-width characters the cleaning step deletes: U+200B..U+200D and U+FEFF. */
  predicate IsZeroWidth(c: char) {
    '\U{200B}' <= c <= '\U{200D}' || c == '\U{FEFF}'
  }

  /** Full-width variants of the printable ASCII characters, U+FF01..U+FF5E. */
  predicate IsFullWidthForm(c: char) {
    '\U{FF01}' <= c <= '\U{FF5E}'
  }

  predicate IsAsciiUpper(c: char) {
    'A' <= c <= 'Z'
  }

  /** The characters JavaScript's `\b` counts as word characters (without the `u` flag). */
  predicate IsWordChar(c: char) {
    'a' <= c <= 'z' || 'A' <= c <= 'Z' || '0' <= c <= '9' || c == '_'
  }

  /** The separators of `split(/[/\\]/)`. */
  predicate IsPathSeparator(c: char) {
    c == '/' || c == '\\'
  }

  /** JavaScript line terminators, which the regex `.` does not match. */
  predicate IsLineTerminator(c: char) {
    c == '\n' || c == '\r' || c == '\U{2028}' || c == '\U{2029}'
  }

  /** WhiteSpace and LineTerminator code points, which `String.prototype.trim` removes. */
  predicate IsTrimmable(c: char) {
    || c == '\t' || c == '\U{000B}' || c == '\U{000C}' || c == ' ' || c == '\U{00A0}'
    || c == '\U{1680}' || '\U{2000}' <= c <= '\U{200A}' || c == '\U{202F}' || c == '\U{205F}'
    || c == '\U{3000}' || c == '\U{FEFF}' || IsLineTerminator(c)
  }

  // ---------------------------------------------------------------------------------------------
  // Cleaning: normalizeText and extractProcessName

  /** The part of NFKC the model interprets: a full-width ASCII variant becomes its ASCII
      character and the ideographic space a space; any other character is unchanged. */
  function FoldWidth(c: char): char {
    if IsFullWidthForm(c) then (c as int - 0xFEE0) as char
    else if c == '\U{3000}' then ' '
    else c
  }

  /** `toLowerCase` on ASCII letters; other characters are unchanged. */
  function LowerChar(c: char): char {
    if IsAsciiUpper(c) then (c as int + 32) as char else c
  }

  function Nfkc(s: string): string {
    seq(|s|, i requires 0 <= i < |s| => FoldWidth(s[i]))
  }

  function ToLower(s: string): string {
    seq(|s|, i requires 0 <= i < |s| => LowerChar(s[i]))
  }

  /** Deletes every zero-width character and keeps the other characters in order. */
  function StripZeroWidth(s: string): (r: string)
    ensures |r| <= |s|
    ensures forall c :: c in r ==> c in s && !IsZeroWidth(c)
    ensures (forall c :: c in s ==> !IsZeroWidth(c)) ==> r == s
  {
    if s == [] then []
    else (if IsZeroWidth(s[0]) then [] else [s[0]]) + StripZeroWidth(s[1..])
  }

  /** Strings that cleaning leaves as they are. */
  predicate IsNormal(s: string) {
    forall c :: c in s ==> !IsZeroWidth(c) && !IsAsciiUpper(c) && !IsFullWidthForm(c) && c != '\U{3000}'
  }

  /** normalizeText: NFKC, then zero-width characters removed, then lower case. The result holds
      no zero-width character, no upper-case ASCII letter and no character NFKC would fold. */
  function Normalize(text: string): (r: string)
    ensures IsNormal(r)
  {
    var folded := Nfkc(text);
    var stripped := StripZeroWidth(folded);
    var r := ToLower(stripped);
    forall i | 0 <= i < |r|
      ensures !IsZeroWidth(r[i]) && !IsAsciiUpper(r[i]) && !IsFullWidthForm(r[i]) && r[i] != '\U{3000}'
    {
      assert stripped[i] in folded;
    }
    r
  }

  /** A string that is already clean comes back unchanged. */
  lemma NormalIsFixed(s: string)
    requires IsNormal(s)
    ensures Normalize(s) == s
  {
    assert Nfkc(s) == s;
    assert StripZeroWidth(s) == s;
    assert ToLower(s) == s;
  }

  /** Cleaning is idempotent: normalize(normalize(x)) == normalize(x). */
  lemma NormalizeIdempotent(s: string)
    ensures Normalize(Normalize(s)) == Normalize(s)
  {
    NormalIsFixed(Normalize(s));
  }

  /** Lower-casing leaves a clean string unchanged. */
  lemma NormalIsLower(s: string)
    requires IsNormal(s)
    ensures ToLower(s) == s
  {
  }

  /** The last piece of `s.split(/[/\\]/)`: the text after the last separator, or all of `s` when
      it has none; empty when `s` ends with a separator. */
  function LastSegment(s: string): (r: string)
    ensures |r| <= |s| && r == s[|s| - |r|..]
    ensures forall c :: c in r ==> !IsPathSeparator(c)
    ensures |r| == |s| || IsPathSeparator(s[|s| - |r| - 1])
  {
    if s == [] then []
    else if IsPathSeparator(s[|s| - 1]) then []
    else LastSegment(s[..|s| - 1]) + [s[|s| - 1]]
  }

  /** extractProcessName: clean the raw name, then keep its last path segment. */
  function ExtractProcessName(raw: string): (r: string)
    ensures IsNormal(r)
    ensures forall c :: c in r ==> !IsPathSeparator(c)
  {
    var cleaned := Normalize(raw);
    var r := LastSegment(cleaned);
    assert forall c :: c in r ==> c in cleaned;
    r
  }

  /** The segment is what follows the last separator: once a separator sits at `k` and none
      follows it, the last segment is `s[k + 1..]`. */
  lemma LastSegmentAfter(s: string, k: int)
    requires 0 <= k < |s| && IsPathSeparator(s[k])
    requires forall j :: k < j < |s| ==> !IsPathSeparator(s[j])
    ensures LastSegment(s) == s[k + 1..]
  {
  }

  /** With no separator at all, the segment is the whole string. */
  lemma LastSegmentWhole(s: string)
    requires forall j :: 0 <= j < |s| ==> !IsPathSeparator(s[j])
    ensures LastSegment(s) == s
  {
  }

  // ---------------------------------------------------------------------------------------------
  // Searching

  predicate OccursAt(needle: string, s: string, i: int) {
    0 <= i && i + |needle| <= |s| && s[i..i + |needle|] == needle
  }

  /** `s.includes(needle)`. */
  predicate Contains(s: string, needle: string) {
    exists i | 0 <= i <= |s| :: OccursAt(needle, s, i)
  }

  /** A string without the first character of `needle` does not contain it. */
  lemma MissingFirstCharacter(s: string, needle: string)
    requires |needle| > 0 && needle[0] !in s
    ensures !Contains(s, needle)
  {
  }

  /** `s.startsWith(prefix)`. */
  predicate StartsWith(s: string, prefix: string) {
    |prefix| <= |s| && s[..|prefix|] == prefix
  }

  /** `s.indexOf(needle, k)`: the first occurrence at or after `k`, or -1. */
  function IndexFrom(s: string, needle: string, k: nat): (r: int)
    requires k <= |s|
    ensures r == -1 || (k <= r && OccursAt(needle, s, r))
    ensures forall j :: k <= j && (r == -1 || j < r) ==> !OccursAt(needle, s, j)
    decreases |s| - k
  {
    if OccursAt(needle, s, k) then k
    else if k == |s| then -1
    else IndexFrom(s, needle, k + 1)
  }

  /** `s.replace(pattern, replacement)` for a string pattern: the first occurrence is replaced.
      (Special `$` sequences in the replacement are not interpreted here.) */
  function ReplaceFirst(s: string, pattern: string, replacement: string): (r: string)
    ensures !Contains(s, pattern) ==> r == s
    ensures Contains(s, pattern) ==> |r| == |s| - |pattern| + |replacement|
  {
    var i := IndexFrom(s, pattern, 0);
    if i < 0 then s else s[..i] + replacement + s[i + |pattern|..]
  }

  /** When `s` does not start the way `pattern` does, the replacement happens after the first
      character, which is kept. */
  lemma ReplaceFirstKeepsHead(s: string, pattern: string, replacement: string)
    requires s != [] && pattern != [] && s[0] != pattern[0]
    ensures var r := ReplaceFirst(s, pattern, replacement); r != [] && r[0] == s[0]
  {
    var i := IndexFrom(s, pattern, 0);
    if i >= 0 {
      assert s[i] == pattern[0];
    }
  }

  /** Without an occurrence the string is unchanged; otherwise exactly the first occurrence is
      replaced and the text around it is kept. */
  lemma ReplaceFirstSpec(s: string, pattern: string, replacement: string)
    ensures !Contains(s, pattern) ==> ReplaceFirst(s, pattern, replacement) == s
    ensures Contains(s, pattern) ==>
      exists i :: OccursAt(pattern, s, i) && (forall j :: 0 <= j < i ==> !OccursAt(pattern, s, j))
        && ReplaceFirst(s, pattern, replacement) == s[..i] + replacement + s[i + |pattern|..]
  {
    var i := IndexFrom(s, pattern, 0);
    if i < 0 {
      assert forall j :: 0 <= j <= |s| ==> !OccursAt(pattern, s, j);
    } else {
      assert OccursAt(pattern, s, i) && (forall j :: 0 <= j < i ==> !OccursAt(pattern, s, j));
    }
  }

  // ---------------------------------------------------------------------------------------------
  // trim

  /** The first index at or after `i` that is not whitespace, or `|s|`. */
  function SkipSpace(s: string, i: nat): (j: nat)
    requires i <= |s|
    ensures i <= j <= |s|
    ensures forall k :: i <= k < j ==> IsTrimmable(s[k])
    ensures j == |s| || !IsTrimmable(s[j])
    decreases |s| - i
  {
    if i < |s| && IsTrimmable(s[i]) then SkipSpace(s, i + 1) else i
  }

  /** The index where the whitespace ending `s[lo..j]` starts, or `lo`. */
  function SkipSpaceBack(s: string, lo: nat, j: nat): (i: nat)
    requires lo <= j <= |s|
    ensures lo <= i <= j
    ensures forall k :: i <= k < j ==> IsTrimmable(s[k])
    ensures i == lo || !IsTrimmable(s[i - 1])
    decreases j
  {
    if j > lo && IsTrimmable(s[j - 1]) then SkipSpaceBack(s, lo, j - 1) else j
  }

  /** `s.trim()`: drops the whitespace at both ends, nothing else. */
  function Trim(s: string): (r: string)
    ensures |r| <= |s|
    ensures r == [] || (!IsTrimmable(r[0]) && !IsTrimmable(r[|r| - 1]))
    ensures exists a, b ::
      && 0 <= a <= b <= |s| && r == s[a..b]
      && (forall k :: 0 <= k < |s| && (k < a || b <= k) ==> IsTrimmable(s[k]))
  {
    var a := SkipSpace(s, 0);
    var b := SkipSpaceBack(s, a, |s|);
    s[a..b]
  }

  // ---------------------------------------------------------------------------------------------
  // Number interpolation in template literals

  function DigitChar(d: int): char
    requires 0 <= d < 10
  {
    ('0' as int + d) as char
  }

  function DigitValue(c: char): int {
    c as int - '0' as int
  }

  function NatToString(n: nat): (r: string)
    ensures |r| > 0
    ensures forall c :: c in r ==> '0' <= c <= '9'
  {
    if n < 10 then [DigitChar(n)] else NatToString(n / 10) + [DigitChar(n % 10)]
  }

  /** The decimal value of a string of digits. */
  function DecimalValue(s: string): int {
    if s == [] then 0 else 10 * DecimalValue(s[..|s| - 1]) + DigitValue(s[|s| - 1])
  }

  /** `${n}` for an integer `n`. */
  function IntToString(n: int): (r: string)
    ensures |r| > 0
  {
    if n < 0 then "-" + NatToString(-n) else NatToString(n)
  }

  /** The decimal rendering reads back as the number it renders. */
  lemma {:induction false} NatToStringRoundTrip(n: nat)
    ensures DecimalValue(NatToString(n)) == n
  {
    if n >= 10 {
      NatToStringRoundTrip(n / 10);
      var s := NatToString(n);
      assert s[..|s| - 1] == NatToString(n / 10);
    }
  }
}
