/**
 * The regular expressions of app/lib/activityUtils.ts, reduced to the shapes the rule table and
 * the keyword groups use. An alternation `a(x|y)b` is written as two matchers `axb`, `ayb` in the
 * same list: the lists are only ever used through `some`, so the rule fires exactly when one of
 * the alternatives does.
 */
module Matching {
  import opened Text

  datatype Matcher =
    /** `/needle/i` */
    | Substring(needle: string)
    /** `/\bneedle\b/i`, with `\b` only on the sides marked true */
    | Bounded(needle: string, before: bool, after: bool)
    /** `/head.*tail/i` */
    | Spanning(head: string, tail: string)
    /** `/head.tail/i`: exactly one character between the two parts */
    | Wildcard(head: string, tail: string)
    // the catch-all pattern (dot-star), which matches every string
    | Everything

  predicate WordAt(s: string, i: int) {
    0 <= i < |s| && IsWordChar(s[i])
  }

  /** JavaScript's `\b` at position `i`: a word character on exactly one side. */
  predicate BoundaryAt(s: string, i: int) {
    WordAt(s, i - 1) != WordAt(s, i)
  }

  predicate NoLineTerminator(s: string) {
    forall c :: c in s ==> !IsLineTerminator(c)
  }

  /** Whether the pattern matches somewhere in `s`, comparing characters exactly. */
  predicate Fires(m: Matcher, s: string) {
    match m
    case Substring(n) =>
      exists i | 0 <= i <= |s| :: OccursAt(n, s, i)
    case Bounded(n, before, after) =>
      exists i | 0 <= i <= |s| ::
        OccursAt(n, s, i) && (before ==> BoundaryAt(s, i)) && (after ==> BoundaryAt(s, i + |n|))
    case Spanning(h, t) =>
      exists i, j | 0 <= i <= j <= |s| ::
        OccursAt(h, s, i) && OccursAt(t, s, j) && i + |h| <= j && NoLineTerminator(s[i + |h|..j])
    case Wildcard(h, t) =>
      exists i | 0 <= i <= |s| ::
        OccursAt(h, s, i) && i + |h| < |s| && !IsLineTerminator(s[i + |h|])
        && OccursAt(t, s, i + |h| + 1)
    case Everything =>
      true
  }

  /** `regex.test(s)` for a case-insensitive regex: needles are written in lower case and the
      input is compared in lower case. */
  predicate Test(m: Matcher, s: string) {
    Fires(m, ToLower(s))
  }

  /** `matchers.some(r => r.test(s))`, trying the matchers in list order. */
  predicate AnyTest(ms: seq<Matcher>, s: string) {
    |ms| > 0 && (Test(ms[0], s) || AnyTest(ms[1..], s))
  }

  /** The list accepts exactly when one of its matchers does. */
  lemma {:induction false} AnyTestIsSome(ms: seq<Matcher>, s: string)
    ensures AnyTest(ms, s) <==> exists k :: 0 <= k < |ms| && Test(ms[k], s)
  {
    if |ms| > 0 {
      AnyTestIsSome(ms[1..], s);
      if exists k :: 0 <= k < |ms| && Test(ms[k], s) {
        var k :| 0 <= k < |ms| && Test(ms[k], s);
        if k > 0 {
          assert ms[1..][k - 1] == ms[k];
        }
      }
    }
  }

  /** Matching ignores case: an input and its lower-cased form are accepted alike. */
  lemma TestIgnoresCase(m: Matcher, s: string)
    ensures Test(m, s) == Test(m, ToLower(s))
  {
    assert ToLower(ToLower(s)) == ToLower(s);
  }

  // The catch-all pattern (dot-star) accepts every input.
  lemma EverythingAcceptsAll(s: string)
    ensures Test(Everything, s)
  {
  }

  /** `\b(w1|w2|...)\b` */
  function Words(words: seq<string>): seq<Matcher> {
    seq(|words|, i requires 0 <= i < |words| => Bounded(words[i], true, true))
  }

  // ---------------------------------------------------------------------------------------------
  // Showing that a matcher does not fire

  /** Characters that occur in every string the pattern matches. */
  function Letters(m: Matcher): string {
    match m
    case Substring(n) => n
    case Bounded(n, _, _) => n
    case Spanning(h, t) => h + t
    case Wildcard(h, t) => h + t
    case Everything => []
  }

  /** A pattern cannot match a string that lacks one of its letters. */
  lemma MissingLetterBlocks(m: Matcher, s: string, c: char)
    requires c in Letters(m) && c !in s
    ensures !Fires(m, s)
  {
  }

  /** `witnesses[k]` is a letter of `ms[k]` that `s` lacks, for every matcher of the list. */
  predicate ExcludedBy(ms: seq<Matcher>, s: string, witnesses: string) {
    && |witnesses| == |ms|
    && forall k :: 0 <= k < |ms| ==> witnesses[k] in Letters(ms[k]) && witnesses[k] !in s
  }

  /** On a cleaned string, a list whose every matcher misses a letter does not fire. */
  lemma ExcludedListFails(ms: seq<Matcher>, s: string, witnesses: string)
    requires IsNormal(s) && ExcludedBy(ms, s, witnesses)
    ensures !AnyTest(ms, s)
  {
    NormalIsLower(s);
    AnyTestIsSome(ms, s);
    forall k | 0 <= k < |ms| ensures !Test(ms[k], s) {
      MissingLetterBlocks(ms[k], s, witnesses[k]);
    }
  }
}
