/**
 * Character classes and the handful of Python string operations the handlers use:
 * `str.isspace`/`\s`, `str.strip`, `str.replace(sub, '')`, `str.lower` restricted to
 * what the link checks can observe, `in` on strings, and `int()` on a command argument.
 */
module Text {
  import opened Wrappers

  /** Python's `str.isspace`, which is also what the `\s` class of `re` matches in a text pattern. */
  predicate IsSpace(c: char) {
    || c == ' '
    || ('\t' <= c <= '\r')
    || ('\U{1C}' <= c <= '\U{1F}')
    || c == '\U{85}' || c == '\U{A0}' || c == '\U{1680}'
    || ('\U{2000}' <= c <= '\U{200A}')
    || c == '\U{2028}' || c == '\U{2029}' || c == '\U{202F}' || c == '\U{205F}' || c == '\U{3000}'
  }

  predicate NotSpace(c: char) { !IsSpace(c) }

  predicate IsDigit(c: char) { '0' <= c <= '9' }

  /** `\w` of `re`, restricted to ASCII letters, digits and underscore. */
  predicate IsWordChar(c: char) { ('a' <= c <= 'z') || ('A' <= c <= 'Z') || IsDigit(c) || c == '_' }

  /**
   * `str.lower` on one character, ASCII only. For the link checks this is exact: no other
   * character lowers to text that contains `/video/`, `/product/`, `/item/` or `-i.`.
   */
  function LowerChar(c: char): char {
    if 'A' <= c <= 'Z' then (c as int + 32) as char else c
  }

  function Lower(s: string): string {
    seq(|s|, i requires 0 <= i < |s| => LowerChar(s[i]))
  }

  /** Python's `sub in s` on strings. */
  predicate Contains(s: string, sub: string) {
    exists i :: 0 <= i <= |s| - |sub| && sub <= s[i..]
  }

  /**
   * `c` matches the lower-case pattern character `p` under `re.IGNORECASE`: ASCII case, plus
   * U+017F LATIN SMALL LETTER LONG S, which the regex engine folds onto `s`.
   */
  predicate MatchesIgnoringCase(c: char, p: char) {
    || c == p
    || ('a' <= p <= 'z' && c as int == p as int - 32)
    || (p == 's' && c == '\U{17F}')
  }

  /** The lower-case `pattern` occurs in `s` at index `i`, case ignored as by `re.IGNORECASE`. */
  predicate StartsWithIgnoringCase(s: string, i: nat, pattern: string) {
    && i + |pattern| <= |s|
    && forall j :: 0 <= j < |pattern| ==> MatchesIgnoringCase(s[i + j], pattern[j])
  }

  /** The end of the longest run of characters satisfying `inRun` that starts at `i`. */
  function RunEnd(s: string, i: nat, inRun: char -> bool): (r: nat)
    requires i <= |s|
    ensures i <= r <= |s|
    ensures forall j :: i <= j < r ==> inRun(s[j])
    ensures r < |s| ==> !inRun(s[r])
    decreases |s| - i
  {
    if i == |s| || !inRun(s[i]) then i else RunEnd(s, i + 1, inRun)
  }

  /** Any index satisfying the two defining properties of a run's end is that end. */
  lemma RunEndIsUnique(s: string, i: nat, e: nat, inRun: char -> bool)
    requires i <= e <= |s|
    requires forall j :: i <= j < e ==> inRun(s[j])
    requires e < |s| ==> !inRun(s[e])
    ensures RunEnd(s, i, inRun) == e
  {
  }

  /** The start of the run of whitespace that ends at `hi`, not going below `lo`. */
  function BlankTailStart(s: string, lo: nat, hi: nat): (e: nat)
    requires lo <= hi <= |s|
    ensures lo <= e <= hi
    ensures forall j :: e <= j < hi ==> IsSpace(s[j])
    ensures e > lo ==> !IsSpace(s[e - 1])
    decreases hi
  {
    if hi > lo && IsSpace(s[hi - 1]) then BlankTailStart(s, lo, hi - 1) else hi
  }

  /** `r` is the slice of `s` starting at `lo`, and everything of `s` outside it is whitespace. */
  predicate IsBlankOutside(s: string, lo: nat, r: string) {
    && lo + |r| <= |s| && r == s[lo..lo + |r|]
    && (forall i :: 0 <= i < lo ==> IsSpace(s[i]))
    && (forall i :: lo + |r| <= i < |s| ==> IsSpace(s[i]))
  }

  /**
   * Python's `str.strip()`: the slice of `s` left after removing whitespace at both ends.
   * It is empty exactly when `s` holds nothing but whitespace.
   */
  function Strip(s: string): (r: string)
    ensures exists lo: nat :: IsBlankOutside(s, lo, r)
    ensures r != [] ==> !IsSpace(r[0]) && !IsSpace(r[|r| - 1])
    ensures r == [] <==> forall i :: 0 <= i < |s| ==> IsSpace(s[i])
  {
    var lo := RunEnd(s, 0, IsSpace);
    var hi := BlankTailStart(s, lo, |s|);
    assert IsBlankOutside(s, lo, s[lo..hi]);
    s[lo..hi]
  }

  /** `sub` occurs in `s` starting at index `i`. */
  predicate OccursAt(s: string, sub: string, i: nat) {
    i + |sub| <= |s| && s[i..i + |sub|] == sub
  }

  /** `i` is where the leftmost occurrence of `sub` in `s` starts. */
  predicate FirstOccurrenceAt(s: string, sub: string, i: nat) {
    OccursAt(s, sub, i) && forall j :: 0 <= j < i ==> !OccursAt(s, sub, j)
  }

  /** An occurrence one place further into `s` is an occurrence in the tail of `s`. */
  lemma OccursAtTail(s: string, sub: string, i: nat)
    requires s != []
    ensures OccursAt(s, sub, i + 1) <==> OccursAt(s[1..], sub, i)
  {
    if i + 1 + |sub| <= |s| {
      assert s[i + 1..i + 1 + |sub|] == s[1..][i..i + |sub|];
    }
  }

  /**
   * Python's `s.replace(sub, '')`: every non-overlapping occurrence of `sub`, found left to
   * right, is deleted; an empty `sub` leaves `s` as it is. The two lemmas after it state the
   * left-to-right deletion in terms of occurrences.
   */
  function RemoveAll(s: string, sub: string): (r: string)
    ensures |r| <= |s|
    ensures forall c :: c in r ==> c in s
    ensures sub == [] ==> r == s
    decreases |s|
  {
    if |sub| == 0 || s == [] then s
    else if sub <= s then RemoveAll(s[|sub|..], sub)
    else [s[0]] + RemoveAll(s[1..], sub)
  }

  /** The leftmost occurrence is deleted, the text before it is kept, and the text after it is treated the same way. */
  lemma {:induction false} RemoveAllDeletesLeftmost(s: string, sub: string, i: nat)
    requires sub != [] && FirstOccurrenceAt(s, sub, i)
    ensures RemoveAll(s, sub) == s[..i] + RemoveAll(s[i + |sub|..], sub)
    decreases i
  {
    if i == 0 {
      assert sub <= s;
    } else {
      assert !OccursAt(s, sub, 0);
      assert !(sub <= s);
      forall j | 0 <= j < i - 1 ensures !OccursAt(s[1..], sub, j) {
        OccursAtTail(s, sub, j);
      }
      OccursAtTail(s, sub, i - 1);
      var t := s[1..];
      assert FirstOccurrenceAt(t, sub, i - 1);
      RemoveAllDeletesLeftmost(t, sub, i - 1);
      assert RemoveAll(s, sub) == [s[0]] + RemoveAll(t, sub);
      assert t[i - 1 + |sub|..] == s[i + |sub|..];
      assert [s[0]] + t[..i - 1] == s[..i];
    }
  }

  /** A text in which `sub` does not occur comes back unchanged. */
  lemma {:induction false} RemoveAllWithoutOccurrence(s: string, sub: string)
    requires forall i :: 0 <= i <= |s| ==> !OccursAt(s, sub, i)
    ensures RemoveAll(s, sub) == s
    decreases |s|
  {
    if sub != [] && s != [] {
      assert !OccursAt(s, sub, 0);
      assert !(sub <= s);
      forall j | 0 <= j <= |s[1..]| ensures !OccursAt(s[1..], sub, j) {
        OccursAtTail(s, sub, j);
      }
      RemoveAllWithoutOccurrence(s[1..], sub);
    }
  }

  /** Deleting `sub` from a text that starts with a character `sub` cannot start with keeps that character. */
  lemma {:induction false} RemoveAllKeepsHead(c: char, rest: string, sub: string)
    requires sub != [] && sub[0] != c
    ensures RemoveAll([c] + rest, sub) == [c] + RemoveAll(rest, sub)
  {
    assert !(sub <= [c] + rest);
    assert ([c] + rest)[1..] == rest;
  }

  /** Deleting `sub` from a text that starts with `sub` drops that occurrence. */
  lemma RemoveAllDropsLeading(sub: string, rest: string)
    requires sub != []
    ensures RemoveAll(sub + rest, sub) == RemoveAll(rest, sub)
  {
    assert sub <= sub + rest;
    assert (sub + rest)[|sub|..] == rest;
  }

  /** A whitespace prefix in which `sub` cannot start passes through `RemoveAll` unchanged. */
  lemma {:induction false} RemoveAllAfterBlank(blank: string, rest: string, sub: string)
    requires sub != [] && !IsSpace(sub[0])
    requires forall i :: 0 <= i < |blank| ==> IsSpace(blank[i])
    ensures RemoveAll(blank + rest, sub) == blank + RemoveAll(rest, sub)
    decreases |blank|
  {
    if blank != [] {
      assert IsSpace(blank[0]);
      RemoveAllKeepsHead(blank[0], blank[1..] + rest, sub);
      assert [blank[0]] + (blank[1..] + rest) == blank + rest;
      RemoveAllAfterBlank(blank[1..], rest, sub);
      assert [blank[0]] + (blank[1..] + RemoveAll(rest, sub)) == blank + RemoveAll(rest, sub);
    } else {
      assert blank + rest == rest;
    }
  }

  /** Case-ignoring comparison inside `x` is unaffected by text around `x`. */
  lemma StartsWithInContext(pre: string, x: string, post: string, i: nat, pattern: string)
    requires i + |pattern| <= |x|
    ensures StartsWithIgnoringCase(pre + x + post, |pre| + i, pattern) <==> StartsWithIgnoringCase(x, i, pattern)
  {
    var t := pre + x + post;
    forall j | 0 <= j < |x|
      ensures t[|pre| + j] == x[j]
    {
    }
  }

  // ---------------------------------------------------------------------------
  // int() on a command argument

  function DigitValue(c: char): nat
    requires IsDigit(c)
  {
    c as int - '0' as int
  }

  /**
   * The digits Python's `int()` accepts in base 10 after the sign: ASCII digits, with single
   * underscores allowed between two digits.
   */
  predicate IsDigitString(b: string) {
    && b != []
    && IsDigit(b[0])
    && forall i :: 0 <= i < |b| ==> DigitOrJoinAt(b, i)
  }

  /** Position `i` holds a digit, or an underscore with a digit after it. */
  predicate DigitOrJoinAt(b: string, i: nat)
    requires i < |b|
  {
    IsDigit(b[i]) || (b[i] == '_' && i + 1 < |b| && IsDigit(b[i + 1]))
  }

  /** The number a digit string denotes, underscores ignored. */
  function DigitsValue(b: string): nat
  {
    if b == [] then 0
    else if IsDigit(b[|b| - 1]) then 10 * DigitsValue(b[..|b| - 1]) + DigitValue(b[|b| - 1])
    else DigitsValue(b[..|b| - 1])
  }

  /** A digit string whose first digit is not zero denotes a positive number. */
  lemma {:induction false} DigitsValueAtLeastLeading(b: string)
    requires b != [] && IsDigit(b[0])
    ensures DigitsValue(b) >= DigitValue(b[0])
    decreases |b|
  {
    if |b| > 1 {
      var p := b[..|b| - 1];
      assert p[0] == b[0];
      DigitsValueAtLeastLeading(p);
    }
  }

  /** `c` is one of the signs `int()` accepts before the digits. */
  predicate IsSign(c: char) { c == '+' || c == '-' }

  /**
   * Python's `int(s)` on text: surrounding whitespace is ignored, then one optional sign,
   * then a digit string; anything else raises `ValueError`, here `None`.
   */
  function ParseInt(s: string): (r: Option<int>)
    ensures var t := Strip(s);
      r.Some? <==> IsDigitString(t) || (t != [] && IsSign(t[0]) && IsDigitString(t[1..]))
    ensures IsDigitString(Strip(s)) ==> r == Some(DigitsValue(Strip(s)))
    ensures var t := Strip(s);
      t != [] && t[0] == '+' && IsDigitString(t[1..]) ==> r == Some(DigitsValue(t[1..]))
    ensures var t := Strip(s);
      t != [] && t[0] == '-' && IsDigitString(t[1..]) ==> r == Some(-(DigitsValue(t[1..]) as int))
  {
    var t := Strip(s);
    if t != [] && IsSign(t[0]) then
      var b := t[1..];
      if IsDigitString(b) then Some(if t[0] == '-' then -(DigitsValue(b) as int) else DigitsValue(b)) else None
    else if IsDigitString(t) then Some(DigitsValue(t) as int)
    else None
  }
}
