/** The three `String.prototype` operations the barcode page relies on:
    `toLowerCase`, `includes` and `trim`.

    `toLowerCase` is modelled on ASCII letters only; `trim` strips the
    ECMAScript WhiteSpace and LineTerminator code points. */
module JsString {

  // ---------------------------------------------------------------------
  // toLowerCase
  // ---------------------------------------------------------------------

  predicate IsUpperAscii(c: char) {
    'A' <= c <= 'Z'
  }

  /** `toLowerCase` of one character: ASCII capitals map to small letters,
      every other character is kept. */
  function LowerChar(c: char): (r: char)
    ensures !IsUpperAscii(r)
    ensures IsUpperAscii(c) ==> r as int == c as int + 32
    ensures !IsUpperAscii(c) ==> r == c
  {
    if IsUpperAscii(c) then (c as int + 32) as char else c
  }

  /** `s.toLowerCase()`, character by character. */
  function Lower(s: string): string {
    seq(|s|, i requires 0 <= i < |s| => LowerChar(s[i]))
  }

  /** `a` and `b` are the same character, or the capital and the small
      form of one ASCII letter. */
  predicate CaseVariant(a: char, b: char) {
    a == b
    || (IsUpperAscii(a) && b as int == a as int + 32)
    || (IsUpperAscii(b) && a as int == b as int + 32)
  }

  /** `s` is `t` with some of its ASCII letters re-cased. */
  predicate SameIgnoringCase(s: string, t: string) {
    |s| == |t| && forall i :: 0 <= i < |s| ==> CaseVariant(s[i], t[i])
  }

  /** Two characters lower-case alike exactly when they are case variants. */
  lemma LowerCharEqualIff(a: char, b: char)
    ensures LowerChar(a) == LowerChar(b) <==> CaseVariant(a, b)
  {
  }

  /** Strings that agree up to letter case lower-case to the same string,
      and only those. */
  lemma LowerEqualIff(s: string, t: string)
    ensures Lower(s) == Lower(t) <==> SameIgnoringCase(s, t)
  {
    forall i | 0 <= i < |s| && i < |t|
      ensures LowerChar(s[i]) == LowerChar(t[i]) <==> CaseVariant(s[i], t[i])
    {
      LowerCharEqualIff(s[i], t[i]);
    }
    if SameIgnoringCase(s, t) {
      assert forall i :: 0 <= i < |s| ==> Lower(s)[i] == Lower(t)[i];
    }
    if Lower(s) == Lower(t) {
      assert forall i :: 0 <= i < |s| ==> LowerChar(s[i]) == Lower(s)[i] == Lower(t)[i] == LowerChar(t[i]);
    }
  }

  /** Lower-casing twice is lower-casing once. */
  lemma LowerIdempotent(s: string)
    ensures Lower(Lower(s)) == Lower(s)
  {
    assert forall i :: 0 <= i < |s| ==> Lower(Lower(s))[i] == LowerChar(LowerChar(s[i])) == Lower(s)[i];
  }

  /** A string without ASCII capitals is its own lower-case form. */
  lemma LowerOfLowerCase(s: string)
    requires forall i :: 0 <= i < |s| ==> !IsUpperAscii(s[i])
    ensures Lower(s) == s
  {
    assert forall i :: 0 <= i < |s| ==> Lower(s)[i] == s[i];
  }

  // ---------------------------------------------------------------------
  // includes
  // ---------------------------------------------------------------------

  /** Reference meaning of `s.includes(t)`: `t` occurs in `s` at some index. */
  predicate Contains(s: string, t: string) {
    exists i :: 0 <= i <= |s| && OccursAt(s, t, i)
  }

  /** `t` occurs in `s` starting at index `i`. */
  predicate OccursAt(s: string, t: string, i: nat) {
    i + |t| <= |s| && s[i..i + |t|] == t
  }

  /** `t` occurs at `i` exactly when its characters match there one by one. */
  lemma OccursAtIff(s: string, t: string, i: nat)
    ensures OccursAt(s, t, i) <==> i + |t| <= |s| && forall k :: 0 <= k < |t| ==> s[i + k] == t[k]
  {
    if i + |t| <= |s| {
      var w := s[i..i + |t|];
      assert forall k :: 0 <= k < |t| ==> w[k] == s[i + k];
    }
  }

  predicate StartsWith(s: string, t: string) {
    |t| <= |s| && s[..|t|] == t
  }

  /** `s.includes(t)` as a left-to-right search; it agrees with `Contains`. */
  function Includes(s: string, t: string): (r: bool)
    ensures r <==> Contains(s, t)
    decreases |s|
  {
    if StartsWith(s, t) then
      assert OccursAt(s, t, 0);
      true
    else if s == [] then
      false
    else
      var r := Includes(s[1..], t);
      assert r ==> Contains(s, t) by {
        if r {
          var i :| 0 <= i <= |s[1..]| && OccursAt(s[1..], t, i);
          assert s[i + 1..i + 1 + |t|] == s[1..][i..i + |t|];
          assert OccursAt(s, t, i + 1);
        }
      }
      assert Contains(s, t) ==> r by {
        if Contains(s, t) {
          var i :| 0 <= i <= |s| && OccursAt(s, t, i);
          assert i != 0 by { assert s[..|t|] == s[0..|t|]; }
          assert s[1..][i - 1..i - 1 + |t|] == s[i..i + |t|];
          assert OccursAt(s[1..], t, i - 1);
        }
      }
      r
  }

  /** A text too short for the pattern cannot include it. */
  lemma ShortDoesNotContain(s: string, t: string)
    requires |s| < |t|
    ensures !Contains(s, t)
  {
  }

  // ---------------------------------------------------------------------
  // trim
  // ---------------------------------------------------------------------

  /** The ECMAScript WhiteSpace and LineTerminator code points, which
      `String.prototype.trim` removes: TAB, LF, VT, FF, CR, the Unicode
      space separators (category Zs), LINE SEPARATOR, PARAGRAPH SEPARATOR
      and ZERO WIDTH NO-BREAK SPACE. */
  predicate IsWhiteSpace(c: char) {
    var n := c as int;
    (0x09 <= n <= 0x0D) || n == 0x20 || n == 0xA0 || n == 0x1680
    || (0x2000 <= n <= 0x200A) || n == 0x2028 || n == 0x2029 || n == 0x202F
    || n == 0x205F || n == 0x3000 || n == 0xFEFF
  }

  predicate AllWhiteSpace(s: string) {
    forall i :: 0 <= i < |s| ==> IsWhiteSpace(s[i])
  }

  /** The number of white-space characters at the start of `s`. */
  function LeadingWhiteSpace(s: string): (k: nat)
    ensures k <= |s|
    ensures AllWhiteSpace(s[..k])
    ensures k < |s| ==> !IsWhiteSpace(s[k])
  {
    if s != [] && IsWhiteSpace(s[0]) then
      var k := 1 + LeadingWhiteSpace(s[1..]);
      assert forall i :: 1 <= i < k ==> s[..k][i] == s[1..][..k - 1][i - 1];
      k
    else
      0
  }

  /** The index where the white space at the end of `s` begins. */
  function TrailingWhiteSpaceStart(s: string): (k: nat)
    ensures k <= |s|
    ensures AllWhiteSpace(s[k..])
    ensures k > 0 ==> !IsWhiteSpace(s[k - 1])
  {
    if s != [] && IsWhiteSpace(s[|s| - 1]) then
      var init := s[..|s| - 1];
      var k := TrailingWhiteSpaceStart(init);
      assert forall i :: 0 <= i < |s| - 1 - k ==> s[k..][i] == init[k..][i];
      k
    else
      |s|
  }

  /** `s.trim()`: `s` without its leading and trailing white space. */
  function Trim(s: string): (r: string)
    ensures |r| <= |s|
    ensures r != [] ==> !IsWhiteSpace(r[0]) && !IsWhiteSpace(r[|r| - 1])
  {
    var rest := s[LeadingWhiteSpace(s)..];
    rest[..TrailingWhiteSpaceStart(rest)]
  }

  /** `Trim(s)` is the one slice `s[a..b]` that is surrounded by white space
      only and neither starts nor ends with white space. */
  lemma TrimUnique(s: string, a: nat, b: nat)
    requires a <= b <= |s|
    requires AllWhiteSpace(s[..a]) && AllWhiteSpace(s[b..])
    requires a < b ==> !IsWhiteSpace(s[a]) && !IsWhiteSpace(s[b - 1])
    ensures Trim(s) == s[a..b]
  {
    var k := LeadingWhiteSpace(s);
    if a == b {
      assert AllWhiteSpace(s) by {
        assert forall i :: 0 <= i < a ==> s[i] == s[..a][i];
        assert forall i :: b <= i < |s| ==> s[i] == s[b..][i - b];
      }
      assert k == |s|;
    } else {
      assert s[..a][..] == s[..a];
      assert k == a;
      var rest := s[a..];
      var m := TrailingWhiteSpaceStart(rest);
      assert m == b - a;
      assert rest[..m] == s[a..b];
    }
  }

  /** `s.trim()` is empty exactly when `s` consists of white space only. */
  lemma TrimEmptyIff(s: string)
    ensures Trim(s) == [] <==> AllWhiteSpace(s)
  {
    var k := LeadingWhiteSpace(s);
    if AllWhiteSpace(s) {
      assert k == |s|;
    } else {
      assert k < |s|;
      var rest := s[k..];
      assert rest[0] == s[k];
      assert TrailingWhiteSpaceStart(rest) > 0;
    }
  }
}
