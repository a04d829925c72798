/**
 * The JavaScript string operations the core relies on: `includes` (substring search), ASCII
 * `toLowerCase`, `trim` and the decimal rendering of integers.
 */
module Strings {
  import opened Common

  // ---------------------------------------------------------------------------------------------
  // Substring search, `s.includes(p)`
  // ---------------------------------------------------------------------------------------------

  /** `p[j..]` matches `s` at offset `i + j`, compared character by character. */
  predicate MatchesAt(s: string, p: string, i: nat, j: nat)
    decreases |p| - j
  {
    j >= |p| || (i + j < |s| && s[i + j] == p[j] && MatchesAt(s, p, i, j + 1))
  }

  /** `p` occurs in `s` at some offset `k >= i`. */
  predicate OccursFrom(s: string, p: string, i: nat)
    decreases |s| - i
  {
    i + |p| <= |s| && (MatchesAt(s, p, i, 0) || OccursFrom(s, p, i + 1))
  }

  /** JavaScript's `s.includes(p)`; the empty pattern occurs in every string. */
  predicate Contains(s: string, p: string) {
    OccursFrom(s, p, 0)
  }

  /** `p` occurs in `s` exactly at offset `k`, stated with a slice. */
  predicate OccursAt(s: string, p: string, k: nat) {
    k + |p| <= |s| && s[k..k + |p|] == p
  }

  lemma {:induction false} MatchesAtIff(s: string, p: string, i: nat, j: nat)
    requires i + |p| <= |s| && j <= |p|
    ensures MatchesAt(s, p, i, j) <==> s[i + j..i + |p|] == p[j..]
    decreases |p| - j
  {
    if j < |p| {
      MatchesAtIff(s, p, i, j + 1);
      assert s[i + j..i + |p|] == [s[i + j]] + s[i + j + 1..i + |p|];
      assert p[j..] == [p[j]] + p[j + 1..];
    }
  }

  lemma {:induction false} OccursFromIff(s: string, p: string, i: nat)
    ensures OccursFrom(s, p, i) <==> exists k: nat :: i <= k && OccursAt(s, p, k)
    decreases |s| - i
  {
    if i + |p| <= |s| {
      MatchesAtIff(s, p, i, 0);
      OccursFromIff(s, p, i + 1);
      if OccursFrom(s, p, i) {
        if MatchesAt(s, p, i, 0) {
          assert OccursAt(s, p, i);
        }
      }
      if exists k: nat :: i <= k && OccursAt(s, p, k) {
        var k: nat :| i <= k && OccursAt(s, p, k);
        if k == i {
          assert MatchesAt(s, p, i, 0);
        } else {
          assert i + 1 <= k && OccursAt(s, p, k);
        }
      }
    } else {
      assert forall k: nat :: i <= k ==> !OccursAt(s, p, k);
    }
  }

  /** The search agrees with the slice definition of an occurrence. */
  lemma ContainsIff(s: string, p: string)
    ensures Contains(s, p) <==> exists k: nat :: OccursAt(s, p, k)
  {
    OccursFromIff(s, p, 0);
  }

  /** A single witnessed occurrence makes `includes` true. */
  lemma OccursAtContains(s: string, p: string, k: nat)
    requires OccursAt(s, p, k)
    ensures Contains(s, p)
  {
    ContainsIff(s, p);
  }

  /** An occurrence inside the middle part is an occurrence in the whole. */
  lemma ContainsInfix(a: string, b: string, c: string, p: string)
    requires Contains(b, p)
    ensures Contains(a + b + c, p)
  {
    ContainsIff(b, p);
    var k: nat :| OccursAt(b, p, k);
    assert (a + b + c)[|a| + k..|a| + k + |p|] == b[k..k + |p|];
    OccursAtContains(a + b + c, p, |a| + k);
  }

  /** A pattern holding a character that `s` lacks does not occur in `s`. */
  lemma CharAbsent(s: string, p: string, c: char)
    requires c in p && c !in s
    ensures !Contains(s, p)
  {
    ContainsIff(s, p);
    var j :| 0 <= j < |p| && p[j] == c;
    forall k: nat ensures !OccursAt(s, p, k) {
      if k + |p| <= |s| {
        assert s[k..k + |p|][j] == s[k + j];
      }
    }
  }

  /** Every character of `s` is one of `cs`. */
  predicate CharsIn(s: string, cs: set<char>) {
    forall i :: 0 <= i < |s| ==> s[i] in cs
  }

  lemma CharsInJoin(a: string, b: string, c: string, d: string, cs: set<char>)
    requires CharsIn(a, cs) && CharsIn(b, cs) && CharsIn(c, cs) && CharsIn(d, cs)
    ensures CharsIn(a + b + c + d, cs)
  {
    var s := a + b + c + d;
    forall i | 0 <= i < |s| ensures s[i] in cs {
      if i < |a| {
        assert s[i] == a[i];
      } else if i < |a| + |b| {
        assert s[i] == b[i - |a|];
      } else if i < |a| + |b| + |c| {
        assert s[i] == c[i - |a| - |b|];
      } else {
        assert s[i] == d[i - |a| - |b| - |c|];
      }
    }
  }

  /** A pattern whose `j`-th character is none of the characters of `s` does not occur in `s`. */
  lemma CharOutside(s: string, cs: set<char>, p: string, j: nat)
    requires CharsIn(s, cs) && j < |p| && p[j] !in cs
    ensures !Contains(s, p)
  {
    CharAbsent(s, p, p[j]);
  }

  /** No `x` in `s` is directly followed by `y`. */
  predicate NoPair(s: string, x: char, y: char) {
    forall i :: 0 <= i < |s| - 1 ==> !(s[i] == x && s[i + 1] == y)
  }

  /** A pattern holding two adjacent characters that are never adjacent in `s` does not occur in `s`. */
  lemma PairAbsent(s: string, p: string, j: nat)
    requires j + 1 < |p| && NoPair(s, p[j], p[j + 1])
    ensures !Contains(s, p)
  {
    ContainsIff(s, p);
    forall k: nat ensures !OccursAt(s, p, k) {
      if k + |p| <= |s| {
        assert s[k..k + |p|][j] == s[k + j] && s[k..k + |p|][j + 1] == s[k + j + 1];
      }
    }
  }

  /** Two pieces without the pair, the first not ending in `x`, join without the pair. */
  lemma NoPairAppend(a: string, b: string, x: char, y: char)
    requires NoPair(a, x, y) && NoPair(b, x, y)
    requires a == [] || a[|a| - 1] != x
    ensures NoPair(a + b, x, y)
  {
    forall i | 0 <= i < |a + b| - 1 ensures !((a + b)[i] == x && (a + b)[i + 1] == y) {
      if i + 1 < |a| {
        assert (a + b)[i] == a[i] && (a + b)[i + 1] == a[i + 1];
      } else if i + 1 == |a| {
        assert (a + b)[i] == a[i];
      } else {
        assert (a + b)[i] == b[i - |a|] && (a + b)[i + 1] == b[i + 1 - |a|];
      }
    }
  }

  /** Four pieces without the pair, none of the first three ending in `x`, join without the pair. */
  lemma NoPairJoin(a: string, b: string, c: string, d: string, x: char, y: char)
    requires NoPair(a, x, y) && NoPair(b, x, y) && NoPair(c, x, y) && NoPair(d, x, y)
    requires (a == [] || a[|a| - 1] != x) && (b == [] || b[|b| - 1] != x) && (c == [] || c[|c| - 1] != x)
    ensures NoPair(a + b + c + d, x, y)
  {
    NoPairAppend(a, b, x, y);
    assert a + b == [] || (a + b)[|a + b| - 1] != x;
    NoPairAppend(a + b, c, x, y);
    assert a + b + c == [] || (a + b + c)[|a + b + c| - 1] != x;
    NoPairAppend(a + b + c, d, x, y);
  }

  // ---------------------------------------------------------------------------------------------
  // Lower-casing, `s.toLowerCase()` (ASCII letters only)
  // ---------------------------------------------------------------------------------------------

  function LowerChar(c: char): char {
    if 'A' <= c <= 'Z' then (c as int + 32) as char else c
  }

  function ToLower(s: string): (r: string)
    ensures |r| == |s|
    ensures forall k :: 0 <= k < |s| ==> r[k] == LowerChar(s[k])
  {
    seq(|s|, k requires 0 <= k < |s| => LowerChar(s[k]))
  }

  /** Lower-casing works character by character, so it distributes over concatenation. */
  lemma ToLowerAppend(a: string, b: string)
    ensures ToLower(a + b) == ToLower(a) + ToLower(b)
  {
    assert forall k :: 0 <= k < |a + b| ==> ToLower(a + b)[k] == (ToLower(a) + ToLower(b))[k];
  }

  // ---------------------------------------------------------------------------------------------
  // `s.trim()`: strips the ECMAScript WhiteSpace and LineTerminator code points at both ends
  // ---------------------------------------------------------------------------------------------

  predicate IsJsWhitespace(c: char) {
    var n := c as int;
    n == 0x09 || n == 0x0A || n == 0x0B || n == 0x0C || n == 0x0D || n == 0x20 || n == 0xA0
    || n == 0x1680 || (0x2000 <= n <= 0x200A) || n == 0x2028 || n == 0x2029 || n == 0x202F
    || n == 0x205F || n == 0x3000 || n == 0xFEFF
  }

  /** Every character of `s` is whitespace (the empty string is blank). */
  predicate Blank(s: string) {
    forall k :: 0 <= k < |s| ==> IsJsWhitespace(s[k])
  }

  /** The number of whitespace characters at the start of `s`. */
  function LeadingSpace(s: string): (n: nat)
    ensures n <= |s|
    ensures forall k :: 0 <= k < n ==> IsJsWhitespace(s[k])
    ensures n == |s| || !IsJsWhitespace(s[n])
    decreases |s|
  {
    if |s| > 0 && IsJsWhitespace(s[0]) then
      var m := LeadingSpace(s[1..]);
      assert forall k :: 1 <= k < 1 + m ==> s[k] == s[1..][k - 1];
      1 + m
    else
      0
  }

  /** The length of `s` without its trailing whitespace. */
  function ContentEnd(s: string): (n: nat)
    ensures n <= |s|
    ensures forall k :: n <= k < |s| ==> IsJsWhitespace(s[k])
    ensures n == 0 || !IsJsWhitespace(s[n - 1])
    decreases |s|
  {
    if |s| > 0 && IsJsWhitespace(s[|s| - 1]) then ContentEnd(s[..|s| - 1]) else |s|
  }

  /** `r` is the slice `s[i..i + |r|]`, with only whitespace cut off on either side. */
  predicate TrimmedAt(s: string, r: string, i: nat) {
    && i + |r| <= |s|
    && r == s[i..i + |r|]
    && (forall k :: 0 <= k < i ==> IsJsWhitespace(s[k]))
    && (forall k :: i + |r| <= k < |s| ==> IsJsWhitespace(s[k]))
  }

  /** `s.trim()`: a contiguous slice of `s` with neither end whitespace. */
  function Trim(s: string): (r: string)
    ensures TrimmedAt(s, r, LeadingSpace(s))
    ensures r == [] || (!IsJsWhitespace(r[0]) && !IsJsWhitespace(r[|r| - 1]))
  {
    var i := LeadingSpace(s);
    if i == |s| then []
    else
      var j := ContentEnd(s);
      assert i < j;
      s[i..j]
  }

  /** Trimming a trimmed string changes nothing. */
  lemma TrimIdempotent(s: string)
    ensures Trim(Trim(s)) == Trim(s)
  {
    var r := Trim(s);
    if r != [] {
      assert LeadingSpace(r) == 0;
      assert ContentEnd(r) == |r|;
    }
  }

  /** The trimmed string is empty exactly when the input is blank. */
  lemma TrimEmptyIffBlank(s: string)
    ensures Trim(s) == [] <==> Blank(s)
  {
    var r := Trim(s);
    if r != [] {
      assert s[LeadingSpace(s)] == r[0];
    }
  }

  // ---------------------------------------------------------------------------------------------
  // Decimal rendering of integers, `String(n)`
  // ---------------------------------------------------------------------------------------------

  predicate IsDigit(c: char) { '0' <= c <= '9' }

  function DigitChar(d: nat): (c: char)
    requires d < 10
    ensures IsDigit(c)
  {
    ('0' as int + d) as char
  }

  function NatToString(n: nat): (r: string)
    ensures |r| > 0
    ensures forall k :: 0 <= k < |r| ==> IsDigit(r[k])
    decreases n
  {
    if n < 10 then [DigitChar(n)] else NatToString(n / 10) + [DigitChar(n % 10)]
  }

  function IntToString(i: int): string {
    if i < 0 then "-" + NatToString(-i) else NatToString(i)
  }

  /** The number a string of decimal digits denotes. */
  function DigitsValue(s: string): nat
    requires forall k :: 0 <= k < |s| ==> IsDigit(s[k])
  {
    if s == [] then 0
    else
      assert IsDigit(s[|s| - 1]);
      DigitsValue(s[..|s| - 1]) * 10 + (s[|s| - 1] as int - '0' as int)
  }

  /** Reading back the decimal rendering of a natural number gives the number. */
  lemma {:induction false} DigitsRoundTrip(n: nat)
    ensures DigitsValue(NatToString(n)) == n
    decreases n
  {
    if n >= 10 {
      DigitsRoundTrip(n / 10);
      var s := NatToString(n);
      assert s[..|s| - 1] == NatToString(n / 10);
    }
  }
}
