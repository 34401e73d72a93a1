/**
 * Character and string primitives that the analytics use from the Kotlin
 * standard library: digit filtering and decimal values, the whitespace class
 * of a `\s` regular expression, case-insensitive search, and the natural
 * (lexicographic) order of strings with a sort for lists of date keys.
 */
module Text {

  // ---------------------------------------------------------------------------
  // Digits and decimal values
  // ---------------------------------------------------------------------------

  predicate IsDigit(c: char) {
    '0' <= c <= '9'
  }

  predicate AllDigits(s: string) {
    forall i :: 0 <= i < |s| ==> IsDigit(s[i])
  }

  function DigitValue(c: char): (d: nat)
    requires IsDigit(c)
    ensures d < 10
  {
    (c as int) - ('0' as int)
  }

  function DigitChar(d: nat): (c: char)
    requires d < 10
    ensures IsDigit(c) && DigitValue(c) == d
  {
    (('0' as int) + d) as char
  }

  /** The digits of `s`, in order: `s.filter { it.isDigit() }`. */
  function DigitsOf(s: string): (d: string)
    ensures AllDigits(d)
    ensures |d| <= |s|
  {
    if |s| == 0 then []
    else (if IsDigit(s[0]) then [s[0]] else []) + DigitsOf(s[1..])
  }

  /** The value of a string of decimal digits, most significant first. */
  function DecimalValue(d: string): nat
    requires AllDigits(d)
  {
    if |d| == 0 then 0 else DecimalValue(d[..|d| - 1]) * 10 + DigitValue(d[|d| - 1])
  }

  /** The decimal text of `n`, without sign or leading zeros. */
  function NatToString(n: nat): (s: string)
    ensures AllDigits(s) && |s| > 0
  {
    if n < 10 then [DigitChar(n)] else NatToString(n / 10) + [DigitChar(n % 10)]
  }

  /** The decimal text of an `Int` as Kotlin's string templates print it. */
  function IntToString(n: int): string {
    if n < 0 then "-" + NatToString(-n) else NatToString(n)
  }

  lemma {:induction false} DecimalValueOfNatToString(n: nat)
    ensures DecimalValue(NatToString(n)) == n
  {
    var s := NatToString(n);
    if n >= 10 {
      DecimalValueOfNatToString(n / 10);
      assert s[..|s| - 1] == NatToString(n / 10);
    }
  }

  lemma {:induction false} DigitsOfAppend(a: string, b: string)
    ensures DigitsOf(a + b) == DigitsOf(a) + DigitsOf(b)
  {
    if |a| > 0 {
      assert (a + b)[1..] == a[1..] + b;
      DigitsOfAppend(a[1..], b);
    } else {
      assert a + b == b;
    }
  }

  lemma {:induction false} DigitsOfDigits(d: string)
    requires AllDigits(d)
    ensures DigitsOf(d) == d
  {
    if |d| > 0 {
      DigitsOfDigits(d[1..]);
    }
  }

  lemma {:induction false} DigitsOfNoDigits(s: string)
    requires forall i :: 0 <= i < |s| ==> !IsDigit(s[i])
    ensures DigitsOf(s) == []
  {
    if |s| > 0 {
      DigitsOfNoDigits(s[1..]);
    }
  }

  /** A suffix of a text without digits has no digits either. */
  lemma DigitsOfSuffix(s: string, k: nat)
    requires k <= |s|
    ensures (forall i :: 0 <= i < |s| ==> !IsDigit(s[i])) ==> DigitsOf(s[k..]) == []
  {
    if forall i :: 0 <= i < |s| ==> !IsDigit(s[i]) {
      DigitsOfNoDigits(s[k..]);
    }
  }

  /** The length of the longest prefix of `s` made of digits. */
  function LeadingDigitCount(s: string): (k: nat)
    ensures k <= |s| && AllDigits(s[..k])
    ensures k < |s| ==> !IsDigit(s[k])
  {
    if |s| == 0 || !IsDigit(s[0]) then 0
    else
      var k := 1 + LeadingDigitCount(s[1..]);
      assert s[..k] == [s[0]] + s[1..][..k - 1];
      k
  }

  lemma {:induction false} LeadingDigitCountOf(d: string, rest: string)
    requires AllDigits(d)
    requires |rest| > 0 ==> !IsDigit(rest[0])
    ensures LeadingDigitCount(d + rest) == |d|
  {
    if |d| > 0 {
      assert (d + rest)[1..] == d[1..] + rest;
      LeadingDigitCountOf(d[1..], rest);
    } else {
      assert d + rest == rest;
    }
  }

  // ---------------------------------------------------------------------------
  // Whitespace and separators
  // ---------------------------------------------------------------------------

  /** The characters a `\s` in a Java regular expression matches. */
  predicate IsSpace(c: char) {
    c == ' ' || c == '\t' || c == '\n' || c == '\U{B}' || c == '\U{C}' || c == '\r'
  }

  predicate AllSpaces(s: string) {
    forall i :: 0 <= i < |s| ==> IsSpace(s[i])
  }

  /** The length of the longest prefix of `s` made of whitespace. */
  function LeadingSpaceCount(s: string): (k: nat)
    ensures k <= |s| && AllSpaces(s[..k])
    ensures k < |s| ==> !IsSpace(s[k])
  {
    if |s| == 0 || !IsSpace(s[0]) then 0
    else
      var k := 1 + LeadingSpaceCount(s[1..]);
      assert s[..k] == [s[0]] + s[1..][..k - 1];
      k
  }

  lemma {:induction false} LeadingSpaceCountOf(w: string, rest: string)
    requires AllSpaces(w)
    requires |rest| > 0 ==> !IsSpace(rest[0])
    ensures LeadingSpaceCount(w + rest) == |w|
  {
    if |w| > 0 {
      assert (w + rest)[1..] == w[1..] + rest;
      LeadingSpaceCountOf(w[1..], rest);
    } else {
      assert w + rest == rest;
    }
  }

  predicate IsDash(c: char) {
    c == '-'
  }

  /** The delimiter of `split("x", ignoreCase = true)`. */
  predicate IsTimesSign(c: char) {
    c == 'x' || c == 'X'
  }

  /**
   * The last piece of `s.split(sep)`: everything after the last character
   * that `sep` accepts, or all of `s` when there is none.
   */
  function LastSegment(s: string, sep: char -> bool): (seg: string)
    ensures |seg| <= |s| && seg == s[|s| - |seg|..]
    ensures forall i :: 0 <= i < |seg| ==> !sep(seg[i])
    ensures |seg| < |s| ==> sep(s[|s| - |seg| - 1])
  {
    if |s| == 0 then []
    else if sep(s[|s| - 1]) then []
    else LastSegment(s[..|s| - 1], sep) + [s[|s| - 1]]
  }

  lemma {:induction false} LastSegmentAfter(prefix: string, c: char, seg: string, sep: char -> bool)
    requires sep(c)
    requires forall i :: 0 <= i < |seg| ==> !sep(seg[i])
    ensures LastSegment(prefix + [c] + seg, sep) == seg
  {
    if |seg| > 0 {
      assert prefix + [c] + seg == (prefix + [c] + seg[..|seg| - 1]) + [seg[|seg| - 1]];
      LastSegmentAfter(prefix, c, seg[..|seg| - 1], sep);
    }
  }

  lemma {:induction false} LastSegmentWithoutSeparator(s: string, sep: char -> bool)
    requires forall i :: 0 <= i < |s| ==> !sep(s[i])
    ensures LastSegment(s, sep) == s
  {
  }

  // ---------------------------------------------------------------------------
  // Case-insensitive search
  // ---------------------------------------------------------------------------

  /** Upper-casing of the ASCII and Latin-1 lower-case letters. */
  function UpperChar(c: char): char {
    if 'a' <= c <= 'z' then ((c as int) - 32) as char
    else if '\U{E0}' <= c <= '\U{FE}' && c != '\U{F7}' then ((c as int) - 32) as char
    else c
  }

  /** `Char.equals(other, ignoreCase = true)`. */
  predicate CharEqualsIgnoreCase(a: char, b: char) {
    a == b || UpperChar(a) == UpperChar(b)
  }

  predicate RegionMatchesIgnoreCase(s: string, start: nat, p: string)
    requires start + |p| <= |s|
  {
    forall j :: 0 <= j < |p| ==> CharEqualsIgnoreCase(s[start + j], p[j])
  }

  /** `s.contains(p, ignoreCase = true)`. */
  predicate ContainsIgnoreCase(s: string, p: string)
    ensures ContainsIgnoreCase(s, p) ==> |p| <= |s|
  {
    exists i :: 0 <= i <= |s| - |p| && RegionMatchesIgnoreCase(s, i, p)
  }

  lemma ContainsItself(s: string)
    ensures ContainsIgnoreCase(s, s)
  {
    assert RegionMatchesIgnoreCase(s, 0, s);
  }

  // ---------------------------------------------------------------------------
  // Natural order of strings
  // ---------------------------------------------------------------------------

  /**
   * `a.compareTo(b) < 0`: the first differing character decides, and a proper
   * prefix comes first.
   */
  predicate StrLess(a: string, b: string)
    ensures |a| < |b| && a == b[..|a|] ==> StrLess(a, b)
  {
    if |a| == 0 then |b| > 0
    else if |b| == 0 then false
    else if a[0] != b[0] then a[0] < b[0]
    else StrLess(a[1..], b[1..])
  }

  lemma {:induction false} StrLessIrreflexive(a: string)
    ensures !StrLess(a, a)
  {
    if |a| > 0 {
      StrLessIrreflexive(a[1..]);
    }
  }

  lemma {:induction false} StrLessAsymmetric(a: string, b: string)
    requires StrLess(a, b)
    ensures !StrLess(b, a)
  {
    if |a| > 0 && |b| > 0 && a[0] == b[0] {
      StrLessAsymmetric(a[1..], b[1..]);
    }
  }

  lemma {:induction false} StrLessTransitive(a: string, b: string, c: string)
    requires StrLess(a, b) && StrLess(b, c)
    ensures StrLess(a, c)
  {
    if |a| > 0 && |b| > 0 && |c| > 0 && a[0] == b[0] && b[0] == c[0] {
      StrLessTransitive(a[1..], b[1..], c[1..]);
    }
  }

  lemma {:induction false} StrLessTotal(a: string, b: string)
    requires a != b
    ensures StrLess(a, b) || StrLess(b, a)
  {
    if |a| > 0 && |b| > 0 && a[0] == b[0] {
      assert a == [a[0]] + a[1..] && b == [b[0]] + b[1..];
      StrLessTotal(a[1..], b[1..]);
    }
  }

  /** Strictly increasing in the natural order of strings. */
  predicate StrictlyAscending(s: seq<string>) {
    forall i, j :: 0 <= i < j < |s| ==> StrLess(s[i], s[j])
  }

  lemma StrictlyAscendingCons(x: string, s: seq<string>)
    requires StrictlyAscending(s)
    requires forall y :: y in s ==> StrLess(x, y)
    ensures StrictlyAscending([x] + s)
  {
    var t := [x] + s;
    forall i, j | 0 <= i < j < |t|
      ensures StrLess(t[i], t[j])
    {
      if i > 0 {
        assert t[i] == s[i - 1] && t[j] == s[j - 1];
      } else {
        assert t[j] in s;
      }
    }
  }

  /** Inserts a key before the first key above it. */
  function InsertAscending(x: string, s: seq<string>): (r: seq<string>)
    ensures |r| == |s| + 1
  {
    if |s| == 0 || StrLess(x, s[0]) then [x] + s
    else [s[0]] + InsertAscending(x, s[1..])
  }

  /** Inserting adds the key and loses none. */
  lemma {:induction false} InsertAscendingPermutes(x: string, s: seq<string>)
    ensures multiset(InsertAscending(x, s)) == multiset(s) + multiset{x}
  {
    if |s| > 0 && !StrLess(x, s[0]) {
      InsertAscendingPermutes(x, s[1..]);
      assert s == [s[0]] + s[1..];
    }
  }

  /** Inserting a new key into a strictly ascending list keeps it strictly ascending. */
  lemma {:induction false} InsertAscendingSorted(x: string, s: seq<string>)
    requires StrictlyAscending(s) && x !in s
    ensures StrictlyAscending(InsertAscending(x, s))
  {
    if |s| == 0 {
    } else if StrLess(x, s[0]) {
      StrictlyAscendingAfterHead(x, s);
    } else {
      StrLessTotal(x, s[0]);
      var t := InsertAscending(x, s[1..]);
      assert s == [s[0]] + s[1..];
      InsertAscendingSorted(x, s[1..]);
      InsertAscendingPermutes(x, s[1..]);
      assert forall y :: y in t ==> StrLess(s[0], y) by {
        forall y | y in t ensures StrLess(s[0], y) {
          assert y in multiset(t);
          if y != x {
            assert y in multiset(s[1..]);
          }
        }
      }
      StrictlyAscendingCons(s[0], t);
    }
  }

  lemma StrictlyAscendingAfterHead(x: string, s: seq<string>)
    requires StrictlyAscending(s) && |s| > 0 && StrLess(x, s[0])
    ensures StrictlyAscending([x] + s)
  {
    forall y | y in s ensures StrLess(x, y) {
      if y != s[0] {
        StrLessTransitive(x, s[0], y);
      }
    }
    StrictlyAscendingCons(x, s);
  }

  /** `sortedBy { it }`, as an insertion sort. */
  function SortAscending(s: seq<string>): (r: seq<string>)
    ensures |r| == |s|
  {
    if |s| == 0 then [] else InsertAscending(s[0], SortAscending(s[1..]))
  }

  /** Sorting keeps every key, as often as it occurs. */
  lemma {:induction false} SortAscendingPermutes(s: seq<string>)
    ensures multiset(SortAscending(s)) == multiset(s)
  {
    if |s| > 0 {
      SortAscendingPermutes(s[1..]);
      InsertAscendingPermutes(s[0], SortAscending(s[1..]));
      assert s == [s[0]] + s[1..];
    }
  }

  /** Sorted distinct keys are strictly ascending. */
  lemma {:induction false} SortAscendingSorted(s: seq<string>)
    requires forall i, j :: 0 <= i < j < |s| ==> s[i] != s[j]
    ensures StrictlyAscending(SortAscending(s))
  {
    if |s| > 0 {
      var t := SortAscending(s[1..]);
      SortAscendingSorted(s[1..]);
      SortAscendingPermutes(s[1..]);
      assert s == [s[0]] + s[1..];
      assert s[0] !in multiset(t);
      InsertAscendingSorted(s[0], t);
    }
  }
}
