/**
 * The pieces of Go's standard library that the modelled core relies on:
 * `strings.ToLower` (restricted to ASCII), the byte-wise order of strings,
 * `sort.Strings`, and `strconv.FormatInt(n, 10)` with its inverse.
 */
module TextOps {
  import opened Wrappers

  // ---------------------------------------------------------------------
  // ASCII case folding

  function LowerChar(ch: char): char {
    if 'A' <= ch <= 'Z' then (ch as int + 32) as char else ch
  }

  function UpperChar(ch: char): char {
    if 'a' <= ch <= 'z' then (ch as int - 32) as char else ch
  }

  /** `strings.ToLower`, for the ASCII letters. */
  function ToLower(s: string): string {
    if s == [] then [] else [LowerChar(s[0])] + ToLower(s[1..])
  }

  /** No upper-case ASCII letter occurs in `w`. */
  predicate IsLowerWord(w: string) {
    forall i :: 0 <= i < |w| ==> !('A' <= w[i] <= 'Z')
  }

  /**
   * Reference definition of a case-insensitive match against a lower-case
   * word: every character is either the word's own or its upper-case form.
   */
  predicate EqualFold(s: string, w: string) {
    |s| == |w| && forall i :: 0 <= i < |s| ==> s[i] == w[i] || s[i] == UpperChar(w[i])
  }

  /** Lower-casing `s` gives the lower-case word `w` exactly when `s` matches `w` ignoring case. */
  lemma {:induction false} ToLowerEqualsIff(s: string, w: string)
    requires IsLowerWord(w)
    ensures ToLower(s) == w <==> EqualFold(s, w)
  {
    if s == [] || w == [] {
    } else {
      assert IsLowerWord(w[1..]) by {
        forall i | 0 <= i < |w[1..]| ensures !('A' <= w[1..][i] <= 'Z') {
          assert w[1..][i] == w[i + 1];
        }
      }
      ToLowerEqualsIff(s[1..], w[1..]);
      assert LowerChar(s[0]) == w[0] <==> s[0] == w[0] || s[0] == UpperChar(w[0]);
      if EqualFold(s, w) {
        assert EqualFold(s[1..], w[1..]) by {
          forall i | 0 <= i < |s[1..]|
            ensures s[1..][i] == w[1..][i] || s[1..][i] == UpperChar(w[1..][i])
          {
            assert s[1..][i] == s[i + 1] && w[1..][i] == w[i + 1];
          }
        }
        assert ToLower(s) == [w[0]] + w[1..];
      }
      if ToLower(s) == w {
        assert w[1..] == ToLower(s[1..]);
        forall i | 0 <= i < |s| ensures s[i] == w[i] || s[i] == UpperChar(w[i]) {
          if i > 0 {
            assert s[i] == s[1..][i - 1] && w[i] == w[1..][i - 1];
          }
        }
      }
    }
  }

  // ---------------------------------------------------------------------
  // The order of Go strings. Go compares the UTF-8 bytes; for valid text
  // that is the lexicographic order of the code points, which is what
  // comparing Dafny characters gives.

  predicate Less(a: string, b: string)
    decreases |a|
  {
    if a == [] then b != []
    else if b == [] then false
    else a[0] < b[0] || (a[0] == b[0] && Less(a[1..], b[1..]))
  }

  predicate LessEq(a: string, b: string) {
    Less(a, b) || a == b
  }

  lemma {:induction false} LessTransitive(a: string, b: string, c: string)
    requires Less(a, b) && Less(b, c)
    ensures Less(a, c)
    decreases |a|
  {
    if a != [] && a[0] == b[0] && b[0] == c[0] {
      LessTransitive(a[1..], b[1..], c[1..]);
    }
  }

  lemma {:induction false} LessTotal(a: string, b: string)
    ensures Less(a, b) || a == b || Less(b, a)
    decreases |a|
  {
    if a != [] && b != [] && a[0] == b[0] {
      LessTotal(a[1..], b[1..]);
      if a[1..] == b[1..] {
        assert a == [a[0]] + a[1..] && b == [b[0]] + b[1..];
      }
    }
  }

  lemma LessAsymmetric(a: string, b: string)
    requires Less(a, b)
    ensures !Less(b, a)
  {
  }

  lemma LessEqTransitive(a: string, b: string, c: string)
    requires LessEq(a, b) && LessEq(b, c)
    ensures LessEq(a, c)
  {
    if a != b && b != c {
      LessTransitive(a, b, c);
    }
  }

  // ---------------------------------------------------------------------
  // sort.Strings

  /** Every element is at most every later one. */
  predicate Sorted(s: seq<string>) {
    forall i, j :: 0 <= i < j < |s| ==> LessEq(s[i], s[j])
  }

  /** Every element is below every later one; in particular no element repeats. */
  predicate StrictlyAscending(s: seq<string>) {
    forall i, j :: 0 <= i < j < |s| ==> Less(s[i], s[j])
  }

  lemma SortedTail(s: seq<string>)
    requires Sorted(s) && s != []
    ensures Sorted(s[1..])
    ensures forall y :: y in s[1..] ==> LessEq(s[0], y)
  {
  }

  lemma SortedCons(x: string, s: seq<string>)
    requires Sorted(s)
    requires forall y :: y in s ==> LessEq(x, y)
    ensures Sorted([x] + s)
  {
  }

  /** Inserts `x` into the sorted sequence `s`, before the first element not below it. */
  function Insert(x: string, s: seq<string>): (r: seq<string>)
    requires Sorted(s)
    ensures multiset(r) == multiset(s) + multiset{x}
    ensures Sorted(r)
  {
    if s == [] then [x]
    else if LessEq(x, s[0]) then
      SortedTail(s);
      assert forall y :: y in s ==> LessEq(x, y) by {
        forall y | y in s ensures LessEq(x, y) {
          if y != s[0] {
            LessEqTransitive(x, s[0], y);
          }
        }
      }
      SortedCons(x, s);
      assert s == [s[0]] + s[1..];
      [x] + s
    else
      SortedTail(s);
      var rest := Insert(x, s[1..]);
      LessTotal(x, s[0]);
      assert forall y :: y in rest ==> LessEq(s[0], y) by {
        forall y | y in rest ensures LessEq(s[0], y) {
          assert y in multiset(rest);
          assert y == x || y in multiset(s[1..]);
        }
      }
      SortedCons(s[0], rest);
      assert s == [s[0]] + s[1..];
      [s[0]] + rest
  }

  /** `sort.Strings`: a sorted permutation of its input. */
  function SortStrings(s: seq<string>): (r: seq<string>)
    ensures multiset(r) == multiset(s)
    ensures Sorted(r)
  {
    if s == [] then []
    else
      assert s == [s[0]] + s[1..];
      Insert(s[0], SortStrings(s[1..]))
  }

  lemma LessEqAntisymmetric(a: string, b: string)
    requires LessEq(a, b) && LessEq(b, a)
    ensures a == b
  {
    if a != b {
      LessAsymmetric(a, b);
    }
  }

  lemma SortedHeadIsLeast(s: seq<string>, y: string)
    requires Sorted(s) && y in s
    ensures LessEq(s[0], y)
  {
  }

  /** A sorted sequence is determined by its elements and their multiplicities. */
  lemma {:induction false} SortedPermutationsEqual(a: seq<string>, b: seq<string>)
    requires Sorted(a) && Sorted(b)
    requires multiset(a) == multiset(b)
    ensures a == b
    decreases |a|
  {
    if a != [] {
      assert a[0] in multiset(b) && b != [];
      assert b[0] in multiset(a);
      SortedHeadIsLeast(b, a[0]);
      SortedHeadIsLeast(a, b[0]);
      LessEqAntisymmetric(a[0], b[0]);
      SortedTail(a);
      SortedTail(b);
      assert a == [a[0]] + a[1..];
      assert b == [b[0]] + b[1..];
      assert multiset(a) == multiset{a[0]} + multiset(a[1..]);
      assert multiset(b) == multiset{b[0]} + multiset(b[1..]);
      assert multiset(a[1..]) == multiset(a) - multiset{a[0]};
      assert multiset(b[1..]) == multiset(b) - multiset{b[0]};
      SortedPermutationsEqual(a[1..], b[1..]);
    }
  }

  /** A sorted sequence whose elements come from a set, once each, is strictly ascending. */
  lemma SortedSetIsStrictlyAscending(s: seq<string>, keys: set<string>)
    requires Sorted(s)
    requires multiset(s) == multiset(keys)
    ensures StrictlyAscending(s)
  {
    forall i, j | 0 <= i < j < |s| ensures Less(s[i], s[j]) {
      SetElementsDistinct(s, keys, i, j);
    }
  }

  lemma SetElementsDistinct(s: seq<string>, keys: set<string>, i: nat, j: nat)
    requires multiset(s) == multiset(keys)
    requires i < j < |s|
    ensures s[i] != s[j]
  {
    var x := s[i];
    assert s == s[..j] + s[j..];
    assert multiset(s)[x] == multiset(s[..j])[x] + multiset(s[j..])[x];
    assert multiset(s[..j])[x] >= 1 by { assert s[..j][i] == x; }
    assert multiset(s)[x] <= 1;
    assert multiset(s[j..])[x] == 0;
    assert s[j..][0] == s[j];
  }

  // ---------------------------------------------------------------------
  // strconv.FormatInt(n, 10) and its inverse

  predicate IsDigit(ch: char) {
    '0' <= ch <= '9'
  }

  function DigitChar(d: int): (ch: char)
    requires 0 <= d < 10
  {
    ('0' as int + d) as char
  }

  /** The decimal digits of `n`, most significant first, without leading zeros. */
  function NatToDecimal(n: nat): string
    decreases n
  {
    if n < 10 then [DigitChar(n)] else NatToDecimal(n / 10) + [DigitChar(n % 10)]
  }

  /** `strconv.FormatInt(n, 10)`: a minus sign for negative numbers, then the digits. */
  function FormatInt(n: int): string {
    if n < 0 then "-" + NatToDecimal(-n) else NatToDecimal(n)
  }

  predicate AllDigits(s: string) {
    forall i :: 0 <= i < |s| ==> IsDigit(s[i])
  }

  /** The number a string of decimal digits denotes. */
  function DigitsValue(s: string): nat
    requires AllDigits(s)
  {
    if s == [] then 0
    else DigitsValue(s[..|s| - 1]) * 10 + (s[|s| - 1] as int - '0' as int)
  }

  /** `strconv.ParseInt(s, 10, ...)` without the range check: an optional minus, then digits. */
  function ParseInt(s: string): Option<int> {
    if |s| > 1 && s[0] == '-' && AllDigits(s[1..]) then Some(0 - DigitsValue(s[1..]))
    else if |s| > 0 && AllDigits(s) then Some(DigitsValue(s))
    else None
  }

  lemma {:induction false} NatToDecimalDigits(n: nat)
    ensures NatToDecimal(n) != [] && AllDigits(NatToDecimal(n))
    ensures DigitsValue(NatToDecimal(n)) == n
    ensures NatToDecimal(n)[0] == '0' ==> n == 0
    decreases n
  {
    if n >= 10 {
      NatToDecimalDigits(n / 10);
      var s := NatToDecimal(n);
      assert s[..|s| - 1] == NatToDecimal(n / 10);
    }
  }

  /** The decimal rendering of an integer parses back to that integer. */
  lemma FormatIntRoundTrip(n: int)
    ensures ParseInt(FormatInt(n)) == Some(n)
  {
    if n < 0 {
      NatToDecimalDigits(-n);
      var s := FormatInt(n);
      assert s[1..] == NatToDecimal(-n);
    } else {
      NatToDecimalDigits(n);
    }
  }
}
