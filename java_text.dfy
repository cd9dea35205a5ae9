/**
 * The parts of java.lang and java.util that command arguments rely on for
 * names: `String.compareTo`, `String.hashCode`, `Boolean.hashCode`,
 * `Objects.hash`, and a regular-expression search for an ASCII letter or
 * digit. A `char` stands for one UTF-16 code unit.
 */
module JavaText {
  import opened JavaNumbers

  /** The sign of an integer: -1, 0 or 1. */
  function Sign(x: int): (s: int)
    ensures s == -1 || s == 0 || s == 1
    ensures (s < 0 <==> x < 0) && (s == 0 <==> x == 0)
  {
    if x < 0 then -1 else if x == 0 then 0 else 1
  }

  /** `k` is the smallest index at which `a` and `b` hold different characters. */
  predicate FirstDifferenceAt(a: string, b: string, k: nat) {
    k < |a| && k < |b| && a[..k] == b[..k] && a[k] != b[k]
  }

  /** One of `a` and `b` is a prefix of the other. */
  predicate OneIsPrefix(a: string, b: string) {
    (|a| <= |b| && a == b[..|a|]) || (|b| <= |a| && b == a[..|b|])
  }

  /**
   * `a.compareTo(b)`: where the strings first hold different characters,
   * the difference of those two characters; where one is a prefix of the
   * other, the difference of the lengths.
   */
  function CompareStrings(a: string, b: string): (r: int)
    ensures forall k: nat :: FirstDifferenceAt(a, b, k) ==> r == a[k] as int - b[k] as int
    ensures OneIsPrefix(a, b) ==> r == |a| - |b|
  {
    if a == [] || b == [] then |a| - |b|
    else if a[0] != b[0] then a[0] as int - b[0] as int
    else
      var r := CompareStrings(a[1..], b[1..]);
      forall k: nat | FirstDifferenceAt(a, b, k) ensures r == a[k] as int - b[k] as int {
        assert k != 0;
        assert a[1..][..k - 1] == a[1..k] && b[1..][..k - 1] == b[1..k];
        assert a[1..k] == a[..k][1..] && b[1..k] == b[..k][1..];
        assert FirstDifferenceAt(a[1..], b[1..], k - 1);
      }
      assert OneIsPrefix(a, b) ==> OneIsPrefix(a[1..], b[1..]);
      r
  }

  /** Swapping the operands negates the comparison. */
  lemma {:induction false} CompareStringsAntisymmetric(a: string, b: string)
    ensures CompareStrings(b, a) == -CompareStrings(a, b)
  {
    if a != [] && b != [] && a[0] == b[0] {
      CompareStringsAntisymmetric(a[1..], b[1..]);
    }
  }

  /** Strings compare as 0 exactly when they are equal. */
  lemma {:induction false} CompareStringsZeroIffEqual(a: string, b: string)
    ensures CompareStrings(a, b) == 0 <==> a == b
  {
    if a != [] && b != [] && a[0] == b[0] {
      CompareStringsZeroIffEqual(a[1..], b[1..]);
      assert a == [a[0]] + a[1..] && b == [b[0]] + b[1..];
    }
  }

  /** "Less than" by `compareTo` is transitive. */
  lemma {:induction false} CompareStringsTransitive(a: string, b: string, c: string)
    requires CompareStrings(a, b) < 0 && CompareStrings(b, c) < 0
    ensures CompareStrings(a, c) < 0
  {
    if a != [] && b != [] && c != [] && a[0] == b[0] && b[0] == c[0] {
      CompareStringsTransitive(a[1..], b[1..], c[1..]);
    }
  }

  /** 31 raised to the power `e`. */
  function Pow31(e: nat): nat {
    if e == 0 then 1 else 31 * Pow31(e - 1)
  }

  /** The exact value s[0]*31^(n-1) + s[1]*31^(n-2) + ... + s[n-1], with n = |s|. */
  function HashPolynomial(s: string): int {
    if s == [] then 0 else s[0] as int * Pow31(|s| - 1) + HashPolynomial(s[1..])
  }

  /** The polynomial is the one Horner's rule computes, last character last. */
  lemma {:induction false} HashPolynomialHorner(s: string)
    requires s != []
    ensures HashPolynomial(s) == 31 * HashPolynomial(s[..|s| - 1]) + s[|s| - 1] as int
  {
    var n := |s|;
    if n > 1 {
      HashPolynomialHorner(s[1..]);
      assert s[1..][..n - 2] == s[..n - 1][1..];
      assert s[0] as int * Pow31(n - 1) == 31 * (s[0] as int * Pow31(n - 2));
    }
  }

  /**
   * `s.hashCode()`: h := 31 * h + c over the characters in `int` arithmetic,
   * which is the hash polynomial truncated once to an `int`.
   */
  function StringHash(s: string): (h: Int32)
    ensures h == ToInt32(HashPolynomial(s))
  {
    if s == [] then 0
    else
      var prefix := s[..|s| - 1];
      var h := ToInt32(31 * StringHash(prefix) + s[|s| - 1] as int);
      WrapThenScale(31, HashPolynomial(prefix), s[|s| - 1] as int);
      HashPolynomialHorner(s);
      h
  }

  /** `Boolean.hashCode(b)`: one of two fixed primes, telling the two values apart. */
  function BooleanHash(b: bool): (h: Int32)
    ensures h == 1231 || h == 1237
    ensures h == 1231 <==> b
  {
    if b then 1231 else 1237
  }

  /**
   * `Objects.hash(x, y)` given the hash codes of x and y: 31 * (31 * 1 + hx) + hy
   * in `int` arithmetic, which is 961 + 31 * hx + hy truncated once.
   */
  function ObjectsHash2(hx: Int32, hy: Int32): (h: Int32)
    ensures h == ToInt32(961 + 31 * hx + hy)
  {
    WrapThenScale(31, 31 * 1 + hx, hy);
    ToInt32(31 * ToInt32(31 * 1 + hx) + hy)
  }

  predicate IsAsciiAlphanumeric(c: char) {
    'A' <= c <= 'Z' || 'a' <= c <= 'z' || '0' <= c <= '9'
  }

  /**
   * `Pattern.compile("[A-Za-z0-9]+").asPredicate().test(s)`. `asPredicate`
   * searches (`Matcher.find`), it does not match the whole string: the test
   * passes as soon as one ASCII letter or digit occurs anywhere in `s`.
   */
  function NamePatternFinds(s: string): (found: bool)
    ensures found <==> exists i :: 0 <= i < |s| && IsAsciiAlphanumeric(s[i])
  {
    if s == [] then false
    else if IsAsciiAlphanumeric(s[0]) then true
    else
      var found := NamePatternFinds(s[1..]);
      assert forall i :: 1 <= i < |s| ==> s[i] == s[1..][i - 1];
      found
  }

  /** What the name pattern would accept if the whole string had to match it. */
  predicate NamePatternMatchesEntirely(s: string) {
    |s| > 0 && forall i :: 0 <= i < |s| ==> IsAsciiAlphanumeric(s[i])
  }

  /**
   * The search accepts every name a whole-string match accepts, and more:
   * "a-b" passes the search although it is not alphanumeric, while "" and
   * "--" fail both.
   */
  lemma NamePatternFindsExamples()
    ensures forall s :: NamePatternMatchesEntirely(s) ==> NamePatternFinds(s)
    ensures NamePatternFinds("a-b") && !NamePatternMatchesEntirely("a-b")
    ensures !NamePatternFinds("") && !NamePatternFinds("--")
  {
    assert IsAsciiAlphanumeric("a-b"[0]);
    assert !IsAsciiAlphanumeric("a-b"[1]);
    forall s | NamePatternMatchesEntirely(s) ensures NamePatternFinds(s) {
      assert IsAsciiAlphanumeric(s[0]);
    }
    assert !IsAsciiAlphanumeric("--"[0]) && !IsAsciiAlphanumeric("--"[1]);
  }
}
