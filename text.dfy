/**
 * Character-level helpers: the whitespace that `str.strip()` removes, and
 * runs of decimal digits as the regular expression class `[0-9]` and `int()` see them.
 */
module Text {

  /** The characters `str.strip()` removes from byte strings: space, \t, \n, \r, \v, \f. */
  predicate IsSpace(c: char) {
    c == ' ' || c == '\t' || c == '\n' || c == '\r' || c == '\U{B}' || c == '\U{C}'
  }

  /** The regular-expression class `[0-9]`. */
  predicate IsDigit(c: char) {
    '0' <= c <= '9'
  }

  predicate AllDigits(s: string) {
    forall k :: 0 <= k < |s| ==> IsDigit(s[k])
  }

  /** The regular-expression class `[^:]`, repeated. */
  predicate NoColon(s: string) {
    forall k :: 0 <= k < |s| ==> s[k] != ':'
  }

  /** Leading whitespace removed. */
  function TrimLeft(s: string): (r: string)
    ensures |r| <= |s|
  {
    if s != [] && IsSpace(s[0]) then TrimLeft(s[1..]) else s
  }

  /** Trailing whitespace removed. */
  function TrimRight(s: string): string
  {
    if s != [] && IsSpace(s[|s| - 1]) then TrimRight(s[..|s| - 1]) else s
  }

  /** TrimLeft(s) is the longest suffix of s that does not start with whitespace. */
  lemma {:induction false} TrimLeftSpec(s: string)
    ensures var r := TrimLeft(s);
            |r| <= |s| && r == s[|s| - |r|..] && (r == [] || !IsSpace(r[0])) &&
            forall k :: 0 <= k < |s| - |r| ==> IsSpace(s[k])
  {
    if s != [] && IsSpace(s[0]) {
      TrimLeftSpec(s[1..]);
      var r := TrimLeft(s);
      assert forall k :: 1 <= k < |s| - |r| ==> s[k] == s[1..][k - 1];
    }
  }

  /** TrimRight(s) is the longest prefix of s that does not end with whitespace. */
  lemma {:induction false} TrimRightSpec(s: string)
    ensures var r := TrimRight(s);
            |r| <= |s| && r == s[..|r|] && (r == [] || !IsSpace(r[|r| - 1])) &&
            forall k :: |r| <= k < |s| ==> IsSpace(s[k])
  {
    if s != [] && IsSpace(s[|s| - 1]) {
      TrimRightSpec(s[..|s| - 1]);
      var r := TrimRight(s);
      assert forall k :: |r| <= k < |s| - 1 ==> s[k] == s[..|s| - 1][k];
    }
  }

  /** r occupies s[a..a + |r|] and everything of s around it is whitespace. */
  predicate StrippedAt(s: string, r: string, a: nat) {
    a + |r| <= |s| && r == s[a..a + |r|] &&
    (forall k :: 0 <= k < a ==> IsSpace(s[k])) &&
    (forall k :: a + |r| <= k < |s| ==> IsSpace(s[k]))
  }

  /** `line.strip()`: leading and trailing whitespace removed. */
  function Strip(s: string): string
  {
    TrimRight(TrimLeft(s))
  }

  /** Strip(s) sits in s right after the leading whitespace, with only whitespace around it. */
  lemma StripSlice(s: string)
    ensures StrippedAt(s, Strip(s), |s| - |TrimLeft(s)|)
  {
    var t := TrimLeft(s);
    var r := TrimRight(t);
    var a := |s| - |t|;
    TrimLeftSpec(s);
    TrimRightSpec(t);
    assert r == s[a..a + |r|];
    forall k | a + |r| <= k < |s| ensures IsSpace(s[k]) {
      assert s[k] == t[k - a];
    }
  }

  /**
   * Strip(s) is the slice of s left once all leading and all trailing
   * whitespace is removed: it neither starts nor ends with whitespace, and it
   * is empty exactly when s is all whitespace.
   */
  lemma StripSpec(s: string)
    ensures var r := Strip(s);
            |r| <= |s| &&
            (r == [] || (!IsSpace(r[0]) && !IsSpace(r[|r| - 1]))) &&
            (r == [] <==> forall k :: 0 <= k < |s| ==> IsSpace(s[k])) &&
            exists a :: StrippedAt(s, r, a)
  {
    var t := TrimLeft(s);
    var r := TrimRight(t);
    var a := |s| - |t|;
    StripSlice(s);
    TrimLeftSpec(s);
    TrimRightSpec(t);
    if r != [] {
      assert r[0] == t[0];
      assert s[a] == r[0];
    }
  }

  /** The value of a decimal numeral, as `int()` computes it (leading zeros allowed). */
  function DecimalValue(s: string): nat
    requires AllDigits(s)
  {
    if s == [] then 0
    else DecimalValue(s[..|s| - 1]) * 10 + (s[|s| - 1] as int - '0' as int)
  }

  function Pow10(n: nat): (r: nat)
    ensures r >= 1
  {
    if n == 0 then 1 else 10 * Pow10(n - 1)
  }

  /** An n-digit numeral denotes a value below 10^n. */
  lemma {:induction false} DecimalValueBound(s: string)
    requires AllDigits(s)
    ensures DecimalValue(s) < Pow10(|s|)
  {
    if s != [] {
      DecimalValueBound(s[..|s| - 1]);
    }
  }

  /** The text a pipe delivers when its remaining lines are read in one go. */
  function Concat(lines: seq<string>): string
  {
    if lines == [] then [] else lines[0] + Concat(lines[1..])
  }
}
