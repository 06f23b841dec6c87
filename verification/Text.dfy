/** Decimal printing and splitting of strings, as far as the names of rounds, workers and paths need them. */
module Text {

  function Digit(d: nat): char
    requires d < 10
  {
    "0123456789"[d]
  }

  predicate IsDigit(c: char) {
    '0' <= c <= '9'
  }

  predicate AllDigits(s: string) {
    forall i :: 0 <= i < |s| ==> IsDigit(s[i])
  }

  /** What "%d" prints for a non-negative number. */
  function Decimal(n: nat): (s: string)
    ensures s != [] && AllDigits(s)
  {
    if n < 10 then [Digit(n)] else Decimal(n / 10) + [Digit(n % 10)]
  }

  function DigitValue(c: char): nat
    requires IsDigit(c)
  {
    c as int - '0' as int
  }

  function Value(s: string): nat
    requires AllDigits(s)
  {
    if s == [] then 0 else Value(s[..|s| - 1]) * 10 + DigitValue(s[|s| - 1])
  }

  lemma {:induction false} ValueOfDecimal(n: nat)
    ensures Value(Decimal(n)) == n
  {
    if n >= 10 {
      ValueOfDecimal(n / 10);
      assert Decimal(n)[..|Decimal(n)| - 1] == Decimal(n / 10);
    }
  }

  lemma DecimalInjective(m: nat, n: nat)
    requires Decimal(m) == Decimal(n)
    ensures m == n
  {
    ValueOfDecimal(m);
    ValueOfDecimal(n);
  }

  /** A string splits in one way only at the last occurrence of a character. */
  lemma SplitAtLast(s1: string, t1: string, s2: string, t2: string, c: char)
    requires s1 + [c] + t1 == s2 + [c] + t2 && c !in t1 && c !in t2
    ensures s1 == s2 && t1 == t2
  {
    var s := s1 + [c] + t1;
    assert s[|s1|] == c && s[|s2|] == c;
    assert forall k :: |s1| < k < |s| ==> s[k] == t1[k - |s1| - 1];
    assert forall k :: |s2| < k < |s| ==> s[k] == t2[k - |s2| - 1];
    assert |s1| == |s2|;
    assert s1 == s[..|s1|] && s2 == s[..|s2|] && t1 == s[|s1| + 1..] && t2 == s[|s2| + 1..];
  }

  /** ... and at the first. */
  lemma SplitAtFirst(s1: string, t1: string, s2: string, t2: string, c: char)
    requires s1 + [c] + t1 == s2 + [c] + t2 && c !in s1 && c !in s2
    ensures s1 == s2 && t1 == t2
  {
    var s := s1 + [c] + t1;
    assert s[|s1|] == c && s[|s2|] == c;
    assert forall k :: 0 <= k < |s1| ==> s[k] == s1[k];
    assert forall k :: 0 <= k < |s2| ==> s[k] == s2[k];
    assert |s1| == |s2|;
    assert s1 == s[..|s1|] && s2 == s[..|s2|] && t1 == s[|s1| + 1..] && t2 == s[|s2| + 1..];
  }
}
