/** The few string operations of Go's standard library the operator relies on. */
module Text {
  import opened Wrappers

  const MAX_INT64: int := 0x7fff_ffff_ffff_ffff

  predicate IsDigit(c: char) {
    '0' <= c <= '9'
  }

  predicate AllDigits(s: string) {
    forall i :: 0 <= i < |s| ==> IsDigit(s[i])
  }

  function DigitValue(c: char): nat
    requires IsDigit(c)
  {
    c as int - '0' as int
  }

  /** The number a run of decimal digits denotes. */
  function Value(digits: string): nat
    requires AllDigits(digits)
  {
    if digits == [] then 0 else Value(digits[..|digits| - 1]) * 10 + DigitValue(digits[|digits| - 1])
  }

  function Pow10(n: nat): nat {
    if n == 0 then 1 else 10 * Pow10(n - 1)
  }

  lemma {:induction false} ValueBound(digits: string)
    requires AllDigits(digits)
    ensures Value(digits) < Pow10(|digits|)
  {
    if digits != [] {
      ValueBound(digits[..|digits| - 1]);
    }
  }

  /** A run of digits denotes a positive number exactly when one of them is not zero. */
  lemma {:induction false} ValuePositive(digits: string)
    requires AllDigits(digits)
    ensures Value(digits) > 0 <==> exists i :: 0 <= i < |digits| && digits[i] != '0'
  {
    if digits != [] {
      var init := digits[..|digits| - 1];
      ValuePositive(init);
      if Value(init) > 0 {
        var i :| 0 <= i < |init| && init[i] != '0';
        assert digits[i] != '0';
      } else {
        assert forall i :: 0 <= i < |init| ==> digits[i] == init[i];
      }
    }
  }

  lemma {:induction false} Pow10Monotone(m: nat, n: nat)
    requires m <= n
    ensures 1 <= Pow10(m) <= Pow10(n)
    decreases n
  {
    if m < n {
      Pow10Monotone(m, n - 1);
    } else if 0 < m {
      Pow10Monotone(m - 1, n - 1);
    }
  }

  /** No run of at most 18 digits overflows a 64-bit integer. */
  lemma ShortDigitsFit(digits: string)
    requires AllDigits(digits) && |digits| <= 18
    ensures Value(digits) <= MAX_INT64
  {
    ValueBound(digits);
    Pow10Monotone(|digits|, 18);
    assert Pow10(9) == 1_000_000_000;
    assert Pow10(18) == 1_000_000_000_000_000_000;
  }

  /** strconv.Atoi: an optional sign, then decimal digits within a 64-bit integer. */
  function Atoi(s: string): Option<int> {
    var negative := |s| > 0 && s[0] == '-';
    var digits := if |s| > 0 && (s[0] == '-' || s[0] == '+') then s[1..] else s;
    if digits == [] || !AllDigits(digits) then None
    else
      var magnitude: int := Value(digits);
      var n := if negative then -magnitude else magnitude;
      if -MAX_INT64 - 1 <= n <= MAX_INT64 then Some(n) else None
  }

  /** What strings.Cut(s, c) leaves before the first c (all of s when there is none). */
  function Before(s: string, c: char): string {
    if s == [] || s[0] == c then [] else [s[0]] + Before(s[1..], c)
  }

  lemma {:induction false} BeforeIsPrefix(s: string, c: char)
    ensures Before(s, c) <= s && c !in Before(s, c)
    ensures Before(s, c) == s || s[|Before(s, c)|] == c
  {
    if s != [] && s[0] != c {
      BeforeIsPrefix(s[1..], c);
    }
  }

  lemma {:induction false} BeforeAt(head: string, c: char, tail: string)
    requires c !in head
    ensures Before(head + [c] + tail, c) == head
  {
    var s := head + [c] + tail;
    if head != [] {
      assert s[1..] == head[1..] + [c] + tail;
      BeforeAt(head[1..], c, tail);
    }
  }

  lemma {:induction false} BeforeWithout(s: string, c: char)
    requires c !in s
    ensures Before(s, c) == s
  {
    if s != [] {
      BeforeWithout(s[1..], c);
    }
  }

  /** strings.LastIndex for a single character; -1 when there is none. */
  function LastIndex(s: string, c: char): (i: int)
    ensures -1 <= i < |s|
    ensures i >= 0 ==> s[i] == c && c !in s[i + 1..]
    ensures i < 0 ==> c !in s
  {
    if s == [] then -1
    else if s[|s| - 1] == c then |s| - 1
    else
      var i := LastIndex(s[..|s| - 1], c);
      assert i >= 0 ==> s[i + 1..] == s[..|s| - 1][i + 1..] + [s[|s| - 1]];
      i
  }

  /** A glob's "*" does not match a leading dot, and ls leaves such names out. */
  predicate Hidden(name: string) {
    name != "" && name[0] == '.'
  }

  predicate HasSuffix(s: string, suffix: string) {
    |suffix| <= |s| && s[|s| - |suffix|..] == suffix
  }

  function TrimSuffix(s: string, suffix: string): string {
    if HasSuffix(s, suffix) then s[..|s| - |suffix|] else s
  }
}
