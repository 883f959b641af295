/** Decimal renderings of integers, as Rust's `Display` prints them. */
module Decimal {

  predicate IsDigit(c: char) { '0' <= c <= '9' }

  function DigitChar(d: nat): (c: char)
    requires d < 10
    ensures IsDigit(c) && DigitValue(c) == d
  {
    ((d + 48) as char)
  }

  function DigitValue(c: char): nat
    requires IsDigit(c)
  {
    c as int - 48
  }

  function Digits(n: nat): string {
    if n < 10 then [DigitChar(n)] else Digits(n / 10) + [DigitChar(n % 10)]
  }

  ghost predicate AllDigits(s: string) {
    forall i :: 0 <= i < |s| ==> IsDigit(s[i])
  }

  function Value(s: string): nat
    requires AllDigits(s)
  {
    if s == [] then 0 else Value(s[..|s| - 1]) * 10 + DigitValue(s[|s| - 1])
  }

  function Render(n: int): string {
    if n < 0 then "-" + Digits(-n) else Digits(n)
  }

  lemma {:induction false} DigitsRoundTrip(n: nat)
    ensures |Digits(n)| > 0 && AllDigits(Digits(n))
    ensures Value(Digits(n)) == n
    ensures n > 0 ==> Digits(n)[0] != '0'
    ensures n == 0 ==> Digits(n) == "0"
  {
    if n >= 10 {
      DigitsRoundTrip(n / 10);
      var s := Digits(n);
      assert s[..|s| - 1] == Digits(n / 10);
    } else {
      assert Digits(n) == [DigitChar(n)];
      assert Value([DigitChar(n)]) == Value([DigitChar(n)][..0]) * 10 + n;
    }
  }

  /** A decimal without leading zeros is the one of its value. */
  lemma {:induction false} ValueRoundTrip(s: string)
    requires s != [] && AllDigits(s) && (s[0] == '0' ==> |s| == 1)
    ensures Digits(Value(s)) == s
    ensures |s| > 1 ==> Value(s) >= 10
    ensures s[0] != '0' ==> Value(s) > 0
  {
    var init := s[..|s| - 1];
    if |s| == 1 {
      assert s == [s[0]] && s[..0] == [];
    } else {
      ValueRoundTrip(init);
      assert s == init + [s[|s| - 1]];
    }
  }

  lemma RenderInjective(a: int, b: int)
    requires Render(a) == Render(b)
    ensures a == b
  {
    DigitsRoundTrip(if a < 0 then -a else a);
    DigitsRoundTrip(if b < 0 then -b else b);
    if a < 0 && b < 0 {
      assert Digits(-a) == Render(a)[1..] && Digits(-b) == Render(b)[1..];
    }
  }

  lemma RenderHasNoColon(n: int)
    ensures ':' !in Render(n)
  {
    DigitsRoundTrip(if n < 0 then -n else n);
  }

  lemma RenderIsShown(n: int)
    ensures |Render(n)| > 0
    ensures forall i :: 0 <= i < |Render(n)| ==> IsDigit(Render(n)[i]) || Render(n)[i] == '-'
  {
    DigitsRoundTrip(if n < 0 then -n else n);
  }
}
