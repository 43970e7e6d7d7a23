/** Decimal numerals, written and read. */
module Decimals {
  import opened GateTypes

  function Digit(d: nat): char
    requires d < 10
  {
    "0123456789"[d]
  }

  function Decimal(n: nat): string {
    if n < 10 then [Digit(n)] else Decimal(n / 10) + [Digit(n % 10)]
  }

  function DigitValue(c: char): Option<nat> {
    if '0' <= c <= '9' then Some(c as nat - '0' as nat) else None
  }

  /** A non-empty run of digits, most significant first. */
  function Digits(s: string): Option<nat> {
    if s == [] then None
    else
      var last := DigitValue(s[|s| - 1]);
      if |s| == 1 then last
      else
        var front := Digits(s[..|s| - 1]);
        if front.Some? && last.Some? then Some(front.value * 10 + last.value) else None
  }

  lemma {:induction false} DecimalParses(n: nat)
    ensures Digits(Decimal(n)) == Some(n) && Decimal(n) != [] && Decimal(n)[0] != '+'
  {
    if n < 10 {
      DigitsRoundTrip(n);
    } else {
      DecimalParses(n / 10);
      DigitsRoundTrip(n % 10);
      assert Decimal(n)[..|Decimal(n)| - 1] == Decimal(n / 10);
    }
  }

  lemma DigitsRoundTrip(d: nat)
    requires d < 10
    ensures DigitValue(Digit(d)) == Some(d) && Digit(d) != '+'
  {
  }

  /** Numerals are digits only. */
  lemma {:induction false} DecimalHasNo(n: nat, c: char)
    requires !('0' <= c <= '9')
    ensures c !in Decimal(n)
  {
    if n >= 10 {
      DecimalHasNo(n / 10, c);
    }
  }

  lemma DecimalIsInjective(m: nat, n: nat)
    requires Decimal(m) == Decimal(n)
    ensures m == n
  {
    DecimalParses(m);
    DecimalParses(n);
  }
}
