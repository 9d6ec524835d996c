/** Decimal printing and the parsing of unsigned integers as `str::parse` does it. */
module Decimal {
  import opened Wrappers

  predicate IsDigit(c: char) {
    '0' <= c <= '9'
  }

  predicate AllDigits(s: string) {
    forall c <- s :: IsDigit(c)
  }

  function DigitOf(c: char): nat
    requires IsDigit(c)
  {
    c as int - '0' as int
  }

  function Printed(n: nat): string {
    (if n < 10 then "" else Printed(n / 10)) + [('0' as int + n % 10) as char]
  }

  function Value(s: string): nat
    requires AllDigits(s)
  {
    if s == "" then 0
    else
      assert s[|s| - 1] in s;
      Value(s[..|s| - 1]) * 10 + DigitOf(s[|s| - 1])
  }

  /** An optional plus sign and at least one digit, not above `max`. */
  function Parsed(s: string, max: nat): Option<nat> {
    var digits := if s != "" && s[0] == '+' then s[1..] else s;
    if digits == "" || !AllDigits(digits) || Value(digits) > max then None
    else Some(Value(digits))
  }

  lemma {:induction false} PrintedIsDecimal(n: nat)
    ensures Printed(n) != "" && AllDigits(Printed(n)) && Value(Printed(n)) == n
    decreases n
  {
    var s := Printed(n);
    var digit := ('0' as int + n % 10) as char;
    if n >= 10 {
      PrintedIsDecimal(n / 10);
    }
    assert s[..|s| - 1] == if n < 10 then "" else Printed(n / 10);
  }

  /** Parsing undoes printing. */
  lemma ParsesPrinted(n: nat, max: nat)
    requires n <= max
    ensures Parsed(Printed(n), max) == Some(n)
  {
    PrintedIsDecimal(n);
    assert Printed(n)[0] in Printed(n);
  }

  function Pow10(d: nat): nat {
    if d == 0 then 1 else 10 * Pow10(d - 1)
  }

  lemma {:induction false} PrintedLength(n: nat, d: nat)
    requires 1 <= d && n < Pow10(d)
    ensures |Printed(n)| <= d
  {
    if n >= 10 {
      assert n / 10 < Pow10(d - 1);
      PrintedLength(n / 10, d - 1);
    }
  }

  lemma ParsedIsBounded(s: string, max: nat)
    ensures Parsed(s, max).Some? ==> Parsed(s, max).value <= max
  {
  }

  lemma ParsedHasNoColon(s: string, max: nat)
    requires Parsed(s, max).Some?
    ensures ':' !in s && ']' !in s
  {
    if s[0] == '+' {
      assert s == [s[0]] + s[1..];
    }
  }

  /* ---- What is parsed ---- */

  predicate AllZero(s: string) {
    forall c <- s :: c == '0'
  }

  lemma {:induction false} LeadingZeros(zeros: string, s: string)
    requires AllZero(zeros) && AllDigits(s)
    ensures AllDigits(zeros + s) && Value(zeros + s) == Value(s)
    decreases |s|, |zeros|
  {
    if s != "" {
      var n := |s| - 1;
      LeadingZeros(zeros, s[..n]);
      assert (zeros + s)[..|zeros + s| - 1] == zeros + s[..n];
    } else if zeros != "" {
      var n := |zeros| - 1;
      assert forall c <- zeros[..n] :: c in zeros;
      LeadingZeros(zeros[..n], "");
      assert (zeros + s)[..|zeros + s| - 1] == zeros[..n] + "" && zeros[n] in zeros;
    }
  }

  lemma AppendDigit(zeros: string, v: nat, c: char) returns (more: string)
    requires AllZero(zeros) && IsDigit(c)
    ensures AllZero(more) && zeros + Printed(v) + [c] == more + Printed(v * 10 + DigitOf(c))
  {
    hide Printed;
    if v == 0 {
      PrintedZero();
      LastDigit(c);
      more := zeros + "0";
    } else {
      PrintedGrows(v, c);
      more := zeros;
    }
  }

  lemma ValueOfLast(s: string)
    requires s != "" && AllDigits(s)
    ensures IsDigit(s[|s| - 1]) && AllDigits(s[..|s| - 1])
    ensures Value(s) == Value(s[..|s| - 1]) * 10 + DigitOf(s[|s| - 1])
  {
    assert s[|s| - 1] in s;
  }

  /** Digits are zeros before the printed form of their value. */
  lemma {:induction false} DigitsAreCanonical(s: string) returns (zeros: string)
    requires s != "" && AllDigits(s)
    ensures AllZero(zeros) && s == zeros + Printed(Value(s))
    decreases |s|
  {
    hide Value, Printed, AllDigits, AllZero;
    var p, c := s[..|s| - 1], s[|s| - 1];
    ValueOfLast(s);
    assert s == p + [c];
    if p == "" {
      NoDigits();
      LastDigit(c);
      zeros := "";
    } else {
      zeros := DigitsAreCanonical(p);
      zeros := AppendDigit(zeros, Value(p), c);
    }
  }

  lemma NoDigits()
    ensures AllDigits("") && Value("") == 0 && AllZero("")
  {
  }

  lemma LastDigit(c: char)
    requires IsDigit(c)
    ensures Printed(DigitOf(c)) == [c]
  {
  }

  lemma PrintedZero()
    ensures Printed(0) == "0"
  {
  }

  lemma PrintedGrows(v: nat, c: char)
    requires v > 0 && IsDigit(c)
    ensures Printed(v * 10 + DigitOf(c)) == Printed(v) + [c]
  {
    var n := v * 10 + DigitOf(c);
    assert n / 10 == v && n % 10 == DigitOf(c);
  }

  /** A number is parsed from exactly an optional plus sign, zeros and its decimal form, if it is
      not above the maximum. */
  lemma ParsedExactly(s: string, max: nat, n: nat)
    ensures Parsed(s, max) == Some(n) <==>
      n <= max && exists sign, zeros ::
        (sign == "" || sign == "+") && AllZero(zeros) && s == sign + zeros + Printed(n)
  {
    PrintedIsDecimal(n);
    hide Printed, Value;
    if Parsed(s, max) == Some(n) {
      var sign := if s[0] == '+' then "+" else "";
      var digits := if s[0] == '+' then s[1..] else s;
      var zeros := DigitsAreCanonical(digits);
      assert s == sign + zeros + Printed(n);
    } else if n <= max {
      forall sign, zeros | (sign == "" || sign == "+") && AllZero(zeros)
        ensures s != sign + zeros + Printed(n)
      {
        LeadingZeros(zeros, Printed(n));
        ParsesSigned(sign, zeros + Printed(n), max);
        assert sign + zeros + Printed(n) == sign + (zeros + Printed(n));
      }
    }
  }

  lemma ParsesSigned(sign: string, digits: string, max: nat)
    requires sign == "" || sign == "+"
    requires digits != "" && AllDigits(digits) && Value(digits) <= max
    ensures Parsed(sign + digits, max) == Some(Value(digits))
  {
    hide Value;
    assert digits[0] in digits;
    if sign == "" {
      assert sign + digits == digits;
    } else {
      assert (sign + digits)[1..] == digits;
    }
  }
}
