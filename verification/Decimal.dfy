/** Decimal printing of Go integers (strconv.Itoa, strconv.FormatInt) and its inverse. */
module Decimal {
  predicate IsDigit(c: char) {
    '0' <= c <= '9'
  }

  predicate AllDigits(s: string) {
    forall i | 0 <= i < |s| :: IsDigit(s[i])
  }

  function DigitOf(d: nat): char
    requires d < 10
  {
    '0' + d as char
  }

  function ValueOf(c: char): nat
    requires IsDigit(c)
  {
    (c - '0') as int
  }

  function Digits(n: nat): string {
    if n < 10 then [DigitOf(n)] else Digits(n / 10) + [DigitOf(n % 10)]
  }

  /** The text of an integer in base ten, with a minus sign when it is negative. */
  function Itoa(i: int): string {
    if i < 0 then "-" + Digits(-i) else Digits(i)
  }

  function NatValue(s: string): nat
    requires AllDigits(s)
  {
    if s == "" then 0 else 10 * NatValue(s[..|s| - 1]) + ValueOf(s[|s| - 1])
  }

  /** Length of the run of digits at the front of `s`. */
  function DigitRun(s: string): (n: nat)
    ensures n <= |s| && AllDigits(s[..n])
    ensures n < |s| ==> !IsDigit(s[n])
  {
    if s == "" || !IsDigit(s[0]) then 0
    else
      var rest := DigitRun(s[1..]);
      assert s[..1 + rest] == [s[0]] + s[1..][..rest];
      1 + rest
  }

  datatype Taken = NoInt | Int(value: int, rest: string)

  /** Reads a number from the front of `s`: every digit there is, and at least one. */
  function TakeNat(s: string): Taken {
    var n := DigitRun(s);
    if n == 0 then NoInt else Int(NatValue(s[..n]), s[n..])
  }

  /** Reads an integer from the front of `s`: a number with an optional minus sign. */
  function TakeInt(s: string): Taken {
    if s != "" && s[0] == '-' then
      match TakeNat(s[1..])
      case NoInt => NoInt
      case Int(magnitude, rest) => Int(-magnitude, rest)
    else
      TakeNat(s)
  }

  lemma {:induction false} DigitsRoundTrip(n: nat)
    ensures Digits(n) != "" && AllDigits(Digits(n)) && NatValue(Digits(n)) == n
    ensures |Digits(n)| > 1 ==> Digits(n)[0] != '0'
  {
    if n < 10 {
      assert NatValue("") == 0;
    } else {
      DigitsRoundTrip(n / 10);
      var front := Digits(n / 10);
      assert Digits(n)[..|front|] == front;
    }
  }

  lemma {:induction false} DigitRunOfPrefix(digits: string, rest: string)
    requires AllDigits(digits)
    requires rest == "" || !IsDigit(rest[0])
    ensures DigitRun(digits + rest) == |digits|
  {
    if digits == "" {
      assert digits + rest == rest;
    } else {
      assert (digits + rest)[1..] == digits[1..] + rest;
      DigitRunOfPrefix(digits[1..], rest);
    }
  }

  lemma TakeNatOfDigits(n: nat, rest: string)
    requires rest == "" || !IsDigit(rest[0])
    ensures TakeNat(Digits(n) + rest) == Int(n, rest)
  {
    var digits := Digits(n);
    DigitsRoundTrip(n);
    DigitRunOfPrefix(digits, rest);
    assert (digits + rest)[..|digits|] == digits && (digits + rest)[|digits|..] == rest;
  }

  lemma TakeIntWithSign(body: string, n: int, rest: string)
    requires TakeNat(body) == Int(n, rest) && body != "" && IsDigit(body[0])
    ensures TakeInt(body) == Int(n, rest) && TakeInt("-" + body) == Int(-n, rest)
  {
  }

  /** Reading back a printed integer recovers it and stops exactly where the number ends. */
  lemma TakeIntOfItoa(i: int, rest: string)
    requires rest == "" || !IsDigit(rest[0])
    ensures TakeInt(Itoa(i) + rest) == Int(i, rest)
  {
    var n: nat := if i < 0 then -i else i;
    var digits := Digits(n);
    DigitsRoundTrip(n);
    TakeNatOfDigits(n, rest);
    assert (digits + rest)[0] == digits[0];
    TakeIntWithSign(digits + rest, n, rest);
    assert "-" + digits + rest == "-" + (digits + rest);
  }

  lemma ItoaStart(i: int)
    ensures Itoa(i) != "" && (Itoa(i)[0] == '-' || IsDigit(Itoa(i)[0]))
  {
    DigitsRoundTrip(if i < 0 then -i else i);
  }
}
