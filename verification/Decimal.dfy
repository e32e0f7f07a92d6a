/** `std::to_string` and `std::stoi` on decimal numerals. */
module Decimal {
  import opened Types

  const INT_MIN := -0x8000_0000
  const INT_MAX := 0x7FFF_FFFF

  // The white space of the C locale, as `isspace` classifies it.
  predicate IsSpace(c: char) {
    c == ' ' || 9 <= c as int <= 13
  }

  predicate IsDigit(c: char) {
    '0' <= c <= '9'
  }

  predicate AllDigits(s: string) {
    forall c :: c in s ==> IsDigit(c)
  }

  function DigitChar(d: nat): (c: char)
    requires d < 10
    ensures IsDigit(c) && DigitValue(c) == d
  {
    ('0' as int + d) as char
  }

  function DigitValue(c: char): nat
    requires IsDigit(c)
  {
    c as int - '0' as int
  }

  function NatToString(n: nat): string {
    if n < 10 then [DigitChar(n)] else NatToString(n / 10) + [DigitChar(n % 10)]
  }

  function IntToString(i: int): string {
    if i < 0 then ['-'] + NatToString(-i) else NatToString(i)
  }

  // The number a run of digits denotes.
  function Value(ds: string): nat
    requires AllDigits(ds)
  {
    if ds == [] then 0 else 10 * Value(ds[..|ds| - 1]) + DigitValue(ds[|ds| - 1])
  }

  function SkipSpace(s: string): string {
    if s != [] && IsSpace(s[0]) then SkipSpace(s[1..]) else s
  }

  // The longest prefix that consists of digits.
  function DigitRun(s: string): (ds: string)
    ensures AllDigits(ds)
    ensures ds <= s
    ensures |ds| < |s| ==> !IsDigit(s[|ds|])
  {
    if s == [] || !IsDigit(s[0]) then [] else [s[0]] + DigitRun(s[1..])
  }

  function InIntRange(i: int): Option<int> {
    if INT_MIN <= i <= INT_MAX then Some(i) else None
  }

  function FromDigits(negative: bool, digits: string): Option<int>
    requires AllDigits(digits)
  {
    if digits == [] then None
    else if negative then InIntRange(0 - Value(digits))
    else InIntRange(Value(digits))
  }

  // `std::stoi` in base ten: optional white space, an optional sign, digits, anything after them.
  // None stands for the two exceptions it throws, invalid_argument and out_of_range.
  function Stoi(s: string): (r: Option<int>)
    ensures r.Some? ==> INT_MIN <= r.value <= INT_MAX
  {
    var t := SkipSpace(s);
    if t != [] && t[0] == '-' then FromDigits(true, DigitRun(t[1..]))
    else if t != [] && t[0] == '+' then FromDigits(false, DigitRun(t[1..]))
    else FromDigits(false, DigitRun(t))
  }

  lemma {:induction false} NatToStringDenotes(n: nat)
    ensures NatToString(n) != [] && AllDigits(NatToString(n))
    ensures Value(NatToString(n)) == n
  {
    if n >= 10 {
      NatToStringDenotes(n / 10);
      var front := NatToString(n / 10);
      assert NatToString(n)[..|front|] == front;
    }
  }

  lemma {:induction false} DigitRunOfDigits(s: string)
    requires AllDigits(s)
    ensures DigitRun(s) == s
  {
    if s != [] {
      DigitRunOfDigits(s[1..]);
    }
  }

  lemma StoiOfDigits(ds: string)
    requires ds != [] && AllDigits(ds)
    ensures Stoi(ds) == FromDigits(false, ds)
  {
    DigitRunOfDigits(ds);
    assert IsDigit(ds[0]);
    assert SkipSpace(ds) == ds;
  }

  lemma StoiOfNegated(s: string, ds: string)
    requires s != [] && s[0] == '-' && s[1..] == ds && AllDigits(ds)
    ensures Stoi(s) == FromDigits(true, ds)
  {
    DigitRunOfDigits(ds);
    assert SkipSpace(s) == s;
  }

  // Printing and parsing is the identity on the range of a signed 32-bit integer, and nothing outside
  // it parses.
  lemma StoiOfIntToString(i: int)
    ensures Stoi(IntToString(i)) == if -0x8000_0000 <= i <= 0x7FFF_FFFF then Some(i) else None
  {
    var ds := NatToString(if i < 0 then -i else i);
    NatToStringDenotes(if i < 0 then -i else i);
    if i < 0 {
      StoiOfNegated(IntToString(i), ds);
    } else {
      StoiOfDigits(ds);
    }
  }

  // ---------- which number a numeral is, and which numeral a number has ----------

  function Pow10(n: nat): nat {
    if n == 0 then 1 else 10 * Pow10(n - 1)
  }

  lemma TimesTen(a: nat, p: nat, b: nat)
    ensures 10 * (a * p + b) == a * (10 * p) + 10 * b
  {
  }

  // Digits count by their place.
  lemma {:induction false} ValueAppend(a: string, b: string)
    requires AllDigits(a) && AllDigits(b)
    ensures AllDigits(a + b) && Value(a + b) == Value(a) * Pow10(|b|) + Value(b)
  {
    if b == [] {
      assert a + b == a;
    } else {
      var front := b[..|b| - 1];
      ValueAppend(a, front);
      assert (a + b)[..|a + b| - 1] == a + front;
      TimesTen(Value(a), Pow10(|front|), Value(front));
    }
  }

  lemma DigitsInOrder(d: nat)
    requires d < 10
    ensures AllDigits(["0123456789"[d]]) && Value(["0123456789"[d]]) == d
  {
    assert ["0123456789"[d]][..0] == [];
  }

  lemma DigitsExactly(c: char)
    ensures IsDigit(c) <==> c == '0' || c == '1' || c == '2' || c == '3' || c == '4' || c == '5' || c == '6'
                            || c == '7' || c == '8' || c == '9'
  {
  }

  lemma {:induction false} ValueIsPositive(ds: string)
    requires AllDigits(ds) && ds != [] && ds[0] != '0'
    ensures Value(ds) >= 1
  {
    if |ds| > 1 {
      ValueIsPositive(ds[..|ds| - 1]);
    } else {
      assert ds[..0] == [];
    }
  }

  // A number is printed as its digits without leading zeros.
  lemma {:induction false} PrintedWithoutZeros(ds: string)
    requires AllDigits(ds) && ds != [] && (ds[0] != '0' || |ds| == 1)
    ensures NatToString(Value(ds)) == ds
  {
    var front, d := ds[..|ds| - 1], DigitValue(ds[|ds| - 1]);
    assert DigitChar(d) == ds[|ds| - 1];
    if |ds| == 1 {
      assert front == [] && ds == [ds[0]];
    } else {
      ValueIsPositive(front);
      PrintedWithoutZeros(front);
      assert Value(ds) / 10 == Value(front) && Value(ds) % 10 == d;
      assert ds == front + [ds[|ds| - 1]];
    }
  }

  lemma SignInFront(n: nat)
    ensures IntToString(n) == NatToString(n)
    ensures n > 0 ==> IntToString(0 - n) == ['-'] + NatToString(n)
  {
  }

  // A negative number is its magnitude behind a minus sign.
  lemma NumeralExactly(ds: string, n: nat)
    requires AllDigits(ds) && ds != [] && (ds[0] != '0' || |ds| == 1) && n == Value(ds)
    ensures IntToString(n) == ds
    ensures n > 0 ==> IntToString(0 - n) == ['-'] + ds
  {
    PrintedWithoutZeros(ds);
    SignInFront(n);
  }

  lemma {:induction false} SpaceSkipped(space: string, rest: string)
    requires forall c :: c in space ==> IsSpace(c)
    requires rest == [] || !IsSpace(rest[0])
    ensures SkipSpace(space + rest) == rest
  {
    if space == [] {
      assert space + rest == rest;
    } else {
      assert (space + rest)[1..] == space[1..] + rest;
      SpaceSkipped(space[1..], rest);
    }
  }

  lemma {:induction false} DigitRunThenRest(ds: string, rest: string)
    requires AllDigits(ds) && (rest == [] || !IsDigit(rest[0]))
    ensures DigitRun(ds + rest) == ds
  {
    if ds == [] {
      assert ds + rest == rest;
    } else {
      assert (ds + rest)[1..] == ds[1..] + rest;
      DigitRunThenRest(ds[1..], rest);
    }
  }

  lemma StoiSkipsSpace(space: string, t: string)
    requires forall c :: c in space ==> IsSpace(c)
    requires t == [] || !IsSpace(t[0])
    ensures Stoi(space + t) == Stoi(t)
  {
    SpaceSkipped(space, t);
  }

  lemma StoiUnsigned(ds: string, rest: string)
    requires AllDigits(ds) && (rest == [] || !IsDigit(rest[0]))
    requires ds == "" ==> rest == [] || !(IsSpace(rest[0]) || rest[0] == '+' || rest[0] == '-')
    ensures Stoi(ds + rest) == FromDigits(false, ds)
  {
    DigitRunThenRest(ds, rest);
    if ds != "" {
      assert (ds + rest)[0] == ds[0] && IsDigit(ds[0]);
    } else {
      assert ds + rest == rest;
    }
  }

  lemma StoiSigned(sign: char, ds: string, rest: string)
    requires sign == '+' || sign == '-'
    requires AllDigits(ds) && (rest == [] || !IsDigit(rest[0]))
    ensures Stoi([sign] + (ds + rest)) == FromDigits(sign == '-', ds)
  {
    DigitRunThenRest(ds, rest);
    var t := [sign] + (ds + rest);
    assert t[0] == sign && t[1..] == ds + rest;
    assert SkipSpace(t) == t;
  }

  // The number that a sign and digits stand for, if it fits a signed 32-bit integer.
  predicate Denotes(sign: string, ds: string, r: Option<int>) {
    && AllDigits(ds)
    && var i := if sign == "-" then 0 - Value(ds) else Value(ds);
       r == if ds != "" && -0x8000_0000 <= i <= 0x7FFF_FFFF then Some(i) else None
  }

  // What parses as an int: white space, at most one sign, at least one digit, and anything that does
  // not go on with a digit.
  lemma StoiReads(space: string, sign: string, ds: string, rest: string)
    requires forall c :: c in space ==> IsSpace(c)
    requires sign == "" || sign == "+" || sign == "-"
    requires AllDigits(ds) && (rest == [] || !IsDigit(rest[0]))
    requires sign == "" && ds == "" ==> rest == [] || !(IsSpace(rest[0]) || rest[0] == '+' || rest[0] == '-')
    ensures Denotes(sign, ds, Stoi(space + (sign + (ds + rest))))
  {
    var t := sign + (ds + rest);
    if sign == "" {
      assert t == ds + rest;
      StoiUnsigned(ds, rest);
      assert ds != "" ==> t[0] == ds[0] && IsDigit(ds[0]);
      assert ds == "" ==> t == rest;
    } else {
      StoiSigned(sign[0], ds, rest);
      assert sign == [sign[0]];
    }
    StoiSkipsSpace(space, t);
  }
}
