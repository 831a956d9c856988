// Decimal text of integers: what strconv formats and parses in base 10.
module Decimal {
  import opened Basics

  function Digit(d: nat): (c: char)
    requires d < 10
    ensures IsDigit(c) && DigitValue(c) == d
  {
    (48 + d) as char
  }

  predicate IsDigit(c: char) { '0' <= c <= '9' }

  function DigitValue(c: char): nat
    requires IsDigit(c)
  {
    c as int - 48
  }

  function FormatNat(n: nat): (s: string)
    ensures AllDigits(s) && NatValue(s) == n
    ensures n < 10 ==> s == [Digit(n)]
  {
    if n < 10 then [Digit(n)]
    else
      var s := FormatNat(n / 10) + [Digit(n % 10)];
      assert s[..|s| - 1] == FormatNat(n / 10);
      s
  }

  function Format(n: int): string
  {
    if n < 0 then "-" + FormatNat(-n) else FormatNat(n)
  }

  predicate AllDigits(s: string) { |s| > 0 && forall i | 0 <= i < |s| :: IsDigit(s[i]) }

  function NatValue(s: string): nat
    requires AllDigits(s)
  {
    var last := |s| - 1;
    (if last == 0 then 0 else 10 * NatValue(s[..last])) + DigitValue(s[last])
  }

  /** An optional sign and at least one digit; no bound on the value. */
  function Parse(s: string): Option<int>
  {
    if |s| > 0 && s[0] == '-' then
      if AllDigits(s[1..]) then Some(-(NatValue(s[1..]) as int)) else None
    else if |s| > 0 && s[0] == '+' then
      if AllDigits(s[1..]) then Some(NatValue(s[1..])) else None
    else if AllDigits(s) then Some(NatValue(s)) else None
  }

  /** The digits are those of base ten, the last digit last, with a minus in front of a negative number. */
  lemma DigitByDigit(a: nat, d: nat)
    requires d < 10
    ensures Format(d) == ["0123456789"[d]] && Format(-(d as int)) == if d == 0 then "0" else "-" + Format(d)
    ensures a > 0 ==> Format(10 * a + d) == Format(a) + ["0123456789"[d]] && Format(-(a as int)) == "-" + Format(a)
  {
    if a > 0 {
      FormatSnoc(a, d);
    }
  }

  /** A plus sign is read over; a sign is needed for a negative number only; anything but digits behind it is
      no number. */
  lemma SignsRead(s: string)
    ensures AllDigits(s) ==> Parse("+" + s) == Parse(s) == Some(NatValue(s))
    ensures AllDigits(s) ==> Parse("-" + s) == Some(-(NatValue(s) as int))
    ensures !AllDigits(s) ==> Parse("+" + s) == Parse("-" + s) == None
  {
    assert ("+" + s)[1..] == s && ("-" + s)[1..] == s;
    assert AllDigits(s) ==> IsDigit(s[0]);
  }

  /** Formatting loses nothing. */
  lemma ParseFormat(n: int)
    ensures Parse(Format(n)) == Some(n)
  {
    if n < 0 {
      assert Format(n)[1..] == FormatNat(-n);
    } else {
      assert IsDigit(Format(n)[0]);
    }
  }

  lemma FormatInjective(a: int, b: int)
    requires Format(a) == Format(b)
    ensures a == b
  {
    ParseFormat(a);
    ParseFormat(b);
  }

  /** No leading zero and no sign but a minus on a non-zero number. */
  predicate Canonical(s: string)
  {
    if |s| > 0 && s[0] == '-' then AllDigits(s[1..]) && s[1] != '0'
    else AllDigits(s) && (s[0] == '0' ==> |s| == 1)
  }

  lemma FormatSnoc(a: nat, d: nat)
    requires a > 0 && d < 10
    ensures FormatNat(10 * a + d) == FormatNat(a) + [Digit(d)]
  {
    assert (10 * a + d) / 10 == a && (10 * a + d) % 10 == d;
  }

  lemma ValueSnoc(front: string, c: char)
    requires AllDigits(front) && IsDigit(c)
    ensures AllDigits(front + [c]) && NatValue(front + [c]) == 10 * NatValue(front) + DigitValue(c)
  {
    assert (front + [c])[..|front|] == front;
  }

  lemma {:induction false} FormatNatOfValue(s: string)
    requires AllDigits(s) && (s[0] == '0' ==> |s| == 1)
    ensures FormatNat(NatValue(s)) == s
    ensures s[0] != '0' ==> NatValue(s) > 0
  {
    var last := |s| - 1;
    if last > 0 {
      hide FormatNat, NatValue, Digit, DigitValue;
      var front, c := s[..last], s[last];
      assert s == front + [c];
      FormatNatOfValue(front);
      ValueSnoc(front, c);
      FormatSnoc(NatValue(front), DigitValue(c));
      DigitBack(c);
    } else {
      DigitBack(s[0]);
    }
  }

  lemma DigitBack(c: char)
    requires IsDigit(c)
    ensures Digit(DigitValue(c)) == c
  {
  }

  lemma {:induction false} FormatNatCanonical(n: nat)
    ensures FormatNat(n)[0] == '0' ==> n == 0
  {
    if n >= 10 {
      FormatNatCanonical(n / 10);
    }
  }

  lemma FormatIsCanonical(n: int)
    ensures Canonical(Format(n))
  {
    if n < 0 {
      FormatNatCanonical(-n);
      assert Format(n)[1..] == FormatNat(-n);
    } else {
      FormatNatCanonical(n);
      assert IsDigit(FormatNat(n)[0]);
    }
  }

  lemma CanonicalRoundTrip(s: string)
    requires Canonical(s)
    ensures Parse(s).Some? && Format(Parse(s).value) == s
  {
    if s[0] == '-' {
      FormatNatOfValue(s[1..]);
      assert s == "-" + s[1..];
    } else {
      FormatNatOfValue(s);
    }
  }

  /** Exactly the canonical texts are what formatting their value gives back. */
  lemma CanonicalIffRoundTrip(s: string)
    ensures Canonical(s) <==> Parse(s).Some? && Format(Parse(s).value) == s
  {
    if Canonical(s) {
      CanonicalRoundTrip(s);
    }
    if Parse(s).Some? {
      FormatIsCanonical(Parse(s).value);
    }
  }
}
