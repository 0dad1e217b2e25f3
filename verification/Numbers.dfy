/** Numbers as text, as the source prints and reads them. */
module Numbers {
  predicate IsDigit(c: char) { '0' <= c <= '9' }

  predicate Digits(s: string) { forall c <- s :: IsDigit(c) }

  function Digit(n: nat): (c: char)
    requires n < 10
    ensures IsDigit(c) && c as int - '0' as int == n
  { ('0' as int + n) as char }

  /** The number as %ld prints it. */
  function Decimal(n: nat): (s: string)
    ensures s != [] && Digits(s)
  { if n < 10 then [Digit(n)] else Decimal(n / 10) + [Digit(n % 10)] }

  /** The number as %02ld prints it. */
  function TwoDigits(n: nat): (s: string)
    ensures s != [] && Digits(s)
  { if n < 10 then ['0', Digit(n)] else Decimal(n) }

  /** The number that atoi reads. */
  function Value(s: string): nat
    requires Digits(s)
  {
    if s == [] then 0
    else var c := s[|s| - 1];
         assert c in s;
         10 * Value(s[..|s| - 1]) + (c as int - '0' as int)
  }

  lemma {:induction false} ValueOfDecimal(n: nat)
    ensures Value(Decimal(n)) == n
  {
    if n >= 10 {
      ValueOfDecimal(n / 10);
      var s := Decimal(n);
      assert s[..|s| - 1] == Decimal(n / 10);
    }
  }

  lemma ValueOfTwoDigits(n: nat)
    ensures Value(TwoDigits(n)) == n
  {
    ValueOfDecimal(n);
    if n < 10 {
      assert TwoDigits(n)[..1] == ['0'];
      assert ['0'][..0] == [];
    }
  }

  /** How many digits a text starts with. */
  function DigitRun(s: string): (n: nat)
    ensures n <= |s| && Digits(s[..n]) && (n < |s| ==> !IsDigit(s[n]))
    ensures s != [] && IsDigit(s[0]) ==> n > 0
  {
    if s == [] || !IsDigit(s[0]) then 0
    else var n := DigitRun(s[1..]);
         assert s[..1 + n] == [s[0]] + s[1..][..n];
         1 + n
  }

  lemma {:induction false} RunIsPrefix(a: string, rest: string)
    requires Digits(a) && rest != [] && !IsDigit(rest[0])
    ensures DigitRun(a + rest) == |a| && (a + rest)[..|a|] == a && (a + rest)[|a|..] == rest
  {
    if a == [] {
      assert a + rest == rest;
    } else {
      RunIsPrefix(a[1..], rest);
      assert (a + rest)[1..] == a[1..] + rest;
      assert a[0] in a;
    }
  }
}
