/** Decimal rendering of integers, as Python's f-strings print them in log messages. */
module Text {

  function Digit(d: nat): char
    requires d < 10
  {
    ('0' as int + d) as char
  }

  /** The decimal digits of `n`, most significant first, with no leading zero. */
  function NatToString(n: nat): (s: string)
    ensures |s| >= 1
    ensures forall i :: 0 <= i < |s| ==> '0' <= s[i] <= '9'
    ensures |s| > 1 ==> s[0] != '0'
  {
    if n < 10 then [Digit(n)] else NatToString(n / 10) + [Digit(n % 10)]
  }

  /** Python's rendering of an integer: a minus sign for a negative one, then
      its digits. */
  function IntToString(i: int): (s: string)
    ensures |s| >= 1
    ensures i < 0 <==> s[0] == '-'
    ensures forall k :: 1 <= k < |s| ==> '0' <= s[k] <= '9'
  {
    if i < 0 then "-" + NatToString(-i) else NatToString(i)
  }

  /** The number a string of decimal digits denotes. */
  function Value(s: string): nat
    requires forall i :: 0 <= i < |s| ==> '0' <= s[i] <= '9'
  {
    if s == [] then 0 else 10 * Value(s[..|s| - 1]) + (s[|s| - 1] - '0') as nat
  }

  /** Rendering loses nothing: reading the digits back gives the number. */
  lemma {:induction false} NatToStringRoundTrip(n: nat)
    ensures Value(NatToString(n)) == n
  {
    var s := NatToString(n);
    if n < 10 {
      assert s == [Digit(n)];
    } else {
      NatToStringRoundTrip(n / 10);
      assert s[..|s| - 1] == NatToString(n / 10);
    }
  }

  /** Different integers are rendered differently. */
  lemma NatToStringInjective(a: nat, b: nat)
    requires NatToString(a) == NatToString(b)
    ensures a == b
  {
    NatToStringRoundTrip(a);
    NatToStringRoundTrip(b);
  }

  lemma {:induction false} IntToStringInjective(a: int, b: int)
    requires IntToString(a) == IntToString(b)
    ensures a == b
  {
    if a < 0 {
      var x := IntToString(a);
      assert x == "-" + NatToString(-a);
      assert x == "-" + NatToString(-b);
      assert x[1..] == NatToString(-a);
      NatToStringInjective(-a, -b);
    } else {
      NatToStringInjective(a, b);
    }
  }

  /** A number followed by text that does not start with a digit can be read
      back: the same text means the same number and the same remainder. */
  lemma {:induction false} NumberThenText(a: int, b: int, q1: string, q2: string)
    requires q1 == [] || !('0' <= q1[0] <= '9')
    requires q2 == [] || !('0' <= q2[0] <= '9')
    requires IntToString(a) + q1 == IntToString(b) + q2
    ensures a == b && q1 == q2
  {
    var x, y := IntToString(a), IntToString(b);
    assert x == (x + q1)[..|x|] == (y + q2)[..|y|] == y;
    assert q1 == (x + q1)[|x|..] == (y + q2)[|y|..] == q2;
    IntToStringInjective(a, b);
  }

  /** The same, after a common prefix. */
  lemma {:induction false} Framed(p: string, a: int, b: int, q1: string, q2: string)
    requires q1 == [] || !('0' <= q1[0] <= '9')
    requires q2 == [] || !('0' <= q2[0] <= '9')
    requires p + (IntToString(a) + q1) == p + (IntToString(b) + q2)
    ensures a == b && q1 == q2
  {
    assert (p + (IntToString(a) + q1))[|p|..] == IntToString(a) + q1;
    assert (p + (IntToString(b) + q2))[|p|..] == IntToString(b) + q2;
    NumberThenText(a, b, q1, q2);
  }
}
