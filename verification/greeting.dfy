/**
 The body of the root endpoint: a fixed greeting followed by the last three
 characters of the current tick count written in decimal. The clock is a
 parameter: `ticks` is the tick count the handler read.
 */
module Greeting {

  const Prefix: string := "Hello OpenTelemetry! ticks:"

  /**
   The handler's result. Taking the last three characters of a string
   shorter than three fails with a range error instead of returning a body.
   */
  datatype Response = Ok(body: string) | RangeError

  /** The decimal digit character of a value below ten. */
  function Digit(d: nat): (ch: char)
    requires d < 10
    ensures '0' <= ch <= '9'
  {
    "0123456789"[d]
  }

  /** A non-negative tick count written in decimal, without leading zeros. */
  function Decimal(n: nat): (s: string)
    ensures |s| >= 1
    ensures forall i :: 0 <= i < |s| ==> '0' <= s[i] <= '9'
    decreases n
  {
    if n < 10 then [Digit(n)] else Decimal(n / 10) + [Digit(n % 10)]
  }

  /** The body built from a rendered tick count. */
  function Body(ticks: string): (r: Response)
    ensures r == RangeError <==> |ticks| < 3
    ensures r.Ok? ==> |r.body| == |Prefix| + 3 && r.body[..|Prefix|] == Prefix
    ensures r.Ok? ==> ticks == ticks[..|ticks| - 3] + r.body[|Prefix|..]
  {
    if |ticks| < 3 then RangeError else Ok(Prefix + ticks[|ticks| - 3..])
  }

  /** The last character of a decimal rendering is the units digit. */
  lemma DecimalLast(n: nat)
    ensures Decimal(n)[|Decimal(n)| - 1] == Digit(n % 10)
  {
  }

  /** A tick count has at least three digits exactly when it is at least 100. */
  lemma DecimalLength(n: nat)
    ensures |Decimal(n)| >= 3 <==> n >= 100
  {
  }

  /** The last three characters of a count of at least 100 are its last three digits. */
  lemma LastThree(n: nat)
    requires n >= 100
    ensures |Decimal(n)| >= 3
    ensures Decimal(n)[|Decimal(n)| - 3..] == [Digit(n / 100 % 10), Digit(n / 10 % 10), Digit(n % 10)]
  {
    DecimalLength(n);
    var m := n / 10;
    assert m >= 10 && m / 10 == n / 100;
    var u := Decimal(m / 10);
    var t := Decimal(m);
    assert t == u + [Digit(m % 10)];
    DecimalLast(m / 10);
    assert Decimal(n) == u + [Digit(m % 10)] + [Digit(n % 10)];
  }

  /**
   For the clock's tick count, the body is the greeting followed by its
   hundreds, tens and units digits; a count below 100 has fewer than three
   digits and gives a range error.
   */
  lemma TicksBody(ticks: nat)
    ensures Body(Decimal(ticks)) == RangeError <==> ticks < 100
    ensures ticks >= 100 ==>
      Body(Decimal(ticks)) == Ok(Prefix + [Digit(ticks / 100 % 10), Digit(ticks / 10 % 10), Digit(ticks % 10)])
  {
    DecimalLength(ticks);
    if ticks >= 100 {
      LastThree(ticks);
    }
  }
}
