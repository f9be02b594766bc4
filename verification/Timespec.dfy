/** nsToTimespec: nanoseconds to seconds and nanoseconds, through double arithmetic. */
module Timespec {
  const NS_PER_SEC := 1000000000
  const TWO_52: real := 4503599627370496.0
  const TWO_53: real := 9007199254740992.0

  ghost function Abs(x: real): real {
    if x < 0.0 then -x else x
  }

  ghost predicate IsInteger(x: real) {
    x == x.Floor as real
  }

  /** What rounding to the nearest double guarantees for an exact result x in normal
      range: a relative error of at most 2^-53, none on integers up to 2^53, and from
      1 on a multiple of 2^-52. */
  ghost predicate Rounds(x: real, r: real) {
    && Abs(r - x) <= Abs(x) / TWO_53
    && (IsInteger(x) && Abs(x) <= TWO_53 ==> r == x)
    && (Abs(x) >= 1.0 ==> IsInteger(r * TWO_52))
  }

  /** Conversion from double to an integer type: towards zero. */
  function Truncate(x: real): int {
    if x >= 0.0 then x.Floor else -((-x).Floor)
  }

  /** The fractional part that std::modf returns; it is exact. */
  function Fraction(x: real): real {
    x - Truncate(x) as real
  }

  /** The double that the nanoseconds become, and their quotient in seconds. */
  function Quotient(rnd: real -> real, n: int): real {
    rnd(rnd(n as real) / 1000000000.0)
  }

  /** (tv_sec, tv_nsec), rounding every operation with rnd. */
  function ToTimespec(rnd: real -> real, n: int): (int, int) {
    var q := Quotient(rnd, n);
    (Truncate(q), Truncate(rnd(Fraction(q) * 1000000000.0)))
  }

  /** rnd rounds correctly in the three operations of the conversion of n. */
  ghost predicate Faithful(rnd: real -> real, n: int) {
    var d := rnd(n as real);
    var q := rnd(d / 1000000000.0);
    && Rounds(n as real, d) && Rounds(d / 1000000000.0, q)
    && Rounds(Fraction(q) * 1000000000.0, rnd(Fraction(q) * 1000000000.0))
  }

  /** The quotient of fewer than 2^52 nanoseconds has the right whole seconds, and is
      less than half a nanosecond off. */
  lemma QuotientClose(rnd: real -> real, n: int)
    requires 0 <= n < 0x10_0000_0000_0000 && Faithful(rnd, n)
    ensures var q := Quotient(rnd, n);
            && q >= 0.0 && Truncate(q) == n / NS_PER_SEC
            && (n % NS_PER_SEC == 0 ==> Fraction(q) == 0.0)
            && Abs(Fraction(q) * 1000000000.0 - (n % NS_PER_SEC) as real) <= 0.5
  {
    var k, m := n / NS_PER_SEC, n % NS_PER_SEC;
    var x := n as real / 1000000000.0;
    var q := Quotient(rnd, n);
    assert IsInteger(n as real) && rnd(n as real) == n as real;
    assert n as real == k as real * 1000000000.0 + m as real;
    assert x == k as real + m as real / 1000000000.0;
    assert Abs(q - x) <= x / TWO_53;
    assert x / TWO_53 <= 0.5 / 1000000000.0;
    if m == 0 {
      assert x == k as real && x.Floor == k;
      assert q == x;
    } else {
      assert k as real < q < (k + 1) as real;
      assert q.Floor == k;
    }
  }

  /** Below 2^52 ns (52 days) the conversion is exact or one nanosecond short, the
      nanoseconds are in range, and whole seconds convert exactly. */
  lemma ShortConversion(rnd: real -> real, n: int)
    requires 0 <= n < 0x10_0000_0000_0000 && Faithful(rnd, n)
    ensures var (sec, nsec) := ToTimespec(rnd, n);
            && 0 <= sec && 0 <= nsec < NS_PER_SEC
            && (sec * NS_PER_SEC + nsec == n || sec * NS_PER_SEC + nsec == n - 1)
            && (n % NS_PER_SEC == 0 ==> sec * NS_PER_SEC == n && nsec == 0)
  {
    QuotientClose(rnd, n);
    var q, m := Quotient(rnd, n), n % NS_PER_SEC;
    var y := Fraction(q) * 1000000000.0;
    var p := rnd(y);
    if m == 0 {
      assert y == 0.0 && IsInteger(y) && p == 0.0;
    } else {
      assert 0.0 < y < 1000000000.0;
      assert y / TWO_53 <= 0.1;
      assert m as real - 0.6 <= p <= m as real + 0.6;
      assert Truncate(p) == p.Floor;
      assert m - 1 <= p.Floor <= m;
    }
  }

  /** A non-negative quotient leaves a fraction that does not round up to a second. */
  lemma FractionBelowOne(rnd: real -> real, n: int)
    requires 0 <= n <= 0x8000_0000_0000_0000 && Faithful(rnd, n)
    ensures var q := Quotient(rnd, n);
            && q >= 0.0 && 0.0 <= Fraction(q) && Fraction(q) * 1000000000.0 <= 1000000000.0 - 0.0000002
            && Abs(q * 1000000000.0 - n as real) <= n as real / (TWO_53 / 4.0)
  {
    var d := rnd(n as real);
    var x := d / 1000000000.0;
    var q := Quotient(rnd, n);
    assert Abs(d - n as real) <= n as real / TWO_53 && d >= 0.0;
    assert Abs(q - x) <= x / TWO_53 && q >= 0.0;
    if x >= 1.0 {
      var a := (q * TWO_52).Floor;
      var s := q.Floor;
      var b := a - s * 4503599627370496;
      assert q * TWO_52 == a as real;
      assert Fraction(q) * TWO_52 == b as real;
      assert b as real < TWO_52;
      assert b <= 4503599627370495;
    } else {
      assert n < 0x10_0000_0000_0000;
      QuotientClose(rnd, n);
    }
  }

  /** For every duration that fits in 64 bits, and for the mirror image of the least one,
      the result is a valid timespec, within 2 ns and a relative 2^-51 of the duration. */
  lemma LongConversion(rnd: real -> real, n: int)
    requires 0 <= n <= 0x8000_0000_0000_0000 && Faithful(rnd, n)
    ensures var (sec, nsec) := ToTimespec(rnd, n);
            && 0 <= sec && 0 <= nsec < NS_PER_SEC
            && Abs((sec * NS_PER_SEC + nsec) as real - n as real) <= 2.0 + n as real / (TWO_53 / 4.0)
  {
    hide Rounds, Fraction, Abs;
    FractionBelowOne(rnd, n);
    var q := Quotient(rnd, n);
    var y := Fraction(q) * 1000000000.0;
    var p := rnd(y);
    WholeAndFraction(q);
    FloorOfRounded(y, p);
    SumClose(q, q.Floor, y, p.Floor, n as real, n as real / (TWO_53 / 4.0));
  }

  lemma WholeAndFraction(q: real)
    requires q >= 0.0
    ensures q * 1000000000.0 == q.Floor as real * 1000000000.0 + Fraction(q) * 1000000000.0
    ensures 0.0 <= Fraction(q)
  {
  }

  lemma FloorOfRounded(y: real, p: real)
    requires 0.0 <= y <= 1000000000.0 - 0.0000002 && Rounds(y, p)
    ensures 0.0 <= p < 1000000000.0 && 0 <= p.Floor < NS_PER_SEC
    ensures Abs(p.Floor as real - y) <= 1.5
  {
  }

  lemma SumClose(q: real, sec: int, y: real, nsec: int, n: real, off: real)
    requires q * 1000000000.0 == sec as real * 1000000000.0 + y
    requires Abs(q * 1000000000.0 - n) <= off && Abs(nsec as real - y) <= 1.5
    ensures Abs((sec * NS_PER_SEC + nsec) as real - n) <= 2.0 + off
  {
  }

  // -------------------------------------------------------- negative durations

  /** The rounding seen in a mirror. */
  function Mirror(rnd: real -> real): real -> real {
    x => -rnd(-x)
  }

  lemma IntegerMirrored(x: real)
    ensures IsInteger(-x) <==> IsInteger(x)
  {
    if IsInteger(x) {
      assert -x == (-x.Floor) as real;
    }
    if IsInteger(-x) {
      assert x == (-(-x).Floor) as real;
    }
  }

  lemma RoundsMirrored(x: real, r: real)
    requires Rounds(x, r)
    ensures Rounds(-x, -r)
  {
    hide IsInteger;
    IntegerMirrored(x);
    IntegerMirrored(r * TWO_52);
    assert (-r) * TWO_52 == -(r * TWO_52);
    assert Abs(-x) == Abs(x) && Abs(-r - (-x)) == Abs(r - x);
  }

  lemma FractionMirrored(x: real)
    ensures Truncate(-x) == -Truncate(x) && Fraction(-x) == -Fraction(x)
  {
  }

  /** Every operation of the conversion is odd, so negative durations convert like
      positive ones under the mirrored rounding. */
  lemma Mirrored(rnd: real -> real, n: int)
    requires Faithful(rnd, n)
    ensures Faithful(Mirror(rnd), -n)
    ensures var (sec, nsec) := ToTimespec(rnd, n); ToTimespec(Mirror(rnd), -n) == (-sec, -nsec)
  {
    hide Rounds, Fraction, Truncate;
    var d := rnd(n as real);
    var q := rnd(d / 1000000000.0);
    var f := Fraction(q) * 1000000000.0;
    RoundsMirrored(n as real, d);
    RoundsMirrored(d / 1000000000.0, q);
    RoundsMirrored(f, rnd(f));
    FractionMirrored(q);
    FractionMirrored(rnd(f));
    assert Mirror(rnd)((-n) as real) == -d by { assert -((-n) as real) == n as real; }
    assert Mirror(rnd)((-d) / 1000000000.0) == -q by { assert -((-d) / 1000000000.0) == d / 1000000000.0; }
    assert Mirror(rnd)(-f) == -rnd(f) by { assert -(-f) == f; }
    assert Fraction(-q) * 1000000000.0 == -f;
  }

  /** A negative duration gives a timespec with no positive part, as exact as that of the
      positive one; from two nanoseconds on a part is negative, so the system refuses it. */
  lemma NegativeConversion(rnd: real -> real, n: int)
    requires -0x8000_0000_0000_0000 <= n < 0 && Faithful(rnd, n)
    ensures var (sec, nsec) := ToTimespec(rnd, n);
            && sec <= 0 && -NS_PER_SEC < nsec <= 0
            && Abs((sec * NS_PER_SEC + nsec) as real - n as real) <= 2.0 + (-n) as real / (TWO_53 / 4.0)
            && (n > -0x10_0000_0000_0000 ==>
                  sec * NS_PER_SEC + nsec == n || sec * NS_PER_SEC + nsec == n + 1)
            && (n <= -2 ==> sec < 0 || nsec < 0)
  {
    hide Faithful, ToTimespec;
    Mirrored(rnd, n);
    LongConversion(Mirror(rnd), -n);
    if n > -0x10_0000_0000_0000 {
      ShortConversion(Mirror(rnd), -n);
    }
  }
}
