/**
 The standard model of double arithmetic: every operation returns the exact
 result times a factor within 2^-52 of one, whether it rounds to nearest or in one direction.
 */
module FloatModel {
  import opened Ids

  ghost predicate Close(x: real, y: real)
  {
    x - x / 4503599627370496.0 <= y <= x + x / 4503599627370496.0
  }

  /** A rounding mode: what the processor makes of an exact non-negative result. */
  type Rounding = f: real -> real | forall x: real :: x >= 0.0 ==> Close(x, f(x))
    ghost witness (x: real) => x

  ghost predicate Exact(rnd: Rounding)
  {
    forall x: real :: x >= 0.0 ==> rnd(x) == x
  }

  /** A rounded quotient of two integers. */
  function Quotient(a: nat, b: nat, rnd: Rounding): (q: real)
    requires b > 0
    ensures q >= 0.0
  {
    var x := Ratio(a as real, b as real);
    assert Close(x, rnd(x));
    rnd(x)
  }

  /** A rounded product. */
  function Product(x: real, y: real, rnd: Rounding): (p: real)
    requires x >= 0.0 && y >= 0.0
    ensures p >= 0.0
    ensures Close(Times(x, y), p)
  {
    assert Close(Times(x, y), rnd(Times(x, y)));
    rnd(Times(x, y))
  }

  function Ratio(a: real, b: real): (q: real)
    requires a >= 0.0 && b > 0.0
    ensures q >= 0.0
    ensures Times(q, b) == a
  {
    a / b
  }

  function Times(a: real, b: real): (p: real)
    ensures a >= 0.0 && b >= 0.0 ==> p >= 0.0
  {
    a * b
  }

  /** The fraction `c / cur` of `excess`, truncated. */
  function Share(c: nat, cur: nat, excess: nat, rnd: Rounding): nat
    requires cur > 0
  {
    Product(Quotient(c, cur, rnd), excess as real, rnd).Floor
  }

  /** Ten percent of the slack, rounded to the nearest integer. */
  function Tenth(slack: nat, rnd: Rounding): nat
  {
    assert Close(0.1, rnd(0.1));
    var bonus := Product(rnd(0.1), slack as real, rnd) + 0.5;
    assert Close(bonus, rnd(bonus));
    rnd(bonus).Floor
  }

  /** The factors that bracket every share of `excess` in a window of `cur` bytes. */
  ghost function HighScale(cur: nat, excess: nat): real
    requires cur > 0
  {
    Ratio(excess as real + 0.5, cur as real)
  }

  ghost function LowScale(cur: nat, excess: nat): real
    requires cur > 0
  {
    Ratio(excess as real + 0.5, cur as real) - Ratio(1.0, cur as real)
  }

  /** Two roundings of a fraction of a 32-bit quantity move it by less than the matching fraction of one half. */
  lemma ShareBounds(c: nat, cur: nat, excess: nat, rnd: Rounding)
    requires cur > 0
    requires excess < TWO_TO_THE_32
    ensures Share(c, cur, excess, rnd) as real <= Times(c as real, HighScale(cur, excess))
    ensures Share(c, cur, excess, rnd) as real > Times(c as real, LowScale(cur, excess)) - 1.0
  {
    var x := Ratio(c as real, cur as real);
    var e := excess as real;
    var quotient := Quotient(c, cur, rnd);
    var product := Product(quotient, e, rnd);
    assert Close(x, quotient);
    BracketsAgree(c, cur, excess, x);
    ProductBounds(x, quotient, e, product);
    assert product - 1.0 < product.Floor as real <= product;
  }

  lemma BracketsAgree(c: nat, cur: nat, excess: nat, x: real)
    requires cur > 0 && x == Ratio(c as real, cur as real)
    ensures Times(c as real, HighScale(cur, excess)) == Times(x, excess as real + 0.5)
    ensures Times(c as real, LowScale(cur, excess)) == Times(x, excess as real + 0.5) - x
  {
    Reassociate(c as real, cur as real, excess as real + 0.5);
    Reassociate(c as real, cur as real, 1.0);
    LowIsHighLessOne(c as real, HighScale(cur, excess), Ratio(1.0, cur as real), x, excess as real);
  }

  lemma LowIsHighLessOne(c: real, high: real, unit: real, x: real, e: real)
    requires Times(c, high) == Times(x, e + 0.5)
    requires Times(c, unit) == Times(x, 1.0)
    ensures Times(c, high - unit) == Times(x, e + 0.5) - x
  {
  }

  lemma Reassociate(a: real, b: real, c: real)
    requires a >= 0.0 && b > 0.0 && c >= 0.0
    ensures Times(a, Ratio(c, b)) == Times(Ratio(a, b), c)
  {
    var p, q := Ratio(a, b), Ratio(c, b);
    assert p * b == a && q * b == c;
    calc {
      a * q;
      (p * b) * q;
      p * (q * b);
      p * c;
    }
  }

  lemma ProductBounds(x: real, quotient: real, e: real, product: real)
    requires x >= 0.0 && 0.0 <= e < 4294967296.0
    requires Close(x, quotient) && Close(Times(quotient, e), product)
    ensures Times(x, e + 0.5) - x <= product <= Times(x, e + 0.5)
  {
    var d := x / 4503599627370496.0;
    var xe, de, qe := Times(x, e), Times(d, e), Times(quotient, e);
    Bracket(x, d, quotient, e);
    Small(x, e);
    assert Times(x, e + 0.5) == xe + x / 2.0;
    assert xe - de <= qe <= xe + de;
    assert 0.0 <= de <= x / 1048576.0;
    assert xe <= x * 4294967296.0;
  }

  lemma Bracket(x: real, d: real, quotient: real, e: real)
    requires e >= 0.0 && d >= 0.0
    requires x - d <= quotient <= x + d
    ensures Times(x, e) - Times(d, e) <= Times(quotient, e) <= Times(x, e) + Times(d, e)
  {
    TimesMonotone(x - d, quotient, e, e);
    TimesMonotone(quotient, x + d, e, e);
  }

  lemma Small(x: real, e: real)
    requires x >= 0.0 && 0.0 <= e < 4294967296.0
    ensures 0.0 <= Times(x / 4503599627370496.0, e) <= x / 1048576.0
    ensures Times(x, e) <= x * 4294967296.0
    ensures Times(x, e + 0.5) == Times(x, e) + x / 2.0
  {
    TimesMonotone(x / 4503599627370496.0, x / 4503599627370496.0, 4294967296.0, e);
    TimesMonotone(x, x, 4294967296.0, e);
  }

  lemma TimesMonotone(lo: real, hi: real, e': real, e: real)
    requires lo <= hi && e >= 0.0
    ensures lo * e <= hi * e
    ensures hi >= 0.0 && e <= e' ==> hi * e <= hi * e'
  {
  }

  /** The bonus never exceeds the slack it is taken from, and ten bytes of slack per head make at least one byte per head. */
  lemma TenthBounds(slack: nat, heads: nat, rnd: Rounding)
    requires slack < TWO_TO_THE_32
    ensures Tenth(slack, rnd) <= slack
    ensures slack >= 10 * heads ==> Tenth(slack, rnd) >= heads
  {
    var s := slack as real;
    var tenth := rnd(0.1);
    assert Close(0.1, tenth);
    TenthOf(s, tenth, Times(tenth, s));
    var bonus := Product(tenth, s, rnd);
    var rounded := rnd(bonus + 0.5);
    assert Close(bonus + 0.5, rounded);
  }

  lemma TenthOf(s: real, tenth: real, p: real)
    requires s >= 0.0 && Close(0.1, tenth) && p == Times(tenth, s)
    ensures 0.1 * s - 0.1 * s / 4503599627370496.0 <= p <= 0.1 * s + 0.1 * s / 4503599627370496.0
  {
    var d := 0.1 / 4503599627370496.0;
    TimesMonotone(0.1 - d, tenth, s, s);
    TimesMonotone(tenth, 0.1 + d, s, s);
  }

  /** The two mixed integer and floating-point computations of the limiter. */
  datatype Fpu = Fpu(share: (nat, nat, nat) -> nat, tenth: nat -> nat)

  function FpuOf(rnd: Rounding): Fpu
  {
    Fpu((c, cur, excess) => if cur == 0 then 0 else Share(c, cur, excess, rnd), slack => Tenth(slack, rnd))
  }

  ghost predicate ShareSound(fpu: Fpu, c: nat, cur: nat, excess: nat)
    requires cur > 0
  {
    && fpu.share(c, cur, excess) as real <= Times(c as real, HighScale(cur, excess))
    && fpu.share(c, cur, excess) as real > Times(c as real, LowScale(cur, excess)) - 1.0
  }

  ghost predicate TenthSound(fpu: Fpu, slack: nat)
  {
    && fpu.tenth(slack) <= slack
    && forall heads: nat :: slack >= 10 * heads ==> fpu.tenth(slack) >= heads
  }

  /** All that the limiter's theorems need of the arithmetic: errors below one half of a byte in all. */
  ghost predicate Sound(fpu: Fpu)
  {
    && (forall c: nat, cur: nat, excess: nat :: cur > 0 && excess < TWO_TO_THE_32 ==> ShareSound(fpu, c, cur, excess))
    && (forall slack: nat :: slack < TWO_TO_THE_32 ==> TenthSound(fpu, slack))
  }

  /** Every double-precision rounding mode is sound for the limiter. */
  lemma DoublesAreSound(rnd: Rounding)
    ensures Sound(FpuOf(rnd))
  {
    var fpu := FpuOf(rnd);
    forall c: nat, cur: nat, excess: nat | cur > 0 && excess < TWO_TO_THE_32
      ensures ShareSound(fpu, c, cur, excess)
    {
      ShareBounds(c, cur, excess, rnd);
    }
    forall slack: nat | slack < TWO_TO_THE_32
      ensures TenthSound(fpu, slack)
    {
      forall heads: nat | slack >= 10 * heads
        ensures fpu.tenth(slack) >= heads
      {
        TenthBounds(slack, heads, rnd);
      }
      TenthBounds(slack, 0, rnd);
    }
  }
}
