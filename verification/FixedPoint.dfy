/**
  Balances against U64F64 fixed point numbers (pallets/phala/src/utils/balance_convert.rs).

  A balance is a natural number of pico units, 10^12 to one token. A U64F64 number is the
  natural number of its bits, so `b` stands for b / 2^64. Every operator floors, as the
  `fixed` crate does for unsigned numbers. `ToFixed`, `FromFixed`, `Mul` and `Div` are the
  values the code computes whenever nothing leaves the 128-bit representation; the
  `Machine` functions write the width out and `MachineMulExact`, `MachineDivExact` say
  exactly when the two agree.
*/
module FixedPoint {

  const ONE: nat := 0x1_0000_0000_0000_0000
  const SCALE: nat := 1_000_000_000_000
  // 2^52 and 5^12: ONE and SCALE without their common factor 2^12
  const ONE_ODD: nat := 0x10_0000_0000_0000
  const SCALE_ODD: nat := 244_140_625

  type Bits = nat

  function ToFixed(n: nat): Bits {
    n * ONE / SCALE
  }

  function FromFixed(b: Bits): nat {
    b * SCALE / ONE
  }

  /** The `*` operator of U64F64. */
  function FixMul(a: Bits, b: Bits): Bits {
    a * b / ONE
  }

  /** The `/` operator of U64F64. */
  function FixDiv(a: Bits, b: Bits): Bits
    requires b > 0
  {
    a * ONE / b
  }

  function Mul(x: nat, y: Bits): nat {
    FromFixed(FixMul(ToFixed(x), y))
  }

  function Div(x: nat, y: Bits): nat
    requires y > 0
  {
    FromFixed(FixDiv(ToFixed(x), y))
  }

  /** No shares are worth nothing, and any are at no price. */
  lemma MulByZero(n: nat)
    ensures Mul(n, 0) == 0 && Mul(0, n) == 0
  {
  }

  // ---------------------------------------------------------------- integer division

  lemma DivBounds(a: nat, b: nat)
    requires b > 0
    ensures a / b * b <= a < (a / b + 1) * b
  {
    assert a == b * (a / b) + a % b;
  }

  /** The quotient is the only number meeting the two bounds of `DivBounds`. */
  lemma DivUnique(a: nat, b: nat, q: nat)
    requires b > 0
    requires q * b <= a < (q + 1) * b
    ensures a / b == q
  {
    DivBounds(a, b);
    if a / b < q {
      MulMono(a / b + 1, q, b);
    } else if a / b > q {
      MulMono(q + 1, a / b, b);
    }
  }

  lemma MulMono(a: nat, b: nat, c: nat)
    requires a <= b
    ensures a * c <= b * c
    ensures c * a <= c * b
  {
  }

  lemma DivMono(a: nat, a': nat, b: nat)
    requires a <= a' && b > 0
    ensures a / b <= a' / b
  {
    DivBounds(a, b);
    DivBounds(a', b);
    if a / b > a' / b {
      MulMono(a' / b + 1, a / b, b);
    }
  }

  lemma DivAtMost(a: nat, b: nat, q: nat)
    requires b > 0 && a <= q * b
    ensures a / b <= q
  {
    DivBounds(a, b);
    if a / b > q {
      MulMono(q + 1, a / b, b);
    }
  }

  lemma DivAtLeast(a: nat, b: nat, q: nat)
    requires b > 0 && q * b <= a
    ensures q <= a / b
  {
    DivBounds(a, b);
    if a / b < q {
      MulMono(a / b + 1, q, b);
    }
  }

  lemma MulDistributes(a: int, b: int, c: int)
    ensures (a + b) * c == a * c + b * c
  {
  }

  // ---------------------------------------------------------------- conversions

  lemma ToFixedMono(x: nat, x': nat)
    requires x <= x'
    ensures ToFixed(x) <= ToFixed(x')
  {
  }

  lemma ToFixedPositive(n: nat)
    ensures ToFixed(n) > 0 <==> n > 0
  {
  }

  lemma ToFixedSuperadditive(x: nat, x': nat)
    ensures ToFixed(x) + ToFixed(x') <= ToFixed(x + x')
  {
  }

  /** Flooring two parts loses at least as much as flooring their sum. */
  lemma MulSuperadditive(x: nat, x': nat, y: Bits)
    ensures Mul(x, y) + Mul(x', y) <= Mul(x + x', y)
  {
    var b, b' := ToFixed(x), ToFixed(x');
    ToFixedSuperadditive(x, x');
    MulDistributes(b, b', y);
    FixMulMono(b + b', ToFixed(x + x'), y, y);
    assert FixMul(b, y) + FixMul(b', y) <= FixMul(b + b', y);
  }

  lemma FromFixedMono(b: Bits, b': Bits)
    requires b <= b'
    ensures FromFixed(b) <= FromFixed(b')
  {
  }

  /** ONE_ODD and SCALE_ODD are coprime: a Bezout pair divides `n` out. */
  lemma CoprimeScale(n: nat, q: nat)
    requires n * ONE_ODD == q * SCALE_ODD
    ensures n % SCALE_ODD == 0
  {
    // 200219031 * 2^52 - k * 5^12 == 1
    var u := 200_219_031;
    var k := (u * ONE_ODD - 1) / SCALE_ODD;
    assert u * ONE_ODD == k * SCALE_ODD + 1;
    assert n == (u * q - n * k) * SCALE_ODD;
  }

  /**
    Converting a balance there and back loses one pico, unless 5^12 divides the balance,
    in which case it loses nothing.
  */
  lemma RoundTrip(n: nat)
    ensures FromFixed(ToFixed(n)) == if n % SCALE_ODD == 0 then n else n - 1
  {
    var q := ToFixed(n);
    assert q * SCALE_ODD <= n * ONE_ODD < (q + 1) * SCALE_ODD;
    if q * SCALE_ODD == n * ONE_ODD {
      CoprimeScale(n, q);
      DivUnique(q * SCALE, ONE, n);
    } else {
      if n % SCALE_ODD == 0 {
        DivUnique(n * ONE, SCALE, n / SCALE_ODD * ONE_ODD);
      }
      DivUnique(q * SCALE, ONE, n - 1);
    }
  }

  lemma FixMulMono(a: Bits, a': Bits, b: Bits, b': Bits)
    requires a <= a' && b <= b'
    ensures FixMul(a, b) <= FixMul(a', b')
  {
    MulMono(a, a', b);
    MulMono(b, b', a');
    DivMono(a * b, a' * b', ONE);
  }

  lemma MulIsMonotone(x: nat, x': nat, y: Bits, y': Bits)
    requires x <= x' && y <= y'
    ensures Mul(x, y) <= Mul(x', y')
  {
    ToFixedMono(x, x');
    FixMulMono(ToFixed(x), ToFixed(x'), y, y');
  }

  lemma DivIsMonotone(x: nat, x': nat, y: Bits)
    requires x <= x' && y > 0
    ensures Div(x, y) <= Div(x', y)
  {
    ToFixedMono(x, x');
    MulMono(ToFixed(x), ToFixed(x'), ONE);
    DivMono(ToFixed(x) * ONE, ToFixed(x') * ONE, y);
  }

  /** Dividing by a price and multiplying back never gains. */
  lemma MulDivAtMost(x: nat, y: Bits)
    requires y > 0
    ensures Mul(Div(x, y), y) <= x
  {
    var q := FixDiv(ToFixed(x), y);
    var f := ToFixed(Div(x, y));
    assert f <= q;
    DivBounds(ToFixed(x) * ONE, y);
    MulMono(f, q, y);
    DivAtMost(f * y, ONE, ToFixed(x));
  }

  lemma ScaledGap(f: nat, q: nat, y: nat)
    requires q * SCALE <= f * SCALE + ONE + SCALE
    ensures SCALE * (q * y) <= SCALE * (f * y) + (ONE + SCALE) * y
  {
    calc {
      SCALE * (q * y);
    ==
      q * SCALE * y;
    <=  { MulMono(q * SCALE, f * SCALE + ONE + SCALE, y); }
      (f * SCALE + ONE + SCALE) * y;
    ==
      SCALE * (f * y) + (ONE + SCALE) * y;
    }
  }

  /**
    What dividing by a price `y` and multiplying back loses: no more than 1 + y pico, up to
    a relative error of 2 * SCALE / ONE.
  */
  lemma MulDivGap(x: nat, y: Bits)
    requires y > 0
    ensures (x - Mul(Div(x, y), y)) * ONE * ONE <= (ONE + 2 * SCALE) * (ONE + y)
  {
    var xb := ToFixed(x);
    var q := FixDiv(xb, y);
    var f := ToFixed(FromFixed(q));
    DivBounds(xb * ONE, y);
    DivBounds(f * y, ONE);
    ScaledGap(f, q, y);
    GapAdds(x, xb, q * y, f * y, f * y / ONE, y);
  }

  /** The linear part of `MulDivGap`, with the two products as numbers of their own. */
  lemma GapAdds(x: nat, xb: nat, qy: nat, fy: nat, m: nat, y: nat)
    requires xb == x * ONE / SCALE
    requires xb * ONE < qy + y
    requires SCALE * qy <= SCALE * fy + (ONE + SCALE) * y
    requires fy < (m + 1) * ONE
    ensures (x - FromFixed(m)) * ONE * ONE <= (ONE + 2 * SCALE) * (ONE + y)
  {
    var r := FromFixed(m);
    assert x * ONE < xb * SCALE + SCALE;
    assert m * SCALE < r * ONE + ONE;
  }

  // ---------------------------------------------------------------- machine width

  const WIDTH: nat := 0x1_0000_0000_0000_0000_0000_0000_0000_0000

  datatype Machine = Value(n: nat) | Overflow

  /** `from_fixed`: a saturating multiplication, then the integer part. */
  function MachineFromFixed(b: Bits): nat {
    if b * SCALE < WIDTH then b * SCALE / ONE else (WIDTH - 1) / ONE
  }

  function MachineMul(x: nat, y: Bits): Machine {
    if x >= ONE || FixMul(ToFixed(x), y) >= WIDTH then Overflow
    else Value(MachineFromFixed(FixMul(ToFixed(x), y)))
  }

  function MachineDiv(x: nat, y: Bits): Machine {
    if x >= ONE || y == 0 || FixDiv(ToFixed(x), y) >= WIDTH then Overflow
    else Value(MachineFromFixed(FixDiv(ToFixed(x), y)))
  }

  lemma MachineFromFixedExact(b: Bits)
    ensures MachineFromFixed(b) == FromFixed(b) <==> FromFixed(b) < ONE
    ensures FromFixed(b) < ONE ==> b < WIDTH
  {
  }

  /** `mul` computes `Mul` exactly on balances below 2^64 whose product is below 2^64. */
  lemma MachineMulExact(x: nat, y: Bits)
    ensures MachineMul(x, y) == Value(Mul(x, y)) <==> x < ONE && Mul(x, y) < ONE
  {
    MachineFromFixedExact(FixMul(ToFixed(x), y));
  }

  lemma MachineDivExact(x: nat, y: Bits)
    requires y > 0
    ensures MachineDiv(x, y) == Value(Div(x, y)) <==> x < ONE && Div(x, y) < ONE
  {
    MachineFromFixedExact(FixDiv(ToFixed(x), y));
  }
}
