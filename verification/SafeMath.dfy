/** The checked arithmetic of contracts_flattener/Market.sol over words that
    wrap around, and the integer square root beside it. */
module SafeMathUint256 {
  import opened Foundations
  import Arithmetic

  function Mul(a: uint256, b: uint256): (r: Outcome<uint256>)
    ensures r == CheckedMul(a, b)
  {
    MulWrap(a, b);
    var c := (a * b) % WORD;
    if a == 0 || c / a == b then Done(c) else Reverted(Require)
  }

  function Div(a: uint256, b: uint256): (r: Outcome<uint256>)
    ensures r.Done? <==> b != 0
    ensures r.Done? ==> r.value * b <= a < r.value * b + b
  {
    if b > 0 then
      Arithmetic.Quotient(a, b);
      Done(a / b)
    else
      Reverted(Require)
  }

  function Sub(a: uint256, b: uint256): (r: Outcome<uint256>)
    ensures r == CheckedSub(a, b)
  {
    if b <= a then Done((a - b) % WORD) else Reverted(Require)
  }

  function Add(a: uint256, b: uint256): (r: Outcome<uint256>)
    ensures r == CheckedAdd(a, b)
  {
    var c := (a + b) % WORD;
    if c >= a then Done(c) else Reverted(Require)
  }

  /** A product that wrapped is too small to divide back. */
  lemma MulWrap(a: int, b: int)
    requires 0 <= a && 0 <= b
    ensures 0 <= a * b
    ensures a == 0 ==> a * b == 0
    ensures a != 0 && a * b < WORD ==> (a * b) / a == b
    ensures a != 0 && a * b >= WORD ==> ((a * b) % WORD) / a != b
  {
    Arithmetic.NonNegative(a, b);
    if a != 0 {
      assert a * b == b * a;
      Arithmetic.QuotientIs(a * b, a, b);
      var c := (a * b) % WORD;
      if a * b >= WORD && c / a == b {
        Arithmetic.Quotient(c, a);
      }
    }
  }
}

/** Signed words in two's complement. */
module SafeMathInt256 {
  import opened Foundations
  import Arithmetic

  const HALF: int := 0x8000_0000_0000_0000_0000_0000_0000_0000_0000_0000_0000_0000_0000_0000_0000_0000
  const INT256_MIN: int256 := -HALF
  const INT256_MAX: int256 := HALF - 1

  type int256 = x: int | -HALF <= x < HALF

  predicate Fits(x: int) {
    -HALF <= x < HALF
  }

  /** The word that holds an integer after overflow. */
  function Wrap(x: int): (r: int256)
    ensures Fits(x) ==> r == x
    ensures x == HALF ==> r == INT256_MIN
  {
    (x + HALF) % WORD - HALF
  }

  function Abs(x: int): nat {
    if x < 0 then -x else x
  }

  /** Division as the machine does it: towards zero, and wrapped, so that
      dividing the least word by -1 gives the least word. */
  function Sdiv(a: int256, b: int256): int256
    requires b != 0
  {
    var q := Abs(a) / Abs(b);
    Wrap(if (a < 0) == (b < 0) then q else -q)
  }

  function Mul(a: int256, b: int256): Outcome<int256> {
    var c := Wrap(a * b);
    if a == 0 || Sdiv(c, a) == b then Done(c) else Reverted(Require)
  }

  /** Only division by zero is refused: the least word divided by -1 overflows
      to the least word and goes through. All else is rounded towards zero. */
  function Div(a: int256, b: int256): (r: Outcome<int256>)
    ensures r.Reverted? <==> b == 0
    ensures a == INT256_MIN && b == -1 ==> r == Done(INT256_MIN)
    ensures b != 0 && !(a == INT256_MIN && b == -1) ==>
      && Abs(r.value) == Abs(a) / Abs(b)
      && (r.value < 0 ==> (a < 0) != (b < 0)) && (r.value > 0 ==> (a < 0) == (b < 0))
  {
    var _ :- Check(b != 0);
    Arithmetic.Quotient(Abs(a), Abs(b));
    Done(Sdiv(a, b))
  }

  /** The guard on subtraction is itself computed in words, but no word in it
      overflows on the branch that reads it. */
  function Sub(a: int256, b: int256): (r: Outcome<int256>)
    ensures r == if Fits(a - b) then Done(a - b) else Reverted(Require)
  {
    if (a >= 0 && b >= Wrap(a - INT256_MAX)) || (a < 0 && b <= Wrap(a - INT256_MIN)) then
      Done(Wrap(a - b))
    else
      Reverted(Require)
  }

  function Add(a: int256, b: int256): (r: Outcome<int256>)
    ensures r == if Fits(a + b) then Done(a + b) else Reverted(Require)
  {
    if (a >= 0 && b <= Wrap(INT256_MAX - a)) || (a < 0 && b >= Wrap(INT256_MIN - a)) then
      Done(Wrap(a + b))
    else
      Reverted(Require)
  }

  lemma AbsProduct(a: int, b: int)
    ensures Abs(a * b) == Abs(b) * Abs(a)
    ensures a * b < 0 ==> (a < 0) != (b < 0)
    ensures a * b > 0 ==> (a < 0) == (b < 0)
    ensures a * b == 0 ==> a == 0 || b == 0
  {
    Arithmetic.NonNegative(Abs(a), Abs(b));
    if a != 0 && b != 0 { Arithmetic.Monotone(1, Abs(b), Abs(a)); }
    if a < 0 && b < 0 { assert a * b == (-a) * (-b); }
    if a < 0 && b >= 0 { assert a * b == -((-a) * b); }
    if a >= 0 && b < 0 { assert a * b == -(a * (-b)); }
  }

  lemma SdivExact(c: int256, a: int256, b: int256)
    requires a != 0 && c == a * b
    ensures Sdiv(c, a) == b
  {
    AbsProduct(a, b);
    Arithmetic.QuotientIs(Abs(c), Abs(a), Abs(b));
    assert Abs(c) / Abs(a) == Abs(b);
  }

  lemma SdivPlain(c: int256, a: int256)
    requires a < -1 || a > 1
    ensures Abs(Sdiv(c, a)) * Abs(a) <= Abs(c)
    ensures Sdiv(c, a) > 0 ==> (c < 0) == (a < 0)
    ensures Sdiv(c, a) < 0 ==> (c < 0) != (a < 0)
  {
    var q := Abs(c) / Abs(a);
    Arithmetic.Quotient(Abs(c), Abs(a));
    if q >= HALF {
      Arithmetic.Monotone(2, Abs(a), q);
    }
  }

  /** A product too large for a word is not what its wrapped word divides
      back to, unless that division itself wraps. */
  lemma SdivShort(a: int256, b: int256)
    requires a != 0 && a != -1 && !Fits(a * b)
    ensures Sdiv(Wrap(a * b), a) != b
  {
    if a != 1 {
      AbsProduct(a, b);
      SdivPlain(Wrap(a * b), a);
    }
  }

  /** Signed multiplication detects overflow exactly, but for one pair: it
      accepts -1 times the least word and returns the least word. */
  lemma MulExact(a: int256, b: int256)
    ensures Mul(a, b).Done? <==> Fits(a * b) || (a == -1 && b == INT256_MIN)
    ensures Fits(a * b) ==> Mul(a, b) == Done(a * b)
    ensures a == -1 && b == INT256_MIN ==> Mul(a, b) == Done(INT256_MIN)
  {
    if a == 0 {
      assert a * b == 0;
    } else if Fits(a * b) {
      SdivExact(Wrap(a * b), a, b);
      if a == -1 { assert a * b == -b; }
    } else if a == -1 {
      assert a * b + b == 0;
    } else {
      SdivShort(a, b);
    }
  }
}

/** The Babylonian square root of the SafeMath library. */
module Babylonian {
  import opened Foundations
  import Arithmetic

  predicate AboveRoot(y: int, x: int) {
    0 <= x && (x + 1) * (x + 1) > y
  }

  lemma MeanBeatsProduct(p: int, x: int, h: int)
    requires 0 <= p && 0 <= x && p + x <= 2 * h
    ensures p * x <= h * h
  {
    Arithmetic.Monotone(p + x, 2 * h, p + x);
    Arithmetic.Monotone(p + x, 2 * h, 2 * h);
    var d := if p < x then x - p else p - x;
    Arithmetic.NonNegative(d, d);
    assert (p + x) * (p + x) - d * d == 4 * (p * x);
    assert (2 * h) * (2 * h) == 4 * (h * h);
  }

  /** One step of the iteration never falls below the root. */
  lemma StepAbove(y: int, x: int)
    requires 0 <= y && 0 < x
    ensures AboveRoot(y, (y / x + x) / 2)
  {
    Arithmetic.Quotient(y, x);
    var q := y / x;
    var h := (q + x) / 2 + 1;
    MeanBeatsProduct(q + 1, x, h);
    assert (q + 1) * x == q * x + x;
  }

  lemma AboveOne(y: int, x: int)
    requires 3 < y && AboveRoot(y, x)
    ensures 1 < x
  {
    if x <= 1 {
      Arithmetic.Monotone(x + 1, 2, x + 1);
      Arithmetic.Monotone(x + 1, 2, 2);
    }
  }

  lemma Wider(y: int, x: int, x': int)
    requires AboveRoot(y, x) && x <= x'
    ensures AboveRoot(y, x')
  {
    Arithmetic.Monotone(x + 1, x' + 1, x + 1);
    Arithmetic.Monotone(x + 1, x' + 1, x' + 1);
  }

  lemma StepDown(y: int, x: int)
    requires 3 < y && 1 < x <= y / 2 + 1
    ensures 0 <= y / x <= y / 2
    ensures y / x >= x ==> x * x <= y
  {
    Arithmetic.Quotient(y, x);
    if y / x > y / 2 { Arithmetic.Monotone(2, x, y / x); }
    if y / x >= x { Arithmetic.Monotone(x, y / x, x); }
  }

  /** A step divides by a non-zero word and adds without overflow, and stays
      above the root; if it does not go down, the guess is at most the root. */
  lemma Step(y: int, x: int)
    requires 3 < y < WORD && 1 < x <= y / 2 + 1
    ensures 0 <= y / x && y / x + x < WORD
    ensures 1 < (y / x + x) / 2 <= y / 2 + 1
    ensures AboveRoot(y, (y / x + x) / 2)
    ensures (y / x + x) / 2 >= x ==> x * x <= y
  {
    StepDown(y, x);
    StepAbove(y, x);
    AboveOne(y, (y / x + x) / 2);
  }

  lemma Start(y: int)
    requires 3 < y
    ensures AboveRoot(y, y / 2 + 1) && AboveRoot(y, y)
  {
    StepAbove(y, 1);
    Arithmetic.QuotientIs(y, 1, y);
    Wider(y, (y / 1 + 1) / 2, y / 2 + 1);
    Wider(y, y / 2 + 1, y);
  }

  method Sqrt(y: uint256) returns (z: uint256)
    ensures z * z <= y < (z + 1) * (z + 1)
  {
    if y > 3 {
      z := y;
      var x: uint256 := y / 2 + 1;
      Start(y);
      while x < z
        invariant 1 < x <= y / 2 + 1
        invariant AboveRoot(y, z)
        invariant AboveRoot(y, x)
        invariant x >= z ==> z * z <= y
        decreases z
      {
        z := x;
        Step(y, z);
        x := (y / z + z) / 2;
      }
    } else if y != 0 {
      z := 1;
    } else {
      z := 0;
    }
  }
}
