/** Facts about products and quotients of integers. */
module Arithmetic {
  lemma NonNegative(a: int, b: int)
    requires 0 <= a && 0 <= b
    ensures 0 <= a * b
  {
  }

  lemma Monotone(a: int, b: int, c: int)
    requires a <= b && 0 <= c
    ensures a * c <= b * c
  {
    NonNegative(b - a, c);
    assert (b - a) * c == b * c - a * c;
  }

  /** Euclid: how a quotient brackets its dividend. */
  lemma Quotient(a: int, b: int)
    requires 0 <= a && 0 < b
    ensures 0 <= a / b <= a
    ensures (a / b) * b <= a < (a / b) * b + b
  {
    var q := a / b;
    assert q * b <= a < q * b + b;
    if q < 0 { Monotone(q, -1, b); }
    if q > a { Monotone(1, b, q); }
  }

  /** The quotient is the one number that brackets its dividend so. */
  lemma QuotientIs(a: int, b: int, q: int)
    requires 0 <= a && 0 < b
    requires q * b <= a < q * b + b
    ensures a / b == q
  {
    Quotient(a, b);
    if a / b < q { Monotone(a / b + 1, q, b); }
    if q < a / b { Monotone(q + 1, a / b, b); }
  }

  /** Division rounds down, so it never loses to a bound it can divide. */
  lemma QuotientAtLeast(a: int, b: int, k: int)
    requires 0 <= a && 0 < b && k * b <= a
    ensures k <= a / b
  {
    Quotient(a, b);
    if a / b < k { Monotone(a / b + 1, k, b); }
  }

  /** Rounding down a sum against the sum of what was rounded down. */
  lemma QuotientOfSum(a: int, b: int, d: int)
    requires 0 <= a && 0 <= b && 0 < d
    ensures a / d + b / d <= (a + b) / d <= a / d + b / d + 1
  {
    Quotient(a, d);
    Quotient(b, d);
    var x, y := a / d, b / d;
    Distribute(x, y, d);
    QuotientAtLeast(a + b, d, x + y);
    if (a + b) / d > x + y + 1 {
      Quotient(a + b, d);
      Monotone(x + y + 2, (a + b) / d, d);
      Distribute(x + y, 2, d);
    }
  }

  lemma Distribute(x: int, y: int, d: int)
    ensures (x + y) * d == x * d + y * d
  {
  }
}

/** A value that may be missing. */
module Options {
  datatype Option<+T> = None | Some(value: T)
}

/** What every part of the model shares: how a call ends, who may call, and
    the 256-bit words it computes with. */
module Foundations {
  import Arithmetic

  /** Why a call failed: a `require` (or a fault the virtual machine raises),
      or an `assert` of the contract's own, which is meant never to fire. */
  datatype Fault = Require | Assert

  /** The result of a call. A failed call leaves no effect behind. */
  datatype Outcome<+T> = Done(value: T) | Reverted(fault: Fault) {
    predicate IsFailure() {
      Reverted?
    }

    function PropagateFailure<U>(): Outcome<U>
      requires Reverted?
    {
      Reverted(fault)
    }

    function Extract(): T
      requires Done?
    {
      value
    }
  }

  function Check(condition: bool): Outcome<()> {
    if condition then Done(()) else Reverted(Require)
  }

  /** `Account`s act by themselves. A `Mailbox` collects fees and spends them
      as its owner says. A `Contract` is one of the protocol's own contracts:
      it calls nothing but what its code calls. */
  datatype Address = Null | Account(id: nat) | Mailbox(id: nat) | Contract(id: nat)

  predicate MayCall(a: Address) {
    a.Account? || a.Mailbox?
  }

  const WORD: int := 0x1_0000_0000_0000_0000_0000_0000_0000_0000_0000_0000_0000_0000_0000_0000_0000_0000

  type uint256 = x: int | 0 <= x < WORD

  const MAX_WORD: uint256 := WORD - 1

  // Checked arithmetic as it is meant: the true result, or a failure. That
  // the wrapping code computes exactly this is proved in SafeMath.

  function CheckedAdd(a: uint256, b: uint256): Outcome<uint256> {
    if a + b < WORD then Done(a + b) else Reverted(Require)
  }

  function CheckedSub(a: uint256, b: uint256): Outcome<uint256> {
    if b <= a then Done(a - b) else Reverted(Require)
  }

  function CheckedMul(a: uint256, b: uint256): Outcome<uint256> {
    Arithmetic.NonNegative(a, b);
    if a * b < WORD then Done(a * b) else Reverted(Require)
  }
}
