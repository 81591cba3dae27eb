/** Bitwise operations on numbers, as the wire code uses them, and bytes. */
module Bits {
  type byte = x: nat | x < 256

  function Pow2(k: nat): (p: nat)
    ensures p >= 1
  {
    if k == 0 then 1 else 2 * Pow2(k - 1)
  }

  /** Exclusive or, bit by bit. */
  function Xor(a: nat, b: nat): nat {
    if a == 0 && b == 0 then 0
    else 2 * Xor(a / 2, b / 2) + if a % 2 != b % 2 then 1 else 0
  }

  /** Inclusive or, bit by bit. */
  function Or(a: nat, b: nat): nat {
    if a == 0 && b == 0 then 0
    else 2 * Or(a / 2, b / 2) + if a % 2 + b % 2 > 0 then 1 else 0
  }

  /** Exclusive or of any two integers, in two's complement without end. */
  function XorInt(a: int, b: int): int {
    if a >= 0 && b >= 0 then Xor(a, b)
    else if a < 0 && b < 0 then Xor(-a - 1, -b - 1)
    else if a < 0 then -1 - Xor(-a - 1, b)
    else -1 - Xor(a, -b - 1)
  }

  lemma {:induction false} XorBelow(a: nat, b: nat, k: nat)
    requires a < Pow2(k) && b < Pow2(k)
    ensures Xor(a, b) < Pow2(k)
  {
    if k > 0 {
      XorBelow(a / 2, b / 2, k - 1);
    }
  }

  /** Applying the same mask twice gives the number back. */
  lemma {:induction false} XorTwice(a: nat, b: nat)
    ensures Xor(Xor(a, b), b) == a
    decreases a + b
  {
    if a != 0 || b != 0 {
      XorTwice(a / 2, b / 2);
      var x := Xor(a, b);
      assert x / 2 == Xor(a / 2, b / 2);
      assert x % 2 == if a % 2 != b % 2 then 1 else 0;
    }
  }

  lemma {:induction false} XorCommutes(a: nat, b: nat)
    ensures Xor(a, b) == Xor(b, a)
  {
    if a != 0 || b != 0 {
      XorCommutes(a / 2, b / 2);
    }
  }

  lemma {:induction false} XorZero(a: nat)
    ensures Xor(a, 0) == a
  {
    if a != 0 {
      XorZero(a / 2);
    }
  }

  lemma {:induction false} OrZero(a: nat)
    ensures Or(a, 0) == a && Or(0, a) == a
  {
    if a != 0 {
      OrZero(a / 2);
    }
  }

  lemma OrStep(r: nat, y: nat)
    ensures Or(r, 2 * y) == 2 * Or(r / 2, y) + r % 2
  {
    assert 2 * y / 2 == y;
    OrZero(r / 2);
  }

  /** Or of numbers that share no bit is their sum. */
  lemma {:induction false} OrAbove(r: nat, x: nat, k: nat)
    requires r < Pow2(k)
    ensures Or(r, x * Pow2(k)) == r + x * Pow2(k)
  {
    if k == 0 {
      OrZero(x);
    } else {
      var y := x * Pow2(k - 1);
      OrAbove(r / 2, x, k - 1);
      Halves(x, k);
      OrStep(r, y);
      hide Or, Pow2;
    }
  }

  lemma Halves(x: nat, k: nat)
    requires k > 0
    ensures x * Pow2(k) == 2 * (x * Pow2(k - 1))
  {
  }

  lemma Pow2Is8()
    ensures Pow2(8) == 256
  {
    assert Pow2(4) == 16;
  }

  /** The low byte of a number. */
  function Low(a: nat): byte { a % 256 }

  /** The sum of two numbers, kept to one byte. */
  function Add(a: nat, b: nat): byte { (a + b) % 256 }

  function Mask(a: byte, b: byte): byte {
    Pow2Is8();
    XorBelow(a, b, 8);
    Xor(a, b)
  }

  lemma MaskTwice(a: byte, b: byte)
    ensures Mask(Mask(a, b), b) == a
  {
    XorTwice(a, b);
  }
}
