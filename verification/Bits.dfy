/** Python's bitwise operators on non-negative integers of any size. */
module Bits {

  function Pow2(k: nat): (r: nat)
    ensures r > 0
  {
    if k == 0 then 1 else 2 * Pow2(k - 1)
  }

  function BitXor(x: nat, y: nat): (r: nat)
    ensures r < 2
  {
    if x == y then 0 else 1
  }

  function Xor(a: nat, b: nat): nat
    decreases a + b
  {
    if a == 0 && b == 0 then 0 else 2 * Xor(a / 2, b / 2) + BitXor(a % 2, b % 2)
  }

  function Or(a: nat, b: nat): nat
    decreases a + b
  {
    if a == 0 && b == 0 then 0 else 2 * Or(a / 2, b / 2) + if a % 2 + b % 2 > 0 then 1 else 0
  }

  function And(a: nat, b: nat): nat {
    if a == 0 || b == 0 then 0 else 2 * And(a / 2, b / 2) + if a % 2 + b % 2 == 2 then 1 else 0
  }

  function ShiftRight(a: nat, r: nat): nat { if r == 0 then a else ShiftRight(a / 2, r - 1) }

  function ShiftLeft(a: nat, k: nat): nat { a * Pow2(k) }

  lemma XorBits(a: nat, b: nat)
    ensures Xor(a, b) / 2 == Xor(a / 2, b / 2) && Xor(a, b) % 2 == BitXor(a % 2, b % 2)
  {
  }

  lemma SameBits(a: nat, b: nat)
    requires a / 2 == b / 2 && a % 2 == b % 2
    ensures a == b
  {
  }

  lemma BitXorLaws(x: nat, y: nat, z: nat)
    requires x < 2 && y < 2 && z < 2
    ensures BitXor(BitXor(x, y), y) == x
    ensures BitXor(BitXor(x, y), z) == BitXor(x, BitXor(y, z))
  {
  }

  lemma {:induction false} XorCancels(a: nat, b: nat)
    ensures Xor(Xor(a, b), b) == a
    decreases a + b
  {
    if a + b > 0 {
      XorBits(a, b);
      XorBits(Xor(a, b), b);
      hide Xor, BitXor;
      XorCancels(a / 2, b / 2);
      BitXorLaws(a % 2, b % 2, 0);
      SameBits(Xor(Xor(a, b), b), a);
    }
  }

  lemma {:induction false} XorAssociates(a: nat, b: nat, c: nat)
    ensures Xor(Xor(a, b), c) == Xor(a, Xor(b, c))
    decreases a + b + c
  {
    if a + b + c > 0 {
      XorBits(a, b);
      XorBits(b, c);
      XorBits(Xor(a, b), c);
      XorBits(a, Xor(b, c));
      hide Xor, BitXor;
      XorAssociates(a / 2, b / 2, c / 2);
      BitXorLaws(a % 2, b % 2, c % 2);
      SameBits(Xor(Xor(a, b), c), Xor(a, Xor(b, c)));
    }
  }

  lemma {:induction false} XorCommutes(a: nat, b: nat)
    ensures Xor(a, b) == Xor(b, a)
    decreases a + b
  {
    if a + b > 0 { XorCommutes(a / 2, b / 2); }
  }

  lemma {:induction false} XorBound(a: nat, b: nat, k: nat)
    requires a < Pow2(k) && b < Pow2(k)
    ensures Xor(a, b) < Pow2(k)
  {
    if k > 0 { XorBound(a / 2, b / 2, k - 1); }
  }

  lemma AndBits(a: nat, b: nat)
    ensures And(a, b) / 2 == And(a / 2, b / 2) && And(a, b) % 2 == if a % 2 + b % 2 == 2 then 1 else 0
  {
  }

  lemma MaskBits(half: nat)
    requires half > 0
    ensures (2 * half - 1) / 2 == half - 1 && (2 * half - 1) % 2 == 1
  {
  }

  lemma ZeroRemains(n: nat)
    requires n > 0
    ensures 0 % n == 0
  {
  }

  lemma MaskStep(a: nat, half: nat)
    requires half > 0 && And(a / 2, half - 1) == (a / 2) % half
    ensures And(a, 2 * half - 1) == a % (2 * half)
  {
    hide And;
    MaskBits(half);
    AndBits(a, 2 * half - 1);
    RemainderBits(a, half);
    SameBits(And(a, 2 * half - 1), a % (2 * half));
  }

  /** A mask of `k` ones keeps the remainder modulo two to the `k`. */
  lemma {:induction false} AndMask(a: nat, k: nat)
    ensures And(a, Pow2(k) - 1) == a % Pow2(k)
  {
    if a == 0 {
      ZeroRemains(Pow2(k));
    } else if k > 0 {
      AndMask(a / 2, k - 1);
      MaskStep(a, Pow2(k - 1));
    }
  }

  lemma RemainderBits(a: nat, half: nat)
    requires half > 0
    ensures a % (2 * half) / 2 == (a / 2) % half && a % (2 * half) % 2 == a % 2
  {
    var q, r := (a / 2) / half, (a / 2) % half;
    assert a == q * (2 * half) + (2 * r + a % 2) by {
      assert a / 2 == q * half + r;
      assert q * (2 * half) == 2 * (q * half);
    }
    RemainderIs(a, 2 * half, q, 2 * r + a % 2);
  }

  lemma RemainderIs(a: nat, n: nat, q: nat, r: nat)
    requires a == q * n + r && r < n
    ensures a % n == r
  {
    var d := a / n - q;
    assert d * n == r - a % n by {
      assert a == a / n * n + a % n;
      assert d * n == a / n * n - q * n;
    }
    Multiples(d, n);
  }

  lemma Multiples(d: int, n: nat)
    ensures d >= 1 ==> d * n >= n
    ensures d <= -1 ==> d * n + n <= 0
    ensures d == 0 ==> d * n == 0
  {
    assert d >= 1 ==> (d - 1) * n >= 0;
    assert d <= -1 ==> (-1 - d) * n >= 0;
  }

  lemma {:induction false} XorRemainder(a: nat, b: nat, k: nat)
    ensures Xor(a, b) % Pow2(k) == Xor(a % Pow2(k), b % Pow2(k))
  {
    if k > 0 {
      var n := Pow2(k);
      RemainderBits(a, Pow2(k - 1));
      RemainderBits(b, Pow2(k - 1));
      RemainderBits(Xor(a, b), Pow2(k - 1));
      XorBits(a, b);
      XorBits(a % n, b % n);
      XorRemainder(a / 2, b / 2, k - 1);
      hide Xor, Pow2, BitXor;
      SameBits(Xor(a, b) % n, Xor(a % n, b % n));
    }
  }

  lemma OrBits(a: nat, b: nat)
    ensures Or(a, b) / 2 == Or(a / 2, b / 2) && Or(a, b) % 2 == if a % 2 + b % 2 > 0 then 1 else 0
  {
  }

  lemma ShiftedOnce(b: nat, k: nat)
    requires k > 0
    ensures ShiftLeft(b, k) == 2 * ShiftLeft(b, k - 1)
  {
    assert b * (2 * Pow2(k - 1)) == 2 * (b * Pow2(k - 1));
  }

  lemma LowBitOfSum(a: nat, high: nat)
    ensures (2 * high) / 2 == high && (2 * high) % 2 == 0
    ensures (a + 2 * high) / 2 == a / 2 + high && (a + 2 * high) % 2 == a % 2
  {
  }

  /** Fields that do not overlap are joined by either operator as they are by addition. */
  lemma {:induction false} JoinFields(a: nat, b: nat, k: nat)
    requires a < Pow2(k)
    ensures Or(a, ShiftLeft(b, k)) == a + ShiftLeft(b, k) == Xor(a, ShiftLeft(b, k))
  {
    if k > 0 {
      var high, joined := ShiftLeft(b, k - 1), a + ShiftLeft(b, k);
      ShiftedOnce(b, k);
      assert a / 2 < Pow2(k - 1);
      hide Xor, Or, ShiftLeft, Pow2;
      XorBits(a, 2 * high);
      OrBits(a, 2 * high);
      JoinFields(a / 2, b, k - 1);
      LowBitOfSum(a, high);
      SameBits(Or(a, 2 * high), joined);
      SameBits(Xor(a, 2 * high), joined);
    } else {
      ZeroIsNeutral(b);
    }
  }

  lemma {:induction false} ZeroIsNeutral(b: nat)
    ensures Or(0, b) == b == Xor(0, b)
  {
    if b > 0 { ZeroIsNeutral(b / 2); }
  }

  lemma {:induction false} ShiftRightHalves(a: nat, r: nat)
    requires r > 0
    ensures ShiftRight(a, r) / 2 == ShiftRight(a / 2, r) && ShiftRight(a, r) == ShiftRight(a / 2, r - 1)
  {
    if r > 1 {
      ShiftRightHalves(a / 2, r - 1);
    }
  }

  /** `x ^ (x >> r)` forgets nothing. */
  lemma {:induction false} FoldIsInjective(x: nat, y: nat, r: nat)
    requires r > 0 && Xor(x, ShiftRight(x, r)) == Xor(y, ShiftRight(y, r))
    ensures x == y
    decreases x + y
  {
    if x + y > 0 {
      XorBits(x, ShiftRight(x, r));
      XorBits(y, ShiftRight(y, r));
      ShiftRightHalves(x, r);
      ShiftRightHalves(y, r);
      FoldIsInjective(x / 2, y / 2, r);
    }
  }

  lemma {:induction false} ShiftRightShrinks(x: nat, r: nat)
    ensures ShiftRight(x, r) <= x
  {
    if r > 0 { ShiftRightShrinks(x / 2, r - 1); }
  }
}
