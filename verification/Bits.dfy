/** JavaScript's 32-bit operators on numbers that hold integers (sections 6.1.6.1.9 to 6.1.6.1.17 of ECMA-262). */
module Bits {
  import opened Powers

  const TWO_32: nat := 0x1_0000_0000

  // x >>> 0
  function ToUint32(x: int): nat {
    x % TWO_32
  }

  function ToInt32(x: int): int {
    var u := x % TWO_32;
    if u >= 0x8000_0000 then u - TWO_32 else u
  }

  // x << n: only the last five bits of n count.
  function Shl(x: int, n: nat): int {
    ToInt32(ToInt32(x) * Pow2(n % 32))
  }

  function AndBits(a: nat, b: nat): nat {
    if a == 0 || b == 0 then 0 else (if a % 2 == 1 && b % 2 == 1 then 1 else 0) + 2 * AndBits(a / 2, b / 2)
  }

  // x & y
  function And(x: int, y: int): int {
    ToInt32(AndBits(ToUint32(x), ToUint32(y)))
  }

  lemma {:induction false} AndOnes(a: nat, w: nat)
    requires a < Pow2(w)
    ensures AndBits(a, Pow2(w) - 1) == a
  {
    if a > 0 {
      assert (Pow2(w) - 1) % 2 == 1 && (Pow2(w) - 1) / 2 == Pow2(w - 1) - 1;
      AndOnes(a / 2, w - 1);
    }
  }

  lemma EvenMask(a: nat, m: nat, e: nat, v: nat)
    requires e > 0 && v == AndBits(a / 2, m) && v == ((a / 2) / e) * e
    ensures AndBits(a, 2 * m) == (a / (2 * e)) * (2 * e)
  {
    EvenAnd(a, m);
    HalveTwice(a, e);
  }

  lemma EvenAnd(a: nat, m: nat)
    ensures AndBits(a, 2 * m) == 2 * AndBits(a / 2, m)
  {
    assert (2 * m) % 2 == 0 && (2 * m) / 2 == m;
  }

  // A mask of ones above bit k rounds down to a multiple of 2^k.
  lemma {:induction false} AndMask(a: nat, w: nat, k: nat, mask: nat, d: nat)
    requires a < Pow2(w) && k <= w && d == Pow2(k) && mask == Pow2(w) - d
    ensures AndBits(a, mask) == (a / d) * d
    decreases k
  {
    if k == 0 {
      AndOnes(a, w);
      ByOne(a);
    } else {
      var h, e := Pow2(w - 1), Pow2(k - 1);
      Pow2Monotone(k - 1, w - 1);
      assert d == 2 * e && mask == 2 * (h - e);
      AndMask(a / 2, w - 1, k - 1, h - e, e);
      EvenMask(a, h - e, e, AndBits(a / 2, h - e));
    }
  }

  lemma ByOne(a: nat)
    ensures (a / 1) * 1 == a
  {
  }

  lemma HalveTwice(a: nat, p: nat)
    requires p > 0
    ensures (a / 2) / p == a / (2 * p)
    ensures 2 * (((a / 2) / p) * p) == (a / (2 * p)) * (2 * p)
  {
    var q, r := a / (2 * p), a % (2 * p);
    assert a == q * (2 * p) + r;
    assert a / 2 == q * p + r / 2;
    assert r / 2 < p;
    DivUnique(a / 2, p, q, r / 2);
  }

  lemma Multiple(x: int, d: nat)
    ensures x >= 1 ==> x * d >= d
    ensures x <= -1 ==> x * d + d <= 0
  {
  }

  lemma DivUnique(a: nat, d: nat, q: nat, r: nat)
    requires d > 0 && r < d && a == q * d + r
    ensures a / d == q && a % d == r
  {
    var p: int := a / d;
    var x: int := p - q;
    assert x * d == p * d - q * d;
    Multiple(x, d);
    assert a == p * d + a % d;
  }

  lemma ToInt32Injective(a: nat, b: nat)
    requires a < TWO_32 && b < TWO_32
    ensures ToInt32(a) == ToInt32(b) <==> a == b
  {
  }

  lemma Pow32()
    ensures Pow2(32) == TWO_32 && Pow2(8) == 256
  {
    assert Pow2(8) == 256;
    assert Pow2(16) == 0x1_0000;
    assert Pow2(24) == 0x100_0000;
  }
}
