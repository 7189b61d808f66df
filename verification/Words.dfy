/** Unsigned machine words of any width, as natural numbers with bitwise operations defined bit by bit. */
module Words {

  function Pow2(n: nat): (r: nat)
    ensures r >= 1
  {
    if n == 0 then 1 else 2 * Pow2(n - 1)
  }

  /** `x & y` */
  function And(x: nat, y: nat): nat {
    if x == 0 || y == 0 then 0 else 2 * And(x / 2, y / 2) + (if x % 2 == 1 && y % 2 == 1 then 1 else 0)
  }

  /** `~x` in a word of `w` bits */
  function Not(x: nat, w: nat): nat {
    if w == 0 then 0 else 2 * Not(x / 2, w - 1) + (1 - x % 2)
  }

  /** `count_ones` */
  function Ones(x: nat): nat {
    if x == 0 then 0 else x % 2 + Ones(x / 2)
  }

  /** `is_power_of_two` */
  predicate IsPowerOfTwo(x: nat) { Ones(x) == 1 }

  lemma {:induction false} OnesPositive(x: nat)
    requires x > 0
    ensures Ones(x) >= 1
  {
    if x > 1 { OnesPositive(x / 2); }
  }

  lemma {:induction false} OnesOfPow2(k: nat)
    ensures IsPowerOfTwo(Pow2(k))
  {
    if k > 0 {
      OnesOfPow2(k - 1);
      assert Pow2(k) / 2 == Pow2(k - 1) && Pow2(k) % 2 == 0;
    }
  }

  /** A single one bit names its exponent. */
  lemma {:induction false} Exponent(x: nat) returns (k: nat)
    requires IsPowerOfTwo(x)
    ensures x == Pow2(k)
  {
    if x % 2 == 1 {
      if x > 1 { OnesPositive(x / 2); }
      k := 0;
    } else {
      var j := Exponent(x / 2);
      k := j + 1;
    }
  }

  lemma {:induction false} AndSelf(x: nat)
    ensures And(x, x) == x
  {
    if x > 0 { AndSelf(x / 2); }
  }

  /** The test `x && !(x & (x - 1))` of the adapter and `is_power_of_two` accept the same words. */
  lemma {:induction false} PowerOfTwoTest(x: nat)
    requires x > 0
    ensures And(x, x - 1) == 0 <==> IsPowerOfTwo(x)
  {
    if x % 2 == 1 {
      if x > 1 {
        AndSelf(x / 2);
        OnesPositive(x / 2);
        assert (x - 1) / 2 == x / 2;
      }
    } else {
      PowerOfTwoTest(x / 2);
      assert (x - 1) / 2 == x / 2 - 1 && (x - 1) % 2 == 1;
    }
  }

  lemma {:induction false} Pow2Grows(a: nat, b: nat)
    requires a <= b
    ensures Pow2(a) <= Pow2(b)
    ensures a < b ==> 2 * Pow2(a) <= Pow2(b)
    decreases b - a
  {
    if a < b { Pow2Grows(a, b - 1); }
  }

  /** The powers that byte and word arithmetic meets. */
  lemma Pow2Values()
    ensures Pow2(2) == 4 && Pow2(10) == 0x400 && Pow2(12) == 0x1000 && Pow2(32) == 0x1_0000_0000
  {
    assert Pow2(2) == 4;
    assert Pow2(6) == 0x40;
    assert Pow2(10) == 0x400;
    assert Pow2(12) == 0x1000;
    Pow2Splits(10, 20);
    Pow2Splits(12, 32);
  }

  lemma Pow2Orders(a: nat, b: nat)
    requires Pow2(a) < Pow2(b)
    ensures a < b
  {
    if b <= a { Pow2Grows(b, a); }
  }

  lemma {:induction false} Pow2Splits(a: nat, b: nat)
    requires a <= b
    ensures Pow2(b) == Pow2(b - a) * Pow2(a)
    decreases b - a
  {
    if a < b {
      Pow2Splits(a, b - 1);
      Scale(Pow2(b - 1 - a), Pow2(a));
    }
  }

  lemma Scale(x: int, y: int)
    ensures (2 * x) * y == 2 * (x * y)
  {
  }

  /** Of two powers of two the smaller divides the larger. */
  lemma PowersDivide(p: nat, q: nat)
    requires IsPowerOfTwo(p) && IsPowerOfTwo(q) && p <= q
    ensures p > 0 && q % p == 0
  {
    var a := Exponent(p);
    var b := Exponent(q);
    if b < a { Pow2Grows(b, a); }
    Pow2Splits(a, b);
    MultipleRemainder(Pow2(b - a), p);
  }

  lemma MultipleRemainder(k: int, m: int)
    requires m > 0
    ensures (k * m) % m == 0 && (k * m) / m == k
  {
    RemainderUnique(k * m, m, k, 0);
  }

  lemma Ordered(i: int, j: int, m: int)
    requires m > 0
    ensures i <= j ==> i * m <= j * m
  {
  }

  /** Division with remainder has one answer. */
  lemma RemainderUnique(x: int, m: int, q: int, r: int)
    requires m > 0 && 0 <= r < m && x == q * m + r
    ensures x / m == q && x % m == r
  {
    var d := x / m - q;
    assert d * m == r - x % m;
    Ordered(1, d, m);
    Ordered(d, -1, m);
  }

  lemma {:induction false} AllOnes(x: nat, w: nat)
    requires x < Pow2(w)
    ensures And(x, Not(0, w)) == x
  {
    if w > 0 && x > 0 { AllOnes(x / 2, w - 1); }
  }

  lemma HalfRemainder(x: nat, m: nat)
    requires m > 0
    ensures x % (2 * m) == 2 * ((x / 2) % m) + x % 2
  {
    var h := x / 2;
    var q := h / m;
    assert h == q * m + h % m;
    assert x == q * (2 * m) + (2 * (h % m) + x % 2);
    RemainderUnique(x, 2 * m, q, 2 * (h % m) + x % 2);
  }

  /** Masking with the complement of `2^k - 1` clears the low `k` bits. */
  lemma {:induction false} MaskClearsRemainder(x: nat, k: nat, w: nat)
    requires k <= w && x < Pow2(w)
    ensures And(x, Not(Pow2(k) - 1, w)) == x - x % Pow2(k)
  {
    if k == 0 {
      AllOnes(x, w);
    } else {
      var low := Pow2(k) - 1;
      assert low / 2 == Pow2(k - 1) - 1 && low % 2 == 1;
      var mask := Not(Pow2(k - 1) - 1, w - 1);
      assert Not(low, w) == 2 * mask;
      assert And(x, 2 * mask) == 2 * And(x / 2, mask);
      MaskClearsRemainder(x / 2, k - 1, w - 1);
      HalfRemainder(x, Pow2(k - 1));
    }
  }

  /** The same for a mask that is given as a number. */
  lemma MaskClears(x: nat, mask: nat, k: nat, w: nat)
    requires k <= w && x < Pow2(w) && mask == Pow2(k) - 1
    ensures And(x, Not(mask, w)) == x - x % (mask + 1)
  {
    MaskClearsRemainder(x, k, w);
  }

  // Single bits

  /** `x | y` */
  function Or(x: nat, y: nat): nat {
    if x == 0 then y
    else if y == 0 then x
    else 2 * Or(x / 2, y / 2) + (if x % 2 == 1 || y % 2 == 1 then 1 else 0)
  }

  predicate Bit(x: nat, k: nat) { if k == 0 then x % 2 == 1 else Bit(x / 2, k - 1) }

  lemma {:induction false} BitOfZero(k: nat)
    ensures !Bit(0, k)
  {
    if k > 0 { BitOfZero(k - 1); }
  }

  lemma {:induction false} BitOfPow2(k: nat, j: nat)
    ensures Bit(Pow2(k), j) <==> j == k
  {
    if k == 0 && j > 0 {
      BitOfZero(j - 1);
    } else if k > 0 && j > 0 {
      assert Pow2(k) / 2 == Pow2(k - 1);
      BitOfPow2(k - 1, j - 1);
    }
  }

  lemma {:induction false} BitOfOr(x: nat, y: nat, k: nat)
    ensures Bit(Or(x, y), k) <==> Bit(x, k) || Bit(y, k)
    decreases k
  {
    BitOfZero(k);
    if k > 0 && x > 0 && y > 0 {
      assert Or(x, y) / 2 == Or(x / 2, y / 2);
      BitOfOr(x / 2, y / 2, k - 1);
    }
  }

  lemma {:induction false} BitOfAnd(x: nat, y: nat, k: nat)
    ensures Bit(And(x, y), k) <==> Bit(x, k) && Bit(y, k)
    decreases k
  {
    BitOfZero(k);
    if k > 0 && x > 0 && y > 0 {
      assert And(x, y) / 2 == And(x / 2, y / 2);
      BitOfAnd(x / 2, y / 2, k - 1);
    }
  }

  /** A word is its bits. */
  lemma {:induction false} SameBits(x: nat, y: nat)
    requires forall k: nat :: Bit(x, k) <==> Bit(y, k)
    ensures x == y
    decreases x + y
  {
    if x + y > 0 {
      assert Bit(x, 0) <==> Bit(y, 0);
      forall k: nat ensures Bit(x / 2, k) <==> Bit(y / 2, k) {
        assert Bit(x, k + 1) <==> Bit(y, k + 1);
      }
      SameBits(x / 2, y / 2);
    }
  }

  lemma {:induction false} SomeBit(x: nat) returns (k: nat)
    requires x > 0
    ensures Bit(x, k)
  {
    if x % 2 == 1 {
      k := 0;
    } else {
      var j := SomeBit(x / 2);
      k := j + 1;
    }
  }

  /** `x & (1 << k)` tests one bit. */
  lemma AndTestsBit(x: nat, k: nat)
    ensures And(x, Pow2(k)) != 0 <==> Bit(x, k)
  {
    BitOfAnd(x, Pow2(k), k);
    BitOfPow2(k, k);
    BitOfZero(k);
    if And(x, Pow2(k)) != 0 {
      var j := SomeBit(And(x, Pow2(k)));
      BitOfAnd(x, Pow2(k), j);
      BitOfPow2(k, j);
    }
  }

  /** A word below `2^w` has no bit from `w` up. */
  lemma {:induction false} HighBits(x: nat, w: nat, k: nat)
    requires x < Pow2(w) && k >= w
    ensures !Bit(x, k)
    decreases w
  {
    if w == 0 { BitOfZero(k); } else { HighBits(x / 2, w - 1, k - 1); }
  }

  lemma {:induction false} BitOfNot(x: nat, w: nat, k: nat)
    ensures Bit(Not(x, w), k) <==> k < w && !Bit(x, k)
    decreases w
  {
    if w == 0 {
      BitOfZero(k);
    } else if k > 0 {
      assert Not(x, w) / 2 == Not(x / 2, w - 1);
      BitOfNot(x / 2, w - 1, k - 1);
    }
  }
}
