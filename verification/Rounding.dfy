/** lib/Common.h: rounding up to a power of two by smearing bits, with the wrap-around of
    the machine word written out. Words are numbers below `Pow2(w)`. */
module Rounding {

  const TWO_32 := 0x1_0000_0000
  const TWO_64 := 0x1_0000_0000_0000_0000

  type Word32 = x: nat | x < TWO_32
  type Word64 = x: nat | x < TWO_64

  function Pow2(n: nat): (r: nat)
    ensures r > 0
  {
    if n == 0 then 1 else 2 * Pow2(n - 1)
  }

  /** Bitwise or. */
  function Or(a: nat, b: nat): nat
    decreases a + b
  {
    if a == 0 && b == 0 then 0
    else 2 * Or(a / 2, b / 2) + if a % 2 == 1 || b % 2 == 1 then 1 else 0
  }

  /** `x >> n`. */
  function Shr(x: nat, n: nat): nat {
    if n == 0 then x else Shr(x / 2, n - 1)
  }

  function Decrement(v: nat, w: nat): nat
    requires v < Pow2(w)
  {
    if v == 0 then Pow2(w) - 1 else v - 1
  }

  function Increment(v: nat, w: nat): nat {
    if v + 1 == Pow2(w) then 0 else v + 1
  }

  /** `x |= x >> n`, then with `2n`, `4n` and so on below the word size. */
  function Smear(x: nat, n: nat, w: nat): nat
    requires n > 0
    decreases w - n
  {
    if n >= w then x else Smear(Or(x, Shr(x, n)), 2 * n, w)
  }

  /** The whole computation on words of `w` bits. */
  function Align(v: nat, w: nat): nat
    requires v < Pow2(w)
  {
    Increment(Smear(Decrement(v, w), 1, w), w)
  }

  ghost predicate IsLeastPower(v: nat, p: nat) {
    && v <= p
    && (exists k :: p == Pow2(k))
    && forall k :: v <= Pow2(k) ==> p <= Pow2(k)
  }

  // ---- Powers ----

  lemma {:induction false} Pow2Sum(a: nat, b: nat)
    ensures Pow2(a + b) == Pow2(a) * Pow2(b)
  {
    if a > 0 {
      Pow2Sum(a - 1, b);
      assert Pow2(a) * Pow2(b) == 2 * (Pow2(a - 1) * Pow2(b));
    }
  }

  lemma {:induction false} Pow2Monotone(a: nat, b: nat)
    requires a <= b
    ensures Pow2(a) <= Pow2(b)
  {
    if a < b {
      Pow2Monotone(a, b - 1);
    }
  }

  lemma {:induction false} Exceeds(n: nat)
    ensures n < Pow2(n)
  {
    if n > 0 {
      Exceeds(n - 1);
    }
  }

  /** Every positive number has a highest bit. */
  lemma {:induction false} HighestBit(x: nat, w: nat) returns (l: nat)
    requires 0 < x < Pow2(w)
    ensures 1 <= l <= w && Pow2(l - 1) <= x < Pow2(l)
  {
    if x >= Pow2(w - 1) {
      l := w;
    } else {
      l := HighestBit(x, w - 1);
    }
  }

  // ---- Bitwise or ----

  lemma {:induction false} OrBounds(a: nat, b: nat, l: nat)
    requires a < Pow2(l) && b < Pow2(l)
    ensures b <= Or(a, b) < Pow2(l)
    decreases l
  {
    if l > 0 && (a != 0 || b != 0) {
      OrBounds(a / 2, b / 2, l - 1);
    }
  }

  lemma {:induction false} OrZero(a: nat)
    ensures Or(a, 0) == a
  {
    if a > 0 {
      OrZero(a / 2);
    }
  }

  lemma HalfOfSplit(h: nat, s: nat, lo: nat)
    requires s > 0
    ensures (h * Pow2(s) + lo) / 2 == h * Pow2(s - 1) + lo / 2
    ensures (h * Pow2(s) + lo) % 2 == lo % 2
  {
    assert h * Pow2(s) == 2 * (h * Pow2(s - 1));
  }

  /** Or keeps the bits above a number that has none there. */
  lemma {:induction false} OrSplit(h: nat, s: nat, lo: nat, b: nat)
    requires lo < Pow2(s) && b < Pow2(s)
    ensures Or(h * Pow2(s) + lo, b) == h * Pow2(s) + Or(lo, b)
  {
    if s == 0 {
      OrZero(h);
    } else {
      HalfOfSplit(h, s, lo);
      OrSplit(h, s - 1, lo / 2, b / 2);
      assert h * Pow2(s) == 2 * (h * Pow2(s - 1));
    }
  }

  // ---- Smearing ----

  /** The top `n` of the `l` low bits of `x` are ones, and there are no bits above them. */
  predicate TopOnes(x: nat, l: nat, n: nat) {
    Pow2(l) - Pow2(if n < l then l - n else 0) <= x < Pow2(l)
  }

  lemma SplitTop(x: nat, l: nat, n: nat) returns (lo: nat)
    requires n < l && TopOnes(x, l, n)
    ensures lo < Pow2(l - n) && x == (Pow2(n) - 1) * Pow2(l - n) + lo
  {
    SplitSum(l, n);
    lo := x - (Pow2(l) - Pow2(l - n));
  }

  lemma {:induction false} ShrBounds(x: nat, l: nat, j: nat, n: nat)
    requires n <= l && j <= l && Pow2(l) - Pow2(j) <= x < Pow2(l)
    ensures Pow2(l - n) - Pow2(if n < j then j - n else 0) <= Shr(x, n) < Pow2(l - n)
  {
    if n > 0 {
      ShrBounds(x / 2, l - 1, if j > 0 then j - 1 else 0, n - 1);
    }
  }

  lemma {:induction false} ShrAll(x: nat, n: nat)
    requires x < Pow2(n)
    ensures Shr(x, n) == 0
  {
    if n > 0 {
      ShrAll(x / 2, n - 1);
    }
  }

  lemma SmearStep(x: nat, l: nat, n: nat)
    requires 0 < n && TopOnes(x, l, n)
    ensures TopOnes(Or(x, Shr(x, n)), l, 2 * n)
  {
    if n < l {
      var lo := SplitTop(x, l, n);
      ShrBounds(x, l, l - n, n);
      var b := Shr(x, n);
      OrSplit(Pow2(n) - 1, l - n, lo, b);
      OrBounds(lo, b, l - n);
      SplitSum(l, n);
    } else {
      Pow2Monotone(l, n);
      ShrAll(x, n);
      OrZero(x);
    }
  }

  lemma SplitSum(l: nat, n: nat)
    requires n <= l
    ensures (Pow2(n) - 1) * Pow2(l - n) == Pow2(l) - Pow2(l - n)
  {
    Pow2Sum(n, l - n);
  }

  lemma {:induction false} SmearFills(x: nat, l: nat, n: nat, w: nat)
    requires 0 < n && l <= w && TopOnes(x, l, n)
    ensures Smear(x, n, w) == Pow2(l) - 1
    decreases w - n
  {
    if n < w {
      SmearStep(x, l, n);
      SmearFills(Or(x, Shr(x, n)), l, 2 * n, w);
    }
  }

  lemma {:induction false} SmearZero(n: nat, w: nat)
    requires n > 0
    ensures Smear(0, n, w) == 0
    decreases w - n
  {
    if n < w {
      ShrAll(0, n);
      SmearZero(2 * n, w);
    }
  }

  lemma LeastBelow(v: nat, l: nat)
    requires Pow2(l) >= v && (l > 0 ==> Pow2(l - 1) < v) && v > 0
    ensures IsLeastPower(v, Pow2(l))
  {
    forall k: nat | v <= Pow2(k)
      ensures Pow2(l) <= Pow2(k)
    {
      if k < l {
        Pow2Monotone(k, l - 1);
      } else {
        Pow2Monotone(l, k);
      }
    }
  }

  /** The smeared word is all ones up to the highest bit of `v - 1`. */
  lemma AlignPower(v: nat, w: nat) returns (l: nat)
    requires 2 <= v < Pow2(w)
    ensures 1 <= l <= w && Pow2(l - 1) < v <= Pow2(l)
    ensures Align(v, w) == if l == w then 0 else Pow2(l)
  {
    l := HighestBit(v - 1, w);
    SmearFills(v - 1, l, 1, w);
    if l < w {
      Pow2Monotone(l, w - 1);
    }
  }

  /** Rounding gives the least power of two that is not smaller, and 0 exactly for 0 and
      for the numbers above the highest power of two of the word. */
  lemma AlignIsLeast(v: nat, w: nat)
    requires w > 0 && v < Pow2(w)
    ensures 1 <= v <= Pow2(w - 1) ==> IsLeastPower(v, Align(v, w))
    ensures v == 0 || v > Pow2(w - 1) ==> Align(v, w) == 0
  {
    if v == 0 {
      SmearFills(Pow2(w) - 1, w, 1, w);
    } else if v == 1 {
      SmearZero(1, w);
      LeastBelow(1, 0);
      Pow2Monotone(0, w - 1);
    } else {
      var l := AlignPower(v, w);
      if l < w {
        Pow2Monotone(l, w - 1);
        LeastBelow(v, l);
      }
    }
  }

  // ---- The C functions ----

  lemma Powers()
    ensures Pow2(31) == 0x8000_0000 && Pow2(32) == TWO_32
    ensures Pow2(63) == 0x8000_0000_0000_0000 && Pow2(64) == TWO_64
  {
    assert Pow2(4) == 16;
    Pow2Sum(4, 4);
    Pow2Sum(8, 8);
    assert Pow2(15) == 0x8000;
    Pow2Sum(16, 15);
    Pow2Sum(16, 16);
    Pow2Sum(32, 31);
    Pow2Sum(32, 32);
  }

  lemma OrFits(x: nat, n: nat, w: nat)
    requires x < Pow2(w)
    ensures Or(x, Shr(x, n)) < Pow2(w)
  {
    ShrSmaller(x, n);
    OrBounds(x, Shr(x, n), w);
  }

  lemma {:induction false} ShrSmaller(x: nat, n: nat)
    ensures Shr(x, n) <= x
  {
    if n > 0 {
      ShrSmaller(x / 2, n - 1);
    }
  }

  /** One statement `x |= x >> n`. */
  method OrShift(x: nat, n: nat, ghost w: nat) returns (y: nat)
    requires 0 < n < w && x < Pow2(w)
    ensures y < Pow2(w) && y == Or(x, Shr(x, n)) && Smear(y, 2 * n, w) == Smear(x, n, w)
  {
    OrFits(x, n, w);
    y := Or(x, Shr(x, n));
  }

  method Align32Pow2(v: Word32) returns (r: Word32)
    ensures v < Pow2(32) && r == Align(v, 32)
    ensures 1 <= v <= 0x8000_0000 ==> IsLeastPower(v, r)
    ensures v == 0 || v > 0x8000_0000 ==> r == 0
  {
    hide Or, Shr, IsLeastPower, Pow2;
    Powers();
    AlignIsLeast(v, 32);
    var x: nat := if v == 0 then TWO_32 - 1 else v - 1;
    x := OrShift(x, 1, 32);
    x := OrShift(x, 2, 32);
    x := OrShift(x, 4, 32);
    x := OrShift(x, 8, 32);
    x := OrShift(x, 16, 32);
    r := if x == TWO_32 - 1 then 0 else x + 1;
  }

  method Align64Pow2(v: Word64) returns (r: Word64)
    ensures v < Pow2(64) && r == Align(v, 64)
    ensures 1 <= v <= 0x8000_0000_0000_0000 ==> IsLeastPower(v, r)
    ensures v == 0 || v > 0x8000_0000_0000_0000 ==> r == 0
  {
    hide Or, Shr, IsLeastPower, Pow2;
    Powers();
    AlignIsLeast(v, 64);
    var x: nat := if v == 0 then TWO_64 - 1 else v - 1;
    x := OrShift(x, 1, 64);
    x := OrShift(x, 2, 64);
    x := OrShift(x, 4, 64);
    x := OrShift(x, 8, 64);
    x := OrShift(x, 16, 64);
    x := OrShift(x, 32, 64);
    r := if x == TWO_64 - 1 then 0 else x + 1;
  }

  // ---- Capacities ----

  /** `align32pow2(count + 1)`, where the argument is cut down to 32 bits. */
  function Capacity(count: nat): nat {
    Powers();
    Align((count + 1) % TWO_32, 32)
  }

  /** How `init_executor` and `init_io_context` compute their capacity. */
  method CapacityFor(count: nat) returns (n: nat)
    ensures n == Capacity(count)
  {
    n := Align32Pow2((count + 1) % TWO_32);
  }

  /** For every count that fits, the capacity is the power of two next above it. */
  lemma CapacityPower(count: nat) returns (l: nat)
    requires 1 <= count < 0x8000_0000
    ensures 1 <= l <= 31 && Capacity(count) == Pow2(l) && Pow2(l - 1) <= count < Pow2(l)
  {
    hide Align, Pow2;
    l := AlignPower32(count + 1);
    assert (count + 1) % TWO_32 == count + 1;
  }

  lemma AlignPower32(v: nat) returns (l: nat)
    requires 2 <= v <= 0x8000_0000
    ensures 1 <= l <= 31 && v < Pow2(32) && Align(v, 32) == Pow2(l) && Pow2(l - 1) < v <= Pow2(l)
  {
    Powers();
    l := AlignPower(v, 32);
  }

  lemma CapacityBounds(v: nat)
    requires v < TWO_32
    ensures Pow2(32) == TWO_32 && Align(v, 32) <= 0x8000_0000 && (v <= 1 || v > 0x8000_0000 ==> Align(v, 32) <= 1)
  {
    Powers();
    AlignIsLeast(v, 32);
    if 1 <= v <= 0x8000_0000 {
      assert v <= Pow2(31);
      if v == 1 {
        assert 1 <= Pow2(0);
      }
    }
  }

  /** The frames hold the main frame and `count` tasks exactly when `count` is below 2^31;
      then the array is at most twice as large. */
  lemma CapacityFits(count: nat)
    requires 1 <= count < TWO_64
    ensures count < Capacity(count) <==> count < 0x8000_0000
    ensures count < 0x8000_0000 ==> 2 <= Capacity(count) <= 2 * count
  {
    hide Align;
    if count < 0x8000_0000 {
      var l := CapacityPower(count);
      assert Pow2(l) == 2 * Pow2(l - 1);
    } else {
      CapacityBounds((count + 1) % TWO_32);
    }
  }

  /** With `capacity >= count` there is a token for every frame. */
  lemma CapacityMonotone(count: nat, capacity: nat)
    requires 1 <= count <= capacity < 0x8000_0000
    ensures Capacity(count) <= Capacity(capacity)
  {
    hide Capacity, Align;
    var k := CapacityPower(count);
    var l := CapacityPower(capacity);
    if l < k {
      Pow2Monotone(l, k - 1);
    } else {
      Pow2Monotone(k, l);
    }
  }
}
