/** Block size classes of the payload store (rust/src/store.rs: class_of, pack,
    unpack): four per power of two above 4 KiB. */
module SizeClass {
  const MIN_BLOCK: nat := 4096
  const NCLASS: nat := 64
  const MAX_CLASS_BLOCK: nat := 0x400_0000

  function Pow2(n: nat): (p: nat)
    ensures p > 0
  {
    if n == 0 then 1 else 2 * Pow2(n - 1)
  }

  // 63 - leading_zeros of a 64-bit word: the position of its highest bit.
  function Log2(x: nat): nat
    requires x > 0
  {
    if x == 1 then 0 else 1 + Log2(x / 2)
  }

  lemma {:induction false} Log2Bounds(x: nat)
    requires x > 0
    ensures Pow2(Log2(x)) <= x < 2 * Pow2(Log2(x))
  {
    if x > 1 {
      Log2Bounds(x / 2);
    }
  }

  lemma {:induction false} PowMonotone(a: nat, b: nat)
    requires a <= b
    ensures Pow2(a) <= Pow2(b)
    ensures a < b ==> 2 * Pow2(a) <= Pow2(b)
  {
    if a < b {
      PowMonotone(a, b - 1);
    }
  }

  lemma Pow12()
    ensures Pow2(10) == 1024 && Pow2(12) == 4096 && Pow2(26) == 0x400_0000
  {
    assert Pow2(3) == 8;
    assert Pow2(6) == 64;
    assert Pow2(9) == 512;
    assert Pow2(10) == 1024;
    assert Pow2(12) == 4096;
    assert Pow2(15) == 32768;
    assert Pow2(18) == 262144;
    assert Pow2(21) == 2097152;
    assert Pow2(24) == 16777216;
  }

  function ClassOf(total: nat): (r: (nat, nat)) {
    if total <= MIN_BLOCK then (0, MIN_BLOCK)
    else
      var p := HighBit(total);
      var step := Pow2(p - 2);
      var k := (total - 1 - Pow2(p)) / step;
      ((p - 12) * 4 + k + 1, Pow2(p) + (k + 1) * step)
  }

  lemma HighBitBounds(total: nat)
    requires total > MIN_BLOCK
    ensures var p := Log2(total - 1); p >= 12 && Pow2(p) < total <= 2 * Pow2(p)
  {
    Log2Bounds(total - 1);
    Pow12();
    if Log2(total - 1) < 12 {
      PowMonotone(Log2(total - 1), 11);
    }
  }

  // 2^p < total <= 2^(p+1)
  function HighBit(total: nat): (p: nat)
    requires total > MIN_BLOCK
    ensures p >= 12 && Pow2(p) < total <= 2 * Pow2(p)
  {
    HighBitBounds(total);
    Log2(total - 1)
  }

  // The block size a class stands for, by class number alone.
  function SizeOfClass(c: nat): (size: nat)
    ensures size > 0
  {
    if c == 0 then MIN_BLOCK else Pow2(12 + (c - 1) / 4) + ((c - 1) % 4 + 1) * Pow2(10 + (c - 1) / 4)
  }

  lemma QuarterOf(p: nat)
    requires p >= 2
    ensures Pow2(p) == 4 * Pow2(p - 2)
  {
    assert Pow2(p - 1) == 2 * Pow2(p - 2);
  }

  lemma {:induction false} SizeStep(c: nat)
    ensures SizeOfClass(c) < SizeOfClass(c + 1)
    ensures SizeOfClass(c + 1) - SizeOfClass(c) == Pow2(10 + c / 4)
  {
    var q := c / 4;
    Pow12();
    QuarterOf(12 + q);
    if c > 0 && c % 4 == 0 {
      assert (c - 1) / 4 == q - 1 && (c - 1) % 4 == 3;
      QuarterOf(11 + q);
      assert Pow2(10 + q) == 2 * Pow2(9 + q);
    }
    hide Pow2;
    if c > 0 && c % 4 != 0 {
      assert (c - 1) / 4 == q && (c - 1) % 4 == c % 4 - 1;
      assert (c % 4 + 1) * Pow2(10 + q) == (c % 4) * Pow2(10 + q) + Pow2(10 + q);
    }
  }

  /** Sizes strictly increase with the class. */
  lemma {:induction false} SizesIncrease(a: nat, b: nat)
    requires a < b
    ensures SizeOfClass(a) < SizeOfClass(b)
  {
    SizeStep(b - 1);
    if a < b - 1 {
      SizesIncrease(a, b - 1);
    }
  }

  // The fields class_of computes, unfolded once.
  lemma ClassParts(total: nat) returns (p: nat, k: nat)
    requires total > MIN_BLOCK
    ensures p >= 12 && k < 4 && p == HighBit(total)
    ensures Pow2(p) == 4 * Pow2(p - 2)
    ensures Pow2(p) + k * Pow2(p - 2) < total <= Pow2(p) + (k + 1) * Pow2(p - 2)
    ensures ClassOf(total) == ((p - 12) * 4 + k + 1, Pow2(p) + (k + 1) * Pow2(p - 2))
  {
    hide HighBit;
    hide Pow2;
    p := HighBit(total);
    QuarterOf(p);
    var d, step := total - 1 - Pow2(p), Pow2(p - 2);
    k := d / step;
    QuarterIndex(d, step, k);
  }

  lemma QuarterIndex(d: nat, step: nat, k: nat)
    requires step > 0 && d < 4 * step && k == d / step
    ensures k < 4 && k * step <= d < (k + 1) * step
  {
    assert d == k * step + d % step;
    assert (k + 1) * step == k * step + step;
    if k >= 4 {
      AtLeastFour(k, step);
    }
  }

  lemma AtLeastFour(k: nat, step: nat)
    requires k >= 4
    ensures k * step >= 4 * step
  {
    var j: nat := k - 4;
    assert k * step == j * step + 4 * step;
  }

  /** class_of picks the smallest class whose blocks hold `total` bytes. */
  lemma ClassIsSmallest(total: nat)
    ensures ClassOf(total).1 == SizeOfClass(ClassOf(total).0) >= total
    ensures forall c :: 0 <= c < ClassOf(total).0 ==> SizeOfClass(c) < total
  {
    if total > MIN_BLOCK {
      var p, k := ClassParts(total);
      var c := (p - 12) * 4 + k + 1;
      assert (c - 1) / 4 == p - 12 && (c - 1) % 4 == k;
      Predecessor(p, k);
      assert SizeOfClass(c - 1) < total;
      forall b | 0 <= b < c ensures SizeOfClass(b) < total {
        if b < c - 1 { SizesIncrease(b, c - 1); }
      }
    }
  }

  lemma Predecessor(p: nat, k: nat)
    requires p >= 12 && k < 4
    ensures SizeOfClass((p - 12) * 4 + k) == Pow2(p) + k * Pow2(p - 2)
  {
    hide Pow2;
    var c := (p - 12) * 4 + k;
    SizeStep(c);
    assert c / 4 == p - 12;
    assert (c + 1 - 1) % 4 == k && 12 + (c + 1 - 1) / 4 == p;
    assert (k + 1) * Pow2(p - 2) == k * Pow2(p - 2) + Pow2(p - 2);
  }

  /** Rounding wastes less than a quarter of a block above 4 KiB. */
  lemma WasteIsSmall(total: nat)
    requires total > MIN_BLOCK
    ensures 4 * (ClassOf(total).1 - total) < total
  {
    var p, k := ClassParts(total);
    assert (k + 1) * Pow2(p - 2) == k * Pow2(p - 2) + Pow2(p - 2);
  }

  /** Every request the size classes serve has a free-list slot, and its block
      fits a fresh segment. */
  lemma ClassesSuffice(total: nat, segBytes: nat)
    requires segBytes >= 16 * MIN_BLOCK && total <= MAX_CLASS_BLOCK && total <= segBytes / 4
    ensures ClassOf(total).0 < NCLASS && ClassOf(total).1 <= segBytes
  {
    if total > MIN_BLOCK {
      var p, k := ClassParts(total);
      WasteIsSmall(total);
      Pow12();
      if p >= 26 {
        PowMonotone(26, p);
      }
    }
  }

  lemma MonotoneInTotal(a: nat, b: nat)
    requires a <= b
    ensures ClassOf(a).0 <= ClassOf(b).0
  {
    ClassIsSmallest(a);
    ClassIsSmallest(b);
  }

  // ---------- packed references ----------

  function Pack(seg: bv64, off: bv64): bv64 {
    (seg << 40) | off
  }

  function Unpack(p: bv64): (bv64, bv64) {
    (p >> 40, p & 0xFF_FFFF_FFFF)
  }

  /** A reference survives packing exactly when its segment fits 24 bits and its
      offset 40; a free-list word (packed + 1) is then never 0, the empty mark. */
  lemma PackRoundTrip(seg: bv64, off: bv64)
    ensures Unpack(Pack(seg, off)) == (seg, off) <==> seg < 0x100_0000 && off < 0x100_0000_0000
    ensures seg < 0xFF_FFFF && off < 0x100_0000_0000 ==> Pack(seg, off) + 1 != 0
  {
    assert (seg << 40) >> 40 == seg & 0xFF_FFFF;
    assert (seg << 40) & 0xFF_FFFF_FFFF == 0;
  }
}
