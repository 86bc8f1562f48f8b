/**
 * Classification of one Marching Cubes cell into its 8-bit topology case
 * (crates/marching_cubes/src/lib.rs).
 *
 * Bit k of the case is set exactly when corner k's sample lies strictly
 * below the iso level. The specification of the case is `Classify`, the
 * sum of 2^k over those corners, written least significant corner first.
 */
module CubeIndex {

  /** 2 to the power k. */
  function Pow2(k: nat): (r: nat)
    ensures r >= 1
  {
    if k == 0 then 1 else 2 * Pow2(k - 1)
  }

  /** Whether bit k of n is set. */
  predicate BitSet(n: nat, k: nat)
  {
    if k == 0 then n % 2 == 1 else BitSet(n / 2, k - 1)
  }

  /** The bit contributed by one corner: 1 when its sample is below the level. */
  function Below(isoLevel: real, v: real): (b: nat)
  {
    if v < isoLevel then 1 else 0
  }

  /**
   * The topology case of a cell: corner k contributes 2^k when its sample
   * is strictly below `isoLevel`.
   */
  function Classify(isoLevel: real, grid: seq<real>): (c: nat)
  {
    if grid == [] then 0 else Below(isoLevel, grid[0]) + 2 * Classify(isoLevel, grid[1..])
  }

  /** Bit definition: bit k of the case is set iff corner k is below the level. */
  lemma {:induction false} ClassifyBit(isoLevel: real, grid: seq<real>, k: nat)
    requires k < |grid|
    ensures BitSet(Classify(isoLevel, grid), k) <==> grid[k] < isoLevel
  {
    var rest := Classify(isoLevel, grid[1..]);
    var c := Below(isoLevel, grid[0]) + 2 * rest;
    assert c % 2 == Below(isoLevel, grid[0]);
    assert c / 2 == rest;
    if k > 0 {
      ClassifyBit(isoLevel, grid[1..], k - 1);
      assert grid[1..][k - 1] == grid[k];
    }
  }

  /** Range: the case of n corners is below 2^n (for a cube, below 256). */
  lemma {:induction false} ClassifyRange(isoLevel: real, grid: seq<real>)
    ensures Classify(isoLevel, grid) < Pow2(|grid|)
  {
    if grid != [] {
      ClassifyRange(isoLevel, grid[1..]);
    }
  }

  /** A number below 2^k has bit k (and every higher bit) clear. */
  lemma {:induction false} HighBitClear(n: nat, k: nat)
    requires n < Pow2(k)
    ensures !BitSet(n, k)
  {
    if k > 0 {
      HighBitClear(n / 2, k - 1);
    }
  }

  /** All below: when every corner is below the level the case is 2^n - 1 (255 for a cube). */
  lemma {:induction false} ClassifyAllBelow(isoLevel: real, grid: seq<real>)
    requires forall k :: 0 <= k < |grid| ==> grid[k] < isoLevel
    ensures Classify(isoLevel, grid) == Pow2(|grid|) - 1
  {
    if grid != [] {
      assert forall k :: 0 <= k < |grid| - 1 ==> grid[1..][k] == grid[k + 1];
      ClassifyAllBelow(isoLevel, grid[1..]);
    }
  }

  /**
   * Ties: when no corner is strictly below the level, in particular when
   * every corner equals it, the case is 0.
   */
  lemma {:induction false} ClassifyNoneBelow(isoLevel: real, grid: seq<real>)
    requires forall k :: 0 <= k < |grid| ==> isoLevel <= grid[k]
    ensures Classify(isoLevel, grid) == 0
  {
    if grid != [] {
      assert forall k :: 0 <= k < |grid| - 1 ==> grid[1..][k] == grid[k + 1];
      ClassifyNoneBelow(isoLevel, grid[1..]);
    }
  }

  /**
   * Monotone in the level: raising the level never clears a bit, so the
   * case at a higher level is a bitwise superset of the case at a lower one.
   */
  lemma ClassifyMonotone(lower: real, higher: real, grid: seq<real>, k: nat)
    requires lower <= higher
    requires BitSet(Classify(lower, grid), k)
    ensures BitSet(Classify(higher, grid), k)
  {
    if k < |grid| {
      ClassifyBit(lower, grid, k);
      ClassifyBit(higher, grid, k);
    } else {
      ClassifyRange(lower, grid);
      PowMonotone(|grid|, k);
      HighBitClear(Classify(lower, grid), k);
    }
  }

  lemma {:induction false} PowMonotone(j: nat, k: nat)
    requires j <= k
    ensures Pow2(j) <= Pow2(k)
  {
    if j < k {
      PowMonotone(j, k - 1);
    }
  }

  /**
   * The eight-corner case written out corner by corner, as the classifier
   * builds it: 1, 2, 4, ..., 128.
   */
  lemma ClassifyEight(isoLevel: real, grid: seq<real>)
    requires |grid| == 8
    ensures Classify(isoLevel, grid) ==
      Below(isoLevel, grid[0]) + 2 * Below(isoLevel, grid[1]) + 4 * Below(isoLevel, grid[2])
      + 8 * Below(isoLevel, grid[3]) + 16 * Below(isoLevel, grid[4]) + 32 * Below(isoLevel, grid[5])
      + 64 * Below(isoLevel, grid[6]) + 128 * Below(isoLevel, grid[7])
  {
    var c7 := Classify(isoLevel, grid[7..]);
    var c6 := Classify(isoLevel, grid[6..]);
    var c5 := Classify(isoLevel, grid[5..]);
    var c4 := Classify(isoLevel, grid[4..]);
    var c3 := Classify(isoLevel, grid[3..]);
    var c2 := Classify(isoLevel, grid[2..]);
    var c1 := Classify(isoLevel, grid[1..]);
    forall k | 0 <= k < 8
      ensures Classify(isoLevel, grid[k..])
           == Below(isoLevel, grid[k]) + 2 * Classify(isoLevel, grid[k + 1..])
    {
      assert grid[k..][0] == grid[k];
      assert grid[k..][1..] == grid[k + 1..];
    }
    assert grid[8..] == [];
    assert grid[0..] == grid;
    assert c7 == Below(isoLevel, grid[7]);
    assert c6 == Below(isoLevel, grid[6]) + 2 * c7;
    assert c5 == Below(isoLevel, grid[5]) + 2 * c6;
    assert c4 == Below(isoLevel, grid[4]) + 2 * c5;
    assert c3 == Below(isoLevel, grid[3]) + 2 * c4;
    assert c2 == Below(isoLevel, grid[2]) + 2 * c3;
    assert c1 == Below(isoLevel, grid[1]) + 2 * c2;
  }

  /** The bit a corner sets in the case: `mask` when it is below the level, else nothing. */
  function CornerBit(below: bool, mask: bv8): (bit: bv8)
  {
    if below then mask else 0
  }

  /**
   * The case as an 8-bit value: the OR of bit k for every corner k below
   * the level, as the classifier builds it.
   */
  function CaseBits(isoLevel: real, grid: seq<real>): (bits: bv8)
    requires |grid| == 8
  {
    CornerBit(grid[0] < isoLevel, 1) | CornerBit(grid[1] < isoLevel, 2) | CornerBit(grid[2] < isoLevel, 4) | CornerBit(grid[3] < isoLevel, 8)
    | CornerBit(grid[4] < isoLevel, 16) | CornerBit(grid[5] < isoLevel, 32) | CornerBit(grid[6] < isoLevel, 64) | CornerBit(grid[7] < isoLevel, 128)
  }

  /** The 8-bit case read as a number: the sum of 2^k over the corners below. */
  lemma CaseBitsSum(isoLevel: real, grid: seq<real>)
    requires |grid| == 8
    ensures CaseBits(isoLevel, grid) as int ==
      1 * Below(isoLevel, grid[0]) + 2 * Below(isoLevel, grid[1]) + 4 * Below(isoLevel, grid[2])
      + 8 * Below(isoLevel, grid[3]) + 16 * Below(isoLevel, grid[4]) + 32 * Below(isoLevel, grid[5])
      + 64 * Below(isoLevel, grid[6]) + 128 * Below(isoLevel, grid[7])
  {
  }

  /** The 8-bit case and the arithmetic case agree. */
  lemma CaseBitsValue(isoLevel: real, grid: seq<real>)
    requires |grid| == 8
    ensures CaseBits(isoLevel, grid) as int == Classify(isoLevel, grid)
  {
    CaseBitsSum(isoLevel, grid);
    ClassifyEight(isoLevel, grid);
  }

  /**
   * `get_cube_index` of lib.rs: the accumulator starts at 0 and is OR-ed
   * with 2^k for every corner k below the level. The result is the 8-bit
   * case, and its value is `Classify` (whose bit k is set exactly when
   * corner k is below, by `ClassifyBit`).
   */
  method GetCubeIndex(isoLevel: real, grid: seq<real>) returns (cubeIndex: bv8)
    requires |grid| == 8
    ensures cubeIndex == CaseBits(isoLevel, grid)
    ensures cubeIndex as int == Classify(isoLevel, grid)
  {
    cubeIndex := 0;
    if grid[0] < isoLevel {
      cubeIndex := cubeIndex | 1;
    }
    ghost var expected := CornerBit(grid[0] < isoLevel, 1);
    assert cubeIndex == expected;
    if grid[1] < isoLevel {
      cubeIndex := cubeIndex | 2;
    }
    expected := expected | CornerBit(grid[1] < isoLevel, 2);
    assert cubeIndex == expected;
    if grid[2] < isoLevel {
      cubeIndex := cubeIndex | 4;
    }
    expected := expected | CornerBit(grid[2] < isoLevel, 4);
    assert cubeIndex == expected;
    if grid[3] < isoLevel {
      cubeIndex := cubeIndex | 8;
    }
    expected := expected | CornerBit(grid[3] < isoLevel, 8);
    assert cubeIndex == expected;
    if grid[4] < isoLevel {
      cubeIndex := cubeIndex | 16;
    }
    expected := expected | CornerBit(grid[4] < isoLevel, 16);
    assert cubeIndex == expected;
    if grid[5] < isoLevel {
      cubeIndex := cubeIndex | 32;
    }
    expected := expected | CornerBit(grid[5] < isoLevel, 32);
    assert cubeIndex == expected;
    if grid[6] < isoLevel {
      cubeIndex := cubeIndex | 64;
    }
    expected := expected | CornerBit(grid[6] < isoLevel, 64);
    assert cubeIndex == expected;
    if grid[7] < isoLevel {
      cubeIndex := cubeIndex | 128;
    }
    expected := expected | CornerBit(grid[7] < isoLevel, 128);
    assert cubeIndex == expected;
    CaseBitsValue(isoLevel, grid);
  }
}
