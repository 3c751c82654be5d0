/** The stat formula engine: `main_stat` and `substat`, over exact real arithmetic. */
module Formula {
  import opened Tables

  function Abs(x: int): nat { if x < 0 then -x else x }

  function Max(a: real, b: real): real { if a >= b then a else b }

  function MaxInt(a: int, b: int): int { if a >= b then a else b }

  /** `stat_index.bit_length() - 1`: the position of the highest set bit of the identifier,
      and -1 for the identifier 0. */
  function Exponent(statType: int): (e: int)
    ensures statType == 0 <==> e == -1
    ensures e >= -1
  {
    BitLength(Abs(statType)) - 1
  }

  /** The multiplier applied to the level-normalised base, indexed by exponent 0..23. */
  const Multipliers: seq<real> := [
    0.65, 4.0, 0.31, 0.27, 0.34, 0.33, 0.31, 0.36, 0.19, 0.348, 0.32, 0.36, 0.32, 0.5, 0.29,
    0.37, 0.37, 0.37, 0.37, 0.37, 0.37, 0.37, 0.37, 0.37
  ]

  /** The exponents whose scaled value is raised to at least 1. */
  predicate FlooredAtOne(e: int) { e == 0 || e == 1 || e == 6 }

  /** The level-normalised base `iLN`. */
  function LevelNormalised(itemLevel: int, enhancementLevel: int): real
  {
    15.0 + itemLevel as real * 0.3 + enhancementLevel as real
  }

  /** `main_stat`: the table rule selected by the identifier's exponent, and the constant 1
      for an exponent outside 0..23 (including identifier 0). */
  function MainStat(statType: int, itemLevel: int, enhancementLevel: int): (r: real)
    ensures !(0 <= Exponent(statType) <= 23) ==> r == 1.0
    ensures FlooredAtOne(Exponent(statType)) ==> r >= 1.0
  {
    var e := Exponent(statType);
    if 0 <= e < |Multipliers| then
      var scaled := LevelNormalised(itemLevel, enhancementLevel) * Multipliers[e];
      if FlooredAtOne(e) then Max(1.0, scaled) else scaled
    else
      1.0
  }

  /** The sub-stat level factor `stat_level * 0.12 + 0.2`. */
  function LevelFactor(statLevel: int): real { statLevel as real * 0.12 + 0.2 }

  /** A base value scaled by the sub-stat level factor and the roll range. */
  function Scaled(base: real, statLevel: int, range: real): real
  {
    base * LevelFactor(statLevel) * range
  }

  /** `substat`: the main-stat value at item level at least 30 and no enhancement,
      scaled by the level factor and the roll range. */
  function SubStat(statType: int, statLevel: int, itemLevel: int, range: real): (r: real)
    ensures statLevel >= 1 && range >= 0.0 ==> r >= 0.0
    ensures statLevel >= 1 && range > 0.0 ==> r > 0.0
  {
    var base := MainStat(statType, MaxInt(30, itemLevel), 0);
    MainStatPositive(statType, MaxInt(30, itemLevel));
    ScaledSign(base, statLevel, range);
    Scaled(base, statLevel, range)
  }

  // ---------------------------------------------------------------------------
  // Properties of the formula engine

  /** For an identifier 2^k the exponent used is exactly k. */
  lemma ExponentOfPowerOfTwo(k: nat)
    ensures Exponent(Pow2(k)) == k
  {
    BitLengthOfPow2(k);
  }

  /** The exponent of a non-zero identifier is the position of its highest set bit. */
  lemma ExponentBounds(statType: int)
    requires statType != 0
    ensures Pow2(Exponent(statType)) <= Abs(statType) < Pow2(Exponent(statType) + 1)
  {
    BitLengthBounds(Abs(statType));
  }

  /** The table agrees entry by entry with the source's `match`: exponents 0, 1 and 6 are
      floored at 1, exponents 15..23 share 0.37, and everything else is the constant 1. */
  lemma MainStatCases(statType: int, itemLevel: int, enhancementLevel: int)
    ensures var e, b, r := Exponent(statType), LevelNormalised(itemLevel, enhancementLevel),
                           MainStat(statType, itemLevel, enhancementLevel);
      && (e == 0 ==> r == Max(1.0, b * 0.65))
      && (e == 1 ==> r == Max(1.0, b * 4.0))
      && (e == 2 ==> r == b * 0.31)
      && (e == 3 ==> r == b * 0.27)
      && (e == 4 ==> r == b * 0.34)
      && (e == 5 ==> r == b * 0.33)
      && (e == 6 ==> r == Max(1.0, b * 0.31))
      && (e == 7 ==> r == b * 0.36)
      && (e == 8 ==> r == b * 0.19)
      && (e == 9 ==> r == b * 0.348)
      && (e == 10 ==> r == b * 0.32)
      && (e == 11 ==> r == b * 0.36)
      && (e == 12 ==> r == b * 0.32)
      && (e == 13 ==> r == b * 0.5)
      && (e == 14 ==> r == b * 0.29)
      && (15 <= e <= 23 ==> r == b * 0.37)
      && ((e < 0 || e > 23) ==> r == 1.0)
  {
  }

  /** Every multiplier is positive. */
  lemma MultipliersPositive()
    ensures forall i :: 0 <= i < |Multipliers| ==> Multipliers[i] > 0.0
  {
  }

  /** For a fixed identifier, the main stat never decreases when the item level or the
      enhancement level grows. */
  lemma MainStatMonotonic(statType: int, itemLevel: int, itemLevel': int,
                          enhancementLevel: int, enhancementLevel': int)
    requires itemLevel <= itemLevel' && enhancementLevel <= enhancementLevel'
    ensures MainStat(statType, itemLevel, enhancementLevel) <= MainStat(statType, itemLevel', enhancementLevel')
  {
    var e := Exponent(statType);
    if 0 <= e < |Multipliers| {
      MultipliersPositive();
      var b, b' := LevelNormalised(itemLevel, enhancementLevel), LevelNormalised(itemLevel', enhancementLevel');
      assert b <= b';
      var m := Multipliers[e];
      assert b * m <= b' * m;
    }
  }

  /** For example, HP (identifier 2) at item level 40 without enhancement has base 27 and
      value 108. */
  lemma MainStatExample()
    ensures LevelNormalised(40, 0) == 27.0
    ensures Exponent(2) == 1
    ensures MainStat(2, 40, 0) == 108.0
  {
  }

  /** A sub-stat depends on the item level only through `max(30, item_level)`, and is the
      unenhanced main stat at that level scaled by level factor and range. */
  lemma SubStatClampsItemLevel(statType: int, statLevel: int, itemLevel: int, range: real)
    ensures SubStat(statType, statLevel, itemLevel, range) == SubStat(statType, statLevel, MaxInt(30, itemLevel), range)
    ensures itemLevel <= 30 ==> SubStat(statType, statLevel, itemLevel, range) == SubStat(statType, statLevel, 30, range)
    ensures SubStat(statType, statLevel, itemLevel, range)
         == MainStat(statType, MaxInt(30, itemLevel), 0) * (statLevel as real * 0.12 + 0.2) * range
  {
    var clamped := MaxInt(30, itemLevel);
    assert MaxInt(30, clamped) == clamped;
  }

  /** Item level 10 and item level 30 give the same sub-stat. */
  lemma SubStatLowLevelsAgree(statType: int, statLevel: int, range: real)
    ensures SubStat(statType, statLevel, 10, range) == SubStat(statType, statLevel, 30, range)
  {
    SubStatClampsItemLevel(statType, statLevel, 10, range);
  }

  /** Products of non-negative reals grow with their factors. */
  lemma MulMonotonic(a: real, b: real, c: real, d: real)
    requires 0.0 <= a <= c && 0.0 <= b <= d
    ensures a * b <= c * d
  {
    assert a * b <= a * d;
    assert a * d <= c * d;
  }

  /** A positive base scaled at a level of at least 1 keeps the sign of the range. */
  lemma ScaledSign(base: real, statLevel: int, range: real)
    requires base > 0.0
    ensures statLevel >= 1 && range >= 0.0 ==> Scaled(base, statLevel, range) >= 0.0
    ensures statLevel >= 1 && range > 0.0 ==> Scaled(base, statLevel, range) > 0.0
  {
    if statLevel >= 1 {
      var f := LevelFactor(statLevel);
      assert f > 0.0;
      assert base * f > 0.0;
    }
  }

  /** Scaling is non-decreasing in the base and in the level, for a non-negative range. */
  lemma ScaledMonotonic(base: real, base': real, statLevel: int, statLevel': int, range: real)
    requires 0.0 <= base <= base' && 1 <= statLevel <= statLevel' && range >= 0.0
    ensures Scaled(base, statLevel, range) <= Scaled(base', statLevel', range)
  {
    var f, f' := LevelFactor(statLevel), LevelFactor(statLevel');
    MulMonotonic(base, f, base', f');
    MulMonotonic(base * f, range, base' * f', range);
  }

  /** The unenhanced main stat at item level 30 or more is positive. */
  lemma MainStatPositive(statType: int, itemLevel: int)
    requires itemLevel >= 30
    ensures MainStat(statType, itemLevel, 0) > 0.0
  {
    var e := Exponent(statType);
    if 0 <= e < |Multipliers| {
      MultipliersPositive();
      var b := LevelNormalised(itemLevel, 0);
      assert b > 0.0;
      assert b * Multipliers[e] > 0.0;
    }
  }

  /** With a non-negative roll range, a sub-stat never decreases when its level or the item
      level grows. */
  lemma SubStatMonotonic(statType: int, statLevel: int, statLevel': int,
                         itemLevel: int, itemLevel': int, range: real)
    requires 1 <= statLevel <= statLevel' && itemLevel <= itemLevel' && range >= 0.0
    ensures SubStat(statType, statLevel, itemLevel, range) <= SubStat(statType, statLevel', itemLevel', range)
  {
    var lo, hi := MaxInt(30, itemLevel), MaxInt(30, itemLevel');
    MainStatMonotonic(statType, lo, hi, 0, 0);
    MainStatPositive(statType, lo);
    ScaledMonotonic(MainStat(statType, lo, 0), MainStat(statType, hi, 0), statLevel, statLevel', range);
  }

  /** The powers of two 2^0 .. 2^23, one doubling at a time. */
  lemma PowersUpTo23()
    ensures Pow2(0) == 1 && Pow2(1) == 2 && Pow2(2) == 4 && Pow2(3) == 8 && Pow2(4) == 16 && Pow2(5) == 32 && Pow2(6) == 64 && Pow2(7) == 128 && Pow2(8) == 256 && Pow2(9) == 512 && Pow2(10) == 1024 && Pow2(11) == 2048 && Pow2(12) == 4096 && Pow2(13) == 8192 && Pow2(14) == 16384 && Pow2(15) == 32768 && Pow2(16) == 65536 && Pow2(17) == 131072 && Pow2(18) == 262144 && Pow2(19) == 524288 && Pow2(20) == 1048576 && Pow2(21) == 2097152 && Pow2(22) == 4194304 && Pow2(23) == 8388608
  {
    assert Pow2(0) == 1;
    assert Pow2(1) == 2 * Pow2(0) == 2;
    assert Pow2(2) == 2 * Pow2(1) == 4;
    assert Pow2(3) == 2 * Pow2(2) == 8;
    assert Pow2(4) == 2 * Pow2(3) == 16;
    assert Pow2(5) == 2 * Pow2(4) == 32;
    assert Pow2(6) == 2 * Pow2(5) == 64;
    assert Pow2(7) == 2 * Pow2(6) == 128;
    assert Pow2(8) == 2 * Pow2(7) == 256;
    assert Pow2(9) == 2 * Pow2(8) == 512;
    assert Pow2(10) == 2 * Pow2(9) == 1024;
    assert Pow2(11) == 2 * Pow2(10) == 2048;
    assert Pow2(12) == 2 * Pow2(11) == 4096;
    assert Pow2(13) == 2 * Pow2(12) == 8192;
    assert Pow2(14) == 2 * Pow2(13) == 16384;
    assert Pow2(15) == 2 * Pow2(14) == 32768;
    assert Pow2(16) == 2 * Pow2(15) == 65536;
    assert Pow2(17) == 2 * Pow2(16) == 131072;
    assert Pow2(18) == 2 * Pow2(17) == 262144;
    assert Pow2(19) == 2 * Pow2(18) == 524288;
    assert Pow2(20) == 2 * Pow2(19) == 1048576;
    assert Pow2(21) == 2 * Pow2(20) == 2097152;
    assert Pow2(22) == 2 * Pow2(21) == 4194304;
    assert Pow2(23) == 2 * Pow2(22) == 8388608;
  }

  /** Every identifier in the name table is a power of two whose exponent is in 0..23
      (2^22 has no name), so every named stat has its own rule in the multiplier table. */
  lemma NamedStatIsPowerOfTwo(id: int)
    requires id in StatNames
    ensures 0 <= Exponent(id) <= 23 && Pow2(Exponent(id)) == id
    ensures Exponent(id) != 22
  {
    PowersUpTo23();
    if id == 1 { ExponentOfPowerOfTwo(0); }
    else if id == 2 { ExponentOfPowerOfTwo(1); }
    else if id == 4 { ExponentOfPowerOfTwo(2); }
    else if id == 8 { ExponentOfPowerOfTwo(3); }
    else if id == 16 { ExponentOfPowerOfTwo(4); }
    else if id == 32 { ExponentOfPowerOfTwo(5); }
    else if id == 64 { ExponentOfPowerOfTwo(6); }
    else if id == 128 { ExponentOfPowerOfTwo(7); }
    else if id == 256 { ExponentOfPowerOfTwo(8); }
    else if id == 512 { ExponentOfPowerOfTwo(9); }
    else if id == 1024 { ExponentOfPowerOfTwo(10); }
    else if id == 2048 { ExponentOfPowerOfTwo(11); }
    else if id == 4096 { ExponentOfPowerOfTwo(12); }
    else if id == 8192 { ExponentOfPowerOfTwo(13); }
    else if id == 16384 { ExponentOfPowerOfTwo(14); }
    else if id == 32768 { ExponentOfPowerOfTwo(15); }
    else if id == 65536 { ExponentOfPowerOfTwo(16); }
    else if id == 131072 { ExponentOfPowerOfTwo(17); }
    else if id == 262144 { ExponentOfPowerOfTwo(18); }
    else if id == 524288 { ExponentOfPowerOfTwo(19); }
    else if id == 1048576 { ExponentOfPowerOfTwo(20); }
    else if id == 2097152 { ExponentOfPowerOfTwo(21); }
    else if id == 8388608 { ExponentOfPowerOfTwo(23); }
  }
}
