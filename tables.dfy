/** The fixed lookup tables of the stat engine and the bit arithmetic on stat identifiers. */
module Tables {

  /** 2^k. */
  function Pow2(k: nat): (r: nat)
    ensures r >= 1
  {
    if k == 0 then 1 else 2 * Pow2(k - 1)
  }

  /** Python's `int.bit_length()` on a non-negative integer: the number of binary digits
      of `n` (see BitLengthBounds). */
  function BitLength(n: nat): (r: nat)
    ensures n == 0 <==> r == 0
  {
    if n == 0 then 0 else 1 + BitLength(n / 2)
  }

  /** A positive `n` lies in [2^(BitLength(n)-1), 2^BitLength(n)). */
  lemma {:induction false} BitLengthBounds(n: nat)
    ensures n < Pow2(BitLength(n))
    ensures n > 0 ==> Pow2(BitLength(n) - 1) <= n
  {
    if n > 0 {
      var h := n / 2;
      BitLengthBounds(h);
      var b := BitLength(h);
      assert BitLength(n) == b + 1;
      assert Pow2(b + 1) == 2 * Pow2(b);
      if h > 0 {
        assert Pow2(b) == 2 * Pow2(b - 1);
      }
    }
  }

  /** `stat_lookup`: display name of each known stat identifier. There is no entry for 2^22. */
  const StatNames: map<int, string> := map[
    1 := "Attack",
    2 := "HP",
    4 := "Crit Chance",
    8 := "Accuracy",
    16 := "Crit Damage",
    32 := "Speed",
    64 := "Healing Per Round",
    128 := "Damage Range",
    256 := "x2 Damage Chance",
    512 := "Extra Round Chance",
    1024 := "Attack",
    2048 := "HP",
    4096 := "Evasion",
    8192 := "Damage Reduction",
    16384 := "Defence Penetration",
    32768 := "Light Damage",
    65536 := "Dark Damage",
    131072 := "Fire Damage",
    262144 := "Water Damage",
    524288 := "Wind Damage",
    1048576 := "Lightning Damage",
    2097152 := "Earth Damage",
    8388608 := "Energy Damage"
  ]

  /** `flat_stats`: the stats whose values are absolute quantities rather than percentages. */
  const FlatStats: set<int> := {1, 2, 64}

  /** `slot_names`: the eight equipment slots. */
  const SlotNames: map<int, string> := map[
    1 := "Helmet", 2 := "Chest", 3 := "Gloves", 4 := "Boots",
    5 := "Necklace", 6 := "Bracelet", 7 := "Ring", 8 := "Earrings"
  ]

  /** The bit length of 2^k is k + 1. */
  lemma {:induction false} BitLengthOfPow2(k: nat)
    ensures BitLength(Pow2(k)) == k + 1
  {
    if k > 0 {
      var half := Pow2(k - 1);
      assert Pow2(k) == 2 * half;
      assert (2 * half) / 2 == half;
      BitLengthOfPow2(k - 1);
    }
  }

  /** The slot table is keyed by exactly the slot IDs 1..8. */
  lemma SlotNamesKeys()
    ensures forall slot :: slot in SlotNames <==> 1 <= slot <= 8
  {
  }
}
