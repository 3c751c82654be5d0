# Artifact stat engine — a Dafny model

This project models the core of a small tool that totals the stats of a player's game
artifacts (`artifactStats.py`). That core has three parts:

- **Formula engine** (`Formula`). It takes a power-of-two stat identifier, finds the
  position of its set bit (`bit_length() - 1`) and builds the level-normalised base
  `iLN = 15 + item_level * 0.3 + enhancement`. It then applies a 24-entry multiplier table,
  where exponents 0, 1 and 6 are floored at 1. Any exponent outside 0..23 (identifier 0
  included) gives the constant 1.
  A sub-stat is the unenhanced main stat at item level `max(30, item_level)`, scaled by
  `(level * 0.12 + 0.2) * range`.
- **Decoder** (`Decoder`). `parse_item` turns one inventory record into an artifact:
  - the slot and its name from `slot_names`;
  - the set from the family ID (≤ 8 Black_Lion, 9..16 Holy, ≥ 17 Power);
  - the main stat;
  - four sub-stat pairs, where a pair of type 0 (locked) has value 0.
  
  With `ignore_enhancements` on, it uses the caller's enhancement override and sub-stat
  levels. The inventory reader looks those levels up by artifact ID and falls back to the
  record's own levels.
- **Aggregator** (`Aggregator`). `total_stats` runs over a list of optional artifacts. It
  skips `None`, counts each artifact in its set and adds each (type, value) pair to a
  `defaultdict(float)` of totals.

`Tables` holds `stat_lookup`, `flat_stats`, `slot_names` and the bit arithmetic.
`Wrappers` holds `Option`, `Result` and the error kinds. `Presentation` models the one rule
of `print_stats` that matters to the core: which stat types it shows.

Arithmetic is over Dafny's `real`, not IEEE doubles. Python's unbounded integers are `int`.
The error paths are `Result` values named after the Python exceptions:
- `AssertionFailed`: the `assert` on the levels list.
- `IndexError`: a `SubStats`, `SubStatRanges` or `SubStatLevels` list shorter than the
  positions `range(4)` reads. The range and the level are read only for an unlocked
  sub-stat, and the record's own level only when enhancements are not ignored.
- `KeyError`: a slot outside 1..8 in `slot_names`.

They are checked in the order the source meets them.

Three behaviours of the code that a reader might not expect, all modelled as written:
- `total_stats` does not skip locked sub-stats. It adds their 0 under stat type 0. So one
  artifact with HP 108 and all sub-stats locked totals `{2: 108, 0: 0}`, not `{2: 108}`
  (`Aggregator.SingleArtifactExample`).
- The assertion in `parse_item` checks only the levels it is passed. With
  `ignore_enhancements` off and an override entry for the artifact's ID, the record's own
  levels are used without any check, so a level of 5 goes through
  (`Decoder.RecordLevelUncheckedWithOverride`). Without an override entry, every level used
  is checked (`Decoder.DecodeRecordLevelsInRange`).
- `bit_length` of a negative identifier is that of its absolute value, as in Python.

## Model

| member | source | states |
|---|---|---|
| Tables.BitLength | artifactStats.py:45 | `bit_length()` of a non-negative integer is 0 exactly for 0 |
| Tables.BitLengthBounds | artifactStats.py:45 | a positive n lies in [2^(b-1), 2^b), where b is its bit length |
| Tables.BitLengthOfPow2 | artifactStats.py:45 | 2^k has bit length k + 1 |
| Tables.StatNames | artifactStats.py:10-34 | the 23 names of `stat_lookup`, copied key by key; a constant with no contract, whose keys `Formula.NamedStatIsPowerOfTwo` pins down |
| Tables.FlatStats | artifactStats.py:38 | the set `{1, 2, 64}` of `flat_stats`; a constant with no contract, read by `Presentation.PercentSuffixRule` |
| Tables.SlotNames | artifactStats.py:40 | the eight names of `slot_names`; a constant with no contract, whose keys `Tables.SlotNamesKeys` pins down |
| Tables.SlotNamesKeys | artifactStats.py:40 | `slot_names` has a key for exactly the slot IDs 1..8 |
| Formula.Exponent | artifactStats.py:45 | the exponent is -1 exactly for identifier 0, and never below -1 |
| Formula.ExponentOfPowerOfTwo | artifactStats.py:45 | for identifier 2^k the exponent used is exactly k |
| Formula.ExponentBounds | artifactStats.py:45 | for a non-zero identifier, 2^e ≤ abs(id) < 2^(e+1) |
| Formula.Multipliers | artifactStats.py:47-78 | the 24 multipliers of the `match`, one per exponent; a constant with no contract, checked branch by branch by `Formula.MainStatCases` |
| Formula.NamedStatIsPowerOfTwo | artifactStats.py:10-34 | every `stat_lookup` key is 2^e with e in 0..23 and e ≠ 22, so each named stat has its own table rule |
| Formula.MainStat | artifactStats.py:43-82 | an exponent outside 0..23 (identifier 0 included) gives exactly 1; exponents 0, 1 and 6 always give at least 1 |
| Formula.MainStatCases | artifactStats.py:44-80 | the multiplier table agrees with every branch of the `match`: 0, 1 and 6 are `max(1, iLN*m)`, 2..14 are `iLN*m` with their own m, 15..23 share 0.37, anything else is 1 |
| Formula.MultipliersPositive | artifactStats.py:47-78 | every multiplier in the table is positive |
| Formula.MainStatMonotonic | artifactStats.py:43-82 | for a fixed identifier the main stat is non-decreasing in item level and in enhancement level |
| Formula.MainStatExample | artifactStats.py:44-50 | identifier 2 at level 40 with no enhancement has exponent 1, iLN 27 and value 108 |
| Formula.MainStatPositive | artifactStats.py:43-82 | the unenhanced main stat at item level 30 or more is positive |
| Formula.SubStat | artifactStats.py:85-86 | a sub-stat at a level of at least 1 is non-negative for a non-negative range and positive for a positive one; its dependence on the item level and its growth are stated by `Formula.SubStatClampsItemLevel` and `Formula.SubStatMonotonic` |
| Formula.SubStatClampsItemLevel | artifactStats.py:85-86 | a sub-stat depends on the item level only through `max(30, item_level)`, with enhancement 0, scaled by `(level*0.12 + 0.2) * range` |
| Formula.SubStatLowLevelsAgree | artifactStats.py:85-86 | `substat(t, l, 10, r) == substat(t, l, 30, r)` |
| Formula.SubStatMonotonic | artifactStats.py:85-86 | with a non-negative range, a sub-stat is non-decreasing in its level (from 1) and in the item level |
| Decoder.ArtifactType | artifactStats.py:89-91 | the slot comes back unchanged; the set is Black_Lion iff family ≤ 8, Holy iff 9..16, Power iff ≥ 17 |
| Decoder.SetBoundaries | artifactStats.py:90 | families 8, 9, 16 and 17 map to Black_Lion, Holy, Holy and Power |
| Decoder.SetIndependentOfSlot | artifactStats.py:89-91 | the set does not depend on the slot |
| Decoder.SetLabel | artifactStats.py:90 | the set string is one of `"Black_Lion"`, `"Holy"`, `"Power"` |
| Decoder.SetLabelsDistinct | artifactStats.py:90-133 | the three sets get three different strings, which are exactly the three keys of the counter at line 133 |
| Decoder.ValidLevels | artifactStats.py:97 | the assertion's condition: four levels, each in [1,4]; a predicate with no contract, used by the contract of `Decoder.ParseItem` |
| Decoder.ParseItem | artifactStats.py:94-128 | fails on the assertion iff the levels are not four values in [1,4]; fails with an index error iff a needed list entry is missing; fails with a key error iff the slot is outside 1..8; otherwise gives the record's ID and slot, the slot's name, the family's set, the main stat at the selected enhancement, and four pairs whose types are the record's, with value 0 for a non-positive type and the sub-stat formula at the selected level otherwise |
| Decoder.OutOfRangeLevelRejected | artifactStats.py:97 | a level outside [1,4] (such as 5) makes decoding fail rather than being clamped |
| Decoder.ParsedArtifactShape | artifactStats.py:104-127 | a decoded artifact has a slot in 1..8 with a table name and exactly four pairs, and every pair of non-positive type has value 0 |
| Decoder.OverridesUnusedWhenNotIgnoring | artifactStats.py:102-110 | with `ignore_enhancements` off, the enhancement override and the (valid) levels argument do not change the result |
| Decoder.RecordLevelsUnusedWhenIgnoring | artifactStats.py:102-110 | with `ignore_enhancements` on, the record's own enhancement and sub-stat levels do not change the result |
| Decoder.DefaultLevelsValid | artifactStats.py:95 | the default levels `[1, 1, 1, 1]` pass the assertion |
| Decoder.LevelsFor | artifactStats.py:176 | `substat_levels.get(data["ID"], data["SubStatLevels"])`; a helper with no contract, whose effect `Decoder.DecodeRecord` and `Decoder.DecodeRecordUsesOverride` state |
| Decoder.DecodeRecord | artifactStats.py:176-177 | the assertion fails exactly when the override entry for the ID, if there is one, or else the record's own levels, are not four values in [1,4]; the levels used are stated by `Decoder.DecodeRecordUsesOverride` and `Decoder.DecodeRecordLevelsInRange` |
| Decoder.DecodeRecordUsesOverride | artifactStats.py:176-177 | with enhancements ignored, each unlocked sub-stat uses the override level for its artifact ID when there is one and the record's level otherwise |
| Decoder.DecodeRecordLevelsInRange | artifactStats.py:176-177 | without an override entry, or with enhancements ignored, every level a successful decode uses is in [1,4] |
| Decoder.RecordLevelUncheckedWithOverride | artifactStats.py:97-110 | with enhancements not ignored and an override entry present, a record level of 5 is used unchecked |
| Aggregator.PresentOnly | artifactStats.py:135 | the list with `None` dropped holds only present artifacts |
| Aggregator.TotalStats | artifactStats.py:131-141 | the stat map's keys are exactly the types of the present artifacts' pairs, and each key holds that type's total over the main stats and sub-stats; the set counter has exactly the three set keys, each holding the number of present artifacts of that set |
| Aggregator.SetNamesComplete | artifactStats.py:133 | every set an artifact can have is a key of the counter |
| Aggregator.CountsSumToPresent | artifactStats.py:133-136 | the three counts add up to the number of non-`None` entries |
| Aggregator.NoneEntriesIgnored | artifactStats.py:134-135 | dropping the `None` entries changes no total, no count and no key |
| Aggregator.AppendSplits | artifactStats.py:134-139 | totals, counts and keys of a concatenation are those of its parts combined |
| Aggregator.ExtractAt | artifactStats.py:134-139 | removing one entry removes exactly its contribution |
| Aggregator.OrderIndependent | artifactStats.py:134-139 | any rearrangement of the list gives the same totals (over reals), counts and keys |
| Aggregator.LockedSubStatsAddNothing | artifactStats.py:138-139 | pairs of non-positive type with value 0 add nothing under a non-positive type, and nothing at all when every pair is locked |
| Aggregator.AllLockedContributesMainOnly | artifactStats.py:114-115 | a decoded artifact whose four sub-stats are locked contributes only its main stat |
| Aggregator.SingleArtifactExample | artifactStats.py:131-141 | one HP artifact at level 40 with all sub-stats locked totals 108 under HP and 0 under type 0, and counts once in its set |
| Presentation.ShownTypesAsWritten | artifactStats.py:146-147 | as written, the display fails with a key error iff some key of the stats map has no name, and otherwise shows exactly the positive keys |
| Presentation.ShownTypes | artifactStats.py:146-147 | with the filter before the lookup, type 0 is never shown, exactly the positive keys are shown, and it fails iff a positive key has no name |
| Presentation.ZeroKeyBreaksDisplay | artifactStats.py:146 | as written, a stats map holding the key 0 cannot be displayed |
| Presentation.ShownTypesAgree | artifactStats.py:146-147 | both versions agree on every map whose keys are all positive |
| Presentation.PercentSuffixRule | artifactStats.py:38 | exactly the identifiers 1, 2 and 64 (Attack, HP, Healing Per Round) are shown without `%` |
| Presentation.LockedSubStatBreaksDisplay | artifactStats.py:131-147 | one artifact with locked sub-stats makes the source's display fail, while the corrected display shows HP alone |

## Findings

| source | as written | input that shows it | evidently intended | confidence | as-written member | corrected member |
|---|---|---|---|---|---|---|
| artifactStats.py:146-147 | `print_stats` sorts with the key `stat_lookup[x[0]]`, which is evaluated for every entry before the `stat_type > 0` filter; `stat_lookup` has no key 0 | one equipped artifact with a locked sub-stat (type 0): `total_stats` adds 0 under key 0, and the sort raises `KeyError` (`Presentation.LockedSubStatBreaksDisplay`) | drop the non-positive types before looking up names, as the comment on line 147 says | not executed; high | Presentation.ShownTypesAsWritten | Presentation.ShownTypes |

## Left out

- HTTP fetching, `input()`, `time.sleep` and the `main` driver (lines 182-203) are I/O.
- The HTML search and JSON decoding in `get_inventory_artifacts` (lines 161-175) call
  foreign libraries. The decoder's input is the plain `RawRecord` datatype with the fields
  it reads. The choice between equipped and full inventory, and the `None` result for a
  hidden inventory, belong to that parsing step. Of the reader, only the override lookup and
  the call to `parse_item` (lines 176-177) are modelled.
- `print_stats` (lines 144-151) is console output. The model has no sorting by display name,
  no 3-decimal format and no printing. Only which types are shown, and the `%` rule, are
  modelled.
- Floating-point rounding is not modelled. Values are exact reals, so
  `Aggregator.OrderIndependent` holds for the model's sums, not for the source's float sums.
- `element_order` (line 36) is never used.
- Aggregator.TotalStats: models float addition as exact real addition. The keys and the
  counts are exact.
- Presentation.ShownTypesAsWritten: states which stat types are shown and when the lookup
  fails, not the order or the text of the printed lines.
