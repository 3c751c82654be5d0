/** The artifact decoder: `artifact_type`, `parse_item` and the per-ID override lookup. */
module Decoder {
  import opened Wrappers
  import opened Tables
  import opened Formula

  /** The three artifact sets, keyed in the source by the strings "Black_Lion", "Holy", "Power". */
  datatype SetName = BlackLion | Holy | Power

  /** The key of the set counter under which an artifact of set `s` is counted. */
  function SetLabel(s: SetName): (r: string)
    ensures r in {"Black_Lion", "Holy", "Power"}
  {
    match s
    case BlackLion => "Black_Lion"
    case Holy => "Holy"
    case Power => "Power"
  }

  /** A (stat identifier, value) pair as stored in a decoded artifact. */
  datatype StatPair = StatPair(statType: int, value: real)

  /** The fields of one inventory record that the decoder reads. */
  datatype RawRecord = RawRecord(
    id: int,                   // "ID"
    artifactId: int,           // "ArtifactID": the family, which fixes the set
    slot: int,                 // "Slot"
    level: int,                // "Level"
    additionalLevel: int,      // "AdditionalLevel": the enhancement level
    mainStatType: int,         // "MainStatType"
    subStats: seq<int>,        // "SubStats": 0 for a locked sub-stat
    subStatLevels: seq<int>,   // "SubStatLevels"
    subStatRanges: seq<real>   // "SubStatRanges"
  )

  /** The decoded artifact returned by `parse_item`. */
  datatype Artifact = Artifact(
    id: int,
    slot: int,
    slotName: string,
    artifactSet: SetName,
    mainStat: StatPair,
    subStats: seq<StatPair>
  )

  /** `artifact_type`: the slot, unchanged, and the set fixed by the family ID. */
  function ArtifactType(artifactId: int, slot: int): (r: (int, SetName))
    ensures r.0 == slot
    ensures r.1 == BlackLion <==> artifactId <= 8
    ensures r.1 == Holy <==> 9 <= artifactId <= 16
    ensures r.1 == Power <==> artifactId >= 17
  {
    var artifactSet := if artifactId <= 8 then BlackLion else if artifactId <= 16 then Holy else Power;
    (slot, artifactSet)
  }

  /** The default `substat_levels` argument of `parse_item`. */
  const DefaultSubStatLevels: seq<int> := [1, 1, 1, 1]

  /** The default `enhancement_override` of the inventory reader. */
  const DefaultEnhancementOverride: int := 10

  /** The assertion at the head of `parse_item`: four levels, each in [1,4]. */
  predicate ValidLevels(levels: seq<int>)
  {
    |levels| == 4 && forall i :: 0 <= i < 4 ==> 1 <= levels[i] <= 4
  }

  /** Whether position `i` of the record can be read without running past a list: the type
      is always read, the level and range only for an unlocked (positive) type, and the
      record's own level only when enhancements are not ignored. */
  predicate Readable(rec: RawRecord, ignoreEnhancements: bool, i: nat)
  {
    && i < |rec.subStats|
    && (rec.subStats[i] > 0 ==>
          i < |rec.subStatRanges| && (ignoreEnhancements || i < |rec.subStatLevels|))
  }

  predicate AllReadable(rec: RawRecord, ignoreEnhancements: bool)
  {
    forall i: nat :: i < 4 ==> Readable(rec, ignoreEnhancements, i)
  }

  /** The level used for the sub-stat at position `i`. */
  function SubStatLevelAt(rec: RawRecord, ignoreEnhancements: bool, levels: seq<int>, i: nat): int
    requires ValidLevels(levels) && i < 4
    requires !ignoreEnhancements ==> i < |rec.subStatLevels|
  {
    if ignoreEnhancements then levels[i] else rec.subStatLevels[i]
  }

  /** The enhancement level used for the main stat. */
  function EnhancementUsed(rec: RawRecord, ignoreEnhancements: bool, enhancementOverride: int): int
  {
    if ignoreEnhancements then enhancementOverride else rec.additionalLevel
  }

  /** One element of the sub-stat list comprehension. */
  function DecodeSubStat(rec: RawRecord, ignoreEnhancements: bool, levels: seq<int>, i: nat): StatPair
    requires ValidLevels(levels) && i < 4 && Readable(rec, ignoreEnhancements, i)
  {
    var t := rec.subStats[i];
    if t > 0 then
      StatPair(t, SubStat(t, SubStatLevelAt(rec, ignoreEnhancements, levels, i), rec.level, rec.subStatRanges[i]))
    else
      StatPair(t, 0.0)
  }

  /** `parse_item`. The failures come in the order the source meets them: the assertion on
      `levels`, then a list too short for `range(4)`, then the `slot_names` lookup. */
  function ParseItem(rec: RawRecord, ignoreEnhancements: bool, enhancementOverride: int, levels: seq<int>): (r: Result<Artifact>)
    ensures r == Err(AssertionFailed) <==> !ValidLevels(levels)
    ensures r == Err(IndexError) <==> ValidLevels(levels) && !AllReadable(rec, ignoreEnhancements)
    ensures r == Err(KeyError) <==>
      ValidLevels(levels) && AllReadable(rec, ignoreEnhancements) && !(1 <= rec.slot <= 8)
    ensures r.Ok? ==>
      && ValidLevels(levels) && AllReadable(rec, ignoreEnhancements)
      && r.value.id == rec.id
      && r.value.slot == rec.slot
      && r.value.slotName == SlotNames[rec.slot]
      && r.value.artifactSet == ArtifactType(rec.artifactId, rec.slot).1
      && r.value.mainStat.statType == rec.mainStatType
      && r.value.mainStat.value
         == MainStat(rec.mainStatType, rec.level, EnhancementUsed(rec, ignoreEnhancements, enhancementOverride))
      && |r.value.subStats| == 4
      && forall i: nat :: i < 4 ==>
           && Readable(rec, ignoreEnhancements, i)
           && r.value.subStats[i].statType == rec.subStats[i]
           && (rec.subStats[i] <= 0 ==> r.value.subStats[i].value == 0.0)
           && (rec.subStats[i] > 0 ==>
                 r.value.subStats[i].value
                 == SubStat(rec.subStats[i], SubStatLevelAt(rec, ignoreEnhancements, levels, i),
                            rec.level, rec.subStatRanges[i]))
  {
    if !ValidLevels(levels) then
      Err(AssertionFailed)
    else if !AllReadable(rec, ignoreEnhancements) then
      Err(IndexError)
    else
      var main := StatPair(rec.mainStatType,
                           MainStat(rec.mainStatType, rec.level, EnhancementUsed(rec, ignoreEnhancements, enhancementOverride)));
      var subStats := seq(4, i requires 0 <= i < 4 => DecodeSubStat(rec, ignoreEnhancements, levels, i));
      var (slot, artifactSet) := ArtifactType(rec.artifactId, rec.slot);
      SlotNamesKeys();
      if slot !in SlotNames then
        Err(KeyError)
      else
        Ok(Artifact(rec.id, slot, SlotNames[slot], artifactSet, main, subStats))
  }

  /** The override lookup `substat_levels.get(data["ID"], data["SubStatLevels"])`. */
  function LevelsFor(overrides: map<int, seq<int>>, rec: RawRecord): seq<int>
  {
    if rec.id in overrides then overrides[rec.id] else rec.subStatLevels
  }

  /** What the inventory reader does with one record: look up its override levels, then parse.
      The list the assertion checks is the override entry for the ID when there is one, and
      the record's own levels otherwise. */
  function DecodeRecord(rec: RawRecord, ignoreEnhancements: bool, enhancementOverride: int,
                        overrides: map<int, seq<int>>): (r: Result<Artifact>)
    ensures rec.id in overrides ==> (r == Err(AssertionFailed) <==> !ValidLevels(overrides[rec.id]))
    ensures rec.id !in overrides ==> (r == Err(AssertionFailed) <==> !ValidLevels(rec.subStatLevels))
  {
    ParseItem(rec, ignoreEnhancements, enhancementOverride, LevelsFor(overrides, rec))
  }

  // ---------------------------------------------------------------------------
  // Properties of the decoder

  /** Different sets are counted under different keys, and every key of the counter is used. */
  lemma SetLabelsDistinct()
    ensures forall s, s' :: SetLabel(s) == SetLabel(s') ==> s == s'
    ensures SetLabel(BlackLion) == "Black_Lion" && SetLabel(Holy) == "Holy" && SetLabel(Power) == "Power"
  {
  }

  /** The set boundaries 8/9 and 16/17. */
  lemma SetBoundaries()
    ensures ArtifactType(8, 1).1 == BlackLion && ArtifactType(9, 1).1 == Holy
    ensures ArtifactType(16, 1).1 == Holy && ArtifactType(17, 1).1 == Power
  {
  }

  /** Every family ID belongs to exactly one set, whatever the slot. */
  lemma SetIndependentOfSlot(artifactId: int, slot: int, slot': int)
    ensures ArtifactType(artifactId, slot).1 == ArtifactType(artifactId, slot').1
  {
  }

  /** A level of 5 (or any list that is not four levels in [1,4]) fails before anything is
      computed, rather than being clamped. */
  lemma OutOfRangeLevelRejected(rec: RawRecord, ignoreEnhancements: bool, enhancementOverride: int, levels: seq<int>, i: nat)
    requires i < |levels| && (levels[i] < 1 || levels[i] > 4)
    ensures ParseItem(rec, ignoreEnhancements, enhancementOverride, levels) == Err(AssertionFailed)
  {
  }

  /** A successful decode has a slot in 1..8, a slot name from the table and four pairs, and
      every pair whose type is not positive has value 0. */
  lemma ParsedArtifactShape(rec: RawRecord, ignoreEnhancements: bool, enhancementOverride: int, levels: seq<int>)
    requires ParseItem(rec, ignoreEnhancements, enhancementOverride, levels).Ok?
    ensures var a := ParseItem(rec, ignoreEnhancements, enhancementOverride, levels).value;
      && 1 <= a.slot <= 8 && a.slotName in SlotNames.Values
      && |a.subStats| == 4
      && forall i :: 0 <= i < 4 && a.subStats[i].statType <= 0 ==> a.subStats[i].value == 0.0
  {
    SlotNamesKeys();
  }

  /** With `ignore_enhancements` off, neither the enhancement override nor the (valid)
      override levels change the decoded artifact. */
  lemma OverridesUnusedWhenNotIgnoring(rec: RawRecord, e: int, e': int, levels: seq<int>, levels': seq<int>)
    requires ValidLevels(levels) && ValidLevels(levels')
    ensures ParseItem(rec, false, e, levels) == ParseItem(rec, false, e', levels')
  {
    var r, r' := ParseItem(rec, false, e, levels), ParseItem(rec, false, e', levels');
    if r.Ok? {
      assert r'.Ok?;
      assert r.value.subStats == r'.value.subStats;
    }
  }

  /** With `ignore_enhancements` on, the record's own enhancement level and sub-stat levels
      do not change the decoded artifact. */
  lemma RecordLevelsUnusedWhenIgnoring(rec: RawRecord, additionalLevel: int, subStatLevels: seq<int>,
                                       enhancementOverride: int, levels: seq<int>)
    ensures var rec' := rec.(additionalLevel := additionalLevel, subStatLevels := subStatLevels);
      ParseItem(rec, true, enhancementOverride, levels) == ParseItem(rec', true, enhancementOverride, levels)
  {
    var rec' := rec.(additionalLevel := additionalLevel, subStatLevels := subStatLevels);
    var r, r' := ParseItem(rec, true, enhancementOverride, levels), ParseItem(rec', true, enhancementOverride, levels);
    assert AllReadable(rec, true) == AllReadable(rec', true) by {
      forall i: nat | i < 4 ensures Readable(rec, true, i) == Readable(rec', true, i) { }
    }
    if r.Ok? {
      assert r'.Ok?;
      assert r.value.subStats == r'.value.subStats;
    }
  }

  /** The default levels always pass the assertion. */
  lemma DefaultLevelsValid()
    ensures ValidLevels(DefaultSubStatLevels)
  {
  }

  /** The inventory reader passes an artifact's override levels when its ID has one, and the
      record's own levels otherwise; with enhancements ignored, these are the levels used. */
  lemma DecodeRecordUsesOverride(rec: RawRecord, enhancementOverride: int, overrides: map<int, seq<int>>, i: nat)
    requires i < 4
    requires DecodeRecord(rec, true, enhancementOverride, overrides).Ok?
    requires i < |rec.subStats| && rec.subStats[i] > 0
    ensures var a := DecodeRecord(rec, true, enhancementOverride, overrides).value;
      var lvl := if rec.id in overrides then overrides[rec.id][i] else rec.subStatLevels[i];
      a.subStats[i].value == SubStat(rec.subStats[i], lvl, rec.level, rec.subStatRanges[i])
  {
  }

  /** When a record has no override entry, every sub-stat level a successful decode used is
      one the assertion checked, so lies in [1,4]. */
  lemma DecodeRecordLevelsInRange(rec: RawRecord, ignoreEnhancements: bool, enhancementOverride: int,
                                  overrides: map<int, seq<int>>, i: nat)
    requires i < 4
    requires ignoreEnhancements || rec.id !in overrides
    requires DecodeRecord(rec, ignoreEnhancements, enhancementOverride, overrides).Ok?
    requires i < |rec.subStats| && rec.subStats[i] > 0
    ensures i < |rec.subStatLevels| || ignoreEnhancements
    ensures 1 <= SubStatLevelAt(rec, ignoreEnhancements, LevelsFor(overrides, rec), i) <= 4
  {
  }

  /** The record's own levels are not checked when enhancements are not ignored and an
      override entry exists for its ID: a record level of 5 is then used as it is. */
  lemma RecordLevelUncheckedWithOverride()
    ensures var rec := RawRecord(7, 1, 1, 40, 0, 2, [1, 0, 0, 0], [5, 1, 1, 1], [1.0, 1.0, 1.0, 1.0]);
      var r := DecodeRecord(rec, false, DefaultEnhancementOverride, map[7 := [1, 1, 1, 1]]);
      r.Ok? && r.value.subStats[0].value == SubStat(1, 5, 40, 1.0)
  {
    var rec := RawRecord(7, 1, 1, 40, 0, 2, [1, 0, 0, 0], [5, 1, 1, 1], [1.0, 1.0, 1.0, 1.0]);
    assert AllReadable(rec, false) by {
      forall i: nat | i < 4 ensures Readable(rec, false, i) { }
    }
  }
}
