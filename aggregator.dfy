/** The aggregator `total_stats`: per-stat running totals and per-set counts. */
module Aggregator {
  import opened Wrappers
  import opened Decoder

  /** Reading a `defaultdict(float)`: a missing key reads as 0. */
  function Lookup(m: map<int, real>, t: int): real
  {
    if t in m then m[t] else 0.0
  }

  /** The pairs `total_stats` adds for one artifact: the main stat, then the sub-stats. */
  function PairsOf(a: Artifact): seq<StatPair>
  {
    [a.mainStat] + a.subStats
  }

  /** Sum of the values of the pairs whose type is `t`. */
  function PairSum(pairs: seq<StatPair>, t: int): real
  {
    if pairs == [] then 0.0
    else
      var last := pairs[|pairs| - 1];
      PairSum(pairs[..|pairs| - 1], t) + (if last.statType == t then last.value else 0.0)
  }

  /** The stat types occurring among the pairs. */
  function PairTypes(pairs: seq<StatPair>): set<int>
  {
    if pairs == [] then {} else PairTypes(pairs[..|pairs| - 1]) + {pairs[|pairs| - 1].statType}
  }

  /** What one list entry adds to the total of stat type `t`. */
  function Contribution(entry: Option<Artifact>, t: int): real
  {
    match entry
    case None => 0.0
    case Some(a) => PairSum(PairsOf(a), t)
  }

  /** The stat types one list entry touches. */
  function EntryTypes(entry: Option<Artifact>): set<int>
  {
    match entry
    case None => {}
    case Some(a) => PairTypes(PairsOf(a))
  }

  /** Reference total of stat type `t` over a list of optional artifacts. */
  function Total(entries: seq<Option<Artifact>>, t: int): real
  {
    if entries == [] then 0.0
    else Total(entries[..|entries| - 1], t) + Contribution(entries[|entries| - 1], t)
  }

  /** The stat types touched by a list of optional artifacts. */
  function StatTypes(entries: seq<Option<Artifact>>): set<int>
  {
    if entries == [] then {} else StatTypes(entries[..|entries| - 1]) + EntryTypes(entries[|entries| - 1])
  }

  /** Reference count of the present artifacts belonging to set `s`. */
  function Count(entries: seq<Option<Artifact>>, s: SetName): nat
  {
    if entries == [] then 0
    else
      var last := entries[|entries| - 1];
      Count(entries[..|entries| - 1], s) + (if last.Some? && last.value.artifactSet == s then 1 else 0)
  }

  /** The number of present (non-`None`) entries. */
  function Present(entries: seq<Option<Artifact>>): nat
  {
    if entries == [] then 0
    else Present(entries[..|entries| - 1]) + (if entries[|entries| - 1].Some? then 1 else 0)
  }

  /** The list with its `None` entries dropped. */
  function PresentOnly(entries: seq<Option<Artifact>>): (r: seq<Option<Artifact>>)
    ensures forall i :: 0 <= i < |r| ==> r[i].Some?
  {
    if entries == [] then []
    else
      var rest := PresentOnly(entries[..|entries| - 1]);
      if entries[|entries| - 1].Some? then rest + [entries[|entries| - 1]] else rest
  }

  const AllSets: set<SetName> := {BlackLion, Holy, Power}

  lemma SetNamesComplete(s: SetName)
    ensures s in AllSets
  {
  }

  /** `total_stats`. The stat map has exactly the types touched by the present artifacts
      (a locked sub-stat's type 0 included, with nothing added to it), each holding its
      total; the set counter has all three keys, each holding its count. */
  method TotalStats(artifacts: seq<Option<Artifact>>) returns (stats: map<int, real>, setInfo: map<SetName, int>)
    ensures stats.Keys == StatTypes(artifacts)
    ensures forall t :: Lookup(stats, t) == Total(artifacts, t)
    ensures setInfo.Keys == AllSets
    ensures forall s :: s in setInfo ==> setInfo[s] == Count(artifacts, s)
  {
    stats := map[];
    setInfo := map[BlackLion := 0, Holy := 0, Power := 0];
    for i := 0 to |artifacts|
      invariant stats.Keys == StatTypes(artifacts[..i])
      invariant forall t :: Lookup(stats, t) == Total(artifacts[..i], t)
      invariant setInfo.Keys == AllSets
      invariant forall s :: s in setInfo ==> setInfo[s] == Count(artifacts[..i], s)
    {
      assert artifacts[..i + 1][..i] == artifacts[..i];
      var artifact := artifacts[i];
      if artifact.Some? {
        var a := artifact.value;
        assert a.artifactSet in setInfo by { SetNamesComplete(a.artifactSet); }
        setInfo := setInfo[a.artifactSet := setInfo[a.artifactSet] + 1];
        var pairs := PairsOf(a);
        stats := stats[a.mainStat.statType := Lookup(stats, a.mainStat.statType) + a.mainStat.value];
        assert pairs[..1] == [a.mainStat];
        for j := 0 to |a.subStats|
          invariant stats.Keys == StatTypes(artifacts[..i]) + PairTypes(pairs[..j + 1])
          invariant forall t :: Lookup(stats, t) == Total(artifacts[..i], t) + PairSum(pairs[..j + 1], t)
        {
          assert pairs[..j + 2][..j + 1] == pairs[..j + 1];
          assert pairs[j + 1] == a.subStats[j];
          var pair := a.subStats[j];
          stats := stats[pair.statType := Lookup(stats, pair.statType) + pair.value];
        }
        assert pairs[..|a.subStats| + 1] == pairs;
      }
    }
    assert artifacts[..|artifacts|] == artifacts;
  }

  // ---------------------------------------------------------------------------
  // Properties of the aggregation

  /** The three set counts add up to the number of present artifacts. */
  lemma {:induction false} CountsSumToPresent(entries: seq<Option<Artifact>>)
    ensures Count(entries, BlackLion) + Count(entries, Holy) + Count(entries, Power) == Present(entries)
  {
    if entries != [] {
      CountsSumToPresent(entries[..|entries| - 1]);
    }
  }

  /** Dropping the `None` entries changes no total, no count and no key. */
  lemma {:induction false} NoneEntriesIgnored(entries: seq<Option<Artifact>>)
    ensures forall t :: Total(PresentOnly(entries), t) == Total(entries, t)
    ensures forall s :: Count(PresentOnly(entries), s) == Count(entries, s)
    ensures StatTypes(PresentOnly(entries)) == StatTypes(entries)
    ensures |PresentOnly(entries)| == Present(entries)
  {
    if entries != [] {
      var init, last := entries[..|entries| - 1], entries[|entries| - 1];
      NoneEntriesIgnored(init);
      var rest := PresentOnly(init);
      if last.Some? {
        assert (rest + [last])[..|rest|] == rest;
      }
    }
  }

  /** Totals, counts and keys of a concatenation split into those of its parts. */
  lemma {:induction false} AppendSplits(a: seq<Option<Artifact>>, b: seq<Option<Artifact>>)
    ensures forall t :: Total(a + b, t) == Total(a, t) + Total(b, t)
    ensures forall s :: Count(a + b, s) == Count(a, s) + Count(b, s)
    ensures StatTypes(a + b) == StatTypes(a) + StatTypes(b)
  {
    if b == [] {
      assert a + b == a;
    } else {
      var init := b[..|b| - 1];
      AppendSplits(a, init);
      assert (a + b)[..|a + b| - 1] == a + init;
      assert (a + b)[|a + b| - 1] == b[|b| - 1];
    }
  }

  /** Removing the entry at position `j` removes exactly its contribution. */
  lemma ExtractAt(b: seq<Option<Artifact>>, j: nat)
    requires j < |b|
    ensures var rest := b[..j] + b[j + 1..];
      && (forall t :: Total(b, t) == Total(rest, t) + Contribution(b[j], t))
      && (forall s :: Count(b, s) == Count(rest, s) + Count([b[j]], s))
      && StatTypes(b) == StatTypes(rest) + EntryTypes(b[j])
  {
    var before, after := b[..j], b[j + 1..];
    assert b == (before + [b[j]]) + after;
    assert [b[j]][..0] == [];
    AppendSplits(before, after);
    AppendSplits(before + [b[j]], after);
    AppendSplits(before, [b[j]]);
  }

  /** Removing a shared element from two rearrangements of each other leaves rearrangements. */
  lemma RemoveShared(a: seq<Option<Artifact>>, b: seq<Option<Artifact>>, j: nat)
    requires multiset(a) == multiset(b) && a != [] && j < |b| && b[j] == a[|a| - 1]
    ensures multiset(a[..|a| - 1]) == multiset(b[..j] + b[j + 1..])
  {
    var init, last := a[..|a| - 1], a[|a| - 1];
    assert a == init + [last];
    assert b == b[..j] + [last] + b[j + 1..];
    assert multiset(init) == multiset(a) - multiset{last};
    assert multiset(b[..j] + b[j + 1..]) == multiset(b) - multiset{last};
  }

  /** The aggregate does not depend on the order of the list: any rearrangement of the same
      entries gives the same totals, counts and keys. */
  lemma {:induction false} OrderIndependent(a: seq<Option<Artifact>>, b: seq<Option<Artifact>>)
    requires multiset(a) == multiset(b)
    ensures forall t :: Total(a, t) == Total(b, t)
    ensures forall s :: Count(a, s) == Count(b, s)
    ensures StatTypes(a) == StatTypes(b)
    decreases |a|
  {
    if a == [] {
      assert |b| == |multiset(b)| == 0;
    } else {
      var init, last := a[..|a| - 1], a[|a| - 1];
      assert last in multiset(b) by { assert a == init + [last]; }
      var j :| 0 <= j < |b| && b[j] == last;
      RemoveShared(a, b, j);
      OrderIndependent(init, b[..j] + b[j + 1..]);
      ExtractAt(b, j);
      ExtractAt(a, |a| - 1);
      assert a[..|a| - 1] + a[|a|..] == init;
    }
  }

  /** A decoded artifact adds nothing under a non-positive type through its sub-stats, so an
      artifact whose four sub-stats are all locked contributes only its main stat. */
  lemma {:induction false} LockedSubStatsAddNothing(pairs: seq<StatPair>, t: int)
    requires forall i :: 0 <= i < |pairs| && pairs[i].statType <= 0 ==> pairs[i].value == 0.0
    requires t <= 0 || forall i :: 0 <= i < |pairs| ==> pairs[i].statType <= 0
    ensures PairSum(pairs, t) == 0.0
  {
    if pairs != [] {
      LockedSubStatsAddNothing(pairs[..|pairs| - 1], t);
    }
  }

  /** The main-stat-only contribution of an all-locked decoded artifact. */
  lemma AllLockedContributesMainOnly(rec: RawRecord, ignoreEnhancements: bool, enhancementOverride: int,
                                     levels: seq<int>, t: int)
    requires ParseItem(rec, ignoreEnhancements, enhancementOverride, levels).Ok?
    requires forall i :: 0 <= i < 4 && i < |rec.subStats| ==> rec.subStats[i] <= 0
    ensures var a := ParseItem(rec, ignoreEnhancements, enhancementOverride, levels).value;
      Contribution(Some(a), t) == if t == a.mainStat.statType then a.mainStat.value else 0.0
  {
    var a := ParseItem(rec, ignoreEnhancements, enhancementOverride, levels).value;
    LockedSubStatsAddNothing(a.subStats, t);
    PairSumOfCons(a.mainStat, a.subStats, t);
  }

  /** Adding one pair in front adds its value under its own type. */
  lemma {:induction false} PairSumOfCons(p: StatPair, pairs: seq<StatPair>, t: int)
    ensures PairSum([p] + pairs, t) == (if p.statType == t then p.value else 0.0) + PairSum(pairs, t)
  {
    if pairs != [] {
      var init := pairs[..|pairs| - 1];
      PairSumOfCons(p, init, t);
      assert ([p] + pairs)[..|[p] + pairs| - 1] == [p] + init;
    }
  }

  /** Adding one pair in front adds its type. */
  lemma {:induction false} PairTypesOfCons(p: StatPair, pairs: seq<StatPair>)
    ensures PairTypes([p] + pairs) == {p.statType} + PairTypes(pairs)
  {
    if pairs != [] {
      var init := pairs[..|pairs| - 1];
      PairTypesOfCons(p, init);
      assert ([p] + pairs)[..|[p] + pairs| - 1] == [p] + init;
    }
  }

  /** A non-empty list of pairs that all have type `t` touches only `t`. */
  lemma {:induction false} PairTypesAllSame(pairs: seq<StatPair>, t: int)
    requires pairs != [] && forall i :: 0 <= i < |pairs| ==> pairs[i].statType == t
    ensures PairTypes(pairs) == {t}
  {
    if |pairs| > 1 {
      PairTypesAllSame(pairs[..|pairs| - 1], t);
    } else {
      assert pairs[..0] == [];
    }
  }

  /** For example, one artifact with main stat HP (identifier 2) at item level 40,
      no enhancement and no unlocked sub-stat totals 108 under HP and 0 under the locked
      type 0, and counts one artifact in its set. */
  lemma SingleArtifactExample(family: int)
    ensures var rec := RawRecord(1, family, 1, 40, 0, 2, [0, 0, 0, 0], [1, 1, 1, 1], []);
      var r := ParseItem(rec, false, DefaultEnhancementOverride, DefaultSubStatLevels);
      && r.Ok?
      && StatTypes([Some(r.value)]) == {2, 0}
      && Total([Some(r.value)], 2) == 108.0
      && Total([Some(r.value)], 0) == 0.0
      && Count([Some(r.value)], r.value.artifactSet) == 1
      && Present([Some(r.value)]) == 1
  {
    var rec := RawRecord(1, family, 1, 40, 0, 2, [0, 0, 0, 0], [1, 1, 1, 1], []);
    assert AllReadable(rec, false) by {
      forall i: nat | i < 4 ensures Readable(rec, false, i) { }
    }
    var r := ParseItem(rec, false, DefaultEnhancementOverride, DefaultSubStatLevels);
    var a := r.value;
    Formula.MainStatExample();
    AllLockedContributesMainOnly(rec, false, DefaultEnhancementOverride, DefaultSubStatLevels, 2);
    AllLockedContributesMainOnly(rec, false, DefaultEnhancementOverride, DefaultSubStatLevels, 0);
    assert [Some(a)][..0] == [];
    PairTypesOfCons(a.mainStat, a.subStats);
    PairTypesAllSame(a.subStats, 0);
    assert [Some(a)][..0] == [];
  }
}
