/** Which stat types `print_stats` shows, and with which suffix. Formatting and ordering of
    the printed lines are not modelled. */
module Presentation {
  import opened Wrappers
  import opened Tables
  import opened Decoder
  import opened Aggregator

  /** A shown value gets a `%` suffix unless its stat is flat. */
  predicate IsPercent(statType: int) { statType !in FlatStats }

  /** The types shown, as written: the sort key looks up the display name of every key of
      the map, before the `stat_type > 0` filter runs. */
  function ShownTypesAsWritten(stats: map<int, real>): (r: Result<set<int>>)
    ensures r.Ok? <==> stats.Keys <= StatNames.Keys
    ensures r.Err? ==> r.error == KeyError
    ensures r.Ok? ==> forall t :: t in r.value <==> t in stats && t > 0
  {
    if stats.Keys <= StatNames.Keys then Ok(set t | t in stats && t > 0) else Err(KeyError)
  }

  /** The types shown once the filter is applied before the lookup: a locked sub-stat's
      type 0 is never shown and never looked up. */
  function ShownTypes(stats: map<int, real>): (r: Result<set<int>>)
    ensures r.Ok? <==> forall t :: t in stats && t > 0 ==> t in StatNames
    ensures r.Err? ==> r.error == KeyError
    ensures r.Ok? ==> 0 !in r.value && forall t :: t in r.value <==> t in stats && t > 0
  {
    var shown := set t | t in stats && t > 0;
    if shown <= StatNames.Keys then Ok(shown) else Err(KeyError)
  }

  /** As written, a stats map that holds the key 0 cannot be shown at all. */
  lemma ZeroKeyBreaksDisplay(stats: map<int, real>)
    requires 0 in stats
    ensures ShownTypesAsWritten(stats) == Err(KeyError)
  {
    assert 0 !in StatNames;
  }

  /** The two agree on every map without a non-positive key. */
  lemma ShownTypesAgree(stats: map<int, real>)
    requires forall t :: t in stats ==> t > 0
    ensures ShownTypes(stats) == ShownTypesAsWritten(stats)
  {
  }

  /** The flat stats are Attack, HP and Healing Per Round; every other shown stat is a percentage. */
  lemma PercentSuffixRule()
    ensures forall t :: IsPercent(t) <==> t != 1 && t != 2 && t != 64
  {
  }

  /** One equipped artifact with a locked sub-stat is enough: its aggregate holds the key 0,
      so the source's display step fails, while the corrected one shows HP alone. */
  lemma LockedSubStatBreaksDisplay(stats: map<int, real>)
    requires var rec := RawRecord(1, 1, 1, 40, 0, 2, [0, 0, 0, 0], [1, 1, 1, 1], []);
      var r := ParseItem(rec, false, DefaultEnhancementOverride, DefaultSubStatLevels);
      r.Ok? && stats.Keys == StatTypes([Some(r.value)])
    ensures ShownTypesAsWritten(stats) == Err(KeyError)
    ensures ShownTypes(stats) == Ok({2})
  {
    SingleArtifactExample(1);
    ZeroKeyBreaksDisplay(stats);
    var shown := ShownTypes(stats).value;
    assert shown == {2};
  }
}
