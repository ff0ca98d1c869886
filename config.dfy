/** Enrichment configurations: whether web enrichment runs, which strategies it runs,
    how much of each search result is kept, and whether results go into the ledger. */
module Config {
  import opened Wrappers

  const Background: string := "background"
  const Discussions: string := "discussions"
  const Academic: string := "academic"
  const Current: string := "current"

  /** The strategy names the enricher knows how to run; any other name is skipped. */
  const KnownStrategies: seq<string> := [Background, Discussions, Academic, Current]

  predicate IsKnownStrategy(name: string) {
    name in KnownStrategies
  }

  /** `strategies` is an ordered list and may, like the Python list, hold any names. */
  datatype EnrichmentConfig = EnrichmentConfig(
    enabled: bool,
    strategies: seq<string>,
    maxResultsPerStrategy: int,
    trackSources: bool)

  const DefaultStrategies: seq<string> := [Background, Discussions]

  const DefaultMaxResults: int := 1000

  /** The dataclass constructor followed by `__post_init__`. */
  function MakeConfig(enabled: bool, strategies: Option<seq<string>>,
                      maxResultsPerStrategy: int, trackSources: bool): (c: EnrichmentConfig)
    ensures strategies.None? ==> c.strategies == DefaultStrategies
    ensures strategies.Some? ==> c.strategies == strategies.value
    ensures c.enabled == enabled && c.trackSources == trackSources
    ensures c.maxResultsPerStrategy == maxResultsPerStrategy
  {
    EnrichmentConfig(enabled, if strategies.Some? then strategies.value else DefaultStrategies,
                     maxResultsPerStrategy, trackSources)
  }

  /** `EnrichmentConfig()` with every field at its default. */
  function DefaultConfig(): EnrichmentConfig {
    MakeConfig(true, None, DefaultMaxResults, true)
  }

  function PresetMinimal(): EnrichmentConfig {
    MakeConfig(true, Some([Background]), DefaultMaxResults, true)
  }

  function PresetBalanced(): EnrichmentConfig {
    MakeConfig(true, Some([Background, Discussions]), DefaultMaxResults, true)
  }

  function PresetComprehensive(): EnrichmentConfig {
    MakeConfig(true, Some([Background, Discussions, Academic, Current]), DefaultMaxResults, true)
  }

  function PresetAcademic(): EnrichmentConfig {
    MakeConfig(true, Some([Background, Academic]), DefaultMaxResults, true)
  }

  function TranscriptOnly(): EnrichmentConfig {
    MakeConfig(false, Some([]), DefaultMaxResults, true)
  }

  /** Every strategy is a known one and none is listed twice. */
  predicate WellFormed(c: EnrichmentConfig) {
    && (forall i :: 0 <= i < |c.strategies| ==> IsKnownStrategy(c.strategies[i]))
    && (forall i, j :: 0 <= i < j < |c.strategies| ==> c.strategies[i] != c.strategies[j])
  }

  function Presets(): seq<EnrichmentConfig> {
    [TranscriptOnly(), PresetMinimal(), PresetBalanced(), PresetComprehensive(), PresetAcademic()]
  }

  /** The five presets are well formed, keep 1000 characters per search and track
      sources; only transcript-only is disabled, and it lists no strategy. The default
      configuration is the balanced preset. */
  lemma PresetFacts()
    ensures forall i :: 0 <= i < |Presets()| ==>
      WellFormed(Presets()[i]) && Presets()[i].trackSources
      && Presets()[i].maxResultsPerStrategy == 1000
      && (Presets()[i].enabled <==> Presets()[i].strategies != [])
    ensures !TranscriptOnly().enabled && TranscriptOnly().strategies == []
    ensures DefaultConfig() == PresetBalanced()
    ensures PresetComprehensive().strategies == KnownStrategies
  {
  }
}
