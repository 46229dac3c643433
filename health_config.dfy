/**
 * The health engine's configuration: the thresholds file, the defaults
 * used when that file does not exist, and the process-wide cache that
 * keeps the configuration once it has been loaded.
 */
module HealthConfig {
  import opened Optional

  /** Display overrides of one health tier (`label`, `label_hi`, `color`,
      `severity`); each may be absent, and the engine then uses its own default. */
  datatype TierText = TierText(
    caption: Option<string>,
    captionHi: Option<string>,
    color: Option<string>,
    severity: Option<string>)

  /** A rescan window: `min_days`..`max_days` after a scan, with optional labels. */
  datatype Interval = Interval(
    minDays: int,
    maxDays: int,
    caption: Option<string>,
    captionHi: Option<string>)

  /** Display overrides of one nutrient tier. */
  datatype NutrientText = NutrientText(caption: Option<string>, captionHi: Option<string>)

  /**
   * The parsed thresholds file. Keys the engine reads with `[...]` are
   * mandatory fields here (a file lacking one would make the engine raise);
   * keys it reads with `.get` are optional.
   */
  datatype Config = Config(
    attentionMin: real,        // health_classification.thresholds.attention.min_score
    healthyMin: real,          // health_classification.thresholds.healthy.min_score
    criticalText: TierText,
    attentionText: TierText,
    healthyText: TierText,
    rescanCritical: Interval,  // rescan_intervals.critical
    rescanAttention: Interval,
    rescanHealthy: Interval,
    epsilon: real,             // trend_analysis.epsilon
    significantIncrease: Option<real>,
    significantDecrease: Option<real>,
    deficientMax: real,        // nutrient_thresholds.deficient.max_score
    optimalMax: real,          // nutrient_thresholds.optimal.max_score
    deficientText: NutrientText,
    optimalText: NutrientText,
    excessText: NutrientText,
    graphColors: map<string, string>)  // graph_colors, empty when absent

  /** A configuration whose tiers are in the intended order. */
  predicate WellFormed(c: Config) {
    && c.attentionMin <= c.healthyMin
    && 0.0 <= c.epsilon
    && 0 <= c.rescanCritical.minDays <= c.rescanCritical.maxDays
    && 0 <= c.rescanAttention.minDays <= c.rescanAttention.maxDays
    && 0 <= c.rescanHealthy.minDays <= c.rescanHealthy.maxDays
    && c.deficientMax <= c.optimalMax
  }

  const NoTierText := TierText(None, None, None, None)
  const NoNutrientText := NutrientText(None, None)

  /** The built-in configuration used when the thresholds file is missing:
      critical below 50, attention from 50, healthy from 80; rescan after
      7-10, 15-20 or 25-30 days; a trend dead band of 5; a nutrient is
      deficient up to a health of 40 and optimal up to 80. */
  function DefaultConfig(): (c: Config)
    ensures WellFormed(c)
    ensures c.attentionMin == 50.0 && c.healthyMin == 80.0
    ensures c.epsilon == 5.0 && c.deficientMax == 40.0 && c.optimalMax == 80.0
  {
    Config(
      50.0, 80.0,
      NoTierText, NoTierText, NoTierText,
      Interval(7, 10, None, None),
      Interval(15, 20, None, None),
      Interval(25, 30, None, None),
      5.0, None, None,
      40.0, 80.0,
      NoNutrientText, NoNutrientText, NoNutrientText,
      map[])
  }

  /** What opening and decoding the thresholds file gives at a given moment. */
  datatype ConfigFile =
    | Absent                    // FileNotFoundError
    | Unreadable(reason: string) // any other open or JSON error
    | Loaded(config: Config)

  /** `load_config`: a missing file falls back to the defaults; every other
      failure propagates to the caller. */
  function LoadConfig(f: ConfigFile): (r: Result<Config>)
    ensures r.Err? <==> f.Unreadable?
    ensures f.Absent? ==> r == Ok(DefaultConfig())
    ensures f.Loaded? ==> r == Ok(f.config)
  {
    match f
    case Absent => Ok(DefaultConfig())
    case Unreadable(reason) => Err(reason)
    case Loaded(c) => Ok(c)
  }

  /** The module-level `_config_cache`. */
  class ConfigCache {
    var cache: Option<Config>

    /** At import time nothing is cached. */
    constructor ()
      ensures cache == None
    {
      cache := None;
    }

    /** `get_config`: the file is read only while nothing is cached; once a
        configuration is cached it is returned and the file is not consulted. */
    method GetConfig(f: ConfigFile) returns (r: Result<Config>)
      modifies this
      ensures old(cache).Some? ==> r == Ok(old(cache).value) && cache == old(cache)
      ensures old(cache).None? ==> r == LoadConfig(f)
      ensures old(cache).None? ==> cache == (if r.Ok? then Some(r.value) else None)
    {
      if cache.None? {
        r := LoadConfig(f);
        if r.Ok? {
          cache := Some(r.value);
        }
      } else {
        r := Ok(cache.value);
      }
    }

    /** `reload_config`: always reads the file again; a failed read leaves
        the previous cache in place. */
    method ReloadConfig(f: ConfigFile) returns (r: Result<Config>)
      modifies this
      ensures r == LoadConfig(f)
      ensures cache == (if r.Ok? then Some(r.value) else old(cache))
    {
      r := LoadConfig(f);
      if r.Ok? {
        cache := Some(r.value);
      }
    }
  }
}
