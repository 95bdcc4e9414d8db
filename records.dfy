/**
 * The records the collector builds during a sampled request and hands to the
 * store at shutdown.  Fields that PHP may leave unset or null are `Option`s.
 */
module Records {
  import opened Wrappers
  import Classify

  /** One entry of `$plugin_timings`. */
  datatype PluginTiming = PluginTiming(
    name: string,
    file: string,        // the first file seen for the plugin
    loadTime: real,      // milliseconds, summed over its files
    memoryUsage: int,    // bytes grown since the plugin's first file
    filesLoaded: nat)

  datatype AssetType = Css | Js

  /** One entry of `$assets`; the keys `track_asset` does not set stay `None`. */
  datatype Asset = Asset(
    handle: string,
    assetType: AssetType,
    loadOrder: nat,
    src: Option<string>,
    version: Option<string>,
    dependencies: Option<seq<string>>,
    inFooter: Option<bool>,
    source: Option<Classify.Source>,
    sourceName: Option<string>,
    size: Option<nat>,
    inlineContent: Option<string>)

  /** One entry of `$slow_queries`. */
  datatype SlowQuery = SlowQuery(sql: string, executionTime: real, caller: Option<string>)

  /** The profile array assembled by `save_profiling_data`. */
  datatype ProfileData = ProfileData(
    timestamp: string,   // current_time('mysql'), an input
    totalTime: real,
    totalMemory: int,
    plugins: map<string, PluginTiming>,
    sampleRate: int,
    requestUri: Option<string>,
    userAgent: Option<string>,
    requestType: Option<string>,
    pageType: Option<string>,
    httpMethod: Option<string>,
    queryCount: Option<int>,
    slowQueries: seq<SlowQuery>,
    assets: seq<Asset>)
}
