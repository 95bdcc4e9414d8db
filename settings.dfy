/**
 * The settings and reporting side of `InstaPulse_Profiler`: the option
 * sanitiser, its own sample-rate default, the confidence levels, the
 * performance insights and the CSV export, all computed from the data
 * `get_aggregated_data` returns.
 */
module Settings {
  import opened Wrappers
  import opened Text
  import Sampler
  import Store
  import opened Aggregate

  /**
   * `sanitize_options`: only `sample_rate` survives, cast and clamped into
   * [1, 100], and 5 when it was not submitted.  `options` holds the submitted
   * values after the `(int)` cast.
   */
  function SanitizeOptions(options: map<string, int>): (r: map<string, int>)
    ensures r.Keys == {"sample_rate"}
    ensures 1 <= r["sample_rate"] <= 100
    ensures "sample_rate" in options && 1 <= options["sample_rate"] <= 100 ==> r["sample_rate"] == options["sample_rate"]
    ensures "sample_rate" in options && options["sample_rate"] < 1 ==> r["sample_rate"] == 1
    ensures "sample_rate" in options && options["sample_rate"] > 100 ==> r["sample_rate"] == 100
    ensures "sample_rate" !in options ==> r["sample_rate"] == 5
  {
    if "sample_rate" in options then
      map["sample_rate" := Sampler.Clamp(options["sample_rate"], 1, 100)]
    else
      map["sample_rate" := 5]
  }

  /** Sanitising a sanitised array changes nothing. */
  lemma SanitizeIdempotent(options: map<string, int>)
    ensures SanitizeOptions(SanitizeOptions(options)) == SanitizeOptions(options)
  {
  }

  /** A submitted slow-query threshold never reaches the stored options; readers fall back to 50. */
  lemma ThresholdDropped(options: map<string, int>)
    ensures "slow_query_threshold" !in SanitizeOptions(options)
    ensures Store.SlowQueryThreshold(SanitizeOptions(options)) == 50
  {
  }

  /** The profiler's `get_sample_rate`: the stored option, 5 when unset. */
  function GetSampleRate(options: map<string, int>): (r: int)
    ensures "sample_rate" in options ==> r == options["sample_rate"]
    ensures "sample_rate" !in options ==> r == 5
  {
    Sampler.OptionOr(options, "sample_rate", 5)
  }

  /**
   * The two readers of the same option disagree on its default (5 here, 2 in
   * the database class and the sampling gate), and agree whenever it is set.
   */
  lemma SampleRateDefaultsDiffer(options: map<string, int>)
    ensures "sample_rate" !in options ==> GetSampleRate(options) == 5 && Store.SampleRate(options) == 2
    ensures "sample_rate" in options ==> GetSampleRate(options) == Store.SampleRate(options)
  {
  }

  /** Once saved through the sanitiser, every reader sees a rate in [1, 100]. */
  lemma SanitizedRateAgrees(options: map<string, int>)
    ensures GetSampleRate(SanitizeOptions(options)) == Store.SampleRate(SanitizeOptions(options))
    ensures 1 <= GetSampleRate(SanitizeOptions(options)) <= 100
  {
  }

  datatype Confidence = High | Medium | Low | VeryLow {
    function Label(): string {
      match this
      case High => "High"
      case Medium => "Medium"
      case Low => "Low"
      case VeryLow => "Very Low"
    }

    /** How many thresholds the level has passed. */
    function Rank(): nat {
      match this
      case VeryLow => 0
      case Low => 1
      case Medium => 2
      case High => 3
    }
  }

  /** `calculate_confidence_level`: 100 samples or more High, 30 Medium, 10 Low, fewer Very Low. */
  function ConfidenceLevel(sampleCount: int): (r: Confidence)
    ensures r == High <==> sampleCount >= 100
    ensures r == Medium <==> 30 <= sampleCount < 100
    ensures r == Low <==> 10 <= sampleCount < 30
    ensures r == VeryLow <==> sampleCount < 10
  {
    if sampleCount >= 100 then High
    else if sampleCount >= 30 then Medium
    else if sampleCount >= 10 then Low
    else VeryLow
  }

  /** More samples never lower the confidence. */
  lemma ConfidenceMonotone(a: int, b: int)
    requires a <= b
    ensures ConfidenceLevel(a).Rank() <= ConfidenceLevel(b).Rank()
  {
  }

  /** The decimal digits of `n`, as PHP prints an integer. */
  function DecimalString(n: nat): (r: string)
    ensures |r| >= 1
    ensures forall i :: 0 <= i < |r| ==> '0' <= r[i] <= '9'
    decreases n
  {
    var d := [(('0' as int) + n % 10) as char];
    if n < 10 then d else DecimalString(n / 10) + d
  }

  /** The number a string of decimal digits denotes. */
  function DecimalValue(s: string): nat
    requires forall i :: 0 <= i < |s| ==> '0' <= s[i] <= '9'
    decreases |s|
  {
    if s == [] then 0 else 10 * DecimalValue(s[..|s| - 1]) + (s[|s| - 1] as int - '0' as int)
  }

  /** Printing a count and reading it back gives the count. */
  lemma {:induction false} DecimalRoundTrip(n: nat)
    ensures DecimalValue(DecimalString(n)) == n
    decreases n
  {
    var s := DecimalString(n);
    if n >= 10 {
      DecimalRoundTrip(n / 10);
      assert s[..|s| - 1] == DecimalString(n / 10);
    }
  }

  /** `implode(', ', $parts)`. */
  function Join(parts: seq<string>): (r: string)
    ensures parts == [] ==> r == ""
    ensures |parts| == 1 ==> r == parts[0]
    decreases |parts|
  {
    if parts == [] then "" else if |parts| == 1 then parts[0] else Join(parts[..|parts| - 1]) + ", " + parts[|parts| - 1]
  }

  /** The names of the plugins whose average time is over 50 ms, in map order. */
  function SlowPluginNames(plugins: seq<Entry>): (r: seq<string>)
    ensures |r| <= |plugins|
    decreases |plugins|
  {
    if plugins == [] then []
    else
      var last := plugins[|plugins| - 1];
      SlowPluginNames(plugins[..|plugins| - 1]) + (if last.stats.avgTime > 50.0 then [last.stats.name] else [])
  }

  predicate SlowPlugin(e: Entry) {
    e.stats.avgTime > 50.0
  }

  /** The slow list holds exactly the names of the slow plugins. */
  lemma {:induction false} SlowPluginNamesMembers(plugins: seq<Entry>)
    ensures SlowPluginNames(plugins) == [] <==> forall j :: 0 <= j < |plugins| ==> !SlowPlugin(plugins[j])
    ensures forall x :: x in SlowPluginNames(plugins) <==>
      exists j :: 0 <= j < |plugins| && SlowPlugin(plugins[j]) && plugins[j].stats.name == x
    decreases |plugins|
  {
    if plugins != [] {
      var init := plugins[..|plugins| - 1];
      SlowPluginNamesMembers(init);
      assert forall j :: 0 <= j < |init| ==> init[j] == plugins[j];
    }
  }

  /** The slow-plugin message: the first three names, then " and N more" for the rest. */
  function SlowPluginsMessage(names: seq<string>): string {
    var shown := if |names| > 3 then names[..3] else names;
    var rest := if |names| > 3 then " and " + DecimalString(|names| - 3) + " more" else "";
    "Slow plugins detected: " + Join(shown) + rest
  }

  /** Each part of a joined list occurs in it. */
  lemma {:induction false} JoinHasPart(parts: seq<string>, i: nat)
    requires i < |parts|
    ensures Contains(Join(parts), parts[i])
    decreases |parts|
  {
    var j := Join(parts);
    if |parts| > 1 {
      var init := parts[..|parts| - 1];
      var head := Join(init);
      assert j == head + ", " + parts[|parts| - 1];
      if i == |parts| - 1 {
        assert j[|head| + 2..|head| + 2 + |parts[i]|] == parts[i];
        ContainsAt(j, parts[i], |head| + 2);
      } else {
        JoinHasPart(init, i);
        assert init[i] == parts[i];
        ContainsPrefix(head, ", " + parts[|parts| - 1], parts[i]);
        assert j == head + (", " + parts[|parts| - 1]);
      }
    } else {
      assert j == parts[0];
      ContainsAt(j, parts[i], 0);
    }
  }

  /** What occurs in a string occurs in any extension of it. */
  lemma {:induction false} ContainsPrefix(a: string, b: string, sub: string)
    requires Contains(a, sub)
    ensures Contains(a + b, sub)
    decreases |a|
  {
    if StartsWith(a, sub) {
      assert (a + b)[..|sub|] == a[..|sub|];
    } else {
      ContainsPrefix(a[1..], b, sub);
      assert (a + b)[1..] == a[1..] + b;
    }
  }

  /**
   * The slow-plugin message starts with its fixed lead-in and names the
   * first three slow plugins (all of them when there are at most three).
   */
  lemma SlowMessageNames(names: seq<string>)
    ensures StartsWith(SlowPluginsMessage(names), "Slow plugins detected: ")
    ensures forall i :: 0 <= i < |names| && i < 3 ==> Contains(SlowPluginsMessage(names), names[i])
  {
    var m := SlowPluginsMessage(names);
    var prefix := "Slow plugins detected: ";
    var shown := if |names| > 3 then names[..3] else names;
    var rest := if |names| > 3 then " and " + DecimalString(|names| - 3) + " more" else "";
    assert m == prefix + Join(shown) + rest;
    assert m[..|prefix|] == prefix;
    forall i | 0 <= i < |names| && i < 3
      ensures Contains(m, names[i])
    {
      JoinHasPart(shown, i);
      assert shown[i] == names[i];
      ContainsSuffix(prefix, Join(shown), names[i]);
      ContainsPrefix(prefix + Join(shown), rest, names[i]);
    }
  }

  /**
   * Past three slow plugins the message ends with " and N more", N being
   * the number left out (which reads back by DecimalRoundTrip); up to three
   * it ends with the whole list.
   */
  lemma SlowMessageCount(names: seq<string>)
    ensures |names| > 3 ==> EndsWith(SlowPluginsMessage(names), " and " + DecimalString(|names| - 3) + " more")
    ensures |names| <= 3 ==> EndsWith(SlowPluginsMessage(names), Join(names))
  {
    var m := SlowPluginsMessage(names);
    var prefix := "Slow plugins detected: ";
    if |names| > 3 {
      var tail := " and " + DecimalString(|names| - 3) + " more";
      assert m == (prefix + Join(names[..3])) + tail;
      assert m[|m| - |tail|..] == tail;
    } else {
      assert m == prefix + Join(names);
      assert m[|m| - |Join(names)|..] == Join(names);
    }
  }

  /** What occurs in a string occurs in it with anything put in front. */
  lemma {:induction false} ContainsSuffix(a: string, b: string, sub: string)
    requires Contains(b, sub)
    ensures Contains(a + b, sub)
    decreases |a|
  {
    if a == [] {
      assert a + b == b;
    } else {
      ContainsSuffix(a[1..], b, sub);
      assert (a + b)[1..] == a[1..] + b;
    }
  }

  datatype Kind = Info | Warning | Error | Success

  /**
   * What an insight says.  The averages in the load-time and memory messages
   * go through `number_format`/`size_format`, which are not modelled: the
   * message keeps the number.
   */
  datatype Message =
    | CollectingMore(confidence: string)
    | SlowPlugins(text: string)
    | LoadTimeHigh(avgLoadTime: real)
    | LoadTimeImprovable(avgLoadTime: real)
    | LoadTimeGood(avgLoadTime: real)
    | MemoryHigh(avgMemoryUsage: real)
  {
    predicate IsLoadTime() {
      LoadTimeHigh? || LoadTimeImprovable? || LoadTimeGood?
    }
  }

  datatype Insight = Insight(kind: Kind, message: Message)

  /** 100 MiB. */
  const MemoryWarningBytes: int := 100 * 1024 * 1024

  /** The number of load-time entries. */
  function LoadTimeEntries(r: seq<Insight>): nat
    decreases |r|
  {
    if r == [] then 0
    else LoadTimeEntries(r[..|r| - 1]) + (if r[|r| - 1].message.IsLoadTime() then 1 else 0)
  }

  lemma {:induction false} LoadTimeEntriesAppend(a: seq<Insight>, b: seq<Insight>)
    ensures LoadTimeEntries(a + b) == LoadTimeEntries(a) + LoadTimeEntries(b)
    decreases |b|
  {
    if b == [] {
      assert a + b == a;
    } else {
      assert (a + b)[..|a + b| - 1] == a + b[..|b| - 1];
      LoadTimeEntriesAppend(a, b[..|b| - 1]);
    }
  }

  /** The entries `get_performance_insights` appends, in order. */
  function InfoEntry(data: Aggregated): seq<Insight> {
    if data.totalProfiles < 10 then [Insight(Info, CollectingMore("Low"))] else []
  }

  function SlowEntry(data: Aggregated): seq<Insight> {
    var slow := SlowPluginNames(data.plugins);
    if slow != [] then [Insight(Warning, SlowPlugins(SlowPluginsMessage(slow)))] else []
  }

  function LoadTimeEntry(data: Aggregated): Insight {
    var avg := data.avgLoadTime;
    if avg > 1000.0 then Insight(Error, LoadTimeHigh(avg))
    else if avg > 500.0 then Insight(Warning, LoadTimeImprovable(avg))
    else Insight(Success, LoadTimeGood(avg))
  }

  function MemoryEntry(data: Aggregated): seq<Insight> {
    if data.avgMemoryUsage > MemoryWarningBytes as real then [Insight(Warning, MemoryHigh(data.avgMemoryUsage))] else []
  }

  /**
   * `get_performance_insights`: an info entry while fewer than 10 profiles
   * were aggregated (the data carries no confidence level, so it reports the
   * fallback Low), a warning naming the slow plugins, one load-time entry,
   * and a memory warning over 100 MiB, in that order.
   */
  function PerformanceInsights(data: Aggregated): seq<Insight> {
    InfoEntry(data) + SlowEntry(data) + [LoadTimeEntry(data)] + MemoryEntry(data)
  }

  /** The insights are the four groups of entries and nothing else. */
  lemma InsightMembers(data: Aggregated)
    ensures forall x :: x in PerformanceInsights(data) <==>
      x in InfoEntry(data) || x in SlowEntry(data) || x == LoadTimeEntry(data) || x in MemoryEntry(data)
  {
  }

  /** An info entry iff fewer than 10 profiles were aggregated. */
  lemma InfoRule(data: Aggregated)
    ensures (exists x :: x in PerformanceInsights(data) && x.kind == Info) <==> data.totalProfiles < 10
  {
    InsightMembers(data);
    if data.totalProfiles < 10 {
      assert InfoEntry(data)[0] in PerformanceInsights(data);
    }
  }

  /** A slow-plugin warning iff some plugin averages over 50 ms, and it names the slow plugins. */
  lemma SlowRule(data: Aggregated)
    ensures (exists x :: x in PerformanceInsights(data) && x.message.SlowPlugins?) <==>
      exists j :: 0 <= j < |data.plugins| && SlowPlugin(data.plugins[j])
    ensures forall x :: x in PerformanceInsights(data) && x.message.SlowPlugins? ==>
      x.kind == Warning && x.message.text == SlowPluginsMessage(SlowPluginNames(data.plugins))
  {
    InsightMembers(data);
    SlowPluginNamesMembers(data.plugins);
    if SlowPluginNames(data.plugins) != [] {
      assert SlowEntry(data)[0] in PerformanceInsights(data);
    }
  }

  /** The load-time entry's kind follows the 1000 ms and 500 ms thresholds. */
  lemma LoadTimeRule(data: Aggregated)
    ensures forall x :: x in PerformanceInsights(data) && x.message.IsLoadTime() ==>
      && x.message.avgLoadTime == data.avgLoadTime
      && (x.kind == Error <==> data.avgLoadTime > 1000.0)
      && (x.kind == Warning <==> 500.0 < data.avgLoadTime <= 1000.0)
      && (x.kind == Success <==> data.avgLoadTime <= 500.0)
  {
    InsightMembers(data);
  }

  /** A memory warning iff the average memory is over 100 MiB. */
  lemma MemoryRule(data: Aggregated)
    ensures (exists x :: x in PerformanceInsights(data) && x.message.MemoryHigh?) <==>
      data.avgMemoryUsage > MemoryWarningBytes as real
  {
    InsightMembers(data);
    if data.avgMemoryUsage > MemoryWarningBytes as real {
      assert MemoryEntry(data)[0] in PerformanceInsights(data);
    }
  }

  /** There is always exactly one load-time entry. */
  lemma OneLoadTimeEntry(data: Aggregated)
    ensures LoadTimeEntries(PerformanceInsights(data)) == 1
  {
    var head := InfoEntry(data) + SlowEntry(data);
    LoadTimeEntriesAppend(InfoEntry(data), SlowEntry(data));
    LoadTimeEntriesAppend(head, [LoadTimeEntry(data)]);
    LoadTimeEntriesAppend(head + [LoadTimeEntry(data)], MemoryEntry(data));
    assert [LoadTimeEntry(data)][..0] == [];
    if MemoryEntry(data) != [] {
      assert MemoryEntry(data)[..0] == [];
    }
    if SlowEntry(data) != [] {
      assert SlowEntry(data)[..0] == [];
    }
    if InfoEntry(data) != [] {
      assert InfoEntry(data)[..0] == [];
    }
  }

  /** One row of the CSV export; the average time goes through `number_format`, not modelled. */
  datatype CsvRow =
    | HeaderRow
    | PluginRow(name: string, avgTime: real, avgMemory: real, profileCount: nat, confidence: Option<string>)

  /** The header cells. */
  const CsvHeader: seq<string> :=
    ["Plugin Name", "Average Load Time (ms)", "Average Memory (bytes)", "Profile Count", "Confidence"]

  /**
   * `export_csv`: the header, then one row per aggregated plugin in the
   * returned order.  The aggregated data carries no confidence level, so the
   * last cell is null.
   */
  function ExportCsv(data: Aggregated): (r: seq<CsvRow>)
    ensures |r| == |data.plugins| + 1 && r[0] == HeaderRow
    ensures forall i :: 0 <= i < |data.plugins| ==>
      var s := data.plugins[i].stats;
      r[i + 1] == PluginRow(s.name, s.avgTime, s.avgMemory, s.profileCount, None)
  {
    [HeaderRow] + seq(|data.plugins|, i requires 0 <= i < |data.plugins| =>
      var s := data.plugins[i].stats;
      PluginRow(s.name, s.avgTime, s.avgMemory, s.profileCount, None))
  }

  /** Exported rows come in the aggregation's order: slowest plugin first. */
  lemma ExportSortedBySpeed(data: Aggregated, i: nat, j: nat)
    requires NonIncreasing(data.plugins)
    requires 1 <= i < j < |ExportCsv(data)|
    ensures ExportCsv(data)[j].avgTime <= ExportCsv(data)[i].avgTime
  {
    assert ExportCsv(data)[i].avgTime == data.plugins[i - 1].stats.avgTime;
  }
}
