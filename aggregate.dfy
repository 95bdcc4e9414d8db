/**
 * The read side of `InstaPulse_Database`: `get_aggregated_data` over the
 * profile rows the `SELECT` returns (most recent first, at most `$limit`),
 * each with its `plugin_data` already decoded.  Sums, per-plugin totals and
 * appearance counts, averages, and a sort by average time, largest first.
 */
module Aggregate {
  import opened Wrappers
  import Store

  /** One plugin's entry in a stored profile's decoded `plugin_data`; old rows may lack `files_loaded`. */
  datatype PluginSample = PluginSample(name: string, loadTime: real, memoryUsage: int, filesLoaded: Option<int>)

  /** The columns of a profile row the aggregation reads. */
  datatype StoredProfile = StoredProfile(totalTime: real, totalMemory: int, plugins: map<string, PluginSample>)

  /** One entry of `$plugin_stats`. */
  datatype PluginStats = PluginStats(
    name: string,
    totalTime: real,
    totalMemory: real,
    totalFiles: real,
    profileCount: nat,
    avgTime: real,
    avgMemory: real,
    avgFiles: real)

  /** A key of the returned plugin map with its statistics, in the map's order. */
  datatype Entry = Entry(key: string, stats: PluginStats)

  /** What `get_aggregated_data` returns. */
  datatype Aggregated = Aggregated(
    totalProfiles: nat,
    avgLoadTime: real,
    avgMemoryUsage: real,
    plugins: seq<Entry>,
    sampleRate: int)

  // Reference definitions, one profile at a time.

  function SumTime(ps: seq<StoredProfile>): real
    decreases |ps|
  {
    if ps == [] then 0.0 else SumTime(ps[..|ps| - 1]) + ps[|ps| - 1].totalTime
  }

  function SumMemory(ps: seq<StoredProfile>): real
    decreases |ps|
  {
    if ps == [] then 0.0 else SumMemory(ps[..|ps| - 1]) + ps[|ps| - 1].totalMemory as real
  }

  /** The number of profiles in which plugin `k` appears. */
  function Appearances(ps: seq<StoredProfile>, k: string): nat
    decreases |ps|
  {
    if ps == [] then 0
    else Appearances(ps[..|ps| - 1], k) + (if k in ps[|ps| - 1].plugins then 1 else 0)
  }

  /** `files_loaded ?? 1`. */
  function Files(x: PluginSample): real {
    if x.filesLoaded.Some? then x.filesLoaded.value as real else 1.0
  }

  function PluginTime(ps: seq<StoredProfile>, k: string): real
    decreases |ps|
  {
    if ps == [] then 0.0
    else
      var last := ps[|ps| - 1];
      PluginTime(ps[..|ps| - 1], k) + (if k in last.plugins then last.plugins[k].loadTime else 0.0)
  }

  function PluginMemory(ps: seq<StoredProfile>, k: string): real
    decreases |ps|
  {
    if ps == [] then 0.0
    else
      var last := ps[|ps| - 1];
      PluginMemory(ps[..|ps| - 1], k) + (if k in last.plugins then last.plugins[k].memoryUsage as real else 0.0)
  }

  function PluginFiles(ps: seq<StoredProfile>, k: string): real
    decreases |ps|
  {
    if ps == [] then 0.0
    else
      var last := ps[|ps| - 1];
      PluginFiles(ps[..|ps| - 1], k) + (if k in last.plugins then Files(last.plugins[k]) else 0.0)
  }

  /** The display name of plugin `k` in the first profile that has it. */
  function FirstName(ps: seq<StoredProfile>, k: string): string
    requires Appearances(ps, k) > 0
    decreases |ps|
  {
    var init := ps[..|ps| - 1];
    if Appearances(init, k) > 0 then FirstName(init, k) else ps[|ps| - 1].plugins[k].name
  }

  /**
   * What the returned map holds for a plugin that appears: its totals, the
   * number of profiles it appears in, and each total divided by that number.
   */
  function Expected(ps: seq<StoredProfile>, k: string): (r: PluginStats)
    requires Appearances(ps, k) > 0
    ensures r.profileCount == Appearances(ps, k) >= 1
    ensures r.avgTime * (r.profileCount as real) == r.totalTime
    ensures r.avgMemory * (r.profileCount as real) == r.totalMemory
    ensures r.avgFiles * (r.profileCount as real) == r.totalFiles
  {
    var n := Appearances(ps, k) as real;
    PluginStats(FirstName(ps, k), PluginTime(ps, k), PluginMemory(ps, k), PluginFiles(ps, k),
      Appearances(ps, k), PluginTime(ps, k) / n, PluginMemory(ps, k) / n, PluginFiles(ps, k) / n)
  }

  // The accumulation as the loops perform it.

  /** The record created on first sight of a plugin. */
  function Fresh(x: PluginSample): PluginStats {
    PluginStats(x.name, 0.0, 0.0, 0.0, 0, 0.0, 0.0, 0.0)
  }

  /** One profile's contribution to a plugin's record. */
  function Bump(s: PluginStats, x: PluginSample): PluginStats {
    s.(totalTime := s.totalTime + x.loadTime, totalMemory := s.totalMemory + x.memoryUsage as real,
       totalFiles := s.totalFiles + Files(x), profileCount := s.profileCount + 1)
  }

  /** `$plugin_stats` once the plugins `done` of profile `p` are added to `m`. */
  function AddKeys(m: map<string, PluginStats>, p: StoredProfile, done: set<string>): map<string, PluginStats>
    requires done <= p.plugins.Keys
  {
    map k | k in m.Keys + done :: if k in done then Added(m, p, k) else m[k]
  }

  function AddProfile(m: map<string, PluginStats>, p: StoredProfile): map<string, PluginStats> {
    AddKeys(m, p, p.plugins.Keys)
  }

  /** `$plugin_stats` after the first loop over `ps`. */
  function StatsOf(ps: seq<StoredProfile>): map<string, PluginStats>
    decreases |ps|
  {
    if ps == [] then map[] else AddProfile(StatsOf(ps[..|ps| - 1]), ps[|ps| - 1])
  }

  /** The first loop builds, for every plugin seen, its name, totals and appearance count. */
  lemma {:induction false} StatsOfMeaning(ps: seq<StoredProfile>, k: string)
    ensures k in StatsOf(ps) <==> Appearances(ps, k) > 0
    ensures Appearances(ps, k) == 0 ==> PluginTime(ps, k) == 0.0 && PluginMemory(ps, k) == 0.0 && PluginFiles(ps, k) == 0.0
    ensures k in StatsOf(ps) ==>
      StatsOf(ps)[k] == PluginStats(FirstName(ps, k), PluginTime(ps, k), PluginMemory(ps, k),
        PluginFiles(ps, k), Appearances(ps, k), 0.0, 0.0, 0.0)
    decreases |ps|
  {
    if ps != [] {
      var init, last := ps[..|ps| - 1], ps[|ps| - 1];
      StatsOfMeaning(init, k);
      assert StatsOf(ps) == AddProfile(StatsOf(init), last);
      if k in last.plugins {
        assert StatsOf(ps)[k] == Added(StatsOf(init), last, k);
        assert PluginTime(ps, k) == PluginTime(init, k) + last.plugins[k].loadTime;
        assert PluginMemory(ps, k) == PluginMemory(init, k) + last.plugins[k].memoryUsage as real;
        assert PluginFiles(ps, k) == PluginFiles(init, k) + Files(last.plugins[k]);
        assert Appearances(ps, k) == Appearances(init, k) + 1;
        assert FirstName(ps, k) == if Appearances(init, k) > 0 then FirstName(init, k) else last.plugins[k].name;
      } else {
        assert k in StatsOf(ps) <==> k in StatsOf(init);
      }
    }
  }

  /** Divide the totals by the appearance count (the by-reference loop). */
  function WithAverages(s: PluginStats): (r: PluginStats)
    requires s.profileCount > 0
    ensures r.avgTime * (s.profileCount as real) == s.totalTime
    ensures r.avgMemory * (s.profileCount as real) == s.totalMemory
    ensures r.avgFiles * (s.profileCount as real) == s.totalFiles
    ensures r.(avgTime := s.avgTime, avgMemory := s.avgMemory, avgFiles := s.avgFiles) == s
  {
    var n := s.profileCount as real;
    s.(avgTime := s.totalTime / n, avgMemory := s.totalMemory / n, avgFiles := s.totalFiles / n)
  }

  predicate NonIncreasing(s: seq<Entry>) {
    forall i, j :: 0 <= i < j < |s| ==> s[j].stats.avgTime <= s[i].stats.avgTime
  }

  predicate DistinctKeys(s: seq<Entry>) {
    forall i, j :: 0 <= i < j < |s| ==> s[i].key != s[j].key
  }

  predicate InEntries(s: seq<Entry>, k: string) {
    exists i :: 0 <= i < |s| && s[i].key == k
  }

  /** The inner loop over one profile's decoded plugins, skipped when there are none. */
  method AddProfileStats(stats: map<string, PluginStats>, p: StoredProfile) returns (r: map<string, PluginStats>)
    ensures forall k :: k in r <==> k in stats || k in p.plugins
    ensures forall k :: k in r ==> r[k] == if k in p.plugins then Added(stats, p, k) else stats[k]
  {
    r := stats;
    var rest := p.plugins.Keys;
    while rest != {}
      invariant rest <= p.plugins.Keys
      invariant forall k :: k in r <==> k in stats || (k in p.plugins && k !in rest)
      invariant forall k :: k in r ==> r[k] == if k in p.plugins && k !in rest then Added(stats, p, k) else stats[k]
      decreases |rest|
    {
      var k :| k in rest;
      var before := if k in r then r[k] else Fresh(p.plugins[k]);
      assert Bump(before, p.plugins[k]) == Added(stats, p, k);
      r := r[k := Bump(before, p.plugins[k])];
      rest := rest - {k};
    }
  }

  /** A map that agrees with `AddProfile` key by key is `AddProfile`. */
  lemma AddProfilePointwise(m: map<string, PluginStats>, p: StoredProfile, r: map<string, PluginStats>)
    requires forall k :: k in r <==> k in m || k in p.plugins
    requires forall k :: k in r ==> r[k] == if k in p.plugins then Added(m, p, k) else m[k]
    ensures r == AddProfile(m, p)
  {
  }

  /** The record of plugin `k` once profile `p`'s sample is added to `m`. */
  function Added(m: map<string, PluginStats>, p: StoredProfile, k: string): PluginStats
    requires k in p.plugins
  {
    Bump(if k in m then m[k] else Fresh(p.plugins[k]), p.plugins[k])
  }

  /** The averaging loop. */
  method AverageAll(stats: map<string, PluginStats>) returns (r: map<string, PluginStats>)
    requires forall k :: k in stats ==> stats[k].profileCount > 0
    ensures r.Keys == stats.Keys
    ensures forall k :: k in r ==> r[k] == WithAverages(stats[k])
  {
    r := stats;
    var rest := stats.Keys;
    while rest != {}
      invariant rest <= stats.Keys && r.Keys == stats.Keys
      invariant forall k :: k in r ==> r[k] == if k in rest then stats[k] else WithAverages(stats[k])
      decreases |rest|
    {
      var k :| k in rest;
      r := r[k := WithAverages(r[k])];
      rest := rest - {k};
    }
  }

  /** A finite non-empty set of plugins has one with the largest average time. */
  lemma {:induction false} MaxExists(rest: set<string>, m: map<string, PluginStats>)
    requires rest != {} && rest <= m.Keys
    ensures exists k :: k in rest && forall j :: j in rest ==> m[j].avgTime <= m[k].avgTime
    decreases |rest|
  {
    var x :| x in rest;
    var others := rest - {x};
    if others == {} {
      assert rest == {x};
    } else {
      MaxExists(others, m);
      var y :| y in others && forall j :: j in others ==> m[j].avgTime <= m[y].avgTime;
      if m[x].avgTime <= m[y].avgTime {
        assert forall j :: j in rest ==> m[j].avgTime <= m[y].avgTime;
      } else {
        assert forall j :: j in rest ==> m[j].avgTime <= m[x].avgTime;
      }
    }
  }

  /** `uasort` by average time, largest first: each key once, with its own record. */
  method SortByAvgTime(m: map<string, PluginStats>) returns (s: seq<Entry>)
    ensures NonIncreasing(s) && DistinctKeys(s)
    ensures forall k :: InEntries(s, k) <==> k in m
    ensures forall i :: 0 <= i < |s| ==> s[i].key in m && s[i].stats == m[s[i].key]
  {
    s := [];
    var rest := m.Keys;
    while rest != {}
      invariant rest <= m.Keys
      invariant forall i :: 0 <= i < |s| ==> s[i].key in m && s[i].key !in rest && s[i].stats == m[s[i].key]
      invariant forall k :: k in m ==> k in rest || InEntries(s, k)
      invariant NonIncreasing(s) && DistinctKeys(s)
      invariant forall i, k :: 0 <= i < |s| && k in rest ==> m[k].avgTime <= s[i].stats.avgTime
      decreases |rest|
    {
      MaxExists(rest, m);
      var k :| k in rest && forall j :: j in rest ==> m[j].avgTime <= m[k].avgTime;
      SortStepKeys(s, rest, m, k);
      SortStepOrder(s, rest, m, k);
      s := s + [Entry(k, m[k])];
      rest := rest - {k};
    }
  }

  /** Appending the largest remaining plugin keeps every plugin placed or pending, each with its own record. */
  lemma SortStepKeys(s: seq<Entry>, rest: set<string>, m: map<string, PluginStats>, k: string)
    requires rest <= m.Keys && k in rest
    requires forall i :: 0 <= i < |s| ==> s[i].key in m && s[i].key !in rest && s[i].stats == m[s[i].key]
    requires forall x :: x in m ==> x in rest || InEntries(s, x)
    ensures var s', rest' := s + [Entry(k, m[k])], rest - {k};
      && (forall i :: 0 <= i < |s'| ==> s'[i].key in m && s'[i].key !in rest' && s'[i].stats == m[s'[i].key])
      && (forall x :: x in m ==> x in rest' || InEntries(s', x))
  {
    var s' := s + [Entry(k, m[k])];
    forall x | x in m && x !in rest - {k}
      ensures InEntries(s', x)
    {
      if x == k {
        assert s'[|s|].key == x;
      } else {
        var i :| 0 <= i < |s| && s[i].key == x;
        assert s'[i].key == x;
      }
    }
  }

  /** Appending the largest remaining plugin keeps the placed ones sorted, distinct and ahead of the rest. */
  lemma SortStepOrder(s: seq<Entry>, rest: set<string>, m: map<string, PluginStats>, k: string)
    requires rest <= m.Keys && k in rest
    requires forall j :: j in rest ==> m[j].avgTime <= m[k].avgTime
    requires forall i :: 0 <= i < |s| ==> s[i].key !in rest
    requires NonIncreasing(s) && DistinctKeys(s)
    requires forall i, x :: 0 <= i < |s| && x in rest ==> m[x].avgTime <= s[i].stats.avgTime
    ensures var s', rest' := s + [Entry(k, m[k])], rest - {k};
      && NonIncreasing(s') && DistinctKeys(s')
      && (forall i, x :: 0 <= i < |s'| && x in rest' ==> m[x].avgTime <= s'[i].stats.avgTime)
  {
  }

  /**
   * `get_aggregated_data`: with no profiles, zeros and no plugins; otherwise
   * the mean load time and memory over the profiles, and one entry per plugin
   * that appears, with its totals, appearance count and averages, ordered by
   * average time, largest first.  `options` is the stored settings array.
   */
  method GetAggregatedData(profiles: seq<StoredProfile>, options: map<string, int>) returns (r: Aggregated)
    ensures profiles == [] ==> r == Aggregated(0, 0.0, 0.0, [], Store.SampleRate(options))
    ensures profiles != [] ==>
      && r.totalProfiles == |profiles|
      && r.avgLoadTime == SumTime(profiles) / (|profiles| as real)
      && r.avgMemoryUsage == SumMemory(profiles) / (|profiles| as real)
      && r.sampleRate == Store.SampleRate(options)
    ensures NonIncreasing(r.plugins) && DistinctKeys(r.plugins)
    ensures forall k :: InEntries(r.plugins, k) <==> Appearances(profiles, k) > 0
    ensures forall i :: 0 <= i < |r.plugins| ==>
      Appearances(profiles, r.plugins[i].key) > 0 && r.plugins[i].stats == Expected(profiles, r.plugins[i].key)
  {
    if |profiles| == 0 {
      forall k ensures Appearances(profiles, k) == 0 {
      }
      return Aggregated(0, 0.0, 0.0, [], Store.SampleRate(options));
    }
    var totalTime := 0.0;
    var totalMemory := 0.0;
    var stats: map<string, PluginStats> := map[];
    var i := 0;
    while i < |profiles|
      invariant 0 <= i <= |profiles|
      invariant totalTime == SumTime(profiles[..i]) && totalMemory == SumMemory(profiles[..i])
      invariant stats == StatsOf(profiles[..i])
    {
      totalTime := totalTime + profiles[i].totalTime;
      totalMemory := totalMemory + profiles[i].totalMemory as real;
      var next := AddProfileStats(stats, profiles[i]);
      AddProfilePointwise(stats, profiles[i], next);
      stats := next;
      assert profiles[..i + 1][..i] == profiles[..i];
      i := i + 1;
    }
    assert profiles[..i] == profiles;
    forall k | k in stats
      ensures stats[k].profileCount > 0
    {
      StatsOfMeaning(profiles, k);
    }
    var averaged := AverageAll(stats);
    var sorted := SortByAvgTime(averaged);
    forall k
      ensures InEntries(sorted, k) <==> Appearances(profiles, k) > 0
    {
      StatsOfMeaning(profiles, k);
    }
    forall j | 0 <= j < |sorted|
      ensures Appearances(profiles, sorted[j].key) > 0 && sorted[j].stats == Expected(profiles, sorted[j].key)
    {
      StatsOfMeaning(profiles, sorted[j].key);
    }
    r := Aggregated(|profiles|, totalTime / (|profiles| as real), totalMemory / (|profiles| as real),
      sorted, Store.SampleRate(options));
  }
}
