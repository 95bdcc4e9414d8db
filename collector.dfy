/**
 * The must-use collector (`InstaPulse_MU`): the per-request state a sampled
 * request accumulates -- plugin timings, slow queries and assets -- and the
 * hook callbacks that update it.  Each callback is a method on the
 * `Collector` class, specified by a function on the old state.
 */
module Collector {
  import opened Wrappers
  import opened Text
  import opened Classify
  import opened Records
  import Sampler
  import Store

  function Max0(x: int): (r: int)
    ensures r >= 0 && r >= x
    ensures x >= 0 ==> r == x
  {
    if x < 0 then 0 else x
  }

  // ---------------------------------------------------------------------------
  // Plugin timings

  /** `$plugin_timings` with `$plugin_memory_snapshots`, keyed by plugin name. */
  datatype Timings = Timings(timings: map<string, PluginTiming>, snapshots: map<string, int>)

  /** Every timed plugin has a snapshot, at least one file and no negative memory figure. */
  predicate TimingsValid(t: Timings) {
    && t.timings.Keys == t.snapshots.Keys
    && forall n :: n in t.timings ==>
         t.timings[n].name == n && t.timings[n].filesLoaded >= 1 && t.timings[n].memoryUsage >= 0
  }

  /** The load time already summed for `name`, zero before its first file. */
  function TimeSoFar(t: Timings, name: string): real {
    if name in t.timings then t.timings[name].loadTime else 0.0
  }

  function FilesSoFar(t: Timings, name: string): nat {
    if name in t.timings then t.timings[name].filesLoaded else 0
  }

  /**
   * The bookkeeping `record_plugin_load` does for a file of plugin `name`:
   * add the file's time and one file to the plugin's entry, take the memory
   * snapshot on the plugin's first file only, and set the plugin's memory to
   * the growth since that snapshot, floored at zero.  Nothing else changes.
   */
  function Accumulate(t: Timings, name: string, file: string, loadTime: real, currentMemory: int): (r: Timings)
    requires t.timings.Keys == t.snapshots.Keys
    ensures TimingsValid(t) ==> TimingsValid(r)
    ensures r.timings.Keys == r.snapshots.Keys == t.timings.Keys + {name}
    ensures forall n :: n in t.timings && n != name ==> r.timings[n] == t.timings[n] && r.snapshots[n] == t.snapshots[n]
    ensures r.snapshots[name] == (if name in t.snapshots then t.snapshots[name] else currentMemory)
    ensures r.timings[name].loadTime == TimeSoFar(t, name) + loadTime
    ensures r.timings[name].filesLoaded == FilesSoFar(t, name) + 1
    ensures r.timings[name].memoryUsage == Max0(currentMemory - r.snapshots[name])
    ensures name !in t.timings ==> r.timings[name].name == name && r.timings[name].file == file
    ensures name in t.timings ==> r.timings[name].name == t.timings[name].name && r.timings[name].file == t.timings[name].file
  {
    var before := if name in t.timings then t.timings[name] else PluginTiming(name, file, 0.0, 0, 0);
    var snapshots := if name in t.timings then t.snapshots else t.snapshots[name := currentMemory];
    var after := before.(loadTime := before.loadTime + loadTime,
                         filesLoaded := before.filesLoaded + 1,
                         memoryUsage := Max0(currentMemory - snapshots[name]));
    Timings(t.timings[name := after], snapshots)
  }

  /** `record_plugin_load`: a file of an inactive plugin changes nothing. */
  function RecordLoad(site: Site, t: Timings, file: string, loadTime: real, currentMemory: int): (r: Timings)
    requires t.timings.Keys == t.snapshots.Keys
    ensures r.timings.Keys == r.snapshots.Keys
    ensures TimingsValid(t) ==> TimingsValid(r)
    ensures !IsPluginActive(site, file) ==> r == t
    ensures IsPluginActive(site, file) ==> r == Accumulate(t, PluginNameFromFile(site, file), file, loadTime, currentMemory)
  {
    if !IsPluginActive(site, file) then t
    else Accumulate(t, PluginNameFromFile(site, file), file, loadTime, currentMemory)
  }

  /** One file include the stream wrapper reports. */
  datatype FileLoad = FileLoad(file: string, loadTime: real, currentMemory: int)

  /** The timings after a run of file includes, in order. */
  function RecordAll(site: Site, t: Timings, loads: seq<FileLoad>): (r: Timings)
    requires t.timings.Keys == t.snapshots.Keys
    ensures r.timings.Keys == r.snapshots.Keys
    ensures TimingsValid(t) ==> TimingsValid(r)
    decreases |loads|
  {
    if loads == [] then t
    else
      var last := loads[|loads| - 1];
      RecordLoad(site, RecordAll(site, t, loads[..|loads| - 1]), last.file, last.loadTime, last.currentMemory)
  }

  /** The include counts towards plugin `name`. */
  predicate AttributedTo(site: Site, l: FileLoad, name: string) {
    IsPluginActive(site, l.file) && PluginNameFromFile(site, l.file) == name
  }

  function AttributedTime(site: Site, loads: seq<FileLoad>, name: string): real
    decreases |loads|
  {
    if loads == [] then 0.0
    else
      var last := loads[|loads| - 1];
      AttributedTime(site, loads[..|loads| - 1], name) + (if AttributedTo(site, last, name) then last.loadTime else 0.0)
  }

  function AttributedFiles(site: Site, loads: seq<FileLoad>, name: string): nat
    decreases |loads|
  {
    if loads == [] then 0
    else
      var last := loads[|loads| - 1];
      AttributedFiles(site, loads[..|loads| - 1], name) + (if AttributedTo(site, last, name) then 1 else 0)
  }

  /**
   * After any run of includes, a plugin is timed iff it was already or one of
   * the includes belongs to it, and its load time and file count are exactly
   * the sums over the includes attributed to it.
   */
  lemma {:induction false} RecordAllAccumulates(site: Site, t: Timings, loads: seq<FileLoad>, name: string)
    requires t.timings.Keys == t.snapshots.Keys
    ensures var r := RecordAll(site, t, loads);
      && (name in r.timings <==> name in t.timings || AttributedFiles(site, loads, name) > 0)
      && TimeSoFar(r, name) == TimeSoFar(t, name) + AttributedTime(site, loads, name)
      && FilesSoFar(r, name) == FilesSoFar(t, name) + AttributedFiles(site, loads, name)
    decreases |loads|
  {
    if loads != [] {
      var init := loads[..|loads| - 1];
      RecordAllAccumulates(site, t, init, name);
    }
  }

  // ---------------------------------------------------------------------------
  // Assets

  /** `$assets` (keys in insertion order, since PHP arrays keep it) and `$load_order`. */
  datatype AssetTable = AssetTable(order: seq<string>, entries: map<string, Asset>, counter: nat)

  predicate Distinct(s: seq<string>) {
    forall i, j :: 0 <= i < j < |s| ==> s[i] != s[j]
  }

  /** Keys listed once each, every entry stamped with its own load order in [1, counter]. */
  ghost predicate TableValid(t: AssetTable) {
    && Distinct(t.order)
    && (forall h :: h in t.entries <==> h in t.order)
    && (forall h :: h in t.entries ==> t.entries[h].handle == h && 1 <= t.entries[h].loadOrder <= t.counter)
    && (forall h1, h2 :: h1 in t.entries && h2 in t.entries && h1 != h2 ==>
          t.entries[h1].loadOrder != t.entries[h2].loadOrder)
  }

  /** `$assets[$a['handle']] = $a` with `'load_order' => ++$this->load_order`. */
  function Stamp(t: AssetTable, a: Asset): (r: AssetTable)
    requires a.loadOrder == t.counter + 1
    ensures TableValid(t) ==> TableValid(r)
    ensures r.counter == t.counter + 1
    ensures r.entries.Keys == t.entries.Keys + {a.handle}
    ensures r.entries[a.handle] == a
    ensures forall h :: h in t.entries && h != a.handle ==> r.entries[h] == t.entries[h]
    ensures |t.order| <= |r.order| && r.order[..|t.order|] == t.order
  {
    var r := AssetTable(if a.handle in t.entries then t.order else t.order + [a.handle],
                        t.entries[a.handle := a], t.counter + 1);
    StampKeepsValid(t, a, r);
    r
  }

  lemma StampKeepsValid(t: AssetTable, a: Asset, r: AssetTable)
    requires a.loadOrder == t.counter + 1
    requires r == AssetTable(if a.handle in t.entries then t.order else t.order + [a.handle],
                             t.entries[a.handle := a], t.counter + 1)
    ensures TableValid(t) ==> TableValid(r)
    ensures r.entries.Keys == t.entries.Keys + {a.handle}
    ensures |t.order| <= |r.order| && r.order[..|t.order|] == t.order
  {
    if a.handle !in t.entries {
      assert r.order[..|t.order|] == t.order;
    }
    if TableValid(t) {
      assert Distinct(r.order) by {
        if a.handle !in t.entries {
          assert a.handle !in t.order;
          forall i, j | 0 <= i < j < |r.order| ensures r.order[i] != r.order[j] {
            if j == |t.order| {
              assert r.order[i] == t.order[i];
            } else {
              assert r.order[i] == t.order[i] && r.order[j] == t.order[j];
            }
          }
        }
      }
      assert forall h :: h in r.entries <==> h in r.order;
      assert forall h :: h in r.entries && h != a.handle ==> r.entries[h].loadOrder <= t.counter;
    }
  }

  /** A registered script or style (`WP_Dependency`). */
  datatype Registered = Registered(src: string, ver: Option<string>, deps: seq<string>, group: Option<int>)

  /** `$wp_scripts` or `$wp_styles`: the queue and the registry. */
  datatype Dependencies = Dependencies(queue: seq<string>, registered: map<string, Registered>)

  /**
   * The record `track_asset` builds: a registered handle also gets its source,
   * version, dependencies, origin and size, and a script its footer flag.
   */
  function NewAsset(site: Site, handle: string, ty: AssetType, deps: Dependencies, order: nat): (a: Asset)
    ensures a.handle == handle && a.assetType == ty && a.loadOrder == order
    ensures a.inlineContent.None?
    ensures handle !in deps.registered ==>
      a.src.None? && a.version.None? && a.dependencies.None? && a.inFooter.None? &&
      a.source.None? && a.sourceName.None? && a.size.None?
    ensures handle in deps.registered ==>
      var reg := deps.registered[handle];
      && a.src == Some(reg.src)
      && a.version == reg.ver
      && a.dependencies == Some(reg.deps)
      && (a.inFooter.Some? <==> ty == Js)
      && (a.inFooter == Some(true) <==> ty == Js && reg.group.Some? && reg.group.value != 0)
      && a.source == Some(DetermineAssetSource(site, reg.src).source)
      && a.sourceName == Some(DetermineAssetSource(site, reg.src).sourceName)
      && a.size == AssetFileSize(site, reg.src)
  {
    var base := Asset(handle, ty, order, None, None, None, None, None, None, None, None);
    if handle !in deps.registered then base
    else
      var reg := deps.registered[handle];
      var info := DetermineAssetSource(site, reg.src);
      base.(src := Some(reg.src), version := reg.ver, dependencies := Some(reg.deps),
            inFooter := if ty == Js then Some(reg.group.Some? && reg.group.value != 0) else None,
            source := Some(info.source), sourceName := Some(info.sourceName),
            size := AssetFileSize(site, reg.src))
  }

  /** `track_asset`: the first sighting of a handle wins; later ones change nothing. */
  function TrackAssetStep(site: Site, t: AssetTable, handle: string, ty: AssetType, deps: Dependencies): (r: AssetTable)
    ensures TableValid(t) ==> TableValid(r)
    ensures handle in t.entries ==> r == t
    ensures handle !in t.entries ==>
      && r.order == t.order + [handle]
      && r.counter == t.counter + 1
      && r.entries == t.entries[handle := NewAsset(site, handle, ty, deps, t.counter + 1)]
  {
    if handle in t.entries then t else Stamp(t, NewAsset(site, handle, ty, deps, t.counter + 1))
  }

  /** One queue walked by `capture_enqueued_assets`. */
  function CaptureQueue(site: Site, t: AssetTable, queue: seq<string>, ty: AssetType, deps: Dependencies): (r: AssetTable)
    ensures r.counter >= t.counter
    decreases |queue|
  {
    if queue == [] then t
    else
      var prev := CaptureQueue(site, t, queue[..|queue| - 1], ty, deps);
      TrackAssetStep(site, prev, queue[|queue| - 1], ty, deps)
  }

  /** Walking a queue keeps the table well formed and keeps the old keys in their places. */
  lemma {:induction false} CaptureQueueValid(site: Site, t: AssetTable, queue: seq<string>, ty: AssetType, deps: Dependencies)
    ensures var r := CaptureQueue(site, t, queue, ty, deps);
      && (TableValid(t) ==> TableValid(r))
      && |t.order| <= |r.order| && r.order[..|t.order|] == t.order
    decreases |queue|
  {
    if queue != [] {
      CaptureQueueValid(site, t, queue[..|queue| - 1], ty, deps);
    }
  }

  /**
   * After a queue walk the table holds the old handles, untouched, and every
   * queued handle; each newly tracked one has a load order above the old counter.
   */
  lemma {:induction false} CaptureQueueKeys(site: Site, t: AssetTable, queue: seq<string>, ty: AssetType, deps: Dependencies)
    ensures var r := CaptureQueue(site, t, queue, ty, deps);
      && (forall h :: h in r.entries <==> h in t.entries || h in queue)
      && (forall h :: h in t.entries ==> r.entries[h] == t.entries[h])
      && (forall h :: h in r.entries && h !in t.entries ==> r.entries[h].loadOrder > t.counter)
    decreases |queue|
  {
    if queue != [] {
      var init := queue[..|queue| - 1];
      CaptureQueueKeys(site, t, init, ty, deps);
      assert forall h :: h in queue <==> h in init || h == queue[|queue| - 1];
    }
  }

  lemma CaptureQueueStep(site: Site, t: AssetTable, queue: seq<string>, ty: AssetType, deps: Dependencies, i: nat, prev: AssetTable)
    requires i < |queue| && prev == CaptureQueue(site, t, queue[..i], ty, deps)
    ensures CaptureQueue(site, t, queue[..i + 1], ty, deps) == TrackAssetStep(site, prev, queue[i], ty, deps)
  {
    assert queue[..i + 1][..i] == queue[..i];
  }

  /** `capture_enqueued_assets`: the script queue, then the style queue. */
  function CaptureEnqueued(site: Site, t: AssetTable, scripts: Dependencies, styles: Dependencies): (r: AssetTable)
    ensures TableValid(t) ==> TableValid(r)
    ensures forall h :: h in r.entries <==> h in t.entries || h in scripts.queue || h in styles.queue
    ensures forall h :: h in t.entries ==> r.entries[h] == t.entries[h]
  {
    var mid := CaptureQueue(site, t, scripts.queue, Js, scripts);
    CaptureQueueValid(site, t, scripts.queue, Js, scripts);
    CaptureQueueKeys(site, t, scripts.queue, Js, scripts);
    CaptureQueueValid(site, mid, styles.queue, Css, styles);
    CaptureQueueKeys(site, mid, styles.queue, Css, styles);
    CaptureQueue(site, mid, styles.queue, Css, styles)
  }

  /** A handle queued as a script is recorded as a script, even if a style shares it. */
  lemma {:induction false} ScriptHandleStaysScript(site: Site, t: AssetTable, scripts: Dependencies, styles: Dependencies, h: string)
    requires h !in t.entries && h in scripts.queue
    ensures var r := CaptureEnqueued(site, t, scripts, styles);
      h in r.entries && r.entries[h].assetType == Js
  {
    QueueRecordsType(site, t, scripts.queue, Js, scripts, h);
    CaptureQueueKeys(site, CaptureQueue(site, t, scripts.queue, Js, scripts), styles.queue, Css, styles);
  }

  lemma {:induction false} QueueRecordsType(site: Site, t: AssetTable, queue: seq<string>, ty: AssetType, deps: Dependencies, h: string)
    requires h !in t.entries && h in queue
    ensures var r := CaptureQueue(site, t, queue, ty, deps);
      h in r.entries && r.entries[h] == NewAsset(site, h, ty, deps, r.entries[h].loadOrder)
    decreases |queue|
  {
    var init := queue[..|queue| - 1];
    var prev := CaptureQueue(site, t, init, ty, deps);
    if h in init {
      QueueRecordsType(site, t, init, ty, deps, h);
      assert h in prev.entries;
    } else {
      CaptureQueueKeys(site, t, init, ty, deps);
      assert h == queue[|queue| - 1];
    }
  }

  /** The tag filters: replace the recorded source of a tracked handle. */
  function PatchSrc(t: AssetTable, handle: string, src: string): (r: AssetTable)
    ensures TableValid(t) ==> TableValid(r)
    ensures r.order == t.order && r.counter == t.counter && r.entries.Keys == t.entries.Keys
    ensures forall h :: h in t.entries && h != handle ==> r.entries[h] == t.entries[h]
    ensures handle in t.entries ==> r.entries[handle].src == Some(src)
    ensures handle in t.entries ==> r.entries[handle] == t.entries[handle].(src := r.entries[handle].src)
  {
    if handle in t.entries && t.entries[handle].src != Some(src)
    then t.(entries := t.entries[handle := t.entries[handle].(src := Some(src))])
    else t
  }

  /** An entry of `print_extra_script` or `print_code`. */
  datatype InlineItem = InlineItem(handle: string, data: string)

  function InlineKey(handle: string): string {
    handle + "_inline"
  }

  /** The record the inline captures build: core origin, first 1000 characters, full length. */
  function InlineAsset(handle: string, ty: AssetType, data: string, order: nat): (a: Asset)
    ensures a.handle == InlineKey(handle) && a.assetType == ty && a.loadOrder == order
    ensures a.src.None? && a.source == Some(Core) && a.sourceName == Some("WordPress Core")
    ensures a.inlineContent == Some(Truncate(data, 1000))
    ensures |a.inlineContent.value| == if |data| <= 1000 then |data| else 1000
    ensures StartsWith(data, a.inlineContent.value)
    ensures a.size == Some(|data|)
  {
    Asset(InlineKey(handle), ty, order, None, None, None, None, Some(Core), Some("WordPress Core"),
          Some(|data|), Some(Truncate(data, 1000)))
  }

  /** One inline item: recorded with the next load order unless its data is empty. */
  function InlineStep(prev: AssetTable, item: InlineItem, ty: AssetType): AssetTable {
    if PhpEmpty(item.data) then prev
    else Stamp(prev, InlineAsset(item.handle, ty, item.data, prev.counter + 1))
  }

  /** `capture_inline_scripts` / `capture_inline_styles`: every non-empty item, in order. */
  function CaptureInline(t: AssetTable, items: seq<InlineItem>, ty: AssetType): (r: AssetTable)
    ensures r.counter >= t.counter
    decreases |items|
  {
    if items == [] then t
    else InlineStep(CaptureInline(t, items[..|items| - 1], ty), items[|items| - 1], ty)
  }

  /** An inline capture keeps the table well formed and keeps the old keys in their places. */
  lemma {:induction false} CaptureInlineValid(t: AssetTable, items: seq<InlineItem>, ty: AssetType)
    ensures var r := CaptureInline(t, items, ty);
      && (TableValid(t) ==> TableValid(r))
      && |t.order| <= |r.order| && r.order[..|t.order|] == t.order
    decreases |items|
  {
    if items != [] {
      CaptureInlineValid(t, items[..|items| - 1], ty);
    }
  }

  /** An inline capture adds exactly the keys `<handle>_inline` of the non-empty items. */
  lemma {:induction false} CaptureInlineKeys(t: AssetTable, items: seq<InlineItem>, ty: AssetType)
    ensures var r := CaptureInline(t, items, ty);
      forall k :: k in r.entries <==>
        k in t.entries || exists j :: 0 <= j < |items| && !PhpEmpty(items[j].data) && k == InlineKey(items[j].handle)
    decreases |items|
  {
    if items != [] {
      var init := items[..|items| - 1];
      CaptureInlineKeys(t, init, ty);
      var prev := CaptureInline(t, init, ty);
      var last := items[|items| - 1];
      var r := CaptureInline(t, items, ty);
      assert r == InlineStep(prev, last, ty);
      InlineStepKeys(prev, last, ty);
      forall k | k in r.entries
        ensures k in t.entries || exists j :: 0 <= j < |items| && !PhpEmpty(items[j].data) && k == InlineKey(items[j].handle)
      {
        if k !in prev.entries {
          assert k == InlineKey(last.handle);
        } else if k !in t.entries {
          var j :| 0 <= j < |init| && !PhpEmpty(init[j].data) && k == InlineKey(init[j].handle);
          assert items[j] == init[j];
        }
      }
      forall k | k in t.entries || exists j :: 0 <= j < |items| && !PhpEmpty(items[j].data) && k == InlineKey(items[j].handle)
        ensures k in r.entries
      {
        if k !in t.entries {
          var j :| 0 <= j < |items| && !PhpEmpty(items[j].data) && k == InlineKey(items[j].handle);
          if j < |init| {
            assert init[j] == items[j];
          }
        }
      }
    }
  }

  /** One inline item adds the key `<handle>_inline` when its data is non-empty, and no other. */
  lemma InlineStepKeys(prev: AssetTable, item: InlineItem, ty: AssetType)
    ensures forall k :: k in InlineStep(prev, item, ty).entries <==>
      k in prev.entries || (!PhpEmpty(item.data) && k == InlineKey(item.handle))
  {
  }

  /** One more item of an inline capture. */
  lemma {:induction false} CaptureInlineStep(t: AssetTable, items: seq<InlineItem>, ty: AssetType, i: nat)
    requires i < |items|
    ensures CaptureInline(t, items[..i + 1], ty) == InlineStep(CaptureInline(t, items[..i], ty), items[i], ty)
  {
    var s := items[..i + 1];
    assert s[..|s| - 1] == items[..i];
    assert s[|s| - 1] == items[i];
  }

  lemma InlineKeyInjective(a: string, b: string)
    requires InlineKey(a) == InlineKey(b)
    ensures a == b
  {
    assert InlineKey(a)[..|a|] == a;
    assert InlineKey(b)[..|b|] == b;
  }

  /**
   * Each non-empty inline item ends up under `<handle>_inline` with its own
   * content, length and a load order newer than anything before the capture.
   */
  lemma {:induction false} CaptureInlineEntry(t: AssetTable, items: seq<InlineItem>, ty: AssetType, j: nat)
    requires j < |items| && !PhpEmpty(items[j].data)
    requires forall i, k :: 0 <= i < k < |items| ==> items[i].handle != items[k].handle
    ensures var r := CaptureInline(t, items, ty);
      var k := InlineKey(items[j].handle);
      && k in r.entries
      && r.entries[k].inlineContent == Some(Truncate(items[j].data, 1000))
      && r.entries[k].size == Some(|items[j].data|)
      && r.entries[k].assetType == ty
      && r.entries[k].loadOrder > t.counter
    decreases |items|
  {
    var init := items[..|items| - 1];
    var last := items[|items| - 1];
    if j < |items| - 1 {
      CaptureInlineEntry(t, init, ty, j);
      if !PhpEmpty(last.data) && InlineKey(last.handle) == InlineKey(items[j].handle) {
        InlineKeyInjective(last.handle, items[j].handle);
      }
    }
  }

  // ---------------------------------------------------------------------------
  // Slow queries

  /** One `$wpdb->queries` entry: SQL, seconds, and the caller when recorded. */
  datatype QueryLogEntry = QueryLogEntry(sql: string, seconds: real, caller: Option<string>)

  predicate SlowEntry(e: QueryLogEntry, threshold: int) {
    e.seconds * 1000.0 > threshold as real
  }

  /** The slow-query record of a log entry, in milliseconds, caller defaulting to 'Unknown'. */
  function AsSlowQuery(e: QueryLogEntry): (q: SlowQuery)
    ensures q.sql == e.sql && q.executionTime == e.seconds * 1000.0
    ensures q.caller == Some(if e.caller.Some? then e.caller.value else "Unknown")
  {
    SlowQuery(e.sql, e.seconds * 1000.0, Some(e.caller.GetOr("Unknown")))
  }

  /** The log entries strictly slower than the threshold, in log order. */
  function SlowFromLog(log: seq<QueryLogEntry>, threshold: int): (r: seq<SlowQuery>)
    ensures |r| <= |log|
    ensures forall q :: q in r ==> q.executionTime > threshold as real
    decreases |log|
  {
    if log == [] then []
    else
      var last := log[|log| - 1];
      SlowFromLog(log[..|log| - 1], threshold) + (if SlowEntry(last, threshold) then [AsSlowQuery(last)] else [])
  }

  /** Exactly the slow entries are reported. */
  lemma {:induction false} SlowFromLogMembers(log: seq<QueryLogEntry>, threshold: int, q: SlowQuery)
    ensures q in SlowFromLog(log, threshold) <==>
      exists e :: e in log && SlowEntry(e, threshold) && q == AsSlowQuery(e)
    decreases |log|
  {
    if log != [] {
      var init := log[..|log| - 1];
      SlowFromLogMembers(init, threshold, q);
      assert log == init + [log[|log| - 1]];
      assert forall e :: e in log <==> e in init || e == log[|log| - 1];
    }
  }

  /** The fixed record added when SAVEQUERIES is off and more than 20 queries ran. */
  const PlaceholderSlowQuery := SlowQuery(
    "SELECT * FROM wp_posts WHERE post_status = \"publish\" ORDER BY post_date DESC",
    75.5, Some("get_posts() in themes/functions.php:125"))

  /** What `finalize_query_monitoring` appends for a profiled request. */
  function SlowQueriesFound(saveQueries: bool, log: Option<seq<QueryLogEntry>>, numQueries: int, threshold: int): (r: seq<SlowQuery>)
    ensures saveQueries && log.Some? ==> r == SlowFromLog(log.value, threshold)
    ensures !(saveQueries && log.Some?) && numQueries > 20 ==> r == [PlaceholderSlowQuery]
    ensures !(saveQueries && log.Some?) && numQueries <= 20 ==> r == []
  {
    if saveQueries && log.Some? then SlowFromLog(log.value, threshold)
    else if numQueries > 20 then [PlaceholderSlowQuery]
    else []
  }

  /** `array_values($assets)`: the records in insertion order. */
  function AssetList(t: AssetTable): (r: seq<Asset>)
    requires forall h :: h in t.order ==> h in t.entries
    ensures |r| == |t.order|
    ensures forall i :: 0 <= i < |r| ==> r[i] == t.entries[t.order[i]]
    decreases |t.order|
  {
    if t.order == [] then []
    else AssetList(t.(order := t.order[..|t.order| - 1])) + [t.entries[t.order[|t.order| - 1]]]
  }

  /**
   * What `save_profiling_data` reads besides the collector's own state: the
   * clock, the peak memory, WordPress's local time, the server array, the
   * page conditionals and `get_num_queries()`.
   */
  datatype Shutdown = Shutdown(
    now: real,
    peakMemory: int,
    timestamp: string,
    requestUri: Option<string>,
    userAgent: Option<string>,
    requestMethod: Option<string>,
    page: PageConditions,
    numQueries: int)

  /** The profile array `save_profiling_data` assembles. */
  function ProfileOf(startTime: real, timings: map<string, PluginTiming>, sampleRate: int,
                     slow: seq<SlowQuery>, t: AssetTable, s: Shutdown): (r: ProfileData)
    requires forall h :: h in t.order ==> h in t.entries
    ensures r.totalTime == (s.now - startTime) * 1000.0 && r.totalMemory == s.peakMemory
    ensures r.plugins == timings && r.slowQueries == slow && r.sampleRate == sampleRate
    ensures |r.assets| == |t.order| && forall i :: 0 <= i < |r.assets| ==> r.assets[i] == t.entries[t.order[i]]
    ensures r.timestamp == s.timestamp
    ensures var uri := if s.requestUri.Some? then s.requestUri.value else "";
      && r.requestUri == Some(uri)
      && r.requestType == Some(RequestTypeName(CategorizeRequest(uri)))
    ensures r.userAgent == Some(if s.userAgent.Some? then s.userAgent.value else "")
    ensures r.httpMethod == Some(if s.requestMethod.Some? then s.requestMethod.value else "GET")
    ensures r.pageType == Some(PageType(s.page)) && r.queryCount == Some(s.numQueries)
  {
    var uri := s.requestUri.GetOr("");
    ProfileData(
      s.timestamp, (s.now - startTime) * 1000.0, s.peakMemory, timings, sampleRate,
      Some(uri), Some(s.userAgent.GetOr("")), Some(RequestTypeName(CategorizeRequest(uri))),
      Some(PageType(s.page)), Some(s.requestMethod.GetOr("GET")), Some(s.numQueries),
      slow, AssetList(t))
  }

  /**
   * The profile row stored for a sampled request: the URI (empty when
   * unset) cut to 500 characters, the request type classified from that
   * URI, the page type of the first conditional that holds, the method
   * defaulting to GET and the query count as WordPress reports it.
   */
  lemma SavedProfileRow(startTime: real, timings: map<string, PluginTiming>, sampleRate: int,
                        slow: seq<SlowQuery>, t: AssetTable, s: Shutdown)
    requires forall h :: h in t.order ==> h in t.entries
    ensures var row := Store.ProfileRowOf(ProfileOf(startTime, timings, sampleRate, slow, t, s));
      && row.requestUri == Some(Truncate(s.requestUri.GetOr(""), 500))
      && row.requestType == RequestTypeName(CategorizeRequest(s.requestUri.GetOr("")))
      && row.pageType == Some(PageType(s.page))
      && row.httpMethod == s.requestMethod.GetOr("GET")
      && row.queryCount == s.numQueries
      && row.userAgent == Some(s.userAgent.GetOr(""))
      && row.pluginData == timings && row.sampleRate == sampleRate
  {
    var p := ProfileOf(startTime, timings, sampleRate, slow, t, s);
    assert |PageType(s.page)| <= 100;
  }

  // ---------------------------------------------------------------------------
  // The collector object

  class Collector {
    const site: Site
    const shouldProfile: bool
    const sampleRate: int
    const slowQueryThreshold: int
    const startTime: real
    var pluginTimings: map<string, PluginTiming>
    var memorySnapshots: map<string, int>
    var slowQueries: seq<SlowQuery>
    var assets: map<string, Asset>
    var assetOrder: seq<string>
    var loadOrder: nat

    function TimingState(): Timings
      reads this
    {
      Timings(pluginTimings, memorySnapshots)
    }

    function Table(): AssetTable
      reads this
    {
      AssetTable(assetOrder, assets, loadOrder)
    }

    ghost predicate Valid()
      reads this
    {
      TimingsValid(TimingState()) && TableValid(Table())
    }

    /** The constructor: the start time, then the sampling gate. */
    constructor(site: Site, req: Sampler.Request, options: map<string, int>, draw: int, startTime: real)
      requires 1 <= draw <= 100
      ensures Valid()
      ensures this.site == site && this.startTime == startTime
      ensures var d := Sampler.ShouldProfileRequest(req, options, draw);
        shouldProfile == d.profile && sampleRate == d.sampleRate && slowQueryThreshold == d.slowQueryThreshold
      ensures pluginTimings == map[] && memorySnapshots == map[] && slowQueries == []
      ensures assets == map[] && assetOrder == [] && loadOrder == 0
    {
      var d := Sampler.ShouldProfileRequest(req, options, draw);
      this.site := site;
      this.startTime := startTime;
      shouldProfile := d.profile;
      sampleRate := d.sampleRate;
      slowQueryThreshold := d.slowQueryThreshold;
      pluginTimings := map[];
      memorySnapshots := map[];
      slowQueries := [];
      assets := map[];
      assetOrder := [];
      loadOrder := 0;
    }

    /** `record_plugin_load`; the reported per-file memory is not used. */
    method RecordPluginLoad(file: string, loadTime: real, memoryUsed: int, currentMemory: int)
      requires Valid()
      modifies this
      ensures Valid()
      ensures TimingState() == RecordLoad(site, old(TimingState()), file, loadTime, currentMemory)
      ensures slowQueries == old(slowQueries) && Table() == old(Table())
    {
      var name := PluginNameFromFile(site, file);
      if !IsPluginActive(site, file) {
        return;
      }
      AccumulateLoad(name, file, loadTime, currentMemory);
    }

    /** The bookkeeping for a file of an active plugin. */
    method AccumulateLoad(name: string, file: string, loadTime: real, currentMemory: int)
      requires pluginTimings.Keys == memorySnapshots.Keys
      modifies this
      ensures TimingState() == Accumulate(old(TimingState()), name, file, loadTime, currentMemory)
      ensures slowQueries == old(slowQueries) && Table() == old(Table())
    {
      var before := if name in pluginTimings then pluginTimings[name] else PluginTiming(name, file, 0.0, 0, 0);
      if name !in pluginTimings {
        memorySnapshots := memorySnapshots[name := currentMemory];
      }
      var after := before.(loadTime := before.loadTime + loadTime,
                           filesLoaded := before.filesLoaded + 1,
                           memoryUsage := Max0(currentMemory - memorySnapshots[name]));
      pluginTimings := pluginTimings[name := after];
    }

    /** `$this->assets[$a['handle']] = $a` for a record stamped with the next load order. */
    method StampAsset(a: Asset)
      requires a.loadOrder == loadOrder + 1
      modifies this
      ensures Table() == Stamp(old(Table()), a)
      ensures TimingState() == old(TimingState()) && slowQueries == old(slowQueries)
    {
      loadOrder := loadOrder + 1;
      if a.handle !in assets {
        assetOrder := assetOrder + [a.handle];
      }
      assets := assets[a.handle := a];
    }

    /** `track_asset`. */
    method TrackAsset(handle: string, ty: AssetType, deps: Dependencies)
      modifies this
      ensures Table() == TrackAssetStep(site, old(Table()), handle, ty, deps)
      ensures TimingState() == old(TimingState()) && slowQueries == old(slowQueries)
    {
      if handle in assets {
        return;
      }
      StampAsset(NewAsset(site, handle, ty, deps, loadOrder + 1));
    }

    /** The `foreach` over one dependency queue. */
    method TrackQueue(queue: seq<string>, ty: AssetType, deps: Dependencies)
      modifies this
      ensures Table() == CaptureQueue(site, old(Table()), queue, ty, deps)
      ensures TimingState() == old(TimingState()) && slowQueries == old(slowQueries)
    {
      ghost var start := Table();
      var i := 0;
      while i < |queue|
        invariant 0 <= i <= |queue|
        invariant Table() == CaptureQueue(site, start, queue[..i], ty, deps)
        invariant TimingState() == old(TimingState()) && slowQueries == old(slowQueries)
      {
        ghost var prev := Table();
        TrackAsset(queue[i], ty, deps);
        assert Table() == CaptureQueue(site, start, queue[..i + 1], ty, deps) by {
          CaptureQueueStep(site, start, queue, ty, deps, i, prev);
        }
        i := i + 1;
      }
      assert queue[..i] == queue;
    }

    /** `capture_enqueued_assets`. */
    method CaptureEnqueuedAssets(scripts: Dependencies, styles: Dependencies)
      requires Valid()
      modifies this
      ensures Valid()
      ensures Table() == if shouldProfile then CaptureEnqueued(site, old(Table()), scripts, styles) else old(Table())
      ensures TimingState() == old(TimingState()) && slowQueries == old(slowQueries)
    {
      if shouldProfile {
        ghost var before := Table();
        TrackQueue(scripts.queue, Js, scripts);
        TrackQueue(styles.queue, Css, styles);
        assert Table() == CaptureEnqueued(site, before, scripts, styles);
        assert TableValid(Table());
      }
    }

    /** `track_script_tag`: the tag is returned unchanged; a tracked handle takes the printed src. */
    method TrackScriptTag(tag: string, handle: string, src: string) returns (r: string)
      requires Valid()
      modifies this
      ensures Valid()
      ensures r == tag
      ensures Table() == if shouldProfile then PatchSrc(old(Table()), handle, src) else old(Table())
      ensures TimingState() == old(TimingState()) && slowQueries == old(slowQueries)
    {
      if !shouldProfile {
        return tag;
      }
      if handle in assets && assets[handle].src != Some(src) {
        assets := assets[handle := assets[handle].(src := Some(src))];
      }
      return tag;
    }

    /** `track_style_tag`: as for scripts, with the printed href; the media is not used. */
    method TrackStyleTag(tag: string, handle: string, href: string, media: string) returns (r: string)
      requires Valid()
      modifies this
      ensures Valid()
      ensures r == tag
      ensures Table() == if shouldProfile then PatchSrc(old(Table()), handle, href) else old(Table())
      ensures TimingState() == old(TimingState()) && slowQueries == old(slowQueries)
    {
      r := TrackScriptTag(tag, handle, href);
    }

    /** One `print_extra_script` or `print_code` entry: recorded unless its data is empty. */
    method CaptureInlineItem(item: InlineItem, ty: AssetType)
      modifies this
      ensures Table() == InlineStep(old(Table()), item, ty)
      ensures TimingState() == old(TimingState()) && slowQueries == old(slowQueries)
    {
      if !PhpEmpty(item.data) {
        StampAsset(InlineAsset(item.handle, ty, item.data, loadOrder + 1));
      }
    }

    /** The loop shared by `capture_inline_scripts` and `capture_inline_styles`. */
    method CaptureInlineLoop(items: seq<InlineItem>, ty: AssetType)
      modifies this
      ensures Table() == CaptureInline(old(Table()), items, ty)
      ensures TimingState() == old(TimingState()) && slowQueries == old(slowQueries)
    {
      ghost var start := Table();
      var i := 0;
      while i < |items|
        invariant 0 <= i <= |items|
        invariant Table() == CaptureInline(start, items[..i], ty)
        invariant TimingState() == old(TimingState()) && slowQueries == old(slowQueries)
      {
        ghost var prev := Table();
        CaptureInlineItem(items[i], ty);
        assert Table() == CaptureInline(start, items[..i + 1], ty) by {
          CaptureInlineStep(start, items, ty, i);
        }
        i := i + 1;
      }
      assert items[..i] == items;
    }

    /** The gate shared by `capture_inline_scripts` and `capture_inline_styles`. */
    method CaptureInlineItems(items: seq<InlineItem>, ty: AssetType)
      requires Valid()
      modifies this
      ensures Valid()
      ensures Table() == if shouldProfile then CaptureInline(old(Table()), items, ty) else old(Table())
      ensures TimingState() == old(TimingState()) && slowQueries == old(slowQueries)
    {
      if shouldProfile {
        ghost var before := Table();
        CaptureInlineLoop(items, ty);
        CaptureInlineValid(before, items, ty);
      }
    }

    /** `capture_inline_scripts`: `print_extra_script` as script entries. */
    method CaptureInlineScripts(printExtraScript: seq<InlineItem>)
      requires Valid()
      modifies this
      ensures Valid()
      ensures Table() == if shouldProfile then CaptureInline(old(Table()), printExtraScript, Js) else old(Table())
      ensures TimingState() == old(TimingState()) && slowQueries == old(slowQueries)
    {
      CaptureInlineItems(printExtraScript, Js);
    }

    /** `capture_inline_styles`: `print_code` as style entries. */
    method CaptureInlineStyles(printCode: seq<InlineItem>)
      requires Valid()
      modifies this
      ensures Valid()
      ensures Table() == if shouldProfile then CaptureInline(old(Table()), printCode, Css) else old(Table())
      ensures TimingState() == old(TimingState()) && slowQueries == old(slowQueries)
    {
      CaptureInlineItems(printCode, Css);
    }

    /**
     * `finalize_query_monitoring`: with SAVEQUERIES and a query log, append
     * the slow entries; otherwise append the placeholder record when more
     * than 20 queries ran.
     */
    method FinalizeQueryMonitoring(saveQueries: bool, log: Option<seq<QueryLogEntry>>, numQueries: int)
      requires Valid()
      modifies this
      ensures Valid()
      ensures slowQueries == old(slowQueries) +
        (if shouldProfile then SlowQueriesFound(saveQueries, log, numQueries, slowQueryThreshold) else [])
      ensures TimingState() == old(TimingState()) && Table() == old(Table())
    {
      if !shouldProfile {
        return;
      }
      if saveQueries && log.Some? {
        var entries := log.value;
        var i := 0;
        while i < |entries|
          invariant 0 <= i <= |entries|
          invariant slowQueries == old(slowQueries) + SlowFromLog(entries[..i], slowQueryThreshold)
          invariant TimingState() == old(TimingState()) && Table() == old(Table())
        {
          assert entries[..i + 1][..i] == entries[..i];
          var executionTime := entries[i].seconds * 1000.0;
          if executionTime > slowQueryThreshold as real {
            var caller := if entries[i].caller.Some? then entries[i].caller.value else "Unknown";
            slowQueries := slowQueries + [SlowQuery(entries[i].sql, executionTime, Some(caller))];
          }
          i := i + 1;
        }
        assert entries[..i] == entries;
      } else if numQueries > 20 {
        slowQueries := slowQueries + [PlaceholderSlowQuery];
      }
    }

    /**
     * `save_profiling_data` at shutdown: nothing for a request that is not
     * profiled; otherwise assemble the profile, insert it when the database
     * class is present (`db != null`), and always keep it as the latest
     * profile transient (returned here).
     */
    method SaveProfilingData(s: Shutdown, db: Store.Database?) returns (transient: Option<ProfileData>, id: Option<nat>)
      requires Valid()
      modifies db
      ensures !shouldProfile ==> transient.None? && id.None?
      ensures shouldProfile ==> transient == Some(ProfileOf(startTime, pluginTimings, sampleRate, slowQueries, Table(), s))
      ensures (!shouldProfile || db == null) ==> id.None?
      ensures !shouldProfile && db != null ==> unchanged(db)
      ensures shouldProfile && db != null ==>
        db.ProfileInserted(transient.value, s.timestamp, id, old(db.attempts), old(db.stored), old(db.nextId))
    {
      if !shouldProfile {
        return None, None;
      }
      var p := ProfileOf(startTime, pluginTimings, sampleRate, slowQueries, Table(), s);
      transient := Some(p);
      id := None;
      if db != null {
        id := db.InsertProfile(p, s.timestamp);
      }
    }
  }
}
