// The main plugin's bookkeeping: where the plugin puts itself in the
// `active_plugins` list on activation, when the admin screen installs the
// MU loader, where the request start time comes from, and how the admin
// page turns the aggregated statistics into the shape its template reads.

module Activation {
  import opened Wrappers
  import opened Aggregate

  // ---------------------------------------------------------------------
  // Activation: move this plugin to the front of `active_plugins`
  // ---------------------------------------------------------------------

  /** `array_values(array_diff($xs, [$x]))`: every occurrence of `x` removed, the rest in order. */
  function Without(xs: seq<string>, x: string): (r: seq<string>)
    ensures x !in r
    ensures |r| <= |xs|
  {
    if xs == [] then [] else (if xs[0] == x then [] else [xs[0]]) + Without(xs[1..], x)
  }

  /** How many times `y` occurs in `xs`. */
  function Count(xs: seq<string>, y: string): nat {
    if xs == [] then 0 else (if xs[0] == y then 1 else 0) + Count(xs[1..], y)
  }

  /** The activation reorder: drop every copy of the basename, then `array_unshift` it. */
  function MoveToFront(plugins: seq<string>, basename: string): (r: seq<string>)
    ensures |r| >= 1 && r[0] == basename
    ensures basename !in r[1..]
  {
    [basename] + Without(plugins, basename)
  }

  lemma {:induction false} WithoutCount(xs: seq<string>, x: string, y: string)
    ensures Count(Without(xs, x), y) == if y == x then 0 else Count(xs, y)
    decreases |xs|
  {
    if xs != [] {
      WithoutCount(xs[1..], x, y);
      CountAppend(if xs[0] == x then [] else [xs[0]], Without(xs[1..], x), y);
    }
  }

  lemma {:induction false} CountAppend(a: seq<string>, b: seq<string>, y: string)
    ensures Count(a + b, y) == Count(a, y) + Count(b, y)
    decreases |a|
  {
    if a != [] {
      assert (a + b)[1..] == a[1..] + b;
      CountAppend(a[1..], b, y);
    } else {
      assert a + b == b;
    }
  }

  /** Removing an element that is not there changes nothing. */
  lemma {:induction false} WithoutAbsent(xs: seq<string>, x: string)
    requires x !in xs
    ensures Without(xs, x) == xs
    decreases |xs|
  {
    if xs != [] {
      assert x !in xs[1..];
      WithoutAbsent(xs[1..], x);
    }
  }

  /**
   * After the reorder the basename occurs exactly once, every other entry
   * occurs as often as before, and the other entries are the old ones in
   * their old order.
   */
  lemma MoveToFrontKeepsOthers(plugins: seq<string>, basename: string)
    ensures Count(MoveToFront(plugins, basename), basename) == 1
    ensures forall y :: y != basename ==> Count(MoveToFront(plugins, basename), y) == Count(plugins, y)
    ensures Without(MoveToFront(plugins, basename), basename) == Without(plugins, basename)
  {
    var r := MoveToFront(plugins, basename);
    var rest := Without(plugins, basename);
    assert r[1..] == rest;
    forall y
      ensures Count(r, y) == (if y == basename then 1 else Count(plugins, y))
    {
      WithoutCount(plugins, basename, y);
    }
    WithoutAbsent(rest, basename);
  }

  /** Reordering an already reordered list changes nothing. */
  lemma MoveToFrontIdempotent(plugins: seq<string>, basename: string)
    ensures MoveToFront(MoveToFront(plugins, basename), basename) == MoveToFront(plugins, basename)
  {
    MoveToFrontKeepsOthers(plugins, basename);
  }

  // ---------------------------------------------------------------------
  // The admin-screen check that installs the MU loader
  // ---------------------------------------------------------------------

  /** What `check_mu_plugin` does, by the guard that decided it. */
  datatype MuCheck = NoCapability | Deactivating | DeactivateAction | Install | NothingToDo

  /**
   * The guard chain of `check_mu_plugin`. `deactivating` is the
   * INSTAPULSE_DEACTIVATING constant (None when undefined) and `action` is
   * `$_GET['action']` (None when unset).
   */
  function CheckMuPlugin(canManageOptions: bool, deactivating: Option<bool>, action: Option<string>,
                         fileExists: bool, writable: bool): MuCheck
  {
    if !canManageOptions then NoCapability
    else if deactivating == Some(true) then Deactivating
    else if action == Some("deactivate") then DeactivateAction
    else if !fileExists && writable then Install
    else NothingToDo
  }

  /**
   * The loader is installed exactly when the user can manage options, no
   * deactivation is under way by either signal, the file is missing and
   * the directory is writable.
   */
  lemma InstallOnlyWhenSafe(canManageOptions: bool, deactivating: Option<bool>, action: Option<string>,
                            fileExists: bool, writable: bool)
    ensures CheckMuPlugin(canManageOptions, deactivating, action, fileExists, writable) == Install <==>
      && canManageOptions
      && deactivating != Some(true)
      && action != Some("deactivate")
      && !fileExists
      && writable
  {
  }

  // ---------------------------------------------------------------------
  // Request start time
  // ---------------------------------------------------------------------

  /**
   * `get_request_start_time`: WP_START_TIMESTAMP when defined, else the
   * server's REQUEST_TIME_FLOAT when set, else the clock reading `now`.
   */
  function RequestStartTime(wpStart: Option<real>, requestTimeFloat: Option<real>, now: real): (r: real)
    ensures wpStart.Some? ==> r == wpStart.value
    ensures wpStart.None? && requestTimeFloat.Some? ==> r == requestTimeFloat.value
    ensures wpStart.None? && requestTimeFloat.None? ==> r == now
  {
    match wpStart
    case Some(t) => t
    case None => requestTimeFloat.GetOr(now)
  }

  // ---------------------------------------------------------------------
  // The admin page's conversion of the aggregated data
  // ---------------------------------------------------------------------

  /** One plugin as the admin template reads it. */
  datatype Shown = Shown(name: string, loadTime: real, memoryUsage: real, profileCount: nat)

  /** One key of the PHP array `$plugin_times['plugins']`. */
  datatype Row = Row(key: string, shown: Shown)

  /** `$plugin_times`. `timestamp` is `current_time('mysql')`, an input. */
  datatype Display = Display(
    plugins: seq<Row>,
    totalTime: real,
    totalMemory: real,
    timestamp: string,
    sampleRate: int,
    totalProfiles: nat)

  predicate HasKey(rows: seq<Row>, k: string) {
    exists i :: 0 <= i < |rows| && rows[i].key == k
  }

  /** A PHP array never holds a key twice. */
  predicate UniqueKeys(rows: seq<Row>) {
    forall i, j :: 0 <= i < j < |rows| ==> rows[i].key != rows[j].key
  }

  /** The per-plugin display fields taken from the averaged statistics. */
  function Show(s: PluginStats): Shown {
    Shown(s.name, s.avgTime, s.avgMemory, s.profileCount)
  }

  /** Where key `k` sits in `rows`, if anywhere. */
  function FindKey(rows: seq<Row>, k: string): (r: Option<nat>)
    ensures r.Some? ==> r.value < |rows| && rows[r.value].key == k
    ensures r.None? ==> !HasKey(rows, k)
  {
    if rows == [] then None
    else if rows[|rows| - 1].key == k then Some(|rows| - 1)
    else
      FindKey(rows[..|rows| - 1], k)
  }

  /**
   * `$a[$k] = $v` on an ordered PHP array: an existing key keeps its place
   * and takes the new value, a new key goes at the end.
   */
  function Put(rows: seq<Row>, k: string, v: Shown): (r: seq<Row>)
    ensures forall j :: HasKey(r, j) <==> HasKey(rows, j) || j == k
    ensures !HasKey(rows, k) ==> r == rows + [Row(k, v)]
    ensures UniqueKeys(rows) ==> UniqueKeys(r)
  {
    match FindKey(rows, k)
    case Some(i) =>
      var r := rows[i := Row(k, v)];
      assert forall j :: HasKey(r, j) ==> HasKey(rows, j) || j == k by {
        forall j | HasKey(r, j) && j != k
          ensures HasKey(rows, j)
        {
          var x :| 0 <= x < |r| && r[x].key == j;
          assert rows[x].key == j;
        }
      }
      assert forall j :: HasKey(rows, j) ==> HasKey(r, j) by {
        forall j | HasKey(rows, j)
          ensures HasKey(r, j)
        {
          var x :| 0 <= x < |rows| && rows[x].key == j;
          assert r[x].key == j;
        }
      }
      r
    case None =>
      var r := rows + [Row(k, v)];
      assert r[|rows|].key == k;
      assert forall j :: HasKey(r, j) ==> HasKey(rows, j) || j == k by {
        forall j | HasKey(r, j) && j != k
          ensures HasKey(rows, j)
        {
          var x :| 0 <= x < |r| && r[x].key == j;
          assert rows[x].key == j;
        }
      }
      assert forall j :: HasKey(rows, j) ==> HasKey(r, j) by {
        forall j | HasKey(rows, j)
          ensures HasKey(r, j)
        {
          var x :| 0 <= x < |rows| && rows[x].key == j;
          assert r[x].key == j;
        }
      }
      r
  }

  /**
   * The conversion loop of `admin_page`: the totals are the averages over
   * all profiles, the display holds exactly the aggregated plugin keys, and
   * (the aggregated keys being distinct, as the aggregation guarantees)
   * each plugin shows its average time, average memory and profile count
   * in the aggregated order.
   */
  method ConvertForDisplay(data: Aggregated, timestamp: string) returns (r: Display)
    ensures r.totalTime == data.avgLoadTime && r.totalMemory == data.avgMemoryUsage
    ensures r.timestamp == timestamp && r.sampleRate == data.sampleRate && r.totalProfiles == data.totalProfiles
    ensures forall k :: HasKey(r.plugins, k) <==> InEntries(data.plugins, k)
    ensures UniqueKeys(r.plugins)
    ensures DistinctKeys(data.plugins) ==>
      |r.plugins| == |data.plugins| &&
      forall i :: 0 <= i < |r.plugins| ==>
        r.plugins[i] == Row(data.plugins[i].key, Show(data.plugins[i].stats))
  {
    var rows: seq<Row> := [];
    var i := 0;
    while i < |data.plugins|
      invariant 0 <= i <= |data.plugins|
      invariant forall k :: HasKey(rows, k) <==> exists j :: 0 <= j < i && data.plugins[j].key == k
      invariant UniqueKeys(rows)
      invariant DistinctKeys(data.plugins) ==>
        |rows| == i && forall j :: 0 <= j < i ==> rows[j] == Row(data.plugins[j].key, Show(data.plugins[j].stats))
    {
      var e := data.plugins[i];
      if DistinctKeys(data.plugins) {
        assert !HasKey(rows, e.key);
      }
      rows := Put(rows, e.key, Show(e.stats));
      i := i + 1;
    }
    r := Display(rows, data.avgLoadTime, data.avgMemoryUsage, timestamp, data.sampleRate, data.totalProfiles);
  }
}
