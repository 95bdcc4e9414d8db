/**
 * The write side of `InstaPulse_Database`: the rows built from a profile, and
 * the best-effort parent-then-children insert sequence.  The three tables are
 * in-memory sequences; every insert is logged as an attempt, and whether the
 * database accepts it is an oracle (`rejects`, the attempt numbers it refuses).
 */
module Store {
  import opened Wrappers
  import opened Text
  import opened Records
  import Classify
  import Sampler

  /** A row of the profiles table. */
  datatype ProfileRow = ProfileRow(
    timestamp: string,
    totalTime: real,
    totalMemory: int,
    pluginData: map<string, PluginTiming>,   // stored JSON-encoded
    sampleRate: int,
    requestUri: Option<string>,
    userAgent: Option<string>,
    requestType: string,
    pageType: Option<string>,
    httpMethod: string,
    queryCount: int)

  /** A row of the slow-queries table. */
  datatype QueryRow = QueryRow(
    profileId: nat,
    querySql: string,
    executionTime: real,
    caller: Option<string>,
    requestUri: Option<string>,
    timestamp: string)

  /** A row of the assets table. */
  datatype AssetRow = AssetRow(
    profileId: nat,
    handle: string,
    src: Option<string>,
    assetType: AssetType,
    source: Option<Classify.Source>,
    sourceName: Option<string>,
    version: Option<string>,
    dependencies: Option<seq<string>>,   // stored JSON-encoded
    size: Option<nat>,
    loadOrder: nat,
    inFooter: bool,
    inlineContent: Option<string>,
    timestamp: string)

  /** One `$wpdb->insert` call, whichever table it targets. */
  datatype Row = ProfileInsert(profile: ProfileRow) | QueryInsert(query: QueryRow) | AssetInsert(asset: AssetRow)

  /** `isset($x) ? substr($x, 0, n) : null`. */
  function Clip(s: Option<string>, n: nat): (r: Option<string>)
    ensures r.Some? <==> s.Some?
    ensures r.Some? ==> |r.value| <= n && r.value <= s.value
    ensures r.Some? && |s.value| <= n ==> r == s
  {
    if s.Some? then Some(Truncate(s.value, n)) else None
  }

  /**
   * The row `insert_profile` writes: the URI cut to 500 characters and the
   * page type to 100, and `page`, `GET` and 0 for an unset request type,
   * method and query count.
   */
  function ProfileRowOf(p: ProfileData): (r: ProfileRow)
    ensures r.requestUri == Clip(p.requestUri, 500) && r.pageType == Clip(p.pageType, 100)
    ensures r.requestType == (if p.requestType.Some? then p.requestType.value else "page")
    ensures r.httpMethod == (if p.httpMethod.Some? then p.httpMethod.value else "GET")
    ensures r.queryCount == (if p.queryCount.Some? then p.queryCount.value else 0)
    ensures r.userAgent == p.userAgent && r.pluginData == p.plugins
    ensures r.timestamp == p.timestamp && r.totalTime == p.totalTime
    ensures r.totalMemory == p.totalMemory && r.sampleRate == p.sampleRate
  {
    ProfileRow(
      p.timestamp, p.totalTime, p.totalMemory, p.plugins, p.sampleRate,
      Clip(p.requestUri, 500), p.userAgent, p.requestType.GetOr("page"),
      Clip(p.pageType, 100), p.httpMethod.GetOr("GET"), p.queryCount.GetOr(0))
  }

  /**
   * The row `insert_slow_queries` writes for one query: SQL cut to 5000
   * characters, caller to 255, and the request URI to 500, or null when the
   * URI is unset or PHP-falsy.
   */
  function QueryRowOf(id: nat, q: SlowQuery, requestUri: Option<string>, now: string): (r: QueryRow)
    ensures r.profileId == id && r.executionTime == q.executionTime && r.timestamp == now
    ensures |r.querySql| <= 5000 && r.querySql <= q.sql
    ensures |q.sql| <= 5000 ==> r.querySql == q.sql
    ensures r.caller == Clip(q.caller, 255)
    ensures r.requestUri.None? <==> requestUri.None? || PhpEmpty(requestUri.value)
    ensures r.requestUri.Some? ==> r.requestUri == Clip(requestUri, 500)
  {
    var uri := if requestUri.Some? && !PhpEmpty(requestUri.value) then Clip(requestUri, 500) else None;
    QueryRow(id, Truncate(q.sql, 5000), q.executionTime, Clip(q.caller, 255), uri, now)
  }

  /**
   * The row `insert_assets` writes for one asset: handle cut to 100
   * characters, source name to 255, version to 50, inline content to 65535,
   * and `in_footer` false unless set.
   */
  function AssetRowOf(id: nat, a: Asset, now: string): (r: AssetRow)
    ensures r.profileId == id && r.timestamp == now
    ensures |r.handle| <= 100 && r.handle <= a.handle
    ensures |a.handle| <= 100 ==> r.handle == a.handle
    ensures r.sourceName == Clip(a.sourceName, 255)
    ensures r.version == Clip(a.version, 50)
    ensures r.inlineContent == Clip(a.inlineContent, 65535)
    ensures r.inFooter <==> a.inFooter == Some(true)
    ensures r.src == a.src && r.assetType == a.assetType && r.source == a.source
    ensures r.dependencies == a.dependencies && r.size == a.size && r.loadOrder == a.loadOrder
  {
    AssetRow(id, Truncate(a.handle, 100), a.src, a.assetType, a.source, Clip(a.sourceName, 255),
      Clip(a.version, 50), a.dependencies, a.size, a.loadOrder, a.inFooter.GetOr(false),
      Clip(a.inlineContent, 65535), now)
  }

  /** The inserts `insert_slow_queries` attempts, one per query, in order. */
  function QueryRows(id: nat, qs: seq<SlowQuery>, requestUri: Option<string>, now: string): (r: seq<Row>)
    ensures |r| == |qs|
    ensures forall i :: 0 <= i < |qs| ==> r[i] == QueryInsert(QueryRowOf(id, qs[i], requestUri, now))
  {
    seq(|qs|, i requires 0 <= i < |qs| => QueryInsert(QueryRowOf(id, qs[i], requestUri, now)))
  }

  /** The inserts `insert_assets` attempts, one per asset, in order. */
  function AssetRows(id: nat, assets: seq<Asset>, now: string): (r: seq<Row>)
    ensures |r| == |assets|
    ensures forall i :: 0 <= i < |assets| ==> r[i] == AssetInsert(AssetRowOf(id, assets[i], now))
  {
    seq(|assets|, i requires 0 <= i < |assets| => AssetInsert(AssetRowOf(id, assets[i], now)))
  }

  /** The rows of `rows` the database keeps when the first is attempt number `start`. */
  function Kept(rows: seq<Row>, start: nat, rejects: set<nat>): (r: seq<Row>)
    ensures |r| <= |rows|
    decreases |rows|
  {
    if rows == [] then []
    else
      var last := start + |rows| - 1;
      Kept(rows[..|rows| - 1], start, rejects) + (if last in rejects then [] else [rows[|rows| - 1]])
  }

  /** Every kept row was attempted, and with no refusals in range every attempt is kept. */
  lemma {:induction false} KeptFacts(rows: seq<Row>, start: nat, rejects: set<nat>)
    ensures forall x :: x in Kept(rows, start, rejects) ==> x in rows
    ensures (forall k :: k in rejects ==> k < start || k >= start + |rows|) ==> Kept(rows, start, rejects) == rows
    decreases |rows|
  {
    if rows != [] {
      var init := rows[..|rows| - 1];
      KeptFacts(init, start, rejects);
      assert forall x :: x in init ==> x in rows;
      if forall k :: k in rejects ==> k < start || k >= start + |rows| {
        assert init + [rows[|rows| - 1]] == rows;
      }
    }
  }

  /** `get_sample_rate` of the database class: the stored option, 2 when unset. */
  function SampleRate(options: map<string, int>): (r: int)
    ensures "sample_rate" in options ==> r == options["sample_rate"]
    ensures "sample_rate" !in options ==> r == 2
  {
    Sampler.OptionOr(options, "sample_rate", 2)
  }

  /** `get_slow_query_threshold`: the stored option, 50 when unset. */
  function SlowQueryThreshold(options: map<string, int>): (r: int)
    ensures "slow_query_threshold" in options ==> r == options["slow_query_threshold"]
    ensures "slow_query_threshold" !in options ==> r == 50
  {
    Sampler.OptionOr(options, "slow_query_threshold", 50)
  }

  /** The store's defaults are the ones the sampling gate falls back to. */
  lemma DefaultsMatchSampler(req: Sampler.Request, draw: int)
    requires 1 <= draw <= 100 && !Sampler.Excluded(req)
    ensures Sampler.ShouldProfileRequest(req, map[], draw).sampleRate == SampleRate(map[])
    ensures Sampler.ShouldProfileRequest(req, map[], draw).slowQueryThreshold == SlowQueryThreshold(map[])
  {
  }

  /** The database: every attempted insert, the rows it kept, and the next auto-increment id. */
  class Database {
    const rejects: set<nat>
    var attempts: seq<Row>
    var stored: seq<Row>
    var nextId: nat

    constructor(rejects: set<nat>)
      ensures this.rejects == rejects && attempts == [] && stored == [] && nextId == 1
    {
      this.rejects := rejects;
      attempts := [];
      stored := [];
      nextId := 1;
    }

    /** `$wpdb->insert`: attempt number `|attempts|` succeeds unless refused. */
    method Insert(row: Row) returns (ok: bool)
      modifies this
      ensures ok <==> |old(attempts)| !in rejects
      ensures attempts == old(attempts) + [row]
      ensures stored == old(stored) + (if ok then [row] else [])
      ensures nextId == old(nextId)
    {
      ok := |attempts| !in rejects;
      attempts := attempts + [row];
      if ok {
        stored := stored + [row];
      }
    }

    /** The rows a run of inserts starting now would leave appended. */
    method InsertAll(rows: seq<Row>)
      modifies this
      ensures attempts == old(attempts) + rows
      ensures stored == old(stored) + Kept(rows, |old(attempts)|, rejects)
      ensures nextId == old(nextId)
    {
      var i := 0;
      while i < |rows|
        invariant 0 <= i <= |rows|
        invariant attempts == old(attempts) + rows[..i]
        invariant stored == old(stored) + Kept(rows[..i], |old(attempts)|, rejects)
        invariant nextId == old(nextId)
      {
        var _ := Insert(rows[i]);
        assert rows[..i + 1][..i] == rows[..i];
        i := i + 1;
      }
      assert rows[..i] == rows;
    }

    /** `insert_slow_queries`: one attempt per query, in order, whatever the earlier ones returned. */
    method InsertSlowQueries(id: nat, qs: seq<SlowQuery>, requestUri: Option<string>, now: string)
      modifies this
      ensures attempts == old(attempts) + QueryRows(id, qs, requestUri, now)
      ensures stored == old(stored) + Kept(QueryRows(id, qs, requestUri, now), |old(attempts)|, rejects)
      ensures nextId == old(nextId)
    {
      InsertAll(QueryRows(id, qs, requestUri, now));
    }

    /** `insert_assets`: one attempt per asset, in order. */
    method InsertAssets(id: nat, assets: seq<Asset>, now: string)
      modifies this
      ensures attempts == old(attempts) + AssetRows(id, assets, now)
      ensures stored == old(stored) + Kept(AssetRows(id, assets, now), |old(attempts)|, rejects)
      ensures nextId == old(nextId)
    {
      InsertAll(AssetRows(id, assets, now));
    }

    /**
     * What `insert_profile(p)` leaves behind, given the attempts `attempts0`,
     * the kept rows `stored0` and the next id `next0` before it: the parent
     * row is attempted first.  When it is refused, `id` is None and nothing
     * else happens.  Otherwise `id` is the next id, the slow-query rows and
     * then the asset rows are attempted, and each row is kept unless refused.
     */
    ghost predicate ProfileInserted(p: ProfileData, now: string, id: Option<nat>,
                                    attempts0: seq<Row>, stored0: seq<Row>, next0: nat)
      reads this
    {
      var parent := ProfileInsert(ProfileRowOf(p));
      && (id.None? <==> |attempts0| in rejects)
      && (id.None? ==> attempts == attempts0 + [parent] && stored == stored0 && nextId == next0)
      && (id.Some? ==>
            && id.value == next0 && nextId == next0 + 1
            && attempts == attempts0 + [parent]
                 + QueryRows(id.value, p.slowQueries, p.requestUri, now) + AssetRows(id.value, p.assets, now)
            && stored == stored0 + [parent]
                 + Kept(QueryRows(id.value, p.slowQueries, p.requestUri, now), |attempts0| + 1, rejects)
                 + Kept(AssetRows(id.value, p.assets, now), |attempts0| + 1 + |p.slowQueries|, rejects))
    }

    /**
     * `insert_profile`: the parent row first; when it is refused, false and
     * nothing else.  Otherwise the slow queries, then the assets, each list
     * only when non-empty, and the new id.
     */
    method InsertProfile(p: ProfileData, now: string) returns (id: Option<nat>)
      modifies this
      ensures id.None? <==> |old(attempts)| in rejects
      ensures id.None? ==>
        attempts == old(attempts) + [ProfileInsert(ProfileRowOf(p))]
        && stored == old(stored) && nextId == old(nextId)
      ensures id.Some? ==>
        && id.value == old(nextId) && nextId == old(nextId) + 1
        && attempts == old(attempts) + [ProfileInsert(ProfileRowOf(p))]
             + QueryRows(id.value, p.slowQueries, p.requestUri, now) + AssetRows(id.value, p.assets, now)
        && stored == old(stored) + [ProfileInsert(ProfileRowOf(p))]
             + Kept(QueryRows(id.value, p.slowQueries, p.requestUri, now), |old(attempts)| + 1, rejects)
             + Kept(AssetRows(id.value, p.assets, now), |old(attempts)| + 1 + |p.slowQueries|, rejects)
      ensures ProfileInserted(p, now, id, old(attempts), old(stored), old(nextId))
    {
      var ok := Insert(ProfileInsert(ProfileRowOf(p)));
      if !ok {
        return None;
      }
      var profileId := nextId;
      nextId := nextId + 1;
      InsertChildren(profileId, p, now);
      return Some(profileId);
    }

    /** The two child lists of `insert_profile`, each attempted only when non-empty. */
    method InsertChildren(id: nat, p: ProfileData, now: string)
      modifies this
      ensures attempts == old(attempts) + QueryRows(id, p.slowQueries, p.requestUri, now) + AssetRows(id, p.assets, now)
      ensures stored == old(stored)
        + Kept(QueryRows(id, p.slowQueries, p.requestUri, now), |old(attempts)|, rejects)
        + Kept(AssetRows(id, p.assets, now), |old(attempts)| + |p.slowQueries|, rejects)
      ensures nextId == old(nextId)
    {
      ghost var queries := QueryRows(id, p.slowQueries, p.requestUri, now);
      ghost var start := |attempts|;
      if p.slowQueries != [] {
        InsertSlowQueries(id, p.slowQueries, p.requestUri, now);
      } else {
        assert queries == [] && Kept(queries, start, rejects) == [];
      }
      assert attempts == old(attempts) + queries;
      assert stored == old(stored) + Kept(queries, start, rejects);
      assert |attempts| == start + |p.slowQueries|;
      if p.assets != [] {
        InsertAssets(id, p.assets, now);
      } else {
        assert AssetRows(id, p.assets, now) == [];
      }
    }
  }

  /** Every row attempted for a stored profile's children points at that profile. */
  lemma ChildrenPointAtParent(id: nat, p: ProfileData, now: string)
    ensures forall r :: r in QueryRows(id, p.slowQueries, p.requestUri, now) ==> r.QueryInsert? && r.query.profileId == id
    ensures forall r :: r in AssetRows(id, p.assets, now) ==> r.AssetInsert? && r.asset.profileId == id
  {
  }
}
