/**
 * The sampling gate of the must-use plugin: an ordered chain of exclusion
 * rules followed by a percentage draw.  The random draw (`mt_rand(1, 100)`)
 * and the stored options are inputs.
 */
module Sampler {
  import opened Wrappers
  import opened Text

  /** What the request context exposes to the gate. */
  datatype Request = Request(
    disableProfiling: bool,     // INSTAPULSE_DISABLE_PROFILING defined and truthy
    isAdmin: bool,              // is_admin() exists and returns true
    doingAjax: bool,            // DOING_AJAX defined and truthy
    requestUri: Option<string>, // $_SERVER['REQUEST_URI'] when set
    wpCli: bool,                // WP_CLI defined and truthy
    restRequest: bool,          // REST_REQUEST defined and truthy
    doingCron: bool             // wp_doing_cron() exists and returns true
  )

  /** The gate's answer and the two settings it leaves in the collector's fields. */
  datatype Decision = Decision(profile: bool, sampleRate: int, slowQueryThreshold: int)

  /** The collector's field initialisers, kept when an exclusion rule fires. */
  const InitialSampleRate := 2
  const InitialSlowQueryThreshold := 50

  /** `isset($options[$key]) ? (int) $options[$key] : $default`. */
  function OptionOr(options: map<string, int>, key: string, default: int): (r: int)
    ensures key in options ==> r == options[key]
    ensures key !in options ==> r == default
  {
    if key in options then options[key] else default
  }

  /** Extensions of the sixth ignored pattern, `/\.(css|…|wav)$`. */
  const RootAssetExtensions: seq<string> :=
    ["css", "js", "png", "jpg", "jpeg", "gif", "svg", "ico", "woff", "woff2", "ttf", "eot",
     "map", "webp", "avif", "pdf", "zip", "mp4", "webm", "mp3", "wav"]

  /** Extensions of the seventh ignored pattern, `/wp-content/.+\.(css|…|avif)$`. */
  const ContentAssetExtensions: seq<string> :=
    ["css", "js", "png", "jpg", "jpeg", "gif", "svg", "ico", "woff", "woff2", "ttf", "eot",
     "map", "webp", "avif"]

  /** The five fixed fragments, matched anywhere in the URI. */
  const IgnoredFragments: seq<string> :=
    ["/favicon.ico", "/robots.txt", "/apple-touch-icon", "/browserconfig.xml", "/manifest.json"]

  /**
   * `/\.(ext)$`: as written the pattern needs a slash immediately before the
   * dot, so it matches `/.css` at the end of the URI and not `/style.css`.
   */
  predicate EndsWithSlashDotExt(u: string, exts: seq<string>) {
    exists e :: e in exts && EndsWith(u, "/." + e)
  }

  /** `/wp-content/.+\.(ext)$`: the marker, at least one character, then `.ext` at the end. */
  predicate ContentAsset(u: string, exts: seq<string>) {
    exists e :: e in exts && EndsWith(u, "." + e) && |u| >= |e| + 2 &&
      Contains(u[..|u| - |e| - 2], "/wp-content/")
  }

  /** One of the ignored patterns matches, case-insensitively. */
  predicate IgnoredUri(uri: string) {
    var u := Lower(uri);
    (exists f :: f in IgnoredFragments && Contains(u, f))
    || EndsWithSlashDotExt(u, RootAssetExtensions)
    || ContentAsset(u, ContentAssetExtensions)
  }

  /** The admin rule: is_admin() outside AJAX, or `/wp-admin/` in a set URI. */
  predicate AdminRequest(req: Request) {
    (req.isAdmin && !req.doingAjax)
    || (req.requestUri.Some? && Contains(req.requestUri.value, "/wp-admin/"))
  }

  /** Any exclusion rule of the chain fires. */
  predicate Excluded(req: Request) {
    req.disableProfiling
    || AdminRequest(req)
    || IgnoredUri(req.requestUri.GetOr(""))
    || req.wpCli
    || req.doingAjax || req.restRequest
    || req.doingCron
  }

  /**
   * `should_profile_request`: the first matching exclusion answers false and
   * leaves the settings at their initial values; otherwise the settings are
   * read (not clamped) and the request is profiled iff `draw <= sample_rate`.
   */
  function ShouldProfileRequest(req: Request, options: map<string, int>, draw: int): (d: Decision)
    requires 1 <= draw <= 100
    ensures Excluded(req) ==> d == Decision(false, InitialSampleRate, InitialSlowQueryThreshold)
    ensures !Excluded(req) ==>
      && d.sampleRate == OptionOr(options, "sample_rate", 2)
      && d.slowQueryThreshold == OptionOr(options, "slow_query_threshold", 50)
      && d.profile == (draw <= d.sampleRate)
  {
    var uri := req.requestUri.GetOr("");
    if req.disableProfiling then Decision(false, InitialSampleRate, InitialSlowQueryThreshold)
    else if AdminRequest(req) then Decision(false, InitialSampleRate, InitialSlowQueryThreshold)
    else if IgnoredUri(uri) then Decision(false, InitialSampleRate, InitialSlowQueryThreshold)
    else if req.wpCli then Decision(false, InitialSampleRate, InitialSlowQueryThreshold)
    else if req.doingAjax || req.restRequest then Decision(false, InitialSampleRate, InitialSlowQueryThreshold)
    else if req.doingCron then Decision(false, InitialSampleRate, InitialSlowQueryThreshold)
    else
      var rate := OptionOr(options, "sample_rate", 2);
      var threshold := OptionOr(options, "slow_query_threshold", 50);
      Decision(draw <= rate, rate, threshold)
  }

  /** A rate of 100 or more profiles every draw; a rate of 0 or less profiles none. */
  lemma RateExtremes(req: Request, options: map<string, int>, draw: int)
    requires 1 <= draw <= 100 && !Excluded(req)
    ensures OptionOr(options, "sample_rate", 2) >= 100 ==> ShouldProfileRequest(req, options, draw).profile
    ensures OptionOr(options, "sample_rate", 2) <= 0 ==> !ShouldProfileRequest(req, options, draw).profile
  {
  }

  /** The draws in [1, 100] that profile the request. */
  function ProfilingDraws(req: Request, options: map<string, int>): set<int> {
    set d | 1 <= d <= 100 && ShouldProfileRequest(req, options, d).profile
  }

  function Clamp(x: int, lo: int, hi: int): int
    requires lo <= hi
  {
    if x < lo then lo else if x > hi then hi else x
  }

  /** The draws 1..k, built one at a time. */
  function Upto(k: int): (r: set<int>)
    ensures forall d :: d in r <==> 1 <= d <= k
    decreases if k < 0 then 0 else k
  {
    if k <= 0 then {} else Upto(k - 1) + {k}
  }

  lemma {:induction false} UptoSize(k: nat)
    ensures |Upto(k)| == k
  {
    if k > 0 {
      UptoSize(k - 1);
      assert k !in Upto(k - 1);
    }
  }

  /**
   * For a uniform draw the chance of profiling is exactly the configured
   * rate, clamped to [0, 100]: that many of the hundred draws profile.
   */
  lemma SamplingProbability(req: Request, options: map<string, int>)
    requires !Excluded(req)
    ensures |ProfilingDraws(req, options)| == Clamp(OptionOr(options, "sample_rate", 2), 0, 100)
  {
    var rate := OptionOr(options, "sample_rate", 2);
    var k := Clamp(rate, 0, 100);
    assert ProfilingDraws(req, options) == Upto(k);
    UptoSize(k);
  }

  /**
   * A request whose URI mentions `/favicon.ico` anywhere, in any letter
   * case, is never profiled, whatever the rate or the draw.
   */
  lemma FaviconNeverProfiled(req: Request, options: map<string, int>, draw: int)
    requires 1 <= draw <= 100
    requires req.requestUri.Some? && Contains(Lower(req.requestUri.value), "/favicon.ico")
    ensures !ShouldProfileRequest(req, options, draw).profile
  {
    assert IgnoredFragments[0] == "/favicon.ico";
    assert IgnoredUri(req.requestUri.value);
  }

  /** The upper-case spelling `/FAVICON.ICO` is one such URI. */
  lemma FaviconIgnored()
    ensures Contains(Lower("/FAVICON.ICO"), "/favicon.ico")
    ensures IgnoredUri("/FAVICON.ICO")
  {
    var u := Lower("/FAVICON.ICO");
    assert u == "/favicon.ico" by {
      assert |u| == 12;
      forall i | 0 <= i < 12 ensures u[i] == "/favicon.ico"[i] {
      }
    }
    assert Contains(u, IgnoredFragments[0]) by {
      assert StartsWith(u, "/favicon.ico");
    }
  }

  /** As written, a root-level image request such as `/logo.png` passes the asset patterns. */
  lemma RootImageNotIgnored()
    ensures !IgnoredUri("/logo.png")
  {
    var u := "/logo.png";
    assert Lower(u) == u by {
      forall i | 0 <= i < |u| ensures Lower(u)[i] == u[i] {
      }
    }
    NoFragmentIn(u);
    NoSlashDotExt(u);
    NoContentAsset(u);
  }

  lemma NoFragmentIn(u: string)
    requires u == "/logo.png"
    ensures !exists f :: f in IgnoredFragments && Contains(u, f)
  {
    forall f | f in IgnoredFragments ensures !Contains(u, f) {
      NotContainsLonger(u, f);
    }
  }

  lemma NoSlashDotExt(u: string)
    requires u == "/logo.png"
    ensures !EndsWithSlashDotExt(u, RootAssetExtensions)
  {
    assert forall i :: 0 < i < |u| ==> u[i] != '/';
    forall e | e in RootAssetExtensions ensures !EndsWith(u, "/." + e) {
      SlashSuffixIsWhole(u, "/." + e);
      assert |e| <= 5;
    }
  }

  lemma SlashSuffixIsWhole(u: string, suf: string)
    requires |suf| > 0 && suf[0] == '/'
    requires forall i :: 0 < i < |u| ==> u[i] != '/'
    ensures EndsWith(u, suf) ==> |suf| == |u|
  {
    if EndsWith(u, suf) {
      assert u[|u| - |suf|] == suf[0];
    }
  }

  lemma NoContentAsset(u: string)
    requires u == "/logo.png"
    ensures !ContentAsset(u, ContentAssetExtensions)
  {
    forall e | e in ContentAssetExtensions && EndsWith(u, "." + e) && |u| >= |e| + 2
      ensures !Contains(u[..|u| - |e| - 2], "/wp-content/")
    {
      NotContainsLonger(u[..|u| - |e| - 2], "/wp-content/");
    }
  }

  lemma NotContainsLonger(s: string, sub: string)
    requires |sub| > |s| || (|sub| == |s| && s != sub) || (sub != [] && sub[0] !in s)
    ensures !Contains(s, sub)
    decreases |s|
  {
    if |s| > 0 {
      NotContainsLonger(s[1..], sub);
    }
  }
}
