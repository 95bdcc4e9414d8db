/**
 * Pure classifiers of the must-use plugin: which plugin or theme owns a
 * file or an asset URL, whether that owner is active, how big a local asset
 * is, and what kind of request a URI is.  WordPress constants and lookups
 * (file_exists, filesize, get_plugin_data, wp_get_theme, is_plugin_active)
 * are fields of `Site`.
 */
module Classify {
  import opened Wrappers
  import opened Text

  /** The WordPress installation as the collector sees it during one request. */
  datatype Site = Site(
    abspath: string,                        // ABSPATH, ending in '/'
    contentDir: string,                     // WP_CONTENT_DIR
    pluginDir: string,                      // WP_PLUGIN_DIR
    muPluginDir: string,                    // WPMU_PLUGIN_DIR
    templateDir: string,                    // get_template_directory()
    stylesheetDir: string,                  // get_stylesheet_directory()
    siteUrl: string,                        // site_url()
    files: map<string, nat>,                // existing files and their filesize()
    hasGetPluginData: bool,                 // function_exists('get_plugin_data')
    pluginHeaderNames: map<string, string>, // get_plugin_data($file)['Name'] when set
    hasWpGetTheme: bool,                    // function_exists('wp_get_theme')
    themeNames: map<string, string>,        // wp_get_theme($dir) that exists, and its Name
    activeThemeName: string,                // wp_get_theme()->get('Name')
    hasIsPluginActive: bool,                // function_exists('is_plugin_active')
    activePlugins: set<string>              // is_plugin_active($relative_main_file)
  )

  datatype Source = Plugin | Theme | Core
  datatype SourceInfo = SourceInfo(source: Source, sourceName: string)

  const CoreInfo := SourceInfo(Core, "WordPress Core")

  /** `ucwords(str_replace(array('-', '_'), ' ', $dir))`. */
  function FallbackName(dir: string): (r: string)
    ensures |r| == |dir|
  {
    UcWords(ReplaceChar(ReplaceChar(dir, '-', ' '), '_', ' '))
  }

  /**
   * The fallback display name: dashes and underscores become spaces, and the
   * first letter of each word is upper-cased; nothing else changes.
   */
  lemma FallbackNameAt(dir: string, i: nat)
    requires i < |dir|
    ensures dir[i] == '-' || dir[i] == '_' ==> FallbackName(dir)[i] == ' '
    ensures dir[i] != '-' && dir[i] != '_' ==>
      FallbackName(dir)[i] == if i == 0 || dir[i - 1] in "-_" || WordDelimiter(dir[i - 1])
                              then UpperChar(dir[i]) else dir[i]
  {
    var spaced := ReplaceChar(ReplaceChar(dir, '-', ' '), '_', ' ');
    UcWordsAt(spaced, i);
  }

  /** Cut a leading `http://host` or `https://host`, as `preg_replace('/^https?:\/\/[^\/]+/', '', $s)`. */
  function StripScheme(s: string): (r: string)
    ensures |r| <= |s|
  {
    if StartsWith(s, "http://") then StripHost(s, 7)
    else if StartsWith(s, "https://") then StripHost(s, 8)
    else s
  }

  /** Drop the scheme and the (non-empty) host that follows it; no host, no match. */
  function StripHost(s: string, schemeLength: nat): (r: string)
    requires schemeLength <= |s|
    ensures |r| <= |s|
  {
    var rest := s[schemeLength..];
    var hostLength := match IndexOf(rest, '/') case Some(k) => k case None => |rest|;
    if hostLength == 0 then s else rest[hostLength..]
  }

  /** After a marker: a non-empty run without `/`, followed by `/`. */
  function SegmentThenSlash(rest: string): (r: Option<string>)
    ensures r.Some? ==> r.value != "" && '/' !in r.value && StartsWith(rest, r.value + "/")
    ensures r.None? <==> '/' !in rest || rest[0] == '/'
  {
    match IndexOf(rest, '/')
    case None => None
    case Some(k) => if k == 0 then None else Some(rest[..k])
  }

  /**
   * The leftmost match of `#<marker>([^/]+)/#`, giving the captured directory:
   * for a marker ending in `/` the capture is the directory right after it.
   */
  function DirAfter(s: string, marker: string): (r: Option<string>)
    ensures r.Some? ==> r.value != "" && '/' !in r.value && Contains(s, marker + r.value + "/")
    decreases |s|
  {
    if StartsWith(s, marker) && SegmentThenSlash(s[|marker|..]).Some? then
      var d := SegmentThenSlash(s[|marker|..]).value;
      assert s[..|marker + d + "/"|] == marker + d + "/" by {
        assert s[|marker|..][..|d + "/"|] == d + "/";
      }
      Some(d)
    else if s == [] then None
    else DirAfter(s[1..], marker)
  }

  /**
   * `#<marker>([^/]+)/#` matches at position `i`: the marker, then a
   * non-empty run without `/`, then `/` (greedy, so the run is the whole
   * segment).
   */
  predicate MarkerDirAt(s: string, marker: string, i: nat) {
    i + |marker| <= |s| && s[i..i + |marker|] == marker && SegmentThenSlash(s[i + |marker|..]).Some?
  }

  /** The match of `s[1..]` at `i` is the match of `s` at `i + 1`. */
  lemma MarkerDirShift(s: string, marker: string, i: nat)
    requires 0 < |s|
    ensures MarkerDirAt(s[1..], marker, i) <==> MarkerDirAt(s, marker, i + 1)
  {
    if i + 1 + |marker| <= |s| {
      assert s[1..][i..i + |marker|] == s[i + 1..i + 1 + |marker|];
      assert s[1..][i + |marker|..] == s[i + 1 + |marker|..];
    }
  }

  /** `DirAfter` finds nothing exactly when `#<marker>([^/]+)/#` matches nowhere in `s`. */
  lemma {:induction false} DirAfterNone(s: string, marker: string)
    ensures DirAfter(s, marker).None? <==> forall i :: 0 <= i <= |s| ==> !MarkerDirAt(s, marker, i)
    decreases |s|
  {
    if StartsWith(s, marker) && SegmentThenSlash(s[|marker|..]).Some? {
      assert MarkerDirAt(s, marker, 0);
    } else if s == [] {
      assert !MarkerDirAt(s, marker, 0);
    } else {
      var t := s[1..];
      assert !MarkerDirAt(s, marker, 0);
      assert DirAfter(s, marker) == DirAfter(t, marker);
      DirAfterNone(t, marker);
      if DirAfter(t, marker).None? {
        forall i | 0 < i <= |s| ensures !MarkerDirAt(s, marker, i) {
          MarkerDirShift(s, marker, i - 1);
        }
      } else {
        var i :| 0 <= i <= |t| && MarkerDirAt(t, marker, i);
        MarkerDirShift(s, marker, i);
      }
    }
  }

  /** `i` is the leftmost position where `#<marker>([^/]+)/#` matches. */
  predicate LeftmostMarkerDir(s: string, marker: string, i: nat) {
    MarkerDirAt(s, marker, i) && forall j :: 0 <= j < i ==> !MarkerDirAt(s, marker, j)
  }

  /** Without a match at 0, the leftmost match of `s[1..]` at `i` is the leftmost of `s`, at `i + 1`. */
  lemma LeftmostShift(s: string, marker: string, i: nat)
    requires 0 < |s| && !MarkerDirAt(s, marker, 0) && LeftmostMarkerDir(s[1..], marker, i)
    ensures LeftmostMarkerDir(s, marker, i + 1)
    ensures s[1..][i + |marker|..] == s[i + 1 + |marker|..]
  {
    MarkerDirShift(s, marker, i);
    forall j | 0 < j < i + 1 ensures !MarkerDirAt(s, marker, j) {
      MarkerDirShift(s, marker, j - 1);
    }
  }

  /**
   * `DirAfter` is PCRE's search: when it finds a directory, that is the
   * capture of the leftmost match.
   */
  lemma {:induction false} DirAfterLeftmost(s: string, marker: string)
    ensures DirAfter(s, marker).Some? ==>
      exists i :: 0 <= i <= |s| && LeftmostMarkerDir(s, marker, i)
        && DirAfter(s, marker) == SegmentThenSlash(s[i + |marker|..])
    decreases |s|
  {
    if StartsWith(s, marker) && SegmentThenSlash(s[|marker|..]).Some? {
      assert LeftmostMarkerDir(s, marker, 0);
    } else if s != [] {
      var t := s[1..];
      assert DirAfter(s, marker) == DirAfter(t, marker);
      DirAfterLeftmost(t, marker);
      if DirAfter(t, marker).Some? {
        var i :| 0 <= i <= |t| && LeftmostMarkerDir(t, marker, i)
          && DirAfter(t, marker) == SegmentThenSlash(t[i + |marker|..]);
        assert !MarkerDirAt(s, marker, 0);
        LeftmostShift(s, marker, i);
      }
    }
  }

  /** `WP_PLUGIN_DIR . '/' . $dir . '/' . $name`. */
  function PluginFile(site: Site, dir: string, name: string): string {
    site.pluginDir + "/" + dir + "/" + name
  }

  /** `<dir>/<dir>.php` when it exists, else the first existing alternative, else `<dir>/<dir>.php`. */
  function ResolveMainFile(site: Site, dir: string, alternatives: seq<string>): (r: string)
    ensures var main := PluginFile(site, dir, dir + ".php");
      && (main in site.files ==> r == main)
      && (main !in site.files && (forall j :: 0 <= j < |alternatives| ==> PluginFile(site, dir, alternatives[j]) !in site.files)
          ==> r == main)
      && (main !in site.files ==>
            forall j :: 0 <= j < |alternatives| && PluginFile(site, dir, alternatives[j]) in site.files
              && (forall i :: 0 <= i < j ==> PluginFile(site, dir, alternatives[i]) !in site.files)
              ==> r == PluginFile(site, dir, alternatives[j]))
  {
    var main := PluginFile(site, dir, dir + ".php");
    FirstExistingIsFirst(site, dir, alternatives, main);
    if main in site.files then main else FirstExisting(site, dir, alternatives, main)
  }

  function FirstExisting(site: Site, dir: string, alternatives: seq<string>, default: string): (r: string)
    ensures r == default || r in site.files
  {
    if alternatives == [] then default
    else
      var candidate := PluginFile(site, dir, alternatives[0]);
      if candidate in site.files then candidate else FirstExisting(site, dir, alternatives[1..], default)
  }

  /** The `foreach ... break` over the alternatives: the first one that exists, or the default. */
  lemma {:induction false} FirstExistingIsFirst(site: Site, dir: string, alternatives: seq<string>, default: string)
    ensures (forall j :: 0 <= j < |alternatives| ==> PluginFile(site, dir, alternatives[j]) !in site.files)
            ==> FirstExisting(site, dir, alternatives, default) == default
    ensures forall j :: 0 <= j < |alternatives| && PluginFile(site, dir, alternatives[j]) in site.files
              && (forall i :: 0 <= i < j ==> PluginFile(site, dir, alternatives[i]) !in site.files)
              ==> FirstExisting(site, dir, alternatives, default) == PluginFile(site, dir, alternatives[j])
    decreases |alternatives|
  {
    if alternatives != [] {
      var rest := alternatives[1..];
      FirstExistingIsFirst(site, dir, rest, default);
      if PluginFile(site, dir, alternatives[0]) !in site.files {
        assert forall j :: 1 <= j < |alternatives| ==> alternatives[j] == rest[j - 1];
      }
    }
  }

  /** The plugin header's Name of the resolved main file, when get_plugin_data can read a non-empty one. */
  function HeaderName(site: Site, dir: string, alternatives: seq<string>): (r: Option<string>)
    ensures var m := ResolveMainFile(site, dir, alternatives);
      && (r.Some? <==> site.hasGetPluginData && m in site.files && m in site.pluginHeaderNames
                       && !PhpEmpty(site.pluginHeaderNames[m]))
      && (r.Some? ==> r.value == site.pluginHeaderNames[m])
  {
    var main := ResolveMainFile(site, dir, alternatives);
    if site.hasGetPluginData && main in site.files && main in site.pluginHeaderNames
       && !PhpEmpty(site.pluginHeaderNames[main])
    then Some(site.pluginHeaderNames[main])
    else None
  }

  /** `get_plugin_name_from_directory`. */
  function PluginNameFromDirectory(site: Site, dir: string): Option<string> {
    HeaderName(site, dir, ["index.php", "main.php", dir + "-main.php"])
  }

  /** `get_theme_name_from_directory`. */
  function ThemeNameFromDirectory(site: Site, dir: string): (r: Option<string>)
    ensures r.Some? <==> site.hasWpGetTheme && dir in site.themeNames
    ensures r.Some? ==> r.value == site.themeNames[dir]
  {
    if site.hasWpGetTheme && dir in site.themeNames then Some(site.themeNames[dir]) else None
  }

  /** `$name ?: ucwords(...)`: a missing or empty name falls back to the directory. */
  function NameOr(name: Option<string>, dir: string): string {
    if name.Some? && !PhpEmpty(name.value) then name.value else FallbackName(dir)
  }

  /** The URL with its query string and `scheme://host` removed. */
  function CleanSrc(src: string): string {
    StripScheme(StripQuery(src))
  }

  /**
   * `determine_asset_source`: an empty src is core; otherwise a
   * `/wp-content/plugins/<dir>/` match wins over `/wp-content/themes/<dir>/`,
   * and everything else is core.
   */
  function DetermineAssetSource(site: Site, src: string): (r: SourceInfo)
    ensures PhpEmpty(src) ==> r == CoreInfo
    ensures !PhpEmpty(src) ==>
      var plugin := DirAfter(CleanSrc(src), "/wp-content/plugins/");
      var theme := DirAfter(CleanSrc(src), "/wp-content/themes/");
      && (r.source == Plugin <==> plugin.Some?)
      && (r.source == Theme <==> plugin.None? && theme.Some?)
      && (r.source == Core <==> plugin.None? && theme.None?)
      && (plugin.Some? ==> r.sourceName == NameOr(PluginNameFromDirectory(site, plugin.value), plugin.value))
      && (plugin.None? && theme.Some? ==>
            r.sourceName == NameOr(ThemeNameFromDirectory(site, theme.value), theme.value))
    ensures r.source == Core ==> r == CoreInfo
  {
    if PhpEmpty(src) then CoreInfo
    else
      var clean := CleanSrc(src);
      match DirAfter(clean, "/wp-content/plugins/")
      case Some(pluginDir) =>
        SourceInfo(Plugin, NameOr(PluginNameFromDirectory(site, pluginDir), pluginDir))
      case None =>
        match DirAfter(clean, "/wp-content/themes/")
        case Some(themeDir) =>
          SourceInfo(Theme, NameOr(ThemeNameFromDirectory(site, themeDir), themeDir))
        case None => CoreInfo
  }

  /**
   * Any asset under `/wp-content/plugins/<dir>/`, with or without
   * `http(s)://host` in front and whatever follows the directory (path,
   * query string), is attributed to that plugin; when no plugin header name
   * resolves for `dir`, its name is the title-cased directory.
   */
  lemma UnknownPluginAssetName(site: Site, scheme: string, host: string, dir: string, tail: string)
    requires (scheme == "" && host == "")
             || ((scheme == "http://" || scheme == "https://") && host != "" && '/' !in host && '?' !in host)
    requires dir != "" && '/' !in dir && '?' !in dir
    requires PluginNameFromDirectory(site, dir).None?
    ensures DetermineAssetSource(site, scheme + host + "/wp-content/plugins/" + dir + "/" + tail)
            == SourceInfo(Plugin, FallbackName(dir))
  {
    var marker := "/wp-content/plugins/";
    var lead := marker + dir + "/";
    var src := scheme + host + lead + tail;
    assert src == scheme + host + "/wp-content/plugins/" + dir + "/" + tail;
    CleanPluginSrc(scheme, host, lead, tail);
    DirAfterAtStart(marker, dir, StripQuery(tail));
    assert CleanSrc(src) == marker + dir + "/" + StripQuery(tail);
    assert !PhpEmpty(src) by {
      assert |src| >= |lead| > 1;
    }
  }

  /** Cleaning `<origin><lead><tail>` keeps the lead (an absolute path without `?`) and drops the origin and any query. */
  lemma CleanPluginSrc(scheme: string, host: string, lead: string, tail: string)
    requires (scheme == "" && host == "")
             || ((scheme == "http://" || scheme == "https://") && host != "" && '/' !in host && '?' !in host)
    requires |lead| > 0 && lead[0] == '/' && '?' !in lead
    ensures CleanSrc(scheme + host + lead + tail) == lead + StripQuery(tail)
  {
    var origin := scheme + host;
    assert '?' !in origin;
    var pre := origin + lead;
    assert '?' !in pre;
    StripQueryAfter(pre, tail);
    var q := StripQuery(tail);
    var clean := lead + q;
    assert pre + q == origin + clean;
    StripOrigin(scheme, host, clean);
  }

  /** `preg_replace('/^https?:\/\/[^\/]+/', '', ...)` removes exactly the scheme and host of an absolute path. */
  lemma StripOrigin(scheme: string, host: string, path: string)
    requires (scheme == "" && host == "")
             || ((scheme == "http://" || scheme == "https://") && host != "" && '/' !in host)
    requires |path| > 0 && path[0] == '/'
    ensures StripScheme(scheme + host + path) == path
  {
    var s := scheme + host + path;
    if scheme == "" {
      assert s == path;
      assert !StartsWith(s, "http://") && !StartsWith(s, "https://") by {
        assert s[0] == '/';
      }
    } else {
      var rest := host + path;
      assert s == scheme + rest;
      if scheme == "http://" {
        assert StartsWith(s, "http://") by { assert s[..7] == scheme; }
      } else {
        assert !StartsWith(s, "http://") by { assert s[4] == 's'; }
        assert StartsWith(s, "https://") by { assert s[..8] == scheme; }
      }
      assert s[|scheme|..] == rest;
      IndexOfAfter(host, path, '/');
      assert IndexOf(path, '/') == Some(0);
      assert IndexOf(rest, '/') == Some(|host|);
      assert rest[|host|..] == path;
    }
  }

  /** At the start of the string the pattern captures the directory right after the marker. */
  lemma DirAfterAtStart(marker: string, dir: string, x: string)
    requires dir != "" && '/' !in dir
    ensures DirAfter(marker + dir + "/" + x, marker) == Some(dir)
  {
    var s := marker + dir + "/" + x;
    assert StartsWith(s, marker) by { assert s[..|marker|] == marker; }
    assert s[|marker|..] == dir + "/" + x;
    DirPrefixSegment(dir, "/" + x);
    assert dir + ("/" + x) == dir + "/" + x;
  }

  lemma DirPrefixSegment(dir: string, tail: string)
    requires dir != "" && '/' !in dir && tail != [] && tail[0] == '/'
    ensures SegmentThenSlash(dir + tail) == Some(dir)
  {
    var s := dir + tail;
    assert s[|dir|] == '/';
    assert s[..|dir|] == dir;
  }

  /** The path of a local asset: a same-site URL mapped onto ABSPATH, or a relative path. */
  function LocalAssetPath(site: Site, src: string): Option<string> {
    if StartsWith(src, "http") then
      if !StartsWith(src, site.siteUrl) then None
      else Some(StripQuery(ReplaceAll(src, site.siteUrl, site.abspath)))
    else Some(StripQuery(site.abspath + TrimLeadingSlashes(src)))
  }

  /**
   * `get_asset_file_size`: null for an empty src or an external URL,
   * otherwise the size of the mapped local file when it exists.
   */
  function AssetFileSize(site: Site, src: string): (r: Option<nat>)
    ensures PhpEmpty(src) ==> r.None?
    ensures StartsWith(src, "http") && !StartsWith(src, site.siteUrl) ==> r.None?
    ensures r.Some? ==> (exists p :: p in site.files && site.files[p] == r.value
                                     && LocalAssetPath(site, src) == Some(p))
    ensures !PhpEmpty(src) && LocalAssetPath(site, src).Some? && LocalAssetPath(site, src).value in site.files
            ==> r.Some?
  {
    if PhpEmpty(src) then None
    else match LocalAssetPath(site, src)
      case None => None
      case Some(p) => if p in site.files then Some(site.files[p]) else None
  }

  /** The five request kinds of `categorize_request`. */
  datatype RequestType = PageRequest | AssetRequest | ImageRequest | ApiRequest | FeedRequest

  predicate EndsWithAny(u: string, suffixes: seq<string>) {
    exists suf :: suf in suffixes && EndsWith(u, suf)
  }

  /** `categorize_request`: the first matching rule wins, `page` when none matches. */
  function CategorizeRequest(uri: string): (r: RequestType)
    ensures var asset := EndsWithAny(Lower(uri), [".css", ".js"]);
            var image := EndsWithAny(Lower(uri), [".png", ".jpg", ".jpeg", ".gif", ".svg", ".ico"]);
            var api := Contains(uri, "/wp-json/");
            var feed := Contains(uri, "/feed/") || Contains(uri, "/rss");
            && (r == AssetRequest <==> asset)
            && (r == ImageRequest <==> !asset && image)
            && (r == ApiRequest <==> !asset && !image && api)
            && (r == FeedRequest <==> !asset && !image && !api && feed)
            && (r == PageRequest <==> !asset && !image && !api && !feed)
  {
    if EndsWithAny(Lower(uri), [".css", ".js"]) then AssetRequest
    else if EndsWithAny(Lower(uri), [".png", ".jpg", ".jpeg", ".gif", ".svg", ".ico"]) then ImageRequest
    else if Contains(uri, "/wp-json/") then ApiRequest
    else if Contains(uri, "/feed/") || Contains(uri, "/rss") then FeedRequest
    else PageRequest
  }

  function RequestTypeName(t: RequestType): string {
    match t
    case PageRequest => "page"
    case AssetRequest => "asset"
    case ImageRequest => "image"
    case ApiRequest => "api"
    case FeedRequest => "feed"
  }

  /** Each WordPress conditional tag, true when the function exists and returns true. */
  datatype PageConditions = PageConditions(
    isHome: bool, isFrontPage: bool, isSingle: bool, isPage: bool, isCategory: bool,
    isTag: bool, isArchive: bool, isSearch: bool, is404: bool)

  /** `get_page_type`: the label of the first conditional that holds. */
  function PageType(c: PageConditions): (r: string)
    ensures r == "Home" <==> c.isHome
    ensures r == "Front Page" <==> !c.isHome && c.isFrontPage
    ensures r == "Single Post" <==> !c.isHome && !c.isFrontPage && c.isSingle
    ensures r == "Page" <==> !c.isHome && !c.isFrontPage && !c.isSingle && c.isPage
    ensures r == "Category" <==> !c.isHome && !c.isFrontPage && !c.isSingle && !c.isPage && c.isCategory
    ensures r == "Tag" <==>
      !c.isHome && !c.isFrontPage && !c.isSingle && !c.isPage && !c.isCategory && c.isTag
    ensures r == "Archive" <==>
      !c.isHome && !c.isFrontPage && !c.isSingle && !c.isPage && !c.isCategory && !c.isTag && c.isArchive
    ensures r == "Search" <==>
      !c.isHome && !c.isFrontPage && !c.isSingle && !c.isPage && !c.isCategory && !c.isTag && !c.isArchive
      && c.isSearch
    ensures r == "404" <==>
      !c.isHome && !c.isFrontPage && !c.isSingle && !c.isPage && !c.isCategory && !c.isTag && !c.isArchive
      && !c.isSearch && c.is404
    ensures r == "Unknown" <==>
      !(c.isHome || c.isFrontPage || c.isSingle || c.isPage || c.isCategory
        || c.isTag || c.isArchive || c.isSearch || c.is404)
  {
    if c.isHome then "Home"
    else if c.isFrontPage then "Front Page"
    else if c.isSingle then "Single Post"
    else if c.isPage then "Page"
    else if c.isCategory then "Category"
    else if c.isTag then "Tag"
    else if c.isArchive then "Archive"
    else if c.isSearch then "Search"
    else if c.is404 then "404"
    else "Unknown"
  }

  /** A file under the active (parent or child) theme directory. */
  predicate InActiveTheme(site: Site, file: string) {
    StartsWith(file, site.templateDir)
    || (site.stylesheetDir != site.templateDir && StartsWith(file, site.stylesheetDir))
  }

  /** The relative path below WP_PLUGIN_DIR, as `str_replace(WP_PLUGIN_DIR . '/', '', $file)`. */
  function PluginRelativePath(site: Site, file: string): string {
    ReplaceAll(file, site.pluginDir + "/", "")
  }

  /** `explode('/', $rel)[0]`: everything before the first `/`, or all of `rel`. */
  function FirstSegment(rel: string): (r: string)
    ensures '/' !in r && StartsWith(rel, r)
    ensures '/' in rel ==> StartsWith(rel, r + "/")
  {
    match IndexOf(rel, '/')
    case Some(k) => assert rel[..k + 1] == rel[..k] + "/"; rel[..k]
    case None => rel
  }

  /** The main-file candidates `is_plugin_active` is asked about for a plugin directory. */
  function MainFileCandidates(dir: string): seq<string> {
    [dir + "/" + dir + ".php", dir + "/index.php", dir + "/main.php", dir + "/" + dir + "-main.php"]
  }

  /**
   * `is_plugin_active` of the collector: theme and must-use files always
   * count; a plugin file counts when one of its main-file candidates (or the
   * single file itself) is an active plugin; anything else does not.
   */
  function IsPluginActive(site: Site, file: string): (r: bool)
    ensures InActiveTheme(site, file) ==> r
    ensures StartsWith(file, site.muPluginDir) ==> r
    ensures (!InActiveTheme(site, file) && !StartsWith(file, site.muPluginDir)
             && !StartsWith(file, site.pluginDir)) ==> !r
  {
    if InActiveTheme(site, file) then true
    else if StartsWith(file, site.muPluginDir) then true
    else if StartsWith(file, site.pluginDir) then
      var rel := PluginRelativePath(site, file);
      if '/' in rel then
        site.hasIsPluginActive && exists m :: m in MainFileCandidates(FirstSegment(rel)) && m in site.activePlugins
      else
        site.hasIsPluginActive && rel in site.activePlugins
    else false
  }

  /**
   * `get_plugin_name_from_file`: a plugin directory's header name or its
   * title-cased directory; a single-file plugin's title-cased file name; the
   * active theme's name (or "Theme"); otherwise the base name without `.php`.
   */
  function PluginNameFromFile(site: Site, file: string): (r: string)
    ensures (!StartsWith(file, site.pluginDir)
             && (StartsWith(file, site.templateDir) || StartsWith(file, site.stylesheetDir)))
            ==> r == (if PhpEmpty(site.activeThemeName) then "Theme" else site.activeThemeName)
    ensures (!StartsWith(file, site.pluginDir) && !StartsWith(file, site.templateDir)
             && !StartsWith(file, site.stylesheetDir)) ==> r == BasenameWithout(file, ".php")
  {
    if StartsWith(file, site.pluginDir) then
      var rel := PluginRelativePath(site, file);
      if '/' in rel then
        var dir := FirstSegment(rel);
        NameOr(HeaderName(site, dir, [dir + ".php", "index.php", "main.php", dir + "-main.php"]), dir)
      else
        UcWords(ReplaceAll(ReplaceChar(ReplaceChar(rel, '-', ' '), '_', ' '), ".php", ""))
    else if StartsWith(file, site.templateDir) || StartsWith(file, site.stylesheetDir) then
      if PhpEmpty(site.activeThemeName) then "Theme" else site.activeThemeName
    else BasenameWithout(file, ".php")
  }

  /** Removing the absolute `WP_PLUGIN_DIR/` prefix leaves the rest, in which a prefix without `/` is untouched. */
  lemma RelativeOfPluginFile(site: Site, lead: string, tail: string)
    requires |site.pluginDir| > 0 && site.pluginDir[0] == '/'
    requires '/' !in lead
    ensures PluginRelativePath(site, site.pluginDir + "/" + lead + tail)
            == lead + ReplaceAll(tail, site.pluginDir + "/", "")
  {
    var pat := site.pluginDir + "/";
    var file := site.pluginDir + "/" + lead + tail;
    assert file == pat + (lead + tail);
    assert StartsWith(file, pat);
    assert file[|pat|..] == lead + tail;
    ReplaceAllSkip(lead, tail, pat, "");
  }

  lemma FirstSegmentOf(dir: string, x: string)
    requires '/' !in dir
    ensures '/' in dir + "/" + x
    ensures FirstSegment(dir + "/" + x) == dir
  {
    var rel := dir + "/" + x;
    assert rel[|dir|] == '/';
    var k := IndexOf(rel, '/').value;
    assert rel[..|dir|] == dir;
    assert k == |dir|;
    assert rel[..k] == dir;
  }

  /** The relative path of `<WP_PLUGIN_DIR>/<dir>/<rest>` keeps `<dir>/` in front. */
  lemma RelativeOfDirectoryFile(site: Site, dir: string, rest: string)
    requires |site.pluginDir| > 0 && site.pluginDir[0] == '/'
    requires '/' !in dir
    requires !StartsWith("/" + rest, site.pluginDir + "/")
    ensures PluginRelativePath(site, site.pluginDir + "/" + dir + "/" + rest)
            == dir + "/" + ReplaceAll(rest, site.pluginDir + "/", "")
  {
    var pat := site.pluginDir + "/";
    var tail := "/" + rest;
    var x := ReplaceAll(rest, pat, "");
    assert site.pluginDir + "/" + dir + "/" + rest == site.pluginDir + "/" + dir + tail;
    RelativeOfPluginFile(site, dir, tail);
    assert ReplaceAll(tail, pat, "") == "/" + x by {
      assert tail[1..] == rest;
    }
    assert dir + ("/" + x) == dir + "/" + x;
  }

  /** The relative path of `<WP_PLUGIN_DIR>/<dir>/<rest>` has `dir` as its first segment. */
  lemma PluginDirectoryRelative(site: Site, dir: string, rest: string)
    requires |site.pluginDir| > 0 && site.pluginDir[0] == '/'
    requires '/' !in dir
    requires !StartsWith("/" + rest, site.pluginDir + "/")
    ensures var file := site.pluginDir + "/" + dir + "/" + rest;
      var rel := PluginRelativePath(site, file);
      StartsWith(file, site.pluginDir) && '/' in rel && FirstSegment(rel) == dir
  {
    var file := site.pluginDir + "/" + dir + "/" + rest;
    RelativeOfDirectoryFile(site, dir, rest);
    FirstSegmentOf(dir, ReplaceAll(rest, site.pluginDir + "/", ""));
    assert file[..|site.pluginDir|] == site.pluginDir;
  }

  /**
   * A file `<WP_PLUGIN_DIR>/<dir>/<rest>` of a multi-file plugin (WP_PLUGIN_DIR
   * being an absolute path, and `rest` not repeating it right after the
   * directory): the relative path starts with `<dir>/`, the file counts as
   * active exactly when one of the four main-file candidates of `dir` is an
   * active plugin, and its name is the header name of `dir` or the
   * title-cased directory.
   */
  lemma PluginDirectoryFile(site: Site, dir: string, rest: string)
    requires |site.pluginDir| > 0 && site.pluginDir[0] == '/'
    requires dir != "" && '/' !in dir
    requires !StartsWith("/" + rest, site.pluginDir + "/")
    ensures var file := site.pluginDir + "/" + dir + "/" + rest;
      && FirstSegment(PluginRelativePath(site, file)) == dir
      && (!InActiveTheme(site, file) && !StartsWith(file, site.muPluginDir) ==>
            (IsPluginActive(site, file) <==>
               site.hasIsPluginActive && exists m :: m in MainFileCandidates(dir) && m in site.activePlugins))
      && PluginNameFromFile(site, file)
         == NameOr(HeaderName(site, dir, [dir + ".php", "index.php", "main.php", dir + "-main.php"]), dir)
  {
    PluginDirectoryRelative(site, dir, rest);
  }

  /** The relative path of a single-file plugin `<WP_PLUGIN_DIR>/<name>.php` is `<name>.php`. */
  lemma SingleFileRelative(site: Site, name: string)
    requires |site.pluginDir| > 0 && site.pluginDir[0] == '/'
    requires '/' !in name
    ensures var file := site.pluginDir + "/" + name + ".php";
      StartsWith(file, site.pluginDir) && PluginRelativePath(site, file) == name + ".php"
  {
    var file := site.pluginDir + "/" + name + ".php";
    var base := name + ".php";
    assert file == site.pluginDir + "/" + base + "";
    RelativeOfPluginFile(site, base, "");
    assert file[..|site.pluginDir|] == site.pluginDir;
  }

  /**
   * A single-file plugin `<WP_PLUGIN_DIR>/<name>.php`: outside the active
   * theme and the must-use directory it counts as active exactly when
   * is_plugin_active exists and `<name>.php` is an active plugin.
   */
  lemma SingleFilePluginActive(site: Site, name: string)
    requires |site.pluginDir| > 0 && site.pluginDir[0] == '/'
    requires '/' !in name
    ensures var file := site.pluginDir + "/" + name + ".php";
      !InActiveTheme(site, file) && !StartsWith(file, site.muPluginDir) ==>
        (IsPluginActive(site, file) <==> site.hasIsPluginActive && name + ".php" in site.activePlugins)
  {
    SingleFileRelative(site, name);
  }

  /**
   * The display name of a single-file plugin `<WP_PLUGIN_DIR>/<name>.php`
   * whose name holds no `.php` of its own: the name title-cased like a
   * directory.
   */
  lemma SingleFilePluginName(site: Site, name: string)
    requires |site.pluginDir| > 0 && site.pluginDir[0] == '/'
    requires '/' !in name && !Contains(name, ".php")
    ensures PluginNameFromFile(site, site.pluginDir + "/" + name + ".php") == FallbackName(name)
  {
    SingleFileRelative(site, name);
    SingleFileName(name);
  }

  /** `ucwords(str_replace(['-', '_', '.php'], [' ', ' ', ''], "<name>.php"))` for a name without `.php`. */
  lemma SingleFileName(name: string)
    requires !Contains(name, ".php")
    ensures UcWords(ReplaceAll(ReplaceChar(ReplaceChar(name + ".php", '-', ' '), '_', ' '), ".php", ""))
            == FallbackName(name)
  {
    var dashless := ReplaceChar(name, '-', ' ');
    var spacedName := ReplaceChar(dashless, '_', ' ');
    ReplaceCharAppend(name, ".php", '-', ' ');
    ReplaceCharAbsent(".php", '-', ' ');
    ReplaceCharAppend(dashless, ".php", '_', ' ');
    ReplaceCharAbsent(".php", '_', ' ');
    assert ReplaceChar(ReplaceChar(name + ".php", '-', ' '), '_', ' ') == spacedName + ".php";
    ReplaceCharKeepsAbsent(name, ".php", '-', ' ');
    ReplaceCharKeepsAbsent(dashless, ".php", '_', ' ');
    assert ".php"[0] !in ".php"[1..];
    ReplaceAllFinal(spacedName, ".php", "");
    assert spacedName + "" == spacedName;
  }
}
