# InstaPulse in Dafny

InstaPulse is a WordPress performance monitor. A must-use plugin decides per
request, by sampling, whether to profile it. On a sampled request it:

- times every plugin file PHP includes, through a `file://` stream wrapper;
- records the enqueued and inline assets and the slow database queries;
- saves one profile at shutdown.

The admin side reads the stored profiles back and aggregates them per
plugin. From the aggregate it derives the insights and the CSV export.

This project models that core in Dafny and proves what each part promises.

| file | module | what it models |
|---|---|---|
| `text.dfy` | `Wrappers`, `Text` | `Option`, and the PHP string functions the core uses (`empty`, `substr`, `strpos`, `ucwords`, `basename`, ...) |
| `sampler.dfy` | `Sampler` | the sampling gate `should_profile_request` |
| `classify.dfy` | `Classify` | plugin/theme ownership of files and asset URLs, plugin activity, asset size, request category and page type |
| `records.dfy` | `Records` | the records of a profile: plugin timings, assets, slow queries |
| `collector.dfy` | `Collector` | the collector object `InstaPulse_MU`: a class whose hook methods update its timings, assets and slow queries, and the save at shutdown |
| `interceptor.dfy` | `Interceptor` | the stream wrapper: the static registration state as a class `Runtime`, each open stream as a class `Stream` |
| `store.dfy` | `Store` | the database class's writes: row construction, truncation, and the parent-then-children insert sequence |
| `aggregate.dfy` | `Aggregate` | `get_aggregated_data`: sums, averages and the sort by average time, as a method proved against recursive reference definitions |
| `settings.dfy` | `Settings` | the profiler class: option sanitising, sample-rate defaults, confidence levels, insights, CSV export |
| `activation.dfy` | `Activation` | the main plugin file: the `active_plugins` reorder on activation, the MU-install decision, the request start time, the admin page's display conversion |

The model follows the code where it differs from the documentation:

- The sample-rate defaults really disagree: 2 in the gate and in the
  database class, 5 in the profiler class
  (`Settings.SampleRateDefaultsDiffer`).
- The sixth ignored-URI pattern really needs a slash before the dot, so a
  root-level `/logo.png` is not ignored (`Sampler.RootImageNotIgnored`).
- `get_aggregated_data` never sets a confidence level. So the insights
  report the fallback "Low" and the CSV's last cell is null.

## Model

| member | source | states |
|---|---|---|
| Sampler.ShouldProfileRequest | mu-plugin/0-instapulse.php:62-115 | the first exclusion rule that fires answers false and keeps the initial rate 2 and threshold 50; otherwise the options are read (rate default 2, threshold default 50) and the answer is exactly `draw <= rate` |
| Sampler.RateExtremes | mu-plugin/0-instapulse.php:109-114 | for a request no rule excludes, a rate of 100 or more always profiles and a rate of 0 or less never does |
| Sampler.SamplingProbability | mu-plugin/0-instapulse.php:109-114 | of the 100 possible draws, exactly clamp(rate, 0, 100) profile a non-excluded request |
| Sampler.FaviconNeverProfiled | mu-plugin/0-instapulse.php:76-91 | a request whose URI contains `/favicon.ico` anywhere, in any letter case, is never profiled, whatever the rate or the draw |
| Sampler.RootImageNotIgnored | mu-plugin/0-instapulse.php:83-84 | as written, the extension pattern needs `/.` before the extension, so `/logo.png` passes the asset patterns |
| Sampler.OptionOr | mu-plugin/0-instapulse.php:110-111 | an option that is set is read as is; an unset one gives the default |
| Classify.FallbackNameAt | mu-plugin/0-instapulse.php:407 | the fallback display name turns `-` and `_` into spaces, upper-cases each word's first letter and changes nothing else |
| Classify.DirAfter | mu-plugin/0-instapulse.php:399-400 | a captured directory is non-empty, contains no `/`, and occurs after the marker and before a `/` |
| Classify.DirAfterNone | mu-plugin/0-instapulse.php:399-400 | no capture exactly when the pattern matches at no position |
| Classify.DirAfterLeftmost | mu-plugin/0-instapulse.php:399-400 | when there is a capture, it is the directory of the leftmost match |
| Classify.ResolveMainFile | mu-plugin/0-instapulse.php:437-449 | `<dir>/<dir>.php` when it exists; otherwise the first alternative that exists, in the listed order; `<dir>/<dir>.php` when none does |
| Classify.FirstExistingIsFirst | mu-plugin/0-instapulse.php:441-448 | the alternatives loop stops at the first existing file, and yields the default when none exists |
| Classify.HeaderName | mu-plugin/0-instapulse.php:451-458 | a name is returned exactly when get_plugin_data exists, the resolved main file exists and its header Name is non-empty, and it is that Name |
| Classify.ThemeNameFromDirectory | mu-plugin/0-instapulse.php:464-473 | a name is returned exactly when wp_get_theme exists and the theme exists, and it is that theme's Name |
| Classify.DetermineAssetSource | mu-plugin/0-instapulse.php:389-431 | an empty src is core; otherwise a plugins-directory match wins over a themes-directory match, each naming its directory's owner or the title-cased directory; anything else is core |
| Classify.UnknownPluginAssetName | mu-plugin/0-instapulse.php:389-408 | any asset URL whose path starts with `/wp-content/plugins/<dir>/`, with or without scheme and host and whatever follows, is attributed to that plugin, named by the title-cased directory when no header name resolves |
| Classify.AssetFileSize | mu-plugin/0-instapulse.php:478-506 | null for an empty or external src; otherwise the size of the existing local file the URL maps to |
| Classify.CategorizeRequest | mu-plugin/0-instapulse.php:710-724 | asset, image, api, feed or page by the first rule that matches, case-insensitively for extensions |
| Classify.PageType | mu-plugin/0-instapulse.php:729-758 | each of the nine labels exactly when its conditional holds and none of the earlier ones does; "Unknown" exactly when none holds |
| Classify.IsPluginActive | mu-plugin/0-instapulse.php:550-597 | theme and must-use files always count; a file outside the theme, must-use and plugin directories never counts (the plugin-directory cases are stated by Classify.PluginDirectoryFile and Classify.SingleFilePluginActive) |
| Classify.PluginNameFromFile | mu-plugin/0-instapulse.php:602-655 | the theme's name or "Theme" for theme files outside the plugin directory; the base name without `.php` for files outside the plugin and theme directories (the plugin-directory names are stated by Classify.PluginDirectoryFile and Classify.SingleFilePluginName) |
| Classify.PluginDirectoryFile | mu-plugin/0-instapulse.php:566-640 | for `<plugin dir>/<dir>/<rest>`: the relative path's first segment is `dir`, the file is active iff a main-file candidate of `dir` is, and its name is `dir`'s header name or title-cased directory |
| Classify.SingleFilePluginActive | mu-plugin/0-instapulse.php:566-597 | for `<plugin dir>/<name>.php` with any name without `/`: outside the theme and must-use directories, active iff is_plugin_active exists and `<name>.php` is an active plugin |
| Classify.SingleFilePluginName | mu-plugin/0-instapulse.php:602-644 | for `<plugin dir>/<name>.php` with a name without `/` and without `.php` of its own: the name with `-` and `_` as spaces, title-cased |
| Collector.Accumulate | mu-plugin/0-instapulse.php:519-545 | adds the file's time and one file to the plugin; takes the memory snapshot only on the plugin's first file; memory is the growth since then, floored at 0; other plugins unchanged |
| Collector.RecordLoad | mu-plugin/0-instapulse.php:511-518 | a file of an inactive plugin changes nothing; an active one is accumulated under the plugin's name |
| Collector.RecordAllAccumulates | mu-plugin/0-instapulse.php:511-545 | after any run of includes a plugin is timed iff it was already timed or an include belongs to it; its time and file count are the sums over its includes |
| Collector.Stamp | mu-plugin/0-instapulse.php:266-291 | the record goes under its handle with the next counter value; other keys and the existing order are kept |
| Collector.NewAsset | mu-plugin/0-instapulse.php:263-289 | the record holds handle, type and load order; a registered handle adds its src, version and dependencies, the source and source name `determine_asset_source` gives, and the file size, and a script adds its footer flag |
| Collector.TrackAssetStep | mu-plugin/0-instapulse.php:258-292 | an already-tracked handle is never modified; a new handle gets load order = previous counter + 1 |
| Collector.CaptureQueueKeys | mu-plugin/0-instapulse.php:241-252 | after a queue walk the table holds the old handles untouched plus every queued handle, each new one with a load order above the old counter |
| Collector.CaptureEnqueued | mu-plugin/0-instapulse.php:233-253 | scripts then styles: the table holds exactly the old and the queued handles, and old entries are untouched |
| Collector.ScriptHandleStaysScript | mu-plugin/0-instapulse.php:241-252 | a handle in the script queue is recorded as a script even when a style shares it |
| Collector.PatchSrc | mu-plugin/0-instapulse.php:303-321 | only the src of an already-tracked handle changes; keys, order, counter and every other field stay |
| Collector.InlineAsset | mu-plugin/0-instapulse.php:339-350 | an inline record: `<handle>_inline`, null src, core origin, exactly the first 1000 characters of the data (all of it when shorter), full length as size |
| Collector.CaptureInlineKeys | mu-plugin/0-instapulse.php:336-383 | an inline capture adds exactly the `<handle>_inline` keys of the non-empty items |
| Collector.CaptureInlineEntry | mu-plugin/0-instapulse.php:338-350 | each non-empty item ends up under its key with its content, length and a load order above the counter before the capture, overwriting any earlier entry |
| Collector.SlowFromLogMembers | mu-plugin/0-instapulse.php:187-198 | exactly the log entries with time×1000 strictly over the threshold are reported, with caller "Unknown" when missing |
| Collector.SlowQueriesFound | mu-plugin/0-instapulse.php:186-209 | with SAVEQUERIES and a log, the slow entries; otherwise one placeholder record iff more than 20 queries ran |
| Collector.AssetList | mu-plugin/0-instapulse.php:785 | the assets in insertion order, one per key |
| Collector.ProfileOf | mu-plugin/0-instapulse.php:769-786 | total time is (now − start)×1000; memory is the peak; plugins, slow queries and rate are the collector's; assets are in insertion order; the timestamp is the given one; the URI and user agent are the server's values or empty, the method the server's or GET, the request type is classified from the URI, the page type and query count are WordPress's |
| Collector.SavedProfileRow | mu-plugin/0-instapulse.php:776-782 | the stored row has the URI (empty when unset) cut to 500, the request type classified from it, the page type, the method defaulting to GET and the query count |
| Collector.Collector.constructor | mu-plugin/0-instapulse.php:48-57 | the start time is kept; the gate's answer, rate and threshold become the fields; everything else starts empty |
| Collector.Collector.RecordPluginLoad | mu-plugin/0-instapulse.php:511-545 | the timings become RecordLoad of the old timings; assets and slow queries unchanged; the invariant is kept |
| Collector.Collector.TrackAsset | mu-plugin/0-instapulse.php:258-292 | the table becomes TrackAssetStep of the old table |
| Collector.Collector.CaptureEnqueuedAssets | mu-plugin/0-instapulse.php:233-253 | unprofiled: nothing; profiled: the table becomes CaptureEnqueued of the old one, with its invariant |
| Collector.Collector.TrackScriptTag | mu-plugin/0-instapulse.php:297-308 | the tag is returned unchanged; when profiled, a tracked handle takes the printed src |
| Collector.Collector.TrackStyleTag | mu-plugin/0-instapulse.php:313-324 | the tag is returned unchanged; when profiled, a tracked handle takes the printed href |
| Collector.Collector.CaptureInlineScripts | mu-plugin/0-instapulse.php:329-354 | when profiled, the table becomes CaptureInline of the script items as `js` |
| Collector.Collector.CaptureInlineStyles | mu-plugin/0-instapulse.php:359-384 | when profiled, the table becomes CaptureInline of the style items as `css` |
| Collector.Collector.FinalizeQueryMonitoring | mu-plugin/0-instapulse.php:179-210 | the slow queries grow by exactly SlowQueriesFound when profiled, and by nothing otherwise |
| Collector.Collector.SaveProfilingData | mu-plugin/0-instapulse.php:764-803 | unprofiled: nothing, database untouched; profiled: the transient is always the assembled profile, and when the database is present it ends in the state `insert_profile` leaves (Store.Database.ProfileInserted): the profile row attempted first, and when refused no id and nothing else; otherwise the next id, the slow-query rows then the asset rows attempted, and every row not refused kept |
| Interceptor.Toggle | includes/class-stream-wrapper.php:347-364 | an active toggle restores the native wrapper, makes the call, then unregisters and re-registers this class; an inactive one only calls |
| Interceptor.ToggleRestoresOurs | includes/class-stream-wrapper.php:347-364 | after an active toggle this class is registered again, and every native call inside it runs under PHP's own wrapper |
| Interceptor.ReplayAppend | includes/class-stream-wrapper.php:35-68 | replaying a concatenation replays the second part from where the first left off |
| Interceptor.ActiveRunKeepsOurs | includes/class-stream-wrapper.php:347-452 | however many delegating methods run while active, this class stays registered after each |
| Interceptor.ReplayCallsOnly | includes/class-stream-wrapper.php:73-108 | native calls alone never change the registration |
| Interceptor.IsTrackableFile | includes/class-stream-wrapper.php:212-254 | trackable iff non-empty, not a skipped file name, outside wp-includes and wp-admin, ending in `.php`, and under the plugin, themes or must-use directory |
| Interceptor.InactiveThemeFileDropped | includes/class-stream-wrapper.php:241-245 | a file of an inactive theme passes the trackability filter but is never recorded as active |
| Interceptor.MemoryUsed | includes/class-stream-wrapper.php:265-276 | the charged memory is never negative, is at least the peak growth and the current growth, and is one of 0 or those growths |
| Interceptor.MetadataCall | includes/class-stream-wrapper.php:317-333 | a native call (touch, chown for either owner code, chgrp for either group code, chmod) is made exactly for the six `STREAM_META_*` codes |
| Interceptor.Runtime.constructor | includes/class-stream-wrapper.php:21-23 | PHP's wrapper is registered, the flag is off, there is no profiler and no history |
| Interceptor.Runtime.Init | includes/class-stream-wrapper.php:35-58 | nothing when already active; otherwise the profiler is kept and, when the functions exist, this class replaces PHP's wrapper; on a failed registration PHP's wrapper is put back and the flag stays off; the invariant kept includes that the profiler, given for the same site, reads the same WordPress constants as the file filter |
| Interceptor.Runtime.Restore | includes/class-stream-wrapper.php:63-68 | when active, PHP's wrapper is put back and the flag cleared; otherwise nothing changes |
| Interceptor.Runtime.Delegate | includes/class-stream-wrapper.php:347-364 | the registration and the flag end as they started, and the history grows by exactly one toggle |
| Interceptor.Stream.StreamOpen | includes/class-stream-wrapper.php:73-108 | the path is noted, and the start time and memory when trackable; `fopen` runs inside one toggle; success iff a handle came back |
| Interceptor.Stream.StreamClose | includes/class-stream-wrapper.php:113-124 | an open trackable stream reports its include to the profiler when over 0.1 ms or 1 KiB; the handle is closed and cleared |
| Interceptor.Stream.TrackFileOperation | includes/class-stream-wrapper.php:259-284 | the include is recorded with the elapsed milliseconds and the charged memory exactly when it crosses a threshold |
| Interceptor.Stream.StreamRead | includes/class-stream-wrapper.php:129-134 | false without a handle, the native result otherwise |
| Interceptor.Stream.StreamWrite | includes/class-stream-wrapper.php:139-144 | 0 without a handle, the native count otherwise |
| Interceptor.Stream.StreamTell | includes/class-stream-wrapper.php:149-154 | false without a handle, the native position otherwise |
| Interceptor.Stream.StreamEof | includes/class-stream-wrapper.php:159-164 | true without a handle, the native answer otherwise |
| Interceptor.Stream.StreamSeek | includes/class-stream-wrapper.php:169-174 | false without a handle, otherwise whether `fseek` returned 0 |
| Interceptor.Stream.StreamStat | includes/class-stream-wrapper.php:179-184 | false without a handle, the native stat otherwise |
| Interceptor.Stream.UrlStat | includes/class-stream-wrapper.php:189-207 | `stat` runs inside one toggle and its result is returned |
| Interceptor.Stream.StreamFlush | includes/class-stream-wrapper.php:289-294 | false without a handle, the native answer otherwise |
| Interceptor.Stream.StreamLock | includes/class-stream-wrapper.php:299-304 | false without a handle, the native answer otherwise |
| Interceptor.Stream.StreamMetadata | includes/class-stream-wrapper.php:309-342 | touch, chown, chgrp or chmod by option code inside one toggle; an unknown code makes no call and answers false |
| Interceptor.Stream.Unlink | includes/class-stream-wrapper.php:347-364 | `unlink` inside one toggle, its result returned |
| Interceptor.Stream.Rename | includes/class-stream-wrapper.php:369-386 | `rename` inside one toggle, its result returned |
| Interceptor.Stream.Mkdir | includes/class-stream-wrapper.php:391-408 | `mkdir` inside one toggle, recursive iff bit 0 of the options is set |
| Interceptor.Stream.Rmdir | includes/class-stream-wrapper.php:413-430 | `rmdir` inside one toggle, its result returned |
| Interceptor.Stream.DirOpendir | includes/class-stream-wrapper.php:435-452 | `opendir` inside one toggle; the handle is kept; success iff one came back |
| Interceptor.Stream.DirReaddir | includes/class-stream-wrapper.php:457-462 | false without a handle, the native entry otherwise |
| Interceptor.Stream.DirRewinddir | includes/class-stream-wrapper.php:467-472 | false without a handle, otherwise null, which is what `rewinddir` returns |
| Interceptor.Stream.DirClosedir | includes/class-stream-wrapper.php:477-482 | true without a handle, otherwise null, which is what `closedir` returns; the handle is not cleared |
| Store.Clip | includes/class-database.php:149-152 | a set value is cut to at most n characters as a prefix, and is unchanged when it fits; unset stays unset |
| Store.ProfileRowOf | includes/class-database.php:143-155 | URI cut to 500 and page type to 100; unset request type, method and query count become page, GET and 0 |
| Store.QueryRowOf | includes/class-database.php:187-194 | SQL cut to 5000 and caller to 255; the URI is null iff unset or falsy, else cut to 500 |
| Store.AssetRowOf | includes/class-database.php:211-225 | handle cut to 100, source name to 255, version to 50, inline content to 65535; in_footer only when set true |
| Store.KeptFacts | includes/class-database.php:186-201 | every kept row was attempted, and with no refusals every attempt is kept |
| Store.SampleRate | includes/class-database.php:541-544 | the stored rate, 2 when unset |
| Store.SlowQueryThreshold | includes/class-database.php:665-668 | the stored threshold, 50 when unset |
| Store.DefaultsMatchSampler | includes/class-database.php:541-668 | the store's defaults are the ones the sampling gate falls back to |
| Store.Database.Insert | includes/class-database.php:159-163 | each attempt is logged; it is kept exactly when the database accepts it |
| Store.Database.InsertSlowQueries | includes/class-database.php:183-202 | one attempt per query, in order, whatever earlier attempts returned |
| Store.Database.InsertAssets | includes/class-database.php:207-233 | one attempt per asset, in order |
| Store.Database.InsertProfile | includes/class-database.php:140-178 | the parent row first; when it is refused, nothing else; otherwise the slow queries, then the assets, and the new id |
| Store.ChildrenPointAtParent | includes/class-database.php:165-175 | every child row attempted for a profile points at that profile's id |
| Aggregate.Expected | includes/class-database.php:393-431 | a plugin's record counts the profiles it appears in (at least one), and each average times that count is the total |
| Aggregate.StatsOfMeaning | includes/class-database.php:393-424 | the first loop keeps exactly the plugins that appear, with the first name, the sums and the appearance count |
| Aggregate.WithAverages | includes/class-database.php:427-431 | each average times the count is its total; nothing else changes |
| Aggregate.AddProfileStats | includes/class-database.php:402-423 | one profile's plugins are added key by key, and the other keys keep their records |
| Aggregate.AverageAll | includes/class-database.php:427-431 | same keys, every record averaged |
| Aggregate.SortByAvgTime | includes/class-database.php:434-436 | non-increasing by average time, each key once, with its own record |
| Aggregate.GetAggregatedData | includes/class-database.php:369-445 | no profiles: zeros and no plugins; otherwise the mean time and memory, one entry per plugin that appears with its totals, count and averages, sorted by average time, largest first |
| Settings.SanitizeOptions | includes/class-profiler.php:62-72 | only `sample_rate` survives, clamped to [1, 100], 5 when not submitted |
| Settings.SanitizeIdempotent | includes/class-profiler.php:62-72 | sanitising twice equals sanitising once |
| Settings.ThresholdDropped | includes/class-profiler.php:62-72 | a submitted slow-query threshold is dropped, so readers fall back to 50 |
| Settings.GetSampleRate | includes/class-profiler.php:99-102 | the stored rate, 5 when unset |
| Settings.SampleRateDefaultsDiffer | includes/class-profiler.php:99-102 | unset: the profiler reads 5 and the database 2; set: both agree |
| Settings.SanitizedRateAgrees | includes/class-profiler.php:62-102 | after sanitising, every reader sees the same rate, in [1, 100] |
| Settings.ConfidenceLevel | includes/class-profiler.php:107-117 | High from 100 samples, Medium from 30, Low from 10, Very Low below, each as an iff |
| Settings.ConfidenceMonotone | includes/class-profiler.php:107-117 | more samples never lower the confidence |
| Settings.DecimalRoundTrip | includes/class-profiler.php:144-145 | the printed count of remaining plugins reads back as the count |
| Settings.SlowPluginNamesMembers | includes/class-profiler.php:134-139 | the slow list holds exactly the names of the plugins averaging over 50 ms |
| Settings.SlowMessageNames | includes/class-profiler.php:141-146 | the message starts with its lead-in and names the first three slow plugins |
| Settings.SlowMessageCount | includes/class-profiler.php:144-145 | past three, the message ends with " and N more" for the rest; up to three it ends with the whole list |
| Settings.InfoRule | includes/class-profiler.php:126-131 | an info entry iff fewer than 10 profiles |
| Settings.SlowRule | includes/class-profiler.php:134-147 | a slow-plugin warning iff some plugin averages over 50 ms, carrying the message for the slow names |
| Settings.LoadTimeRule | includes/class-profiler.php:150-165 | error over 1000 ms, warning over 500 ms, success otherwise, with the average load time |
| Settings.MemoryRule | includes/class-profiler.php:168-173 | a memory warning iff the average memory is over 100 MiB |
| Settings.OneLoadTimeEntry | includes/class-profiler.php:150-165 | there is always exactly one load-time entry |
| Settings.ExportCsv | includes/class-profiler.php:296-313 | the header, then one row per aggregated plugin in order, with its name, average time, average memory, count and a null confidence |
| Settings.ExportSortedBySpeed | includes/class-profiler.php:296-313 | exported rows come slowest first |
| Activation.MoveToFront | instapulse.php:266-275 | the plugin's basename comes first and appears nowhere else |
| Activation.MoveToFrontKeepsOthers | instapulse.php:266-275 | the basename occurs exactly once; every other entry keeps its multiplicity; the others keep their relative order |
| Activation.MoveToFrontIdempotent | instapulse.php:266-275 | reordering an already reordered list changes nothing |
| Activation.InstallOnlyWhenSafe | instapulse.php:86-107 | the loader is installed iff the user can manage options, no deactivation is signalled by flag or action, the file is missing and the directory writable |
| Activation.RequestStartTime | instapulse.php:121-131 | WP_START_TIMESTAMP if defined, else REQUEST_TIME_FLOAT if set, else now |
| Activation.Put | instapulse.php:205-212 | a keyed assignment to an ordered PHP array: the keys are the old ones plus the new one; a new key is appended; keys stay unique |
| Activation.ConvertForDisplay | instapulse.php:195-212 | the totals are the average load time and memory; exactly the aggregated keys are shown; with distinct keys each shows its average time, average memory and count, in order |

## Left out

- Hook registration, singletons and `init_profiling`/`init_query_monitoring`/`init_asset_monitoring`: they only wire callbacks to WordPress.
- `start_query_timer`: it stores a query start time that nothing reads.
- The disabled `tick_handler`, the checkpoint callbacks and `record_checkpoint`'s transient write: the first is switched off, and the others only write diagnostic transients.
- Clocks, memory readings, the random draw and `current_time('mysql')` are parameters. The must-use constructor's start-time chain is the same one `Activation.RequestStartTime` models, so `Collector.Collector.constructor` takes the start time as an input.
- WordPress lookups are fields of `Classify.Site` (oracles): `file_exists`, `filesize`, `get_plugin_data`, `wp_get_theme`, `is_plugin_active` and the directory constants.
- Regular expressions are modelled as the prefix, substring and suffix tests they amount to, with ASCII case folding. There is no Unicode handling, and `strlen` counts characters rather than bytes.
- SQL: table creation, `table_exists`, the SELECTs and the JSON encoding of columns. The aggregation takes the fetched rows (at most the LIMIT, newest first) with `plugin_data` already decoded. A row whose JSON does not decode counts as having no plugins.
- Collector.PlaceholderSlowQuery: the fixed record `finalize_query_monitoring` adds without SAVEQUERIES is fabricated placeholder data. It is modelled as written, not as a detection rule.
- Aggregate.SortByAvgTime: from PHP 8.0 `uasort` is stable, so plugins with equal average times keep the order of `$plugin_stats`: first sighting across the newest-first profiles, in each profile's JSON key order. The aggregation keeps its per-plugin records in a map, which has no order, so the model fixes the sorted order only up to ties (and under PHP 7.4, where the sort is not stable, the order of ties is unspecified anyway).
- Classify.UnknownPluginAssetName: the lemma covers asset paths that start at `/wp-content/plugins/`. A WordPress installed in a subdirectory (`https://h/blog/wp-content/plugins/x/a.js`) is matched by the same unanchored pattern and handled by the same definition, but no lemma states it.
- PHP floats are modelled as exact `real` numbers throughout: the stream wrapper's `(microtime(true) - $start) * 1000` and its 0.1 ms gate, the profile's total time, the 50/500/1000 ms thresholds of the insights, the sums and `total / profile_count` averages of `get_aggregated_data`, and the `uasort` comparison on `avg_time`. Rounding, INF and NaN are not modelled. Neither is the result type of PHP's `/`, which gives an int when an integer total divides evenly (`total_memory`, `total_files`, `$total_memory / $total_profiles`) and a float otherwise; the model always gives the exact quotient as a `real`.
- Settings.ExportCsv and the insight messages: `number_format` and `size_format` are not modelled; the cells and messages carry the number itself.
- The admin page template, `admin.js`, `get_recent_requests`, `get_assets_summary`, `get_system_info`, the slow-query statistics and the data clearing: they are display and housekeeping, not the core.
- MU-plugin install, uninstall and their retry loops, the deactivation hook, and the update-checker bootstrap: file copying with sleeps and third-party code. Only the decision to install is modelled (`Activation.InstallOnlyWhenSafe`).
- Interceptor.Runtime.Unregister: `stream_wrapper_unregister` can only fail when nothing is registered, which the invariant excludes. Whether a registration succeeds is the oracle `registrable`.
- Interceptor.Stream.StreamClose: the memory `record_plugin_load` reads for itself is the separate parameter `probeMemory`. The native handle's I/O is not modelled: read, write, seek, stat, flush and lock results are parameters.
- `stream_cast`, `stream_set_option` and the destructor are not part of this model.
- The handle methods `stream_read` to `dir_readdir` are pass-throughs: the native call's answer is a parameter, and the model states only the guard on the handle.
- Interceptor.MetadataCall: `touch`, `chown`, `chgrp` and `chmod` are recorded with the path only. The `$value` argument, and `touch`'s `?? time()` defaults for the modification and access times, are not modelled.
- Records.Asset: the `timestamp` field (`current_time('mysql')`) that `track_asset` and the inline captures set is not part of the record, since the clock is outside the model.
- Classify.PluginDirectoryFile, Classify.SingleFilePluginActive and Classify.SingleFilePluginName assume WP_PLUGIN_DIR is an absolute path (it starts with `/`). PluginDirectoryFile also assumes the rest of the path does not repeat `WP_PLUGIN_DIR/` right after the directory. SingleFilePluginName also assumes the name holds no `.php` of its own, because `str_replace` would remove that one as well (`a.php.php` is named `A`). Under these assumptions `str_replace` removes only the leading directory. Other plugin-directory paths, where `str_replace` also removes later copies of `WP_PLUGIN_DIR/`, are covered only by the definitions of Classify.IsPluginActive and Classify.PluginNameFromFile, not by a lemma.
- Activation.ConvertForDisplay: the per-plugin values are stated for distinct aggregated keys, which `Aggregate.GetAggregatedData` guarantees. With repeated keys the model only states which keys are shown.
