/**
 * The `file://` stream wrapper that times plugin includes
 * (`InstaPulse_Stream_Wrapper`).  The class's static state -- which wrapper is
 * registered for `file`, the `$active` flag and the profiler -- is the
 * `Runtime` object; each opened stream is a `Stream`.  Native calls
 * (`fopen`, `stat`, `unlink`, ...) are recorded in a trace with the wrapper
 * that was registered when they ran; their results are parameters.
 */
module Interceptor {
  import opened Wrappers
  import opened Text
  import opened Classify
  import Collector

  /** What `file` is bound to: PHP's own wrapper, this class, or nothing. */
  datatype Wrapper = Native | Ours | Unbound

  /** The native functions a wrapper method hands work to. */
  datatype NativeCall =
    | Fopen(path: string, mode: string, useIncludePath: bool)
    | Stat(path: string)
    | Touch(path: string)
    | Chown(path: string)
    | Chgrp(path: string)
    | Chmod(path: string)
    | Unlink(path: string)
    | Rename(from: string, to: string)
    | Mkdir(path: string, permissions: int, recursive: bool)
    | Rmdir(path: string)
    | Opendir(path: string)

  /** One step on the `file` registration, or a native call and the wrapper it ran under. */
  datatype Event =
    | RestoreNative                 // stream_wrapper_restore('file')
    | UnregisterFile                // stream_wrapper_unregister('file')
    | RegisterOurs                  // stream_wrapper_register('file', __CLASS__)
    | Call(call: NativeCall, under: Wrapper)

  /** The registration after replaying `events`; registering needs a free slot and a registrable class. */
  function Replay(reg: Wrapper, events: seq<Event>, registrable: bool): Wrapper
    decreases |events|
  {
    if events == [] then reg
    else ReplayStep(Replay(reg, events[..|events| - 1], registrable), events[|events| - 1], registrable)
  }

  /** The registration after one event. */
  function ReplayStep(before: Wrapper, e: Event, registrable: bool): Wrapper {
    match e
    case RestoreNative => Native
    case UnregisterFile => Unbound
    case RegisterOurs => if before == Unbound && registrable then Ours else before
    case Call(_, _) => before
  }

  /**
   * The events of one delegating method: when the wrapper is active, restore
   * the native wrapper, make the call (if any), then unregister and register
   * this class again; when it is not, only the call.
   */
  function Toggle(active: bool, call: Option<NativeCall>, reg: Wrapper): (r: seq<Event>)
    ensures active ==> |r| >= 3 && r[0] == RestoreNative && r[|r| - 2] == UnregisterFile && r[|r| - 1] == RegisterOurs
    ensures !active ==> forall e :: e in r ==> e.Call?
  {
    var calls := if call.Some? then [Call(call.value, if active then Native else reg)] else [];
    if active then [RestoreNative] + calls + [UnregisterFile, RegisterOurs] else calls
  }

  /**
   * An active toggle ends with this class registered again, and every native
   * call inside it runs under PHP's own wrapper.
   */
  lemma ToggleRestoresOurs(call: Option<NativeCall>, reg: Wrapper, registrable: bool)
    requires registrable
    ensures Replay(reg, Toggle(true, call, reg), true) == Ours
    ensures forall i :: 0 <= i < |Toggle(true, call, reg)| && Toggle(true, call, reg)[i].Call? ==>
      Replay(reg, Toggle(true, call, reg)[..i], true) == Native && Toggle(true, call, reg)[i].under == Native
  {
    var t := Toggle(true, call, reg);
    assert t[..1] == [RestoreNative];
    assert t[..|t| - 1][..|t| - 2] == t[..|t| - 2];
    assert Replay(reg, t[..|t| - 2], true) == Native by {
      if call.Some? {
        assert t[..2][..1] == t[..1];
      }
    }
  }

  /** Replaying a concatenation replays the second part from where the first left off. */
  lemma {:induction false} ReplayAppend(reg: Wrapper, a: seq<Event>, b: seq<Event>, registrable: bool)
    ensures Replay(reg, a + b, registrable) == Replay(Replay(reg, a, registrable), b, registrable)
    decreases |b|
  {
    if b != [] {
      var init := b[..|b| - 1];
      assert (a + b)[..|a + b| - 1] == a + init;
      assert (a + b)[|a + b| - 1] == b[|b| - 1];
      ReplayAppend(reg, a, init, registrable);
      assert Replay(reg, (a + b)[..|a + b| - 1], registrable) == Replay(Replay(reg, a, registrable), init, registrable);
    } else {
      assert a + b == a;
    }
  }

  /** The events of a run of delegating methods, all made while the wrapper is active. */
  function ActiveRun(calls: seq<Option<NativeCall>>): seq<Event>
    decreases |calls|
  {
    if calls == [] then [] else ActiveRun(calls[..|calls| - 1]) + Toggle(true, calls[|calls| - 1], Ours)
  }

  /** However many delegating methods run, this class is registered again after each. */
  lemma {:induction false} ActiveRunKeepsOurs(calls: seq<Option<NativeCall>>)
    ensures Replay(Ours, ActiveRun(calls), true) == Ours
    decreases |calls|
  {
    if calls != [] {
      var init := calls[..|calls| - 1];
      ActiveRunKeepsOurs(init);
      ReplayAppend(Ours, ActiveRun(init), Toggle(true, calls[|calls| - 1], Ours), true);
      ToggleRestoresOurs(calls[|calls| - 1], Ours, true);
    }
  }

  /** The file names `is_trackable_file` never tracks. */
  const SkippedBasenames: seq<string> := [".maintenance", ".htaccess", "wp-config.php"]

  /** Under one of the three code directories, as `strpos(...) === 0`. */
  predicate UnderCodeDir(site: Site, path: string) {
    StartsWith(path, site.pluginDir) || StartsWith(path, site.contentDir + "/themes")
    || StartsWith(path, site.muPluginDir)
  }

  /** Under `ABSPATH/wp-includes` or `ABSPATH/wp-admin`. */
  predicate UnderCoreDir(site: Site, path: string) {
    StartsWith(path, site.abspath + "wp-includes") || StartsWith(path, site.abspath + "wp-admin")
  }

  /**
   * `is_trackable_file`: a non-empty path, not one of the skipped file names,
   * outside the core directories, ending in `.php` and under the plugin,
   * themes or must-use directory.
   */
  function IsTrackableFile(site: Site, path: string): (r: bool)
    ensures r <==>
      && !PhpEmpty(path)
      && Basename(path) !in SkippedBasenames
      && !UnderCoreDir(site, path)
      && EndsWith(path, ".php")
      && UnderCodeDir(site, path)
  {
    if PhpEmpty(path) then false
    else if Basename(path) in SkippedBasenames then false
    else if UnderCoreDir(site, path) then false
    else if StartsWith(path, site.pluginDir) && EndsWith(path, ".php") then true
    else if StartsWith(path, site.contentDir + "/themes") && EndsWith(path, ".php") then true
    else if StartsWith(path, site.muPluginDir) && EndsWith(path, ".php") then true
    else false
  }

  /**
   * A file of a theme other than the active one passes the trackability
   * filter, and `is_plugin_active` then drops it, so its include is timed but
   * never recorded.
   */
  lemma InactiveThemeFileDropped(site: Site, path: string)
    requires IsTrackableFile(site, path)
    requires !StartsWith(path, site.pluginDir) && !StartsWith(path, site.muPluginDir)
    requires !InActiveTheme(site, path)
    ensures StartsWith(path, site.contentDir + "/themes")
    ensures !IsPluginActive(site, path)
  {
  }

  function Max(a: int, b: int): int {
    if a >= b then a else b
  }

  /** The memory charged to an include: the larger of the peak and the current growth, floored at zero. */
  function MemoryUsed(startMemory: int, endMemory: int, peakMemory: int): (r: int)
    ensures r >= 0
    ensures r >= peakMemory - startMemory && r >= endMemory - startMemory
    ensures r == 0 || r == peakMemory - startMemory || r == endMemory - startMemory
  {
    Max(Collector.Max0(peakMemory - startMemory), Collector.Max0(endMemory - startMemory))
  }

  /** The filter in front of `record_plugin_load`: over 0.1 ms or over 1 KiB. */
  predicate WorthRecording(loadTime: real, memoryUsed: int) {
    loadTime > 0.1 || memoryUsed > 1024
  }

  /** The class's static state. */
  class Runtime {
    const site: Site
    const functionsAvailable: bool   // the three stream_wrapper_* functions exist
    const registrable: bool          // stream_wrapper_register accepts this class
    var registered: Wrapper
    var active: bool
    var profiler: Collector.Collector?
    var trace: seq<Event>

    /**
     * `$active` says exactly whether this class is the registered wrapper;
     * `file` is never left unbound; the profiler reads the same WordPress
     * constants as the file filter.
     */
    ghost predicate Valid()
      reads this
    {
      && (active <==> registered == Ours)
      && registered != Unbound
      && (active ==> registrable)
      && Replay(Native, trace, registrable) == registered
      && (profiler != null ==> profiler.site == site)
    }

    constructor(site: Site, functionsAvailable: bool, registrable: bool)
      ensures Valid()
      ensures this.site == site && this.functionsAvailable == functionsAvailable && this.registrable == registrable
      ensures registered == Native && !active && profiler == null && trace == []
    {
      this.site := site;
      this.functionsAvailable := functionsAvailable;
      this.registrable := registrable;
      registered := Native;
      active := false;
      profiler := null;
      trace := [];
    }

    method Unregister() returns (ok: bool)
      requires Replay(Native, trace, registrable) == registered
      modifies this
      ensures ok == (old(registered) != Unbound)
      ensures registered == Unbound && trace == old(trace) + [UnregisterFile]
      ensures active == old(active) && profiler == old(profiler)
      ensures Replay(Native, trace, registrable) == registered
    {
      ok := registered != Unbound;
      registered := Unbound;
      trace := trace + [UnregisterFile];
      assert trace[..|trace| - 1] == old(trace);
    }

    method Register() returns (ok: bool)
      requires Replay(Native, trace, registrable) == registered
      modifies this
      ensures ok == (old(registered) == Unbound && registrable)
      ensures registered == if ok then Ours else old(registered)
      ensures trace == old(trace) + [RegisterOurs]
      ensures active == old(active) && profiler == old(profiler)
      ensures Replay(Native, trace, registrable) == registered
    {
      ok := registered == Unbound && registrable;
      if ok {
        registered := Ours;
      }
      trace := trace + [RegisterOurs];
      assert trace[..|trace| - 1] == old(trace);
    }

    method RestoreFile()
      requires Replay(Native, trace, registrable) == registered
      modifies this
      ensures registered == Native && trace == old(trace) + [RestoreNative]
      ensures active == old(active) && profiler == old(profiler)
      ensures Replay(Native, trace, registrable) == registered
    {
      registered := Native;
      trace := trace + [RestoreNative];
      assert trace[..|trace| - 1] == old(trace);
    }

    /**
     * `init`: nothing when already active; otherwise keep the profiler and,
     * if the functions exist, swap this class in for `file`, putting PHP's
     * wrapper back when registration fails.
     */
    method Init(p: Collector.Collector?)
      requires Valid()
      requires p != null ==> p.site == site
      modifies this
      ensures Valid()
      ensures old(active) ==>
        registered == old(registered) && active && profiler == old(profiler) && trace == old(trace)
      ensures !old(active) ==> profiler == p
      ensures !old(active) && !functionsAvailable ==>
        registered == old(registered) && !active && trace == old(trace)
      ensures !old(active) && functionsAvailable ==>
        && active == registrable
        && registered == (if registrable then Ours else Native)
        && trace == old(trace) + (if registrable then [UnregisterFile, RegisterOurs]
                                  else [UnregisterFile, RegisterOurs, RestoreNative])
    {
      if active {
        return;
      }
      profiler := p;
      if !functionsAvailable {
        return;
      }
      var unregistered := Unregister();
      if unregistered {
        var registeredOurs := Register();
        if registeredOurs {
          active := true;
        } else {
          RestoreFile();
        }
      }
    }

    /** `restore`: put PHP's wrapper back and clear the flag, only when active. */
    method Restore()
      requires Valid()
      modifies this
      ensures Valid()
      ensures old(active) ==> !active && registered == Native && trace == old(trace) + [RestoreNative]
      ensures !old(active) ==> !active && registered == old(registered) && trace == old(trace)
      ensures profiler == old(profiler)
    {
      if active {
        RestoreFile();
        active := false;
      }
    }

    /**
     * The pattern every delegating method follows around its native call:
     * the registration and the flag end as they started, and the trace grows
     * by exactly one toggle.
     */
    method Delegate(call: Option<NativeCall>)
      requires Valid()
      modifies this
      ensures Valid()
      ensures registered == old(registered) && active == old(active) && profiler == old(profiler)
      ensures trace == old(trace) + Toggle(old(active), call, old(registered))
    {
      var restored := false;
      if active {
        RestoreFile();
        restored := true;
      }
      if call.Some? {
        trace := trace + [Call(call.value, registered)];
        assert trace[..|trace| - 1] == old(trace) || restored;
      }
      if restored {
        var _ := Unregister();
        var _ := Register();
      }
      assert trace == old(trace) + Toggle(old(active), call, old(registered));
      ReplayAppend(Native, old(trace), Toggle(old(active), call, old(registered)), registrable);
      if old(active) {
        ToggleRestoresOurs(call, old(registered), registrable);
      } else {
        ReplayCallsOnly(old(registered), Toggle(old(active), call, old(registered)), registrable);
      }
    }
  }

  /** Native calls alone leave the registration where it was. */
  lemma {:induction false} ReplayCallsOnly(reg: Wrapper, events: seq<Event>, registrable: bool)
    requires forall e :: e in events ==> e.Call?
    ensures Replay(reg, events, registrable) == reg
    decreases |events|
  {
    if events != [] {
      assert events[|events| - 1] in events;
      var init := events[..|events| - 1];
      assert forall e :: e in init ==> e in events;
      ReplayCallsOnly(reg, init, registrable);
    }
  }

  /** `$options & STREAM_USE_INCLUDE_PATH` (and `STREAM_MKDIR_RECURSIVE`), both bit 0. */
  predicate LowBit(options: int) {
    options % 2 == 1
  }

  /** The `STREAM_META_*` option codes. */
  const MetaTouch := 1
  const MetaOwnerName := 2
  const MetaOwner := 3
  const MetaGroupName := 4
  const MetaGroup := 5
  const MetaAccess := 6

  /** The native call `stream_metadata` makes for an option, if any. */
  function MetadataCall(path: string, option: int): (r: Option<NativeCall>)
    ensures r.None? <==> !(MetaTouch <= option <= MetaAccess)
  {
    if option == MetaTouch then Some(Touch(path))
    else if option == MetaOwnerName || option == MetaOwner then Some(Chown(path))
    else if option == MetaGroupName || option == MetaGroup then Some(Chgrp(path))
    else if option == MetaAccess then Some(Chmod(path))
    else None
  }

  /** One wrapper instance: the handle of the native stream and what `stream_open` noted. */
  class Stream {
    const rt: Runtime
    var handle: Option<nat>
    var filePath: string
    var startTime: real
    var startMemory: int

    constructor(rt: Runtime)
      ensures this.rt == rt && handle.None? && filePath == ""
    {
      this.rt := rt;
      handle := None;
      filePath := "";
      startTime := 0.0;
      startMemory := 0;
    }

    /**
     * `stream_open`: note the path (and, for a trackable file, the start
     * time and memory), open it natively inside one toggle, keep the handle.
     */
    method StreamOpen(path: string, mode: string, options: int, nativeHandle: Option<nat>, now: real, memory: int)
      returns (ok: bool)
      requires rt.Valid()
      modifies this, rt
      ensures rt.Valid()
      ensures filePath == path && handle == nativeHandle && ok == nativeHandle.Some?
      ensures IsTrackableFile(rt.site, path) ==> startTime == now && startMemory == memory
      ensures !IsTrackableFile(rt.site, path) ==> startTime == old(startTime) && startMemory == old(startMemory)
      ensures rt.registered == old(rt.registered) && rt.active == old(rt.active) && rt.profiler == old(rt.profiler)
      ensures rt.trace == old(rt.trace) + Toggle(old(rt.active), Some(Fopen(path, mode, LowBit(options))), old(rt.registered))
    {
      NoteStart(path, now, memory);
      rt.Delegate(Some(Fopen(path, mode, LowBit(options))));
      handle := nativeHandle;
      ok := handle.Some?;
    }

    /** The bookkeeping at the head of `stream_open`. */
    method NoteStart(path: string, now: real, memory: int)
      modifies this
      ensures filePath == path && handle == old(handle)
      ensures IsTrackableFile(rt.site, path) ==> startTime == now && startMemory == memory
      ensures !IsTrackableFile(rt.site, path) ==> startTime == old(startTime) && startMemory == old(startMemory)
    {
      filePath := path;
      if IsTrackableFile(rt.site, path) {
        startTime := now;
        startMemory := memory;
      }
    }

    /**
     * `stream_close`: an open trackable stream is timed, and the include is
     * reported to the profiler when it crossed a threshold; the handle is
     * then closed and cleared.  `probeMemory` is what `record_plugin_load`
     * reads for itself.
     */
    method StreamClose(closed: bool, endTime: real, endMemory: int, peakMemory: int, probeMemory: int)
      returns (r: bool)
      requires rt.profiler != null ==> rt.profiler.Valid()
      modifies this, rt.profiler
      ensures handle.None?
      ensures r == if old(handle).Some? then closed else true
      ensures rt.profiler != null ==> rt.profiler.Valid()
      ensures rt.profiler != null ==>
        var loadTime := (endTime - startTime) * 1000.0;
        var tracked := old(handle).Some? && IsTrackableFile(rt.site, filePath)
          && WorthRecording(loadTime, MemoryUsed(startMemory, endMemory, peakMemory));
        rt.profiler.TimingState() ==
          (if tracked then Collector.RecordLoad(rt.profiler.site, old(rt.profiler.TimingState()), filePath, loadTime, probeMemory)
           else old(rt.profiler.TimingState()))
        && rt.profiler.Table() == old(rt.profiler.Table())
        && rt.profiler.slowQueries == old(rt.profiler.slowQueries)
      ensures filePath == old(filePath) && startTime == old(startTime) && startMemory == old(startMemory)
    {
      var wasOpen := handle.Some?;
      handle := None;
      r := if wasOpen then closed else true;
      if wasOpen && IsTrackableFile(rt.site, filePath) {
        TrackFileOperation(endTime, endMemory, peakMemory, probeMemory);
      }
    }

    /** `track_file_operation('close')`. */
    method TrackFileOperation(endTime: real, endMemory: int, peakMemory: int, probeMemory: int)
      requires rt.profiler != null ==> rt.profiler.Valid()
      modifies rt.profiler
      ensures rt.profiler != null ==> rt.profiler.Valid()
      ensures rt.profiler != null ==>
        var loadTime := (endTime - startTime) * 1000.0;
        rt.profiler.TimingState() ==
          (if WorthRecording(loadTime, MemoryUsed(startMemory, endMemory, peakMemory))
           then Collector.RecordLoad(rt.profiler.site, old(rt.profiler.TimingState()), filePath, loadTime, probeMemory)
           else old(rt.profiler.TimingState()))
        && rt.profiler.Table() == old(rt.profiler.Table())
        && rt.profiler.slowQueries == old(rt.profiler.slowQueries)
    {
      var p := rt.profiler;
      if p == null {
        return;
      }
      var loadTime := (endTime - startTime) * 1000.0;
      var memoryUsed := MemoryUsed(startMemory, endMemory, peakMemory);
      if loadTime > 0.1 || memoryUsed > 1024 {
        p.RecordPluginLoad(filePath, loadTime, memoryUsed, probeMemory);
      }
    }

    // The handle methods below are pass-throughs: without a handle each
    // answers a fixed value, otherwise the answer of the native call on the
    // handle, which is a parameter here.

    /** `stream_read`: false without a handle. */
    method StreamRead(count: int, native: Option<string>) returns (r: Option<string>)
      ensures handle.None? ==> r.None?
      ensures handle.Some? ==> r == native
    {
      if handle.None? {
        return None;
      }
      return native;
    }

    /** `stream_write`: 0 bytes without a handle. */
    method StreamWrite(data: string, native: int) returns (r: int)
      ensures handle.None? ==> r == 0
      ensures handle.Some? ==> r == native
    {
      if handle.None? {
        return 0;
      }
      return native;
    }

    /** `stream_tell`: false without a handle. */
    method StreamTell(native: Option<int>) returns (r: Option<int>)
      ensures handle.None? ==> r.None?
      ensures handle.Some? ==> r == native
    {
      if handle.None? {
        return None;
      }
      return native;
    }

    /** `stream_eof`: true without a handle. */
    method StreamEof(native: bool) returns (r: bool)
      ensures handle.None? ==> r
      ensures handle.Some? ==> r == native
    {
      if handle.None? {
        return true;
      }
      return native;
    }

    /** `stream_seek`: false without a handle, otherwise whether `fseek` returned 0. */
    method StreamSeek(offset: int, whence: int, nativeStatus: int) returns (r: bool)
      ensures handle.None? ==> !r
      ensures handle.Some? ==> (r <==> nativeStatus == 0)
    {
      if handle.None? {
        return false;
      }
      return nativeStatus == 0;
    }

    /** `stream_stat`: false without a handle. */
    method StreamStat(native: Option<seq<int>>) returns (r: Option<seq<int>>)
      ensures handle.None? ==> r.None?
      ensures handle.Some? ==> r == native
    {
      if handle.None? {
        return None;
      }
      return native;
    }

    /** `stream_flush`: false without a handle. */
    method StreamFlush(native: bool) returns (r: bool)
      ensures handle.None? ==> !r
      ensures handle.Some? ==> r == native
    {
      if handle.None? {
        return false;
      }
      return native;
    }

    /** `stream_lock`: false without a handle. */
    method StreamLock(operation: int, native: bool) returns (r: bool)
      ensures handle.None? ==> !r
      ensures handle.Some? ==> r == native
    {
      if handle.None? {
        return false;
      }
      return native;
    }

    /** `dir_readdir`: false without a handle. */
    method DirReaddir(native: Option<string>) returns (r: Option<string>)
      ensures handle.None? ==> r.None?
      ensures handle.Some? ==> r == native
    {
      if handle.None? {
        return None;
      }
      return native;
    }

    /**
     * `dir_rewinddir`: false without a handle; otherwise it returns what
     * `rewinddir` returns, which is always null (None here).
     */
    method DirRewinddir() returns (r: Option<bool>)
      ensures handle.None? ==> r == Some(false)
      ensures handle.Some? ==> r.None?
    {
      if handle.None? {
        return Some(false);
      }
      return None;
    }

    /**
     * `dir_closedir`: true without a handle; otherwise it returns what
     * `closedir` returns, which is always null (None here). The handle is
     * not cleared.
     */
    method DirClosedir() returns (r: Option<bool>)
      ensures handle.None? ==> r == Some(true)
      ensures handle.Some? ==> r.None?
    {
      if handle.None? {
        return Some(true);
      }
      return None;
    }

    /** `url_stat`: `stat` inside one toggle. */
    method UrlStat(path: string, flags: int, native: Option<seq<int>>) returns (r: Option<seq<int>>)
      requires rt.Valid()
      modifies rt
      ensures rt.Valid() && r == native
      ensures rt.registered == old(rt.registered) && rt.active == old(rt.active) && rt.profiler == old(rt.profiler)
      ensures rt.trace == old(rt.trace) + Toggle(old(rt.active), Some(Stat(path)), old(rt.registered))
    {
      rt.Delegate(Some(Stat(path)));
      r := native;
    }

    /**
     * `stream_metadata`: touch, chown, chgrp or chmod by option code inside
     * one toggle; an unknown code makes no call, answers false, and still
     * toggles.
     */
    method StreamMetadata(path: string, option: int, native: bool) returns (r: bool)
      requires rt.Valid()
      modifies rt
      ensures rt.Valid()
      ensures r == (MetadataCall(path, option).Some? && native)
      ensures rt.registered == old(rt.registered) && rt.active == old(rt.active) && rt.profiler == old(rt.profiler)
      ensures rt.trace == old(rt.trace) + Toggle(old(rt.active), MetadataCall(path, option), old(rt.registered))
    {
      var call := MetadataCall(path, option);
      rt.Delegate(call);
      r := call.Some? && native;
    }

    /** `unlink` inside one toggle. */
    method Unlink(path: string, native: bool) returns (r: bool)
      requires rt.Valid()
      modifies rt
      ensures rt.Valid() && r == native
      ensures rt.registered == old(rt.registered) && rt.active == old(rt.active) && rt.profiler == old(rt.profiler)
      ensures rt.trace == old(rt.trace) + Toggle(old(rt.active), Some(NativeCall.Unlink(path)), old(rt.registered))
    {
      rt.Delegate(Some(NativeCall.Unlink(path)));
      r := native;
    }

    /** `rename` inside one toggle. */
    method Rename(pathFrom: string, pathTo: string, native: bool) returns (r: bool)
      requires rt.Valid()
      modifies rt
      ensures rt.Valid() && r == native
      ensures rt.registered == old(rt.registered) && rt.active == old(rt.active) && rt.profiler == old(rt.profiler)
      ensures rt.trace == old(rt.trace) + Toggle(old(rt.active), Some(NativeCall.Rename(pathFrom, pathTo)), old(rt.registered))
    {
      rt.Delegate(Some(NativeCall.Rename(pathFrom, pathTo)));
      r := native;
    }

    /** `mkdir` inside one toggle; bit 0 of the options asks for a recursive create. */
    method Mkdir(path: string, mode: int, options: int, native: bool) returns (r: bool)
      requires rt.Valid()
      modifies rt
      ensures rt.Valid() && r == native
      ensures rt.registered == old(rt.registered) && rt.active == old(rt.active) && rt.profiler == old(rt.profiler)
      ensures rt.trace == old(rt.trace) + Toggle(old(rt.active), Some(NativeCall.Mkdir(path, mode, LowBit(options))), old(rt.registered))
    {
      rt.Delegate(Some(NativeCall.Mkdir(path, mode, LowBit(options))));
      r := native;
    }

    /** `rmdir` inside one toggle. */
    method Rmdir(path: string, native: bool) returns (r: bool)
      requires rt.Valid()
      modifies rt
      ensures rt.Valid() && r == native
      ensures rt.registered == old(rt.registered) && rt.active == old(rt.active) && rt.profiler == old(rt.profiler)
      ensures rt.trace == old(rt.trace) + Toggle(old(rt.active), Some(NativeCall.Rmdir(path)), old(rt.registered))
    {
      rt.Delegate(Some(NativeCall.Rmdir(path)));
      r := native;
    }

    /** `dir_opendir`: `opendir` inside one toggle; the handle is kept. */
    method DirOpendir(path: string, options: int, nativeHandle: Option<nat>) returns (ok: bool)
      requires rt.Valid()
      modifies this, rt
      ensures rt.Valid()
      ensures handle == nativeHandle && ok == nativeHandle.Some?
      ensures rt.registered == old(rt.registered) && rt.active == old(rt.active) && rt.profiler == old(rt.profiler)
      ensures rt.trace == old(rt.trace) + Toggle(old(rt.active), Some(Opendir(path)), old(rt.registered))
    {
      rt.Delegate(Some(Opendir(path)));
      handle := nativeHandle;
      ok := handle.Some?;
    }
  }
}
