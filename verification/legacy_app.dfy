/** The single-window player that drives the queue player directly: it scans
    a folder into a sorted track list (reusing saved durations), turns button
    clicks into ordered calls on the player, keeps a progress fallback, saves
    and restores its settings, and derives the CJK font's path and name. */
module LegacyApp {
  import opened Common
  import Text
  import Sorting

  /** A row of the track list: the file name without extension and its
      duration in whole seconds. */
  datatype FileTrack = FileTrack(name: string, duration: U64)

  /** A directory entry as the scan sees it: whether it is a regular file,
      the MIME type sniffed from its contents (None when unrecognised), and
      its name without extension. */
  datatype Entry = Entry(isFile: bool, mime: Option<string>, name: string)

  /** The calls made on the queue player, in the order they are made. */
  datatype EngineCall =
    | AddAllTracksCall(folder: string)
    | SetVolumeCall(volume: real)
    | PauseCall
    | UnpauseCall
    | SeekToCall(secs: U64, frac: real)
    | EndCurrentCall
    | PlayNextCall
    | PlayPreviousCall
    | PlayCall(index: nat)

  // ---------------------------------------------------------------- scanning

  /** What the scan asks of code this model does not show: `vec_contains`
      (where a name sits in the saved list, if anywhere) and the player's
      probe of a track's duration in whole seconds. */
  datatype Services = Services(find: (seq<FileTrack>, string) -> Option<nat>, probe: string -> U64)

  /** `find` answers correctly for this list and name: a position it reports
      holds the name, and it reports none only when the name is absent. */
  predicate FindsIn(find: (seq<FileTrack>, string) -> Option<nat>, saved: seq<FileTrack>, name: string) {
    match find(saved, name)
    case Some(i) => i < |saved| && saved[i].name == name
    case None => forall i :: 0 <= i < |saved| ==> saved[i].name != name
  }

  ghost predicate FindsNames(find: (seq<FileTrack>, string) -> Option<nat>) {
    forall saved, name :: FindsIn(find, saved, name)
  }

  /** The saved duration for `name`, if the saved list has it. */
  function SavedDuration(saved: seq<FileTrack>, name: string, find: (seq<FileTrack>, string) -> Option<nat>): (d: Option<U64>)
    requires FindsNames(find)
    ensures d.None? <==> forall i :: 0 <= i < |saved| ==> saved[i].name != name
    ensures d.Some? ==> exists i :: 0 <= i < |saved| && saved[i].name == name && saved[i].duration == d.value
  {
    assert FindsIn(find, saved, name);
    match find(saved, name)
    case Some(i) => Some(saved[i].duration)
    case None => None
  }

  /** A regular file whose sniffed MIME type mentions audio. */
  predicate IsAudioFile(e: Entry) {
    e.isFile && e.mime.Some? && Text.Contains(e.mime.value, "audio")
  }

  /** Every regular file has a type the sniffer recognises (the scan panics
      on one it does not). */
  predicate Sniffable(entries: seq<Entry>) {
    forall k :: 0 <= k < |entries| && entries[k].isFile ==> entries[k].mime.Some?
  }

  /** The track an audio entry becomes: its saved duration when its name was
      saved, else the duration the player probes. */
  function ScannedTrack(e: Entry, saved: seq<FileTrack>, services: Services): (t: FileTrack)
    requires FindsNames(services.find)
    ensures t.name == e.name
    ensures (exists i :: 0 <= i < |saved| && saved[i].name == e.name && saved[i].duration == t.duration)
      || ((forall i :: 0 <= i < |saved| ==> saved[i].name != e.name) && t.duration == services.probe(e.name))
  {
    var cached := SavedDuration(saved, e.name, services.find);
    FileTrack(e.name, if cached.Some? then cached.value else services.probe(e.name))
  }

  /** The tracks the scan pushes, in directory order. */
  function ScanTracks(entries: seq<Entry>, saved: seq<FileTrack>, services: Services): (tracks: seq<FileTrack>)
    requires FindsNames(services.find)
    ensures |tracks| == AudioCount(entries)
  {
    if entries == [] then []
    else
      var e := entries[|entries| - 1];
      ScanTracks(entries[..|entries| - 1], saved, services) + (if IsAudioFile(e) then [ScannedTrack(e, saved, services)] else [])
  }

  /** How many entries are audio files. */
  function AudioCount(entries: seq<Entry>): nat {
    if entries == [] then 0
    else AudioCount(entries[..|entries| - 1]) + (if IsAudioFile(entries[|entries| - 1]) then 1 else 0)
  }

  /** The scan yields every audio file's track and nothing else: each audio
      entry's track is there, and every track comes from an audio entry. */
  lemma {:induction false} ScanTracksExact(entries: seq<Entry>, saved: seq<FileTrack>, services: Services)
    requires FindsNames(services.find)
    ensures forall k :: 0 <= k < |entries| && IsAudioFile(entries[k]) ==>
      ScannedTrack(entries[k], saved, services) in ScanTracks(entries, saved, services)
    ensures forall t :: t in ScanTracks(entries, saved, services) ==>
      exists k :: 0 <= k < |entries| && IsAudioFile(entries[k]) && t == ScannedTrack(entries[k], saved, services)
  {
    if entries != [] {
      var front := entries[..|entries| - 1];
      ScanTracksExact(front, saved, services);
      forall k | 0 <= k < |front| ensures front[k] == entries[k] { }
    }
  }

  /** `init` after the directory has been read: adds the folder to the
      player, pushes one track per audio file onto `files`, then sorts. */
  method Init(
    folder: string, entries: seq<Entry>, files: seq<FileTrack>, saved: seq<FileTrack>,
    services: Services, leq: (FileTrack, FileTrack) -> bool)
    returns (sorted: seq<FileTrack>, calls: seq<EngineCall>)
    requires Sniffable(entries) && FindsNames(services.find) && Sorting.TotalPreorder(leq)
    ensures calls == [AddAllTracksCall(folder)]
    ensures Sorting.Sorted(sorted, leq)
    ensures multiset(sorted) == multiset(files + ScanTracks(entries, saved, services))
    ensures sorted == Sorting.Sort(files + ScanTracks(entries, saved, services), leq)
  {
    calls := [AddAllTracksCall(folder)];
    var pushed := files;
    for i := 0 to |entries|
      invariant pushed == files + ScanTracks(entries[..i], saved, services)
    {
      assert entries[..i + 1][..i] == entries[..i];
      var entry := entries[i];
      if entry.isFile && Text.Contains(entry.mime.value, "audio") {
        var cached := services.find(saved, entry.name);
        assert FindsIn(services.find, saved, entry.name);
        var duration := if cached.Some? then saved[cached.value].duration else services.probe(entry.name);
        pushed := pushed + [FileTrack(entry.name, duration)];
      }
    }
    assert entries[..|entries|] == entries;
    sorted := Sorting.Sort(pushed, leq);
  }

  // ------------------------------------------------------------ persistence

  type Storage = map<string, string>

  /** What `new` reads back from storage. */
  datatype Restored = Restored(saved: seq<FileTrack>, volume: real, path: Option<string>)

  /** `new`'s reading of storage.  `decodeFiles` stands for the TOML reader,
      `parseVolume` for parsing an f32.  Missing or unreadable durations give
      no cache, a missing or unparsable volume gives 1.0, and the path is
      there exactly when its key is. */
  function Restore(storage: Option<Storage>, decodeFiles: string -> Option<seq<FileTrack>>, parseVolume: string -> Option<real>): (r: Restored)
    ensures storage.None? ==> r == Restored([], 1.0, None)
    ensures storage.Some? ==> (r.path.Some? <==> "path" in storage.value)
    ensures storage.Some? && "path" in storage.value ==> r.path.value == storage.value["path"]
    ensures storage.Some? && "volume" in storage.value && parseVolume(storage.value["volume"]).Some? ==>
      r.volume == parseVolume(storage.value["volume"]).value
    ensures storage.Some? && ("volume" !in storage.value || parseVolume(storage.value["volume"]).None?) ==> r.volume == 1.0
    ensures storage.Some? && "durations" in storage.value && decodeFiles(storage.value["durations"]).Some? ==>
      r.saved == decodeFiles(storage.value["durations"]).value
    ensures storage.Some? && ("durations" !in storage.value || decodeFiles(storage.value["durations"]).None?) ==> r.saved == []
  {
    if storage.None? then Restored([], 1.0, None)
    else
      var s := storage.value;
      var saved := if "durations" in s && decodeFiles(s["durations"]).Some? then decodeFiles(s["durations"]).value else [];
      var volume := if "volume" in s && parseVolume(s["volume"]).Some? then parseVolume(s["volume"]).value else 1.0;
      var path := if "path" in s then Some(s["path"]) else None;
      Restored(saved, volume, path)
  }

  /** `save`: writes the durations and the volume always, the path only when
      one is set; a path saved earlier is then left as it was. */
  function Save(
    storage: Storage, files: seq<FileTrack>, volume: real, path: Option<string>,
    encodeFiles: seq<FileTrack> -> string, showVolume: real -> string): (out: Storage)
    ensures out.Keys == storage.Keys + {"durations", "volume"} + (if path.Some? then {"path"} else {})
    ensures out["durations"] == encodeFiles(files) && out["volume"] == showVolume(volume)
    ensures path.Some? ==> out["path"] == path.value
    ensures forall k :: k in storage && k != "durations" && k != "volume" && (k != "path" || path.None?) ==> out[k] == storage[k]
  {
    var out := storage["durations" := encodeFiles(files)]["volume" := showVolume(volume)];
    if path.Some? then out["path" := path.value] else out
  }

  /** Saving then restoring gives back the track list and the volume, and the
      path when one was set (otherwise whatever path was stored before). */
  lemma SaveRestoreRoundTrip(
    storage: Storage, files: seq<FileTrack>, volume: real, path: Option<string>,
    encodeFiles: seq<FileTrack> -> string, decodeFiles: string -> Option<seq<FileTrack>>,
    showVolume: real -> string, parseVolume: string -> Option<real>)
    requires decodeFiles(encodeFiles(files)) == Some(files)
    requires parseVolume(showVolume(volume)) == Some(volume)
    ensures Restore(Some(Save(storage, files, volume, path, encodeFiles, showVolume)), decodeFiles, parseVolume)
      == Restored(files, volume, if path.Some? then path else if "path" in storage then Some(storage["path"]) else None)
  {
  }

  predicate UniqueFileNames(files: seq<FileTrack>) {
    forall i, j :: 0 <= i < j < |files| ==> files[i].name != files[j].name
  }

  /** A track that was in the saved list gets its saved duration back on the
      next scan, whatever the player would probe. */
  lemma CachedDurationSurvivesRestart(
    storage: Storage, files: seq<FileTrack>, volume: real, path: Option<string>,
    encodeFiles: seq<FileTrack> -> string, decodeFiles: string -> Option<seq<FileTrack>>,
    showVolume: real -> string, parseVolume: string -> Option<real>,
    i: nat, e: Entry, services: Services)
    requires decodeFiles(encodeFiles(files)) == Some(files)
    requires parseVolume(showVolume(volume)) == Some(volume)
    requires FindsNames(services.find) && UniqueFileNames(files)
    requires i < |files| && e.name == files[i].name
    ensures var restored := Restore(Some(Save(storage, files, volume, path, encodeFiles, showVolume)), decodeFiles, parseVolume);
      ScannedTrack(e, restored.saved, services) == files[i]
  {
    SaveRestoreRoundTrip(storage, files, volume, path, encodeFiles, decodeFiles, showVolume, parseVolume);
    assert FindsIn(services.find, files, e.name);
  }

  /** The player calls made while starting up: with a stored path the folder
      is added once in `new` and again in `init`, around setting the volume. */
  function StartupCalls(r: Restored): (calls: seq<EngineCall>)
    ensures r.path.None? ==> calls == [SetVolumeCall(r.volume)]
    ensures r.path.Some? ==>
      |calls| == 3 && calls[1] == SetVolumeCall(r.volume) && calls[0] == calls[2] == AddAllTracksCall(r.path.value)
  {
    if r.path.Some? then [AddAllTracksCall(r.path.value), SetVolumeCall(r.volume), AddAllTracksCall(r.path.value)]
    else [SetVolumeCall(r.volume)]
  }

  /** The player side of `new` once storage is read: add the stored folder,
      set the volume, then scan the folder with the saved durations. */
  method Startup(r: Restored, entries: seq<Entry>, services: Services, leq: (FileTrack, FileTrack) -> bool)
    returns (scanned: seq<FileTrack>, calls: seq<EngineCall>)
    requires Sniffable(entries) && FindsNames(services.find) && Sorting.TotalPreorder(leq)
    ensures calls == StartupCalls(r)
    ensures scanned == if r.path.Some? then Sorting.Sort(ScanTracks(entries, r.saved, services), leq) else []
  {
    if r.path.None? {
      scanned, calls := [], [SetVolumeCall(r.volume)];
    } else {
      var folder := r.path.value;
      var tracks := ScanTracks(entries, r.saved, services);
      assert [] + tracks == tracks;
      var initCalls;
      scanned, initCalls := Init(folder, entries, [], r.saved, services, leq);
      calls := [AddAllTracksCall(folder), SetVolumeCall(r.volume)] + initCalls;
    }
  }

  // ---------------------------------------------------------- button rules

  predicate ChangesTrack(c: EngineCall) {
    c.PlayNextCall? || c.PlayPreviousCall? || c.PlayCall?
  }

  /** Every track change in `calls` comes straight after ending the current track. */
  predicate EndsBeforeChange(calls: seq<EngineCall>) {
    forall k :: 0 <= k < |calls| && ChangesTrack(calls[k]) ==> k > 0 && calls[k - 1] == EndCurrentCall
  }

  /** The previous button: with no cached time nothing happens; within the
      first two seconds it seeks to the start; later it goes back a track. */
  function PreviousCalls(cached: Option<TrackTime>): (calls: seq<EngineCall>)
    ensures EndsBeforeChange(calls)
    ensures (exists k :: 0 <= k < |calls| && ChangesTrack(calls[k])) <==> cached.Some? && cached.value.tsSecs >= 2
    ensures cached.Some? && cached.value.tsSecs < 2 ==> calls == [SeekToCall(0, 0.0)]
    ensures cached.None? ==> calls == []
    ensures cached.Some? && cached.value.tsSecs >= 2 ==> calls == [EndCurrentCall, PlayPreviousCall]
  {
    if cached.None? then []
    else if cached.value.tsSecs < 2 then [SeekToCall(0, 0.0)]
    else
      assert ChangesTrack([EndCurrentCall, PlayPreviousCall][1]);
      [EndCurrentCall, PlayPreviousCall]
  }

  /** The toggle button: unpause when paused, else pause; then, if the player
      is not playing afterwards, start the next track (without ending the
      current one first). */
  function ToggleCalls(paused: bool, playingAfter: bool): (calls: seq<EngineCall>)
    ensures |calls| >= 1 && calls[0] == (if paused then UnpauseCall else PauseCall)
    ensures PlayNextCall in calls <==> !playingAfter
    ensures EndCurrentCall !in calls
    ensures |calls| == (if playingAfter then 1 else 2)
    ensures !playingAfter ==> calls[1] == PlayNextCall
  {
    [if paused then UnpauseCall else PauseCall] + (if playingAfter then [] else [PlayNextCall])
  }

  /** The next button. */
  function NextCalls(): (calls: seq<EngineCall>)
    ensures EndsBeforeChange(calls) && PlayNextCall in calls
    ensures |calls| == 2
    ensures forall c :: c in calls && ChangesTrack(c) ==> c == PlayNextCall
  {
    [EndCurrentCall, PlayNextCall]
  }

  /** A click on a track, whose name the player resolved to `index`. */
  function ClickCalls(index: nat): (calls: seq<EngineCall>)
    ensures EndsBeforeChange(calls) && PlayCall(index) in calls
    ensures |calls| == 2
    ensures forall c :: c in calls && ChangesTrack(c) ==> c == PlayCall(index)
  {
    [EndCurrentCall, PlayCall(index)]
  }

  /** A finished track moves on to the next one. */
  function EndedCalls(hasEnded: bool): (calls: seq<EngineCall>)
    ensures calls != [] <==> hasEnded
    ensures forall c :: c in calls ==> c == PlayNextCall
    ensures |calls| <= 1
  {
    if hasEnded then [PlayNextCall] else []
  }

  const U64Max: int := 0xFFFF_FFFF_FFFF_FFFF

  /** Rounding toward zero, as `f64::trunc`. */
  function Trunc(x: real): (n: int)
    ensures x >= 0.0 ==> n as real <= x < n as real + 1.0
    ensures x < 0.0 ==> n as real - 1.0 < x <= n as real
  {
    if x >= 0.0 then x.Floor else -((-x).Floor)
  }

  /** The point, in seconds, that slider position `position` stands for:
      the track's total duration times the position. */
  function SeekSeconds(t: TrackTime, position: real): (seek: real)
    ensures 0.0 <= position <= 1.0 && 0.0 <= t.durFrac ==> 0.0 <= seek <= t.durSecs as real + t.durFrac
  {
    var total := t.durSecs as real + t.durFrac;
    if 0.0 <= position <= 1.0 && 0.0 <= t.durFrac then
      NonNegativeProduct(total, position);
      NonNegativeProduct(total, 1.0 - position);
      assert total - total * position == total * (1.0 - position);
      total * position
    else total * position
  }

  /** `seek.floor() as u64` (saturating at both ends) and `seek.fract()`. */
  function SplitSeconds(seek: real): (target: (U64, real))
    ensures 0.0 <= seek < (U64Max + 1) as real ==> target.0 as real <= seek < target.0 as real + 1.0
    ensures seek < 0.0 ==> target.0 == 0
    ensures seek >= (U64Max + 1) as real ==> target.0 == U64Max
    ensures target.1 == seek - Trunc(seek) as real
  {
    var whole := seek.Floor;
    (if whole < 0 then 0 else if whole > U64Max then U64Max else whole, seek - Trunc(seek) as real)
  }

  /** A position on the slider never seeks past the track's last whole
      second, and the fractional part stays below one second. */
  lemma SeekStaysInTrack(t: TrackTime, position: real)
    requires 0.0 <= position <= 1.0 && 0.0 <= t.durFrac < 1.0
    ensures SplitSeconds(SeekSeconds(t, position)).0 <= t.durSecs
    ensures 0.0 <= SplitSeconds(SeekSeconds(t, position)).1 < 1.0
  {
    var seek := SeekSeconds(t, position);
    assert seek < (U64Max + 1) as real;
  }

  lemma NonNegativeProduct(x: real, y: real)
    requires 0.0 <= x && 0.0 <= y
    ensures 0.0 <= x * y
  {
  }

  /** `slider_seek`: only when a time is known and the slider moved to
      `position`, pause, seek to the matching point of the track, then
      unpause. */
  function SeekCalls(trackTime: Option<TrackTime>, changed: bool, position: real): (calls: seq<EngineCall>)
    ensures calls != [] <==> trackTime.Some? && changed
    ensures calls != [] ==> var target := SplitSeconds(SeekSeconds(trackTime.value, position));
      calls == [PauseCall, SeekToCall(target.0, target.1), UnpauseCall]
    ensures forall c :: c in calls ==> !ChangesTrack(c)
  {
    if trackTime.Some? && changed then
      var target := SplitSeconds(SeekSeconds(trackTime.value, position));
      [PauseCall, SeekToCall(target.0, target.1), UnpauseCall]
    else []
  }

  /** Track changes from the previous, next and track buttons always end the
      current track first; the toggle's and the end-of-track's never do. */
  lemma ButtonsEndBeforeChanging(cached: Option<TrackTime>, index: nat, paused: bool)
    ensures EndsBeforeChange(PreviousCalls(cached) + NextCalls() + ClickCalls(index))
    ensures !EndsBeforeChange(ToggleCalls(paused, false))
    ensures !EndsBeforeChange(EndedCalls(true))
  {
    var p := PreviousCalls(cached);
    var all := p + NextCalls() + ClickCalls(index);
    forall k | 0 <= k < |all| && ChangesTrack(all[k]) ensures k > 0 && all[k - 1] == EndCurrentCall {
      if k < |p| {
        assert all[k] == p[k] && (k > 0 ==> all[k - 1] == p[k - 1]);
      }
    }
    var t := ToggleCalls(paused, false);
    assert ChangesTrack(t[1]);
    assert ChangesTrack(EndedCalls(true)[0]);
  }

  /** The shown progress: the live time's when there is one, else the last
      cached time's, else 0.  `fraction` stands for the floating-point
      position / duration. */
  function Progress(live: Option<TrackTime>, cached: Option<TrackTime>, fraction: TrackTime -> real): (p: real)
    ensures live.Some? ==> p == fraction(live.value)
    ensures live.None? && cached.Some? ==> p == fraction(cached.value)
    ensures live.None? && cached.None? ==> p == 0.0
  {
    if live.Some? then fraction(live.value)
    else if cached.Some? then fraction(cached.value)
    else 0.0
  }

  /** The window title after a track change. */
  function TitleFor(trackName: string): (t: string)
    ensures Text.StartsWith(t, "N Music")
    ensures |t| == |"N Music - "| + |trackName| && t[|"N Music - "|..] == trackName
    ensures t[..|"N Music - "|] == "N Music - "
  {
    "N Music - " + trackName
  }

  /** The toggle button's glyph: play unless the player is playing and not paused. */
  function ToggleGlyph(isPlaying: bool, isPaused: bool): (g: string)
    ensures g == "⏸" <==> isPlaying && !isPaused
    ensures g == "▶" || g == "⏸"
  {
    if !isPlaying || isPaused then "▶" else "⏸"
  }

  /** A track row is framed when the player is playing it. */
  function RowFramed(isPlaying: bool, currentName: string, track: FileTrack): bool {
    isPlaying && currentName == track.name
  }

  /** With distinct names, at most one row is framed. */
  lemma AtMostOneRowFramed(isPlaying: bool, currentName: string, files: seq<FileTrack>, i: nat, j: nat)
    requires i < |files| && j < |files|
    requires forall a, b :: 0 <= a < b < |files| ==> files[a].name != files[b].name
    requires RowFramed(isPlaying, currentName, files[i]) && RowFramed(isPlaying, currentName, files[j])
    ensures i == j
  {
  }

  /** The `mm:ss` label of a row: minutes and seconds of its duration. */
  function RowLabel(track: FileTrack): (text: string)
    ensures Text.ParseDurationLabel(text) == (track.duration / 60, track.duration % 60)
  {
    Text.DurationLabelRoundTrip(track.duration);
    Text.DurationLabel(track.duration)
  }

  // ------------------------------------------------------------------ state

  /** The window's state and the log of calls it has made on the player. */
  class App {
    var path: Option<string>
    var volume: real
    var time: real
    var cachedTrackTime: Option<TrackTime>
    var files: seq<FileTrack>
    var title: string
    var calls: seq<EngineCall>


    /** `new`: restore the settings, set the volume, and scan the stored
        folder (whose entries are `entries`) with the saved durations. */
    constructor (
      storage: Option<Storage>, decodeFiles: string -> Option<seq<FileTrack>>, parseVolume: string -> Option<real>,
      entries: seq<Entry>, services: Services, leq: (FileTrack, FileTrack) -> bool)
      requires Sniffable(entries) && FindsNames(services.find) && Sorting.TotalPreorder(leq)
      ensures var r := Restore(storage, decodeFiles, parseVolume);
        && path == r.path && volume == r.volume
        && calls == StartupCalls(r)
        && files == (if r.path.Some? then Sorting.Sort(ScanTracks(entries, r.saved, services), leq) else [])
      ensures time == 0.0 && cachedTrackTime.None? && title == "N Music"
    {
      var r := Restore(storage, decodeFiles, parseVolume);
      var scanned, log := Startup(r, entries, services, leq);
      path := r.path;
      volume := r.volume;
      time := 0.0;
      cachedTrackTime := None;
      files := scanned;
      title := "N Music";
      calls := log;
    }

    /** The folder dialog shown while no folder is set: a picked folder is
        scanned without saved durations and becomes the path. */
    method PickFolder(picked: Option<string>, entries: seq<Entry>, services: Services, leq: (FileTrack, FileTrack) -> bool)
      requires Sniffable(entries) && FindsNames(services.find) && Sorting.TotalPreorder(leq)
      modifies this
      ensures old(path).None? && picked.Some? ==>
        && path == picked
        && files == Sorting.Sort(old(files) + ScanTracks(entries, [], services), leq)
        && calls == old(calls) + [AddAllTracksCall(picked.value)]
      ensures !(old(path).None? && picked.Some?) ==> path == old(path) && files == old(files) && calls == old(calls)
      ensures volume == old(volume) && time == old(time) && cachedTrackTime == old(cachedTrackTime) && title == old(title)
    {
      if path.None? && picked.Some? {
        var sorted, initCalls := Init(picked.value, entries, files, [], services, leq);
        files := sorted;
        calls := calls + initCalls;
        path := picked;
      }
    }

    /** Start of a frame with a folder set: a finished track moves on, and
        the title names the track now current. */
    method CheckEnded(hasEnded: bool, currentName: string)
      requires path.Some?
      modifies this`calls, this`title
      ensures calls == old(calls) + EndedCalls(hasEnded)
      ensures title == if hasEnded then TitleFor(currentName) else old(title)
    {
      calls := calls + EndedCalls(hasEnded);
      if hasEnded {
        title := TitleFor(currentName);
      }
    }

    /** The progress slider: `dragged` is the position the user moved it to,
        if any, which the slider writes into `time` before the seek reads it;
        `trackTime` is the player's time read at the start of the panel. */
    method SliderSeek(dragged: Option<real>, trackTime: Option<TrackTime>)
      requires path.Some?
      modifies this`calls, this`time
      ensures time == if dragged.Some? then dragged.value else old(time)
      ensures calls == old(calls) + SeekCalls(trackTime, dragged.Some?, time)
    {
      if dragged.Some? {
        time := dragged.value;
      }
      if trackTime.Some? && dragged.Some? {
        var target := SplitSeconds(SeekSeconds(trackTime.value, time));
        calls := calls + [PauseCall];
        calls := calls + [SeekToCall(target.0, target.1)];
        calls := calls + [UnpauseCall];
      }
    }

    /** The volume slider: a moved slider sets the player's volume. */
    method VolumeSlider(dragged: Option<real>)
      requires path.Some?
      modifies this`calls, this`volume
      ensures volume == if dragged.Some? then dragged.value else old(volume)
      ensures calls == old(calls) + (if dragged.Some? then [SetVolumeCall(volume)] else [])
    {
      if dragged.Some? {
        volume := dragged.value;
        calls := calls + [SetVolumeCall(volume)];
      }
    }

    /** The progress refresh: show the live time and cache it, or fall back. */
    method RefreshProgress(live: Option<TrackTime>, fraction: TrackTime -> real)
      requires path.Some?
      modifies this`time, this`cachedTrackTime
      ensures time == Progress(live, old(cachedTrackTime), fraction)
      ensures cachedTrackTime == if live.Some? then live else old(cachedTrackTime)
    {
      time := Progress(live, cachedTrackTime, fraction);
      if live.Some? {
        cachedTrackTime := live;
      }
    }

    method OnPrevious(currentName: string)
      requires path.Some?
      modifies this`calls, this`title
      ensures calls == old(calls) + PreviousCalls(cachedTrackTime)
      ensures title == if cachedTrackTime.Some? && cachedTrackTime.value.tsSecs >= 2 then TitleFor(currentName) else old(title)
    {
      calls := calls + PreviousCalls(cachedTrackTime);
      if cachedTrackTime.Some? && cachedTrackTime.value.tsSecs >= 2 {
        title := TitleFor(currentName);
      }
    }

    /** `paused` is the player's state when clicked; `playingAfter` whether it
        plays after the pause or unpause. */
    method OnToggle(paused: bool, playingAfter: bool, currentName: string)
      requires path.Some?
      modifies this`calls, this`title
      ensures calls == old(calls) + ToggleCalls(paused, playingAfter)
      ensures title == if playingAfter then old(title) else TitleFor(currentName)
    {
      calls := calls + ToggleCalls(paused, playingAfter);
      if !playingAfter {
        title := TitleFor(currentName);
      }
    }

    method OnNext(currentName: string)
      requires path.Some?
      modifies this`calls, this`title
      ensures calls == old(calls) + NextCalls() && title == TitleFor(currentName)
    {
      calls := calls + NextCalls();
      title := TitleFor(currentName);
    }

    method OnTrackClicked(index: nat, currentName: string)
      requires path.Some?
      modifies this`calls, this`title
      ensures calls == old(calls) + ClickCalls(index) && title == TitleFor(currentName)
    {
      calls := calls + ClickCalls(index);
      title := TitleFor(currentName);
    }

    /** `save`, given the storage as it was. */
    function Saved(storage: Storage, encodeFiles: seq<FileTrack> -> string, showVolume: real -> string): (out: Storage)
      reads this
      ensures "durations" in out && "volume" in out
      ensures out["durations"] == encodeFiles(files) && out["volume"] == showVolume(volume)
    {
      Save(storage, files, volume, path, encodeFiles, showVolume)
    }

    /** `on_exit`: release the current track. */
    method OnExit()
      modifies this`calls
      ensures calls == old(calls) + [EndCurrentCall]
    {
      calls := calls + [EndCurrentCall];
    }
  }

  // ------------------------------------------------------------------ fonts

  /** `font_file.split('/').last()?.split('.').next()?`: the file's name up to
      its first dot. */
  function FontName(fontFile: string): (name: string)
    ensures '/' !in name && '.' !in name
    ensures name <= Text.AfterLast(fontFile, '/')
    ensures |name| < |Text.AfterLast(fontFile, '/')| ==> Text.AfterLast(fontFile, '/')[|name|] == '.'
  {
    Text.BeforeFirst(Text.AfterLast(fontFile, '/'), '.')
  }

  lemma FontNameOfPath(dir: string, stem: string, ext: string)
    requires '/' !in stem && '/' !in ext && '.' !in stem
    ensures FontName(dir + "/" + stem + "." + ext) == stem
  {
    assert dir + "/" + stem + "." + ext == dir + ['/'] + (stem + "." + ext);
    Text.AfterLastOfJoin(dir, '/', stem + "." + ext);
    Text.BeforeFirstOfJoin(stem, '.', ext);
  }

  /** `font_line.split(':').next()?.trim()`: the path field of an `fc-list` line. */
  function FontPath(fontLine: string): (path: string)
    ensures ':' !in path
    ensures exists k :: Text.TrimmedAt(Text.BeforeFirst(fontLine, ':'), path, k)
    ensures path != [] ==> !Text.IsWhitespace(path[0]) && !Text.IsWhitespace(path[|path| - 1])
  {
    Text.Trim(Text.BeforeFirst(fontLine, ':'))
  }

  lemma FontPathOfLine(path: string, rest: string)
    requires ':' !in path
    requires path != [] ==> !Text.IsWhitespace(path[0]) && !Text.IsWhitespace(path[|path| - 1])
    ensures FontPath(path + ":" + rest) == path
  {
    Text.BeforeFirstOfJoin(path, ':', rest);
    assert Text.TrimStart(path) == path;
    assert Text.TrimEnd(path) == path;
  }

  /** An `fc-list` line naming a regular CJK face. */
  predicate IsCjkLine(line: string) {
    Text.Contains(line, "Regular") && Text.Contains(line, "CJK")
  }

  /** Line `i` is the first regular CJK face listed. */
  predicate FirstCjkLine(lines: seq<string>, i: nat) {
    i < |lines| && IsCjkLine(lines[i]) && forall j :: 0 <= j < i ==> !IsCjkLine(lines[j])
  }

  /** The font `fc-list` lists first as a regular CJK face, or the Noto
      default when none is listed (the Linux branch). */
  function FindFontLine(lines: seq<string>): (line: string)
    ensures forall i: nat :: FirstCjkLine(lines, i) ==> line == lines[i]
    ensures (forall i :: 0 <= i < |lines| ==> !IsCjkLine(lines[i])) ==> line == LinuxDefaultFont
  {
    if lines == [] then LinuxDefaultFont
    else if IsCjkLine(lines[0]) then lines[0]
    else
      assert forall i: nat :: FirstCjkLine(lines, i) ==> i > 0 && FirstCjkLine(lines[1..], i - 1);
      FindFontLine(lines[1..])
  }

  /** Lines that are not regular CJK faces do not change the answer, wherever
      they come before it. */
  lemma {:induction false} FontLineSkipsOthers(others: seq<string>, lines: seq<string>)
    requires forall i :: 0 <= i < |others| ==> !IsCjkLine(others[i])
    ensures FindFontLine(others + lines) == FindFontLine(lines)
  {
    if others != [] {
      var all := others + lines;
      assert all[0] == others[0] && all[1..] == others[1..] + lines;
      FontLineSkipsOne(all);
      FontLineSkipsOthers(others[1..], lines);
    } else {
      assert others + lines == lines;
    }
  }

  lemma FontLineSkipsOne(lines: seq<string>)
    requires lines != [] && !IsCjkLine(lines[0])
    ensures FindFontLine(lines) == FindFontLine(lines[1..])
  {
  }

  const LinuxDefaultFont: string := "/usr/share/fonts/opentype/noto/NotoSansCJK-Regular.ttc"

  /** `find_cjk_font` on Linux, given the lines `fc-list` printed. */
  function FindCjkFont(lines: seq<string>): (path: string)
    ensures ':' !in path
    ensures forall i: nat :: FirstCjkLine(lines, i) ==> path == FontPath(lines[i])
    ensures (forall i :: 0 <= i < |lines| ==> !IsCjkLine(lines[i])) ==> path == LinuxDefaultFont
  {
    if forall i :: 0 <= i < |lines| ==> !IsCjkLine(lines[i]) then
      DefaultFontIsItsPath();
      FontPath(FindFontLine(lines))
    else
      FontPath(FindFontLine(lines))
  }

  /** The Noto default has no ':' and no surrounding whitespace, so it is
      its own font path. */
  lemma DefaultFontIsItsPath()
    ensures FontPath(LinuxDefaultFont) == LinuxDefaultFont
  {
    var a, b, c, d := "/usr/share/", "fonts/opentype/", "noto/NotoSansCJK", "-Regular.ttc";
    DefaultFontPieces(a, b, c, d);
    ColonFreePieces(a, b, c, d);
    ColonFreeJoin(a, b, c, d);
    PlainPathIsItsPath(LinuxDefaultFont);
  }

  // The solver cannot index into a literal this long, so the default is
  // taken apart into short pieces and the facts are put back together.
  lemma DefaultFontPieces(a: string, b: string, c: string, d: string)
    requires a == "/usr/share/" && b == "fonts/opentype/" && c == "noto/NotoSansCJK" && d == "-Regular.ttc"
    ensures LinuxDefaultFont == a + b + c + d
  {
  }

  lemma ColonFreePieces(a: string, b: string, c: string, d: string)
    requires a == "/usr/share/" && b == "fonts/opentype/" && c == "noto/NotoSansCJK" && d == "-Regular.ttc"
    ensures ':' !in a && ':' !in b && ':' !in c && ':' !in d
    ensures a != [] && a[0] == '/' && d != [] && d[|d| - 1] == 'c'
  {
  }

  lemma ColonFreeJoin(a: string, b: string, c: string, d: string)
    requires ':' !in a && ':' !in b && ':' !in c && ':' !in d && a != [] && d != []
    ensures ':' !in a + b + c + d
    ensures (a + b + c + d)[0] == a[0] && (a + b + c + d)[|a + b + c + d| - 1] == d[|d| - 1]
  {
  }

  /** A path with no ':' and no whitespace at either end is its own font path. */
  lemma PlainPathIsItsPath(path: string)
    requires ':' !in path
    requires path != [] ==> !Text.IsWhitespace(path[0]) && !Text.IsWhitespace(path[|path| - 1])
    ensures FontPath(path) == path
  {
    assert Text.BeforeFirst(path, ':') == path;
    assert Text.TrimStart(path) == path;
    assert Text.TrimEnd(path) == path;
  }

}
