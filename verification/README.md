# n_player core, modelled in Dafny

This project models the control core of the `n_player` music player:

- **Change-diff broadcaster** (`bus_server/mod.rs`, module `Broadcaster`).
  Every tick it reads the runner's playback flag, volume and track index.
  It stages one property per field that changed since the last tick and
  hands the batch to the media-control server only when the batch is not
  empty. A new index also brings the track's metadata and writes its
  album art to a scratch file.
- **MPRIS bridge** (`bus_server/linux.rs`, module `Mpris`). It translates
  broadcast properties to bus properties and turns each bus call into at
  most one runner command. It answers status, metadata and capability
  queries.
- **Track-table UI** (`ui/app.rs`, module `UiApp`). It builds one row per
  queue entry and drains the metadata loader's messages into the rows. It
  sends one runner command per user action and derives each row's
  highlight, `mm:ss` label and separator.
- **Single-window player** (`app.rs`, module `LegacyApp`). It drives the
  queue player directly. It scans a folder into a sorted track list and
  reuses saved durations. Clicks become ordered player calls. It also keeps
  a progress fallback, saves and restores its settings, and finds the CJK
  font's path and name.
- **Localization** (`localization.rs`, module `Localization`). It does the
  code/name lookups in the locale table and the per-string fallback to
  English.

Shared modules:

- `Common`: the runner's command protocol, the runner snapshot, and the
  title and artist fallbacks.
- `Text`: string splitting, trimming, `{:02}` formatting, and `str` order.
- `Sorting`: a sort under an abstract total preorder.

Code this model cannot see is passed in as a function parameter. That covers
track decoding, album-art extraction, `remove_ext`, the TOML codec, float
parsing and printing, the locale files, `vec_contains`, the player's
duration probe, and the ordering of `FileTrack`.

Failures the code does not survive are handled in one of three ways:

- A panic on the operation's own input becomes a precondition. Examples are
  a regular file without a recognised type (`LegacyApp.Init`) and an empty
  queue (`Mpris.CurrentMetadata`).
- A panic that depends on data the operation reads becomes a `None` result.
  This is how `Localize` treats a missing English string.
- A failing call into code outside the model is assumed to succeed. This
  covers the `unwrap()`s on player calls, channel sends and bus
  notifications (see Left out).

Three defects in the code are modelled twice: as written, in members of
their own, and corrected. The rest of the model uses the corrected form (see
Findings, and the `Mpris.Dispatch`, `Mpris.CurrentMetadata` and
`Broadcaster.DiffLoop.Tick` lines under Left out). The three are the
metadata guard (`index > len`), the relative seek offset, and the
scratch-file write.

## Model

| member | source | states |
|---|---|---|
| Common.DisplayTitle | n_player/src/bus_server/mod.rs:86-90 | the reported title is the title tag, or the file name without extension when the tag is empty |
| Common.DisplayArtists | n_player/src/bus_server/mod.rs:91-95 | no artist list exactly when the artist tag is empty, else the one-element list of that artist |
| Text.BeforeFirst | n_player/src/localization.rs:21-23 | `split(c).next()`: the longest prefix without `c`, followed in the input by `c` when shorter than it |
| Text.BeforeFirstOfJoin | n_player/src/localization.rs:21-23 | the first field of `a + c + b` is `a` when `a` has no `c` |
| Text.AfterLast | n_player/src/app.rs:96 | `split(c).last()`: the longest suffix without `c`, preceded in the input by `c` when shorter than it |
| Text.AfterLastOfJoin | n_player/src/app.rs:96 | the last field of `a + c + b` is `b` when `b` has no `c` |
| Text.ContainsAt | n_player/src/app.rs:128 | an occurrence at any offset makes `contains` true |
| Text.TrimStart | n_player/src/app.rs:131 | drops exactly the leading whitespace: what is dropped is whitespace and the result does not start with whitespace |
| Text.TrimEnd | n_player/src/app.rs:131 | drops exactly the trailing whitespace, in the same sense |
| Text.TrimBothEnds | n_player/src/app.rs:131 | trimming both ends leaves a slice of the input with only whitespace around it |
| Text.Trim | n_player/src/app.rs:131 | `trim()`: a slice of the input with only whitespace outside it and no whitespace at either end |
| Text.Decimal | n_player/src/ui/app.rs:136-140 | decimal digits of `n`: non-empty, all digits, one digit below 10, at most two below 100, and no leading zero from 10 up |
| Text.Pad2 | n_player/src/ui/app.rs:136-140 | `{:02}`: all digits, at least two, exactly two below 100; a leading zero below 10 and none from 10 up |
| Text.ParseDecimalOfDecimal | n_player/src/ui/app.rs:136-140 | decimal printing is injective: the digits read back as `n` |
| Text.ParseDecimalOfPad2 | n_player/src/ui/app.rs:136-140 | zero padding keeps the value: the padded digits read back as `n` |
| Text.DurationLabel | n_player/src/ui/app.rs:136-140 | `{:02}:{:02}`: digits, a ':' three from the end, then two digits; exactly five characters below 100 minutes; the first minute digit is 0 below 10 minutes and not 0 from then on |
| Text.DurationLabelRoundTrip | n_player/src/ui/app.rs:136-140 | the `mm:ss` label reads back as (secs / 60, secs % 60), with seconds below 60 and two digits, recombining to `secs` |
| Text.LexLeqTotal | n_player/src/localization.rs:34 | `str` order is total |
| Text.LexLeqTransitive | n_player/src/localization.rs:34 | `str` order is transitive |
| Sorting.Insert | n_player/src/app.rs:194 | inserting into a sorted list keeps it sorted and adds exactly that element |
| Sorting.Sort | n_player/src/app.rs:194 | the result is sorted under the preorder and is a permutation of the input |
| Localization.NameOf | n_player/src/localization.rs:81-90 | the name of the first entry with the code, or "English" when no entry has it |
| Localization.CodeOf | n_player/src/localization.rs:92-101 | the code of the first entry with the name, or "en" when no entry has it |
| Localization.LocaleNameOfKnownCode | n_player/src/localization.rs:81-90 | with unique codes, a table code names its own entry |
| Localization.DenominatorOfKnownName | n_player/src/localization.rs:92-101 | with unique names, a table name gives back its own code |
| Localization.CodeNameCodeRoundTrip | n_player/src/localization.rs:81-101 | code → name → code is the identity on table codes |
| Localization.NameCodeNameRoundTrip | n_player/src/localization.rs:81-101 | name → code → name is the identity on table names |
| Localization.GetLocaleName | n_player/src/localization.rs:81-90 | "English" without a denominator; otherwise the name of the first entry with that code, or "English" when no entry has it |
| Localization.GetLocaleDenominator | n_player/src/localization.rs:92-101 | "en" without a name; otherwise the code of the first entry with that name, or "en" when no entry has it |
| Localization.SystemDenominator | n_player/src/localization.rs:18-25 | the system locale's language part: the longest prefix with no '-', followed in the tag by '-' when shorter than it |
| Localization.SystemDenominatorOfTag | n_player/src/localization.rs:18-25 | "lang-REGION" gives "lang" |
| Localization.Pick | n_player/src/localization.rs:37-43 | the eager `unwrap_or`: fails exactly when the English string is missing, else the locale's own string when present, else English |
| Localization.Names | n_player/src/localization.rs:29-33 | one display name per table entry, in table order |
| Localization.LexLeqIsTotalPreorder | n_player/src/localization.rs:34 | the `str` order is a total preorder, so sorting by it is well specified |
| Localization.Localize | n_player/src/localization.rs:17-79 | succeeds iff a system locale exists and English has all six strings; the denominator is the given one or the system language; each string is the locale's own or English; the current name is the table lookup; the name list is a sorted permutation of the table's names |
| Localization.CompleteLocaleShownUnmixed | n_player/src/localization.rs:17-79 | a complete locale is shown with all six of its own strings and one list entry per table entry |
| Broadcaster.Observe | n_player/src/bus_server/mod.rs:53-64 | the compared fields are the playback flag, volume and index read under one guard |
| Broadcaster.Baseline | n_player/src/bus_server/mod.rs:44-47 | the first tick compares against not playing, volume 1.0 and the starting index |
| Broadcaster.ImagePath | n_player/src/bus_server/mod.rs:76-83 | no art path exactly when the image is empty, else the scratch file's path |
| Broadcaster.MetadataFor | n_player/src/bus_server/mod.rs:84-98 | id "/n_music", the title fallback, the artist list, the decoded length, and the art path |
| Broadcaster.TickBatch | n_player/src/bus_server/mod.rs:55-99 | a tick stages at most three properties; nothing exactly when none of the three fields changed; and a moved index ends the batch with the new track's metadata |
| Broadcaster.TickBatchShape | n_player/src/bus_server/mod.rs:55-99 | order Playing, Volume, Metadata; each kind present iff its field changed, carrying the new value and the new track's metadata |
| Broadcaster.OnlyVolumeChanged | n_player/src/bus_server/mod.rs:59-62 | a change of volume alone is the one-element batch [Volume] |
| Broadcaster.FirstTick | n_player/src/bus_server/mod.rs:44-65 | the first batch has Playing(true) iff the runner plays, never Playing(false), Volume iff volume is not 1.0, and Metadata iff the index moved |
| Broadcaster.OverwriteAsWritten | n_player/src/bus_server/mod.rs:79-81 | rewind then write without truncation: the new image followed by the old file's tail; the length is the larger of the two |
| Broadcaster.OverwriteAsWrittenKeepsStaleTail | n_player/src/bus_server/mod.rs:79-81 | writing image [9] over [1,2,3] leaves [9,2,3], not [9] |
| Broadcaster.Overwrite | n_player/src/bus_server/mod.rs:79-81 | the scratch file holds exactly the new image, agreeing with the code when the new image is not shorter |
| Broadcaster.OverwriteForgetsPrevious | n_player/src/bus_server/mod.rs:79-81 | the file after writing does not depend on what it held before |
| Broadcaster.DiffLoop.constructor | n_player/src/bus_server/mod.rs:43-49 | the loop starts from the baseline with an empty buffer and nothing emitted |
| Broadcaster.DiffLoop.Tick | n_player/src/bus_server/mod.rs:52-106 | one tick appends the tick's batch to the emitted log iff it is non-empty, remembers the new snapshot, empties the buffer, and rewrites the scratch file only for a new track with art |
| Broadcaster.Batches | n_player/src/bus_server/mod.rs:51-107 | over a run of ticks the server is never handed an empty batch, and gets at most one per tick |
| Broadcaster.SteadyStateIsSilent | n_player/src/bus_server/mod.rs:51-106 | while playback, volume and index stay as last seen, the server hears nothing |
| Broadcaster.BatchesStep | n_player/src/bus_server/mod.rs:51-107 | the batches of a run are the first tick's batch (if any) followed by those of the rest |
| Broadcaster.Step | n_player/src/bus_server/mod.rs:51-107 | one pass of the loop keeps "emitted so far, then what the remaining ticks emit" equal to the whole run's batches |
| Broadcaster.Run | n_player/src/bus_server/mod.rs:37-109 | without a server nothing is emitted; with one, the emitted batches are exactly the tick-by-tick batches from the baseline |
| Mpris.AsI64 | n_player/src/bus_server/linux.rs:37 | `u64 as i64`: in i64 range, unchanged iff below 2^63, congruent modulo 2^64 |
| Mpris.AsI64RoundTrip | n_player/src/bus_server/linux.rs:37 | the wrap is lossless: converting back gives the original length |
| Mpris.StatusOf | n_player/src/bus_server/linux.rs:27-31 | Playing iff playing, else Paused |
| Mpris.ToBus | n_player/src/bus_server/linux.rs:26-44 | each property becomes the bus property of its kind, with title, artists, art URL, track id and the wrapped length carried over |
| Mpris.ToBusRoundTrip | n_player/src/bus_server/linux.rs:26-44 | the bus translation loses nothing: every property reads back as itself |
| Mpris.LongLengthWraps | n_player/src/bus_server/linux.rs:37 | a length of 2^63 seconds or more becomes a negative i64 |
| Mpris.PropertiesChanged | n_player/src/bus_server/linux.rs:20-48 | a batch is translated element by element, in order |
| Mpris.TruncDiv | n_player/src/bus_server/linux.rs:151 | i64 division rounds toward zero: the quotient times the divisor lies within one divisor of the dividend, on the dividend's side of zero |
| Mpris.Seconds | n_player/src/bus_server/linux.rs:158-166 | `as_millis / 1000.0`: a whole number of milliseconds, within one millisecond of the time and on the zero side of it |
| Mpris.SeekOffsetAsWritten | n_player/src/bus_server/linux.rs:148-156 | the offset as written is the true offset plus its whole seconds again |
| Mpris.SeekOffsetAsWrittenDoublesSeconds | n_player/src/bus_server/linux.rs:148-156 | seeking by 2.5 s sends a relative seek of 4.5 s |
| Mpris.SeekOffset | n_player/src/bus_server/linux.rs:148-156 | the corrected offset is a whole number of milliseconds, within one millisecond of the offset and on the zero side of it, and agrees with the code for offsets under one second |
| Mpris.Dispatch | n_player/src/bus_server/linux.rs:113-170 | a bus call sends at most one runner command (the relative seek with the corrected offset) |
| Mpris.DispatchSilentIff | n_player/src/bus_server/linux.rs:139-203 | stop, open-uri and the loop, rate and shuffle setters send nothing; every other call sends exactly one command |
| Mpris.DispatchMessageKinds | n_player/src/bus_server/linux.rs:148-166 | the bus never picks a track by index; seek sends exactly one relative seek by the corrected offset, and set-position exactly one absolute seek to the position in seconds |
| Mpris.DispatchCoversCommands | n_player/src/bus_server/linux.rs:113-146 | every command except PlayTrack and Seek comes from exactly the bus call of the same name, and set-volume forwards its value |
| Mpris.PlaybackStatusOf | n_player/src/bus_server/linux.rs:172-179 | the status is Playing iff the runner plays |
| Mpris.GuardIndexAsWritten | n_player/src/bus_server/linux.rs:209-211 | the guard as written keeps every index up to the length itself and resets larger ones to 0, so its result is at most the length rather than below it |
| Mpris.GuardAsWrittenAdmitsLength | n_player/src/bus_server/linux.rs:209-212 | with the guard as written, index 3 of a three-track queue passes and indexes past the end |
| Mpris.GuardIndex | n_player/src/bus_server/linux.rs:209-211 | the corrected guard always gives an index in the queue: unchanged inside it, 0 outside it, and equal to the code's guard except at index == length |
| Mpris.CurrentMetadata | n_player/src/bus_server/linux.rs:205-246 | the guarded track's title fallback, artists, wrapped length, id "/n_music", and an art URL iff the track has art |
| Mpris.PullAgreesWithPush | n_player/src/bus_server/linux.rs:205-246 | what the bus reads on request (status, volume, metadata for an index in the queue) equals what the broadcaster pushes |
| Mpris.PlayerCapabilities | n_player/src/bus_server/linux.rs:181-297 | loops the playlist, shuffles and plays at rate 1.0 (lines 181-203); minimum and maximum rate 1.0, and can go next, go previous, play, pause, seek and control (lines 267-297) |
| UiApp.InitialRows | n_player/src/ui/app.rs:30-38 | one row per queue index: the file name without extension, no artist, length 0 |
| UiApp.Apply | n_player/src/ui/app.rs:100-106 | a loader message changes only its own field of its own row |
| UiApp.ApplyAll | n_player/src/ui/app.rs:100-106 | a drain keeps the number of rows |
| UiApp.LastMessageWins | n_player/src/ui/app.rs:100-106 | after a drain each field of each row holds the last message's value for it, or the earlier value |
| UiApp.UntouchedRowKept | n_player/src/ui/app.rs:100-106 | a row with no message is left as it was |
| UiApp.HighlightUnique | n_player/src/ui/app.rs:123-127 | a row is highlighted iff the runner plays and it is the runner's index, so at most one row is, and none while paused |
| UiApp.HasSeparator | n_player/src/ui/app.rs:142-144 | every row except the last is followed by a separator, and the last is not |
| UiApp.SeparatorsBetweenRows | n_player/src/ui/app.rs:142-144 | n rows draw n - 1 separators, none after the last |
| UiApp.SeparatorsBeforeLast | n_player/src/ui/app.rs:142-144 | every row before the last is followed by a separator |
| UiApp.RenderRow | n_player/src/ui/app.rs:117-145 | title, artist, framed iff highlighted, separator iff not last, and a label that reads back as (length / 60, length % 60) |
| UiApp.App.constructor | n_player/src/ui/app.rs:25-66 | the initial rows; not playing; volume 1.0; time zero |
| UiApp.App.Update | n_player/src/ui/app.rs:93-106 | playback, volume and time come from one snapshot; the rows are the old rows with the inbox applied in order; nothing is sent |
| UiApp.App.PlayNext | n_player/src/ui/app.rs:68-70 | sends exactly PlayNext |
| UiApp.App.PlayPrevious | n_player/src/ui/app.rs:72-74 | sends exactly PlayPrevious |
| UiApp.App.TogglePause | n_player/src/ui/app.rs:76-78 | sends exactly TogglePause |
| UiApp.App.SetVolume | n_player/src/ui/app.rs:80-82 | sends SetVolume with the volume last read |
| UiApp.App.PlayTrack | n_player/src/ui/app.rs:84-86 | sends PlayTrack with the clicked row |
| LegacyApp.SavedDuration | n_player/src/app.rs:183-185 | a saved duration exists iff some saved track has the name, and it is that track's duration |
| LegacyApp.ScannedTrack | n_player/src/app.rs:182-191 | an audio file keeps its name and takes a saved duration of that name, or the probed one when none was saved |
| LegacyApp.ScanTracks | n_player/src/app.rs:173-192 | the scan pushes exactly as many tracks as there are audio files |
| LegacyApp.ScanTracksExact | n_player/src/app.rs:173-193 | the scan yields each audio file's track and nothing else |
| LegacyApp.Init | n_player/src/app.rs:162-195 | adds the folder once; the list is sorted and is a permutation of the old list plus the scanned tracks |
| LegacyApp.Restore | n_player/src/app.rs:42-56 | no storage gives no cache, volume 1.0 and no path; a stored volume that parses is used, else 1.0; stored durations that decode are used, else none; the path is present iff stored, with the stored value |
| LegacyApp.Save | n_player/src/app.rs:343-349 | writes durations and volume always and the path only when set; all other keys, and an old path when none is set, are untouched |
| LegacyApp.SaveRestoreRoundTrip | n_player/src/app.rs:343-349 | with codecs that read back what they write, restore after save gives the tracks and volume, and the path when one was set (else the stored one) |
| LegacyApp.CachedDurationSurvivesRestart | n_player/src/app.rs:182-190 | with unique names, a saved track's duration is reused on the next scan, whatever the probe says |
| LegacyApp.StartupCalls | n_player/src/app.rs:52-67 | with a stored path the folder is added, the volume set, and the folder added again; without one only the volume is set |
| LegacyApp.Startup | n_player/src/app.rs:52-67 | makes exactly those calls and scans the stored folder with the saved durations |
| LegacyApp.PreviousCalls | n_player/src/app.rs:266-278 | nothing without a cached time; a seek to 0 within the first 2 s; otherwise end the current track then play the previous one |
| LegacyApp.ToggleCalls | n_player/src/app.rs:280-291 | unpause if paused else pause; then play next iff the player is not playing, and nothing else: one call, or two ending with play next; never ends the current track |
| LegacyApp.NextCalls | n_player/src/app.rs:293-298 | exactly two calls: end the current track, then play the next; no other track change |
| LegacyApp.ClickCalls | n_player/src/app.rs:324-330 | exactly two calls: end the current track, then play the clicked one; no other track change |
| LegacyApp.EndedCalls | n_player/src/app.rs:207-212 | a finished track makes exactly one call, play next, and nothing happens otherwise |
| LegacyApp.Trunc | n_player/src/app.rs:87 | `trunc()`: rounds toward zero |
| LegacyApp.SeekSeconds | n_player/src/app.rs:84-85 | the seek point of a slider position in [0, 1] lies between 0 and the track's total duration |
| LegacyApp.SplitSeconds | n_player/src/app.rs:87-88 | a seek point in seconds splits into its floor, saturated to 0 below and 2^64 - 1 above, and its fractional part after truncation toward zero |
| LegacyApp.SeekStaysInTrack | n_player/src/app.rs:84-88 | a slider position in [0, 1] never seeks past the track's last whole second, and the fraction is below one second |
| LegacyApp.SeekCalls | n_player/src/app.rs:80-92 | calls are made iff a time is known and the slider moved: pause, seek to the slider's point, unpause; never a track change |
| LegacyApp.ButtonsEndBeforeChanging | n_player/src/app.rs:266-330 | previous, next and track clicks end the current track right before changing it; the toggle and the end-of-track advance do not |
| LegacyApp.Progress | n_player/src/app.rs:237-247 | the live time's fraction, else the cached time's, else 0 |
| LegacyApp.TitleFor | n_player/src/app.rs:210 | the title is "N Music - " followed by the track name |
| LegacyApp.ToggleGlyph | n_player/src/app.rs:256-260 | the pause glyph iff playing and not paused, else the play glyph |
| LegacyApp.AtMostOneRowFramed | n_player/src/app.rs:313-316 | with distinct names at most one row is framed |
| LegacyApp.RowLabel | n_player/src/app.rs:318-322 | the row label reads back as (duration / 60, duration % 60) |
| LegacyApp.App.constructor | n_player/src/app.rs:31-77 | restored path and volume, the startup calls, the sorted scan of the stored folder, time 0, no cached time, title "N Music" |
| LegacyApp.App.PickFolder | n_player/src/app.rs:147-160 | while no folder is set, a picked folder is scanned without saved durations and becomes the path; otherwise nothing changes |
| LegacyApp.App.CheckEnded | n_player/src/app.rs:207-212 | an ended track triggers play-next and a new title |
| LegacyApp.App.SliderSeek | n_player/src/app.rs:80-92 | the dragged position replaces `time` and the seek calls for it are made |
| LegacyApp.App.VolumeSlider | n_player/src/app.rs:226-234 | a moved volume slider sets the new volume on the player |
| LegacyApp.App.RefreshProgress | n_player/src/app.rs:237-247 | the shown progress follows the live time, else the cache; a live time replaces the cache |
| LegacyApp.App.OnPrevious | n_player/src/app.rs:266-279 | makes the previous-button calls and retitles only when the track changes |
| LegacyApp.App.OnToggle | n_player/src/app.rs:280-292 | makes the toggle calls and retitles only when it starts the next track |
| LegacyApp.App.OnNext | n_player/src/app.rs:293-299 | makes the next-button calls and retitles |
| LegacyApp.App.OnTrackClicked | n_player/src/app.rs:324-331 | makes the click calls and retitles |
| LegacyApp.App.Saved | n_player/src/app.rs:343-349 | the saved storage holds the encoded tracks and the printed volume |
| LegacyApp.App.OnExit | n_player/src/app.rs:351-353 | exiting ends the current track |
| LegacyApp.FontName | n_player/src/app.rs:96 | the font name is the file's last path segment up to its first '.': a prefix with no '/' or '.', followed by '.' when shorter than the segment |
| LegacyApp.FontNameOfPath | n_player/src/app.rs:96 | `dir/stem.ext` is registered as `stem` |
| LegacyApp.FontPath | n_player/src/app.rs:131 | the path taken from an `fc-list` line is its text before the first ':' with only the surrounding whitespace dropped; it has no ':' and no whitespace at either end |
| LegacyApp.FontPathOfLine | n_player/src/app.rs:131 | `path:rest` gives `path` back when the path has no ':' and no surrounding whitespace |
| LegacyApp.FindFontLine | n_player/src/app.rs:126-129 | the first listed line containing both "Regular" and "CJK", and the Noto default when no line does |
| LegacyApp.FontLineSkipsOthers | n_player/src/app.rs:126-129 | lines that are not regular CJK faces, listed before the rest, do not change the font line chosen |
| LegacyApp.FindCjkFont | n_player/src/app.rs:113-133 | the path of the first regular CJK line listed, or the Noto default itself when none is listed; never contains ':' |
| LegacyApp.PlainPathIsItsPath | n_player/src/app.rs:131 | a path with no ':' and no whitespace at either end comes through the split and the trim unchanged |
| LegacyApp.DefaultFontIsItsPath | n_player/src/app.rs:129-131 | the Noto default comes through the split and the trim unchanged |

## Left out

- Concurrency is not modelled. The runner lock, the tokio interval, the loader thread and the UI thread are all outside the model. Each reader takes one `RunnerView` snapshot.
- `metadata()` reads index, path and queue under three separate guards. The model reads them as one snapshot.
- The broadcaster's loop never ends. `Broadcaster.Run` models a finite prefix of its ticks.
- The runner itself, the queue player, `add_all_tracks_to_player`, track decoding, art extraction, `remove_ext`, `vec_contains` and `FileTrack`'s order are not part of this model. They enter as parameters, and `vec_contains` is only required to answer correctly.
- Floating point is modelled with exact reals. Volume is only compared for equality, so NaN is not modelled. The progress fraction is a parameter.
- LegacyApp.SplitSeconds computes with exact reals instead of f64 rounding.
- UiApp.RenderRow uses integer division for the minutes, where the source floors an f64 quotient. The two agree for lengths below 2^53 s.
- Mpris.Dispatch sends the corrected relative seek offset (`Mpris.SeekOffset`, whole milliseconds in seconds). The code at n_player/src/bus_server/linux.rs:151 sends `as_secs() + as_millis() / 1000.0`, which `Mpris.SeekOffsetAsWritten` models. For a 2.5 s offset the code sends 4.5 s and the model 2.5 s.
- Broadcaster.DiffLoop.Tick writes the scratch file with the truncating `Broadcaster.Overwrite`. The code at n_player/src/bus_server/mod.rs:79-81 rewinds and writes without truncating (`Broadcaster.OverwriteAsWritten`). When the new image is shorter, the code leaves the old image's tail and the model does not.
- Mpris.CurrentMetadata uses the corrected guard. At an index equal to the queue's length the code panics (n_player/src/bus_server/linux.rs:212), while the model reports track 0.
- The `unwrap()`s on calls into code outside the model are assumed to succeed. These are the player calls (n_player/src/app.rs:58, 83-89, 187, 233, 269, 271, 282, 284, 294, 325, 326, 352), the channel sends (n_player/src/ui/app.rs:69-85, n_player/src/bus_server/linux.rs:114-164) and `properties_changed(..).await.unwrap()` (n_player/src/bus_server/mod.rs:102-105). A failure there would panic.
- LegacyApp.App.CheckEnded, SliderSeek, VolumeSlider, RefreshProgress, OnPrevious, OnToggle, OnNext and OnTrackClicked require a folder to be set. While none is, `update` shows only the folder dialog and returns early (n_player/src/app.rs:202-205). That case is `LegacyApp.App.PickFolder`.
- Mpris.Seconds does not model the overflow of a bus `Time` built from more than 2^63 microseconds.
- `position()` is not modelled (floating-point millisecond arithmetic). Neither are the root-interface stubs: identity "N Music", no desktop entry, empty URI and MIME lists, no raise/quit/fullscreen.
- The scratch file's lifetime is not modelled. In `metadata()` the file is dropped, and so deleted, as the call returns. `CurrentMetadata` models only the path it reports.
- Rendering, repaint scheduling, viewport title commands, fonts' byte loading, dark visuals and widget layout are left out. Titles are modelled as the `title` field.
- `read_dir`, MIME sniffing and `fc-list` output splitting are inputs: directory entries, their sniffed types, and the listed lines.
- The macOS and Windows font branches are left out; only the Linux one is modelled.
- LegacyApp.Init requires every regular file to have a recognised type. The source panics on the first that does not.
- Mpris.CurrentMetadata requires a non-empty queue. The source indexes `queue[0]` and panics on an empty one.
- LegacyApp.App.SliderSeek, VolumeSlider, RefreshProgress and the button methods are separate steps. In a frame the source runs them in that order, so the previous button reads the cache refreshed earlier in the same frame.
- UiApp.InitialRows assumes that `FileTrack::new` takes (title, artist, length) in that order; `FileTrack` is not part of this model.

## Findings

| source | as written | input that shows it | evidently intended | confidence | as-written member | corrected member |
|---|---|---|---|---|---|---|
| n_player/src/bus_server/linux.rs:209-212 | `if index > queue.len() { index = 0 }` lets `index == len` through to `queue[index]` | queue of 3 tracks, runner index 3 | `index >= queue.len()` resets to 0 | high (found by proof; not executed) | Mpris.GuardAsWrittenAdmitsLength | Mpris.GuardIndex |
| n_player/src/bus_server/linux.rs:148-156 | the relative seek sends `as_secs() + as_millis() / 1000.0`, counting whole seconds twice | a 2.5 s seek offset sends 4.5 s | `as_millis() / 1000.0`, as `set_position` does | high (found by proof; not executed) | Mpris.SeekOffsetAsWrittenDoublesSeconds | Mpris.SeekOffset |
| n_player/src/bus_server/mod.rs:79-81 | `rewind()` then `write_all(image)` without truncating the file | scratch file [1,2,3], new image [9] leaves [9,2,3] | the scratch file holds exactly the new image | medium (image readers may stop at the end marker; not executed) | Broadcaster.OverwriteAsWrittenKeepsStaleTail | Broadcaster.Overwrite |
