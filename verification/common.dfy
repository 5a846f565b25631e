/** Types shared by the player's components: the runner's command protocol,
    the snapshot a reader takes of the runner, and the decoded track record. */
module Common {

  datatype Option<+T> = None | Some(value: T)

  /** Rust's u64. */
  type U64 = x: int | 0 <= x < 0x1_0000_0000_0000_0000

  /** Raw bytes, as extracted album art. */
  type Bytes = seq<bv8>

  /** What decoding a track yields: its title and artist tags (empty when
      absent) and its length in whole seconds. */
  datatype TrackMeta = TrackMeta(title: string, artist: string, lenSecs: U64)

  /** Playback position and duration, each as whole seconds plus a fraction. */
  datatype TrackTime = TrackTime(tsSecs: U64, tsFrac: real, durSecs: U64, durFrac: real)

  datatype SeekTarget = Absolute(seconds: real) | Relative(offset: real)

  /** The runner's command protocol; the runner itself is not part of this model. */
  datatype RunnerMessage =
    | Play
    | Pause
    | TogglePause
    | PlayNext
    | PlayPrevious
    | PlayTrack(index: nat)
    | Seek(target: SeekTarget)
    | SetVolume(volume: real)

  /** One read guard's worth of runner state: every accessor read under the
      same guard sees these values.  Volume is compared only for equality. */
  datatype RunnerView = RunnerView(
    index: nat,
    path: string,
    queue: seq<string>,
    playback: bool,
    volume: real,
    time: TrackTime)

  /** The title reported for a track: its decoded title, or the file name
      without extension when the tag is empty. */
  function DisplayTitle(meta: TrackMeta, trackName: string, removeExt: string -> string): (t: string)
    ensures meta.title != [] ==> t == meta.title
    ensures meta.title == [] ==> t == removeExt(trackName)
  {
    if meta.title != [] then meta.title else removeExt(trackName)
  }

  /** The artist list reported for a track: absent when the tag is empty,
      otherwise the single decoded artist. */
  function DisplayArtists(meta: TrackMeta): (a: Option<seq<string>>)
    ensures a.None? <==> meta.artist == []
    ensures a.Some? ==> a.value == [meta.artist]
  {
    if meta.artist == [] then None else Some([meta.artist])
  }

  /** The MPRIS track id the player always reports. */
  const TrackId: string := "/n_music"
}
