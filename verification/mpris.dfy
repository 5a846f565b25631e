/** The desktop media-control (MPRIS) bridge: how broadcast properties are
    put on the bus, which runner command each bus call sends, and what the
    player answers when the bus asks for its status and metadata. */
module Mpris {
  import opened Common
  import Broadcaster

  datatype PlaybackStatus = Playing | Paused

  datatype LoopStatus = LoopNone | LoopTrack | LoopPlaylist

  /** An MPRIS time: a signed 64-bit count of microseconds. */
  datatype Time = Time(micros: int)

  /** Metadata as it goes on the bus; the length is the signed whole-second
      count handed to `Time::from_secs`. */
  datatype BusMetadata = BusMetadata(
    title: Option<string>,
    artists: Option<seq<string>>,
    lengthSecs: Option<int>,
    artUrl: Option<string>,
    trackId: Option<string>)

  datatype BusProperty =
    | PlaybackStatusChanged(status: PlaybackStatus)
    | MetadataChanged(metadata: BusMetadata)
    | VolumeChanged(volume: real)

  const I64Limit: int := 0x8000_0000_0000_0000

  /** Rust's `n as i64` for a u64: values from 2^63 on wrap to negatives. */
  function AsI64(n: U64): (r: int)
    ensures -I64Limit <= r < I64Limit
    ensures r == n <==> n < I64Limit
    ensures r % 0x1_0000_0000_0000_0000 == n
  {
    if n < I64Limit then n else n - 0x1_0000_0000_0000_0000
  }

  /** The inverse of `AsI64`. */
  function AsU64(r: int): U64
    requires -I64Limit <= r < I64Limit
  {
    if r >= 0 then r else r + 0x1_0000_0000_0000_0000
  }

  lemma AsI64RoundTrip(n: U64)
    ensures AsU64(AsI64(n)) == n
  {
  }

  function StatusOf(playing: bool): (s: PlaybackStatus)
    ensures s == Playing <==> playing
  {
    if playing then Playing else Paused
  }

  /** The mapping inside `properties_changed`. */
  function ToBus(p: Broadcaster.Property): (b: BusProperty)
    ensures p.Playing? ==> b == PlaybackStatusChanged(StatusOf(p.playing))
    ensures p.Volume? ==> b == VolumeChanged(p.volume)
    ensures p.Metadata? ==>
      && b.MetadataChanged?
      && b.metadata.title == p.metadata.title
      && b.metadata.artists == p.metadata.artists
      && b.metadata.artUrl == p.metadata.imagePath
      && b.metadata.trackId == Some(p.metadata.id)
      && b.metadata.lengthSecs == Some(AsI64(p.metadata.length))
  {
    match p
    case Playing(playing) => PlaybackStatusChanged(StatusOf(playing))
    case Metadata(m) => MetadataChanged(BusMetadata(m.title, m.artists, Some(AsI64(m.length)), m.imagePath, Some(m.id)))
    case Volume(v) => VolumeChanged(v)
  }

  /** Reads a broadcast property back from its bus form. */
  function FromBus(b: BusProperty): Option<Broadcaster.Property> {
    match b
    case PlaybackStatusChanged(s) => Some(Broadcaster.Playing(s == Playing))
    case VolumeChanged(v) => Some(Broadcaster.Volume(v))
    case MetadataChanged(m) =>
      if m.lengthSecs.Some? && m.trackId.Some? && -I64Limit <= m.lengthSecs.value < I64Limit
      then Some(Broadcaster.Metadata(Broadcaster.TrackMetadata(
             m.title, m.artists, AsU64(m.lengthSecs.value), m.trackId.value, m.artUrl)))
      else None
  }

  /** The bus translation loses nothing: every property reads back as itself. */
  lemma ToBusRoundTrip(p: Broadcaster.Property)
    ensures FromBus(ToBus(p)) == Some(p)
  {
    if p.Metadata? {
      AsI64RoundTrip(p.metadata.length);
    }
  }

  /** A length of 2^63 seconds or more becomes a negative i64. */
  lemma LongLengthWraps(p: Broadcaster.Property)
    requires p.Metadata? && p.metadata.length >= I64Limit
    ensures ToBus(p).metadata.lengthSecs.value < 0
  {
  }

  /** `properties_changed`: the batch, translated in order. */
  function PropertiesChanged(batch: seq<Broadcaster.Property>): (out: seq<BusProperty>)
    ensures |out| == |batch|
    ensures forall i :: 0 <= i < |batch| ==> out[i] == ToBus(batch[i])
  {
    seq(|batch|, i requires 0 <= i < |batch| => ToBus(batch[i]))
  }

  /** The bus calls the player handles. */
  datatype BusCall =
    | NextCall
    | PreviousCall
    | PauseCall
    | PlayPauseCall
    | StopCall
    | PlayCall
    | SeekCall(offset: Time)
    | SetPositionCall(trackId: string, position: Time)
    | OpenUriCall(uri: string)
    | SetVolumeCall(volume: real)
    | SetLoopStatusCall(loopStatus: LoopStatus)
    | SetRateCall(rate: real)
    | SetShuffleCall(shuffle: bool)

  /** Rust's `/` on i64: rounds toward zero. */
  function TruncDiv(a: int, b: int): (q: int)
    requires b > 0
    ensures a >= 0 ==> 0 <= q && q * b <= a < q * b + b
    ensures a < 0 ==> q <= 0 && q * b - b < a <= q * b
  {
    if a >= 0 then
      DivBounds(a, b);
      a / b
    else
      DivBounds(-a, b);
      -((-a) / b)
  }

  lemma DivBounds(n: nat, b: int)
    requires b > 0
    ensures (n / b) * b <= n < (n / b) * b + b
  {
    assert n == (n / b) * b + n % b;
  }

  function AsSecs(t: Time): int { TruncDiv(t.micros, 1_000_000) }

  function AsMillis(t: Time): int { TruncDiv(t.micros, 1000) }

  /** A time in seconds, at millisecond resolution: what `set_position` sends. */
  function Seconds(t: Time): (s: real)
    ensures t.micros >= 0 ==> 0.0 <= s <= t.micros as real / 1_000_000.0 < s + 0.001
    ensures t.micros < 0 ==> s - 0.001 < t.micros as real / 1_000_000.0 <= s <= 0.0
    ensures (s * 1000.0).Floor as real == s * 1000.0
  {
    var ms := AsMillis(t);
    MillisAsSeconds(t.micros, ms);
    ms as real / 1000.0
  }

  /** The real-number reading of the bounds `TruncDiv` gives the milliseconds. */
  lemma MillisAsSeconds(micros: int, ms: int)
    requires micros >= 0 ==> 0 <= ms && ms * 1000 <= micros < ms * 1000 + 1000
    requires micros < 0 ==> ms <= 0 && ms * 1000 - 1000 < micros <= ms * 1000
    ensures var s := ms as real / 1000.0;
      && (micros >= 0 ==> 0.0 <= s <= micros as real / 1_000_000.0 < s + 0.001)
      && (micros < 0 ==> s - 0.001 < micros as real / 1_000_000.0 <= s <= 0.0)
      && (s * 1000.0).Floor as real == s * 1000.0
  {
    var s := ms as real / 1000.0;
    assert s * 1000.0 == ms as real;
    assert micros as real / 1_000_000.0 == (micros as real / 1000.0) / 1000.0;
  }

  /** The offset `seek` sends as written: whole seconds plus all the
      milliseconds, so every whole second of the offset counts twice. */
  function SeekOffsetAsWritten(t: Time): (s: real)
    ensures s == Seconds(t) + AsSecs(t) as real
  {
    AsSecs(t) as real + AsMillis(t) as real / 1000.0
  }

  /** Seeking forward by 2.5 s sends a relative seek of 4.5 s. */
  lemma SeekOffsetAsWrittenDoublesSeconds()
    ensures SeekOffsetAsWritten(Time(2_500_000)) == 4.5
    ensures Seconds(Time(2_500_000)) == 2.5
  {
  }

  /** The offset `seek` evidently means to send: the same conversion as
      `set_position`, accurate to the millisecond. */
  function SeekOffset(t: Time): (s: real)
    ensures t.micros >= 0 ==> 0.0 <= s <= t.micros as real / 1_000_000.0 < s + 0.001
    ensures t.micros < 0 ==> s - 0.001 < t.micros as real / 1_000_000.0 <= s <= 0.0
    ensures -1_000_000 < t.micros < 1_000_000 ==> s == SeekOffsetAsWritten(t)
    ensures (s * 1000.0).Floor as real == s * 1000.0
  {
    Seconds(t)
  }

  /** The messages one bus call sends to the runner (at most one). */
  function Dispatch(call: BusCall): (sent: seq<RunnerMessage>)
    ensures |sent| <= 1
  {
    match call
    case NextCall => [PlayNext]
    case PreviousCall => [PlayPrevious]
    case PauseCall => [Pause]
    case PlayPauseCall => [TogglePause]
    case StopCall => []
    case PlayCall => [Play]
    case SeekCall(offset) => [Seek(Relative(SeekOffset(offset)))]
    case SetPositionCall(_, position) => [Seek(Absolute(Seconds(position)))]
    case OpenUriCall(_) => []
    case SetVolumeCall(v) => [SetVolume(v)]
    case SetLoopStatusCall(_) => []
    case SetRateCall(_) => []
    case SetShuffleCall(_) => []
  }

  /** Stop, open-uri and the loop, rate and shuffle setters send nothing;
      every other call sends exactly one message. */
  lemma DispatchSilentIff(call: BusCall)
    ensures Dispatch(call) == [] <==>
      call.StopCall? || call.OpenUriCall? || call.SetLoopStatusCall? || call.SetRateCall? || call.SetShuffleCall?
  {
  }

  /** The bus never picks a track by index; seeks are relative from `seek`
      and absolute from `set_position`. */
  lemma DispatchMessageKinds(call: BusCall)
    ensures forall m :: m in Dispatch(call) ==> !m.PlayTrack?
    ensures call.SeekCall? ==> Dispatch(call) == [Seek(Relative(SeekOffset(call.offset)))]
    ensures call.SetPositionCall? ==> Dispatch(call) == [Seek(Absolute(Seconds(call.position)))]
  {
  }

  /** Every runner command other than PlayTrack and Seek is reachable from
      exactly the bus call of the same name. */
  lemma DispatchCoversCommands(m: RunnerMessage)
    requires !m.PlayTrack? && !m.Seek?
    ensures exists call :: Dispatch(call) == [m]
    ensures forall call :: Dispatch(call) == [m] ==>
      match m
      case Play => call == PlayCall
      case Pause => call == PauseCall
      case TogglePause => call == PlayPauseCall
      case PlayNext => call == NextCall
      case PlayPrevious => call == PreviousCall
      case SetVolume(v) => call == SetVolumeCall(v)
      case _ => false
  {
    var call := match m
      case Play => PlayCall
      case Pause => PauseCall
      case TogglePause => PlayPauseCall
      case PlayNext => NextCall
      case PlayPrevious => PreviousCall
      case SetVolume(v) => SetVolumeCall(v)
      case _ => StopCall;
    assert Dispatch(call) == [m];
  }

  /** `playback_status`. */
  function PlaybackStatusOf(view: RunnerView): (s: PlaybackStatus)
    ensures s == Playing <==> view.playback
  {
    StatusOf(view.playback)
  }

  /** The index guard of `metadata` as written: resets to 0 only past the
      length, so an index equal to the length gets through. */
  function GuardIndexAsWritten(index: nat, length: nat): (g: nat)
    ensures g <= length
    ensures g == index || g == 0
    ensures index <= length ==> g == index
  {
    if index > length then 0 else index
  }

  /** For a queue of three tracks, index 3 passes the guard and indexes past
      the end. */
  lemma GuardAsWrittenAdmitsLength()
    ensures GuardIndexAsWritten(3, 3) == 3
    ensures !(GuardIndexAsWritten(3, 3) < 3)
  {
  }

  /** The guard as evidently intended: any index outside the queue becomes 0. */
  function GuardIndex(index: nat, length: nat): (g: nat)
    ensures length > 0 ==> g < length
    ensures index < length ==> g == index
    ensures index >= length ==> g == 0
    ensures index != length ==> g == GuardIndexAsWritten(index, length)
  {
    if index >= length then 0 else index
  }

  /** `metadata`: the tags of the current track (of track 0 when the index is
      out of range), with the same title and artist fallbacks and track id as
      the broadcaster.  `metaOf` and `imageOf` decode a track given its folder
      and file name; `scratchPath` is the fresh temporary file's path. */
  function CurrentMetadata(
    view: RunnerView, removeExt: string -> string,
    metaOf: (string, string) -> TrackMeta, imageOf: (string, string) -> Bytes, scratchPath: string): (m: BusMetadata)
    requires |view.queue| > 0
    ensures var name := view.queue[GuardIndex(view.index, |view.queue|)];
      var meta := metaOf(view.path, name);
      && m.title == Some(DisplayTitle(meta, name, removeExt))
      && m.artists == DisplayArtists(meta)
      && m.lengthSecs == Some(AsI64(meta.lenSecs))
      && m.trackId == Some(TrackId)
      && (m.artUrl.None? <==> imageOf(view.path, name) == [])
      && (m.artUrl.Some? ==> m.artUrl.value == scratchPath)
  {
    var name := view.queue[GuardIndex(view.index, |view.queue|)];
    var meta := metaOf(view.path, name);
    var image := imageOf(view.path, name);
    BusMetadata(
      Some(DisplayTitle(meta, name, removeExt)),
      DisplayArtists(meta),
      Some(AsI64(meta.lenSecs)),
      if image == [] then None else Some(scratchPath),
      Some(TrackId))
  }

  /** What the bus reads on request agrees with what the broadcaster pushes:
      status, volume, and (for an index inside the queue and the same scratch
      path) the metadata. */
  lemma PullAgreesWithPush(
    view: RunnerView, removeExt: string -> string,
    metaOf: (string, string) -> TrackMeta, imageOf: (string, string) -> Bytes, scratchPath: string)
    ensures ToBus(Broadcaster.Playing(view.playback)) == PlaybackStatusChanged(PlaybackStatusOf(view))
    ensures ToBus(Broadcaster.Volume(view.volume)) == VolumeChanged(view.volume)
    ensures view.index < |view.queue| ==>
      var name := view.queue[view.index];
      ToBus(Broadcaster.Metadata(Broadcaster.MetadataFor(
        metaOf(view.path, name), name, imageOf(view.path, name), scratchPath, removeExt)))
      == MetadataChanged(CurrentMetadata(view, removeExt, metaOf, imageOf, scratchPath))
  {
  }

  /** The player's constant answers to the bus. */
  datatype Capabilities = Capabilities(
    canGoNext: bool, canGoPrevious: bool, canPlay: bool, canPause: bool,
    canSeek: bool, canControl: bool, loopStatus: LoopStatus, shuffle: bool,
    rate: real, minimumRate: real, maximumRate: real)

  function PlayerCapabilities(): (c: Capabilities)
    ensures c.canGoNext && c.canGoPrevious && c.canPlay && c.canPause && c.canSeek && c.canControl
    ensures c.loopStatus == LoopPlaylist && c.shuffle
    ensures c.minimumRate == c.rate == c.maximumRate == 1.0
  {
    Capabilities(true, true, true, true, true, true, LoopPlaylist, true, 1.0, 1.0, 1.0)
  }
}
