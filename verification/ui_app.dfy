/** The track-table UI: one row per queue entry, filled in as the metadata
    loader reports lengths, artists and titles; one runner command per user
    action; and the per-row highlight, label and separator rules. */
module UiApp {
  import opened Common
  import Text

  /** One row of the table. */
  datatype TrackRow = TrackRow(title: string, artist: string, length: U64)

  /** A result from the metadata loader, for the row at `index`. */
  datatype LoaderMessage =
    | Length(index: nat, length: U64)
    | Artist(index: nat, artist: string)
    | Title(index: nat, title: string)

  /** The rows `new` builds: row `i` is titled with the file name of queue
      entry `i` without its extension, with no artist and length 0.
      `pathForFile` stands for the runner's `get_path_for_file`. */
  function InitialRows(count: nat, pathForFile: nat -> string, removeExt: string -> string): (rows: seq<TrackRow>)
    ensures |rows| == count
    ensures forall i :: 0 <= i < count ==> rows[i] == TrackRow(removeExt(pathForFile(i)), "", 0)
  {
    seq(count, i requires 0 <= i < count => TrackRow(removeExt(pathForFile(i)), "", 0))
  }

  predicate InRange(inbox: seq<LoaderMessage>, count: nat) {
    forall k :: 0 <= k < |inbox| ==> inbox[k].index < count
  }

  /** One loader message applied to the rows: only its own field of its own
      row changes. */
  function Apply(rows: seq<TrackRow>, m: LoaderMessage): (r: seq<TrackRow>)
    requires m.index < |rows|
    ensures |r| == |rows|
    ensures forall j :: 0 <= j < |rows| && j != m.index ==> r[j] == rows[j]
    ensures m.Length? ==> r[m.index] == rows[m.index].(length := m.length)
    ensures m.Artist? ==> r[m.index] == rows[m.index].(artist := m.artist)
    ensures m.Title? ==> r[m.index] == rows[m.index].(title := m.title)
  {
    match m
    case Length(i, l) => rows[i := rows[i].(length := l)]
    case Artist(i, a) => rows[i := rows[i].(artist := a)]
    case Title(i, t) => rows[i := rows[i].(title := t)]
  }

  /** The messages applied in arrival order. */
  function ApplyAll(rows: seq<TrackRow>, inbox: seq<LoaderMessage>): (r: seq<TrackRow>)
    requires InRange(inbox, |rows|)
    ensures |r| == |rows|
  {
    if inbox == [] then rows
    else Apply(ApplyAll(rows, inbox[..|inbox| - 1]), inbox[|inbox| - 1])
  }

  /** The length the last Length message for row `i` carries, or `prior`. */
  function LastLength(inbox: seq<LoaderMessage>, i: nat, prior: U64): U64 {
    if inbox == [] then prior
    else if inbox[|inbox| - 1].Length? && inbox[|inbox| - 1].index == i then inbox[|inbox| - 1].length
    else LastLength(inbox[..|inbox| - 1], i, prior)
  }

  /** The artist the last Artist message for row `i` carries, or `prior`. */
  function LastArtist(inbox: seq<LoaderMessage>, i: nat, prior: string): string {
    if inbox == [] then prior
    else if inbox[|inbox| - 1].Artist? && inbox[|inbox| - 1].index == i then inbox[|inbox| - 1].artist
    else LastArtist(inbox[..|inbox| - 1], i, prior)
  }

  /** The title the last Title message for row `i` carries, or `prior`. */
  function LastTitle(inbox: seq<LoaderMessage>, i: nat, prior: string): string {
    if inbox == [] then prior
    else if inbox[|inbox| - 1].Title? && inbox[|inbox| - 1].index == i then inbox[|inbox| - 1].title
    else LastTitle(inbox[..|inbox| - 1], i, prior)
  }

  /** After a drain, each field of each row holds the value of the last
      message for that row and field, or its earlier value when none came. */
  lemma {:induction false} LastMessageWins(rows: seq<TrackRow>, inbox: seq<LoaderMessage>, i: nat)
    requires InRange(inbox, |rows|) && i < |rows|
    ensures ApplyAll(rows, inbox)[i] == TrackRow(
      LastTitle(inbox, i, rows[i].title),
      LastArtist(inbox, i, rows[i].artist),
      LastLength(inbox, i, rows[i].length))
  {
    if inbox != [] {
      var front := inbox[..|inbox| - 1];
      assert InRange(front, |rows|);
      LastMessageWins(rows, front, i);
    }
  }

  /** A drain with no message for row `i` leaves that row as it was. */
  lemma {:induction false} UntouchedRowKept(rows: seq<TrackRow>, inbox: seq<LoaderMessage>, i: nat)
    requires InRange(inbox, |rows|) && i < |rows|
    requires forall k :: 0 <= k < |inbox| ==> inbox[k].index != i
    ensures ApplyAll(rows, inbox)[i] == rows[i]
  {
    if inbox != [] {
      var front := inbox[..|inbox| - 1];
      assert InRange(front, |rows|);
      UntouchedRowKept(rows, front, i);
    }
  }

  /** The row at `row` is highlighted: the runner is playing and its index
      is this row. */
  function IsHighlighted(playback: bool, runnerIndex: nat, row: nat): bool {
    playback && runnerIndex == row
  }

  /** At most one row is highlighted, and none while paused. */
  lemma HighlightUnique(playback: bool, runnerIndex: nat, r1: nat, r2: nat)
    ensures IsHighlighted(playback, runnerIndex, r1) && IsHighlighted(playback, runnerIndex, r2) ==> r1 == r2
    ensures !playback ==> !IsHighlighted(playback, runnerIndex, r1)
    ensures IsHighlighted(playback, runnerIndex, r1) <==> playback && r1 == runnerIndex
  {
  }

  /** A separator follows the row unless it is the last one. */
  function HasSeparator(row: nat, count: nat): (separated: bool)
    ensures row + 1 < count ==> separated
    ensures row + 1 == count ==> !separated
  {
    row + 1 != count
  }

  /** How many of the first `rows` rows are followed by a separator. */
  function SeparatorsBefore(rows: nat, count: nat): nat {
    if rows == 0 then 0
    else SeparatorsBefore(rows - 1, count) + (if HasSeparator(rows - 1, count) then 1 else 0)
  }

  /** A table of `count` rows draws `count - 1` separators: one between each
      two neighbouring rows and none after the last. */
  lemma {:induction false} SeparatorsBetweenRows(count: nat)
    requires count > 0
    ensures SeparatorsBefore(count, count) == count - 1
    ensures !HasSeparator(count - 1, count)
  {
    SeparatorsBeforeLast(count - 1, count);
  }

  lemma {:induction false} SeparatorsBeforeLast(rows: nat, count: nat)
    requires rows < count
    ensures SeparatorsBefore(rows, count) == rows
  {
    if rows > 0 {
      SeparatorsBeforeLast(rows - 1, count);
    }
  }

  /** What one table row shows. */
  datatype RowView = RowView(title: string, artist: string, framed: bool, lengthText: string, separator: bool)

  /** The row at `row`: title button (framed when highlighted), artist, the
      `mm:ss` length label, and whether a separator follows. */
  function RenderRow(rows: seq<TrackRow>, row: nat, playback: bool, runnerIndex: nat): (v: RowView)
    requires row < |rows|
    ensures v.title == rows[row].title && v.artist == rows[row].artist
    ensures v.framed <==> playback && runnerIndex == row
    ensures v.separator <==> row + 1 != |rows|
    ensures Text.ParseDurationLabel(v.lengthText) == (rows[row].length / 60, rows[row].length % 60)
  {
    Text.DurationLabelRoundTrip(rows[row].length);
    RowView(rows[row].title, rows[row].artist, IsHighlighted(playback, runnerIndex, row),
            Text.DurationLabel(rows[row].length), HasSeparator(row, |rows|))
  }

  /** The UI's state: the row count, the runner fields refreshed each frame,
      the rows, and the commands sent to the runner so far. */
  class App {
    const len: nat
    var playback: bool
    var volume: real
    var time: TrackTime
    var tracks: seq<TrackRow>
    var sent: seq<RunnerMessage>

    predicate Valid()
      reads this
    {
      |tracks| == len
    }

    /** `new`, given the runner's track count. */
    constructor (len: nat, pathForFile: nat -> string, removeExt: string -> string)
      ensures Valid() && this.len == len
      ensures tracks == InitialRows(len, pathForFile, removeExt)
      ensures !playback && volume == 1.0 && time == TrackTime(0, 0.0, 0, 0.0)
      ensures sent == []
    {
      this.len := len;
      tracks := InitialRows(len, pathForFile, removeExt);
      playback, volume, time := false, 1.0, TrackTime(0, 0.0, 0, 0.0);
      sent := [];
    }

    /** The state part of `update`: refresh playback, volume and time from
        one snapshot, then drain the loader messages that have arrived, in
        order.  The source panics on a message for a row that does not exist. */
    method Update(view: RunnerView, inbox: seq<LoaderMessage>)
      requires Valid()
      requires InRange(inbox, len)
      modifies this
      ensures Valid()
      ensures playback == view.playback && volume == view.volume && time == view.time
      ensures tracks == ApplyAll(old(tracks), inbox)
      ensures sent == old(sent)
    {
      playback := view.playback;
      volume := view.volume;
      time := view.time;
      var i := 0;
      while i < |inbox|
        invariant 0 <= i <= |inbox|
        invariant |tracks| == len && InRange(inbox[..i], len)
        invariant tracks == ApplyAll(old(tracks), inbox[..i])
        invariant playback == view.playback && volume == view.volume && time == view.time
        invariant sent == old(sent)
      {
        assert inbox[..i + 1][..i] == inbox[..i];
        match inbox[i] {
          case Length(index, length) => tracks := tracks[index := tracks[index].(length := length)];
          case Artist(index, artist) => tracks := tracks[index := tracks[index].(artist := artist)];
          case Title(index, title) => tracks := tracks[index := tracks[index].(title := title)];
        }
        i := i + 1;
      }
      assert inbox[..i] == inbox;
    }

    method PlayNext()
      modifies this`sent
      ensures sent == old(sent) + [RunnerMessage.PlayNext]
    {
      sent := sent + [RunnerMessage.PlayNext];
    }

    method PlayPrevious()
      modifies this`sent
      ensures sent == old(sent) + [RunnerMessage.PlayPrevious]
    {
      sent := sent + [RunnerMessage.PlayPrevious];
    }

    method TogglePause()
      modifies this`sent
      ensures sent == old(sent) + [RunnerMessage.TogglePause]
    {
      sent := sent + [RunnerMessage.TogglePause];
    }

    /** Sends the volume last read from the runner. */
    method SetVolume()
      modifies this`sent
      ensures sent == old(sent) + [RunnerMessage.SetVolume(volume)]
    {
      sent := sent + [RunnerMessage.SetVolume(volume)];
    }

    /** Sent when row `i`'s title is clicked. */
    method PlayTrack(i: nat)
      modifies this`sent
      ensures sent == old(sent) + [RunnerMessage.PlayTrack(i)]
    {
      sent := sent + [RunnerMessage.PlayTrack(i)];
    }
  }
}
