/** The change-diff broadcaster: every 250 ms it reads the runner's
    playback flag, volume and index, stages one property per field that
    differs from what it last saw, and hands the batch to the media-control
    server only when something changed. */
module Broadcaster {
  import opened Common

  /** Track metadata as the broadcaster reports it. */
  datatype TrackMetadata = TrackMetadata(
    title: Option<string>,
    artists: Option<seq<string>>,
    length: U64,
    id: string,
    imagePath: Option<string>)

  datatype Property = Playing(playing: bool) | Volume(volume: real) | Metadata(metadata: TrackMetadata)

  /** The three fields the loop compares between ticks. */
  datatype Observed = Observed(playback: bool, volume: real, index: nat)

  function Observe(view: RunnerView): (o: Observed)
    ensures o.playback == view.playback && o.volume == view.volume && o.index == view.index
  {
    Observed(view.playback, view.volume, view.index)
  }

  /** What the loop compares the first tick against: not playing, full
      volume, and the index the runner had when the loop started. */
  function Baseline(startIndex: nat): (o: Observed)
    ensures !o.playback && o.volume == 1.0 && o.index == startIndex
  {
    Observed(false, 1.0, startIndex)
  }

  /** The art path reported with new metadata: none when the track carries no
      image, otherwise the scratch file the image is written to. */
  function ImagePath(image: Bytes, scratchPath: string): (p: Option<string>)
    ensures p.None? <==> image == []
    ensures p.Some? ==> p.value == scratchPath
  {
    if image == [] then None else Some(scratchPath)
  }

  /** The metadata staged when the index changes to the track `trackName`. */
  function MetadataFor(meta: TrackMeta, trackName: string, image: Bytes, scratchPath: string, removeExt: string -> string): (m: TrackMetadata)
    ensures m.id == TrackId
    ensures m.title.Some? && m.title.value == DisplayTitle(meta, trackName, removeExt)
    ensures m.artists == DisplayArtists(meta)
    ensures m.length == meta.lenSecs
    ensures m.imagePath == ImagePath(image, scratchPath)
  {
    TrackMetadata(Some(DisplayTitle(meta, trackName, removeExt)), DisplayArtists(meta), meta.lenSecs, TrackId, ImagePath(image, scratchPath))
  }

  /** The batch one tick stages, given what the loop last saw and what it
      reads now.  `meta` and `image` are the decoded tags and embedded art of
      `queue[now.index]`; they are only looked at when the index changed. */
  function TickBatch(
    last: Observed, now: Observed, meta: TrackMeta, image: Bytes,
    queue: seq<string>, scratchPath: string, removeExt: string -> string): (batch: seq<Property>)
    requires now.index != last.index ==> now.index < |queue|
    ensures |batch| <= 3
    ensures batch == [] <==> last == now
    ensures last.index != now.index ==>
      batch != [] && batch[|batch| - 1] == Metadata(MetadataFor(meta, queue[now.index], image, scratchPath, removeExt))
  {
    (if last.playback != now.playback then [Playing(now.playback)] else [])
    + (if last.volume != now.volume then [Volume(now.volume)] else [])
    + (if last.index != now.index
       then [Metadata(MetadataFor(meta, queue[now.index], image, scratchPath, removeExt))]
       else [])
  }

  /** Position of a property kind in a batch. */
  function Rank(p: Property): nat {
    match p
    case Playing(_) => 0
    case Volume(_) => 1
    case Metadata(_) => 2
  }

  /** A batch holds at most one property of each kind, in the order
      Playing, Volume, Metadata, and each kind exactly when its field changed,
      carrying the value just read. */
  lemma TickBatchShape(
    last: Observed, now: Observed, meta: TrackMeta, image: Bytes,
    queue: seq<string>, scratchPath: string, removeExt: string -> string)
    requires now.index != last.index ==> now.index < |queue|
    ensures var b := TickBatch(last, now, meta, image, queue, scratchPath, removeExt);
      && (forall i, j :: 0 <= i < j < |b| ==> Rank(b[i]) < Rank(b[j]))
      && (Playing(now.playback) in b <==> last.playback != now.playback)
      && (Volume(now.volume) in b <==> last.volume != now.volume)
      && (forall p :: p in b && p.Playing? ==> p.playing == now.playback)
      && (forall p :: p in b && p.Volume? ==> p.volume == now.volume)
      && (forall p :: p in b && p.Metadata? ==>
            last.index != now.index
            && p.metadata == MetadataFor(meta, queue[now.index], image, scratchPath, removeExt))
      && ((exists p :: p in b && p.Metadata?) <==> last.index != now.index)
  {
    var b := TickBatch(last, now, meta, image, queue, scratchPath, removeExt);
    if last.index != now.index {
      assert b[|b| - 1].Metadata?;
    }
  }

  /** A volume change alone is reported as exactly one Volume property. */
  lemma OnlyVolumeChanged(
    last: Observed, now: Observed, meta: TrackMeta, image: Bytes,
    queue: seq<string>, scratchPath: string, removeExt: string -> string)
    requires last.playback == now.playback && last.index == now.index && last.volume != now.volume
    ensures TickBatch(last, now, meta, image, queue, scratchPath, removeExt) == [Volume(now.volume)]
  {
  }

  /** The first tick reports Playing only if the runner plays, Volume only if
      it is not 1.0, and Metadata only if the index moved since the start. */
  lemma FirstTick(
    startIndex: nat, now: Observed, meta: TrackMeta, image: Bytes,
    queue: seq<string>, scratchPath: string, removeExt: string -> string)
    requires now.index != startIndex ==> now.index < |queue|
    ensures var b := TickBatch(Baseline(startIndex), now, meta, image, queue, scratchPath, removeExt);
      && (Playing(true) in b <==> now.playback)
      && (Playing(false) !in b)
      && (Volume(now.volume) in b <==> now.volume != 1.0)
      && ((exists p :: p in b && p.Metadata?) <==> now.index != startIndex)
  {
    TickBatchShape(Baseline(startIndex), now, meta, image, queue, scratchPath, removeExt);
  }

  /** The scratch file after `write_all(image)` following `rewind()` with no
      truncation: the new image over the start of the old contents. */
  function OverwriteAsWritten(file: Bytes, image: Bytes): (r: Bytes)
    ensures |r| == if |file| > |image| then |file| else |image|
    ensures r[..|image|] == image
    ensures |file| > |image| ==> r[|image|..] == file[|image|..]
  {
    if |file| > |image| then image + file[|image|..] else image
  }

  /** A shorter image leaves the tail of the previous one in the file. */
  lemma OverwriteAsWrittenKeepsStaleTail()
    ensures OverwriteAsWritten([1, 2, 3], [9]) == [9, 2, 3]
    ensures OverwriteAsWritten([1, 2, 3], [9]) != Overwrite([1, 2, 3], [9])
  {
    var file: Bytes := [1, 2, 3];
    assert file[1..] == [2, 3];
  }

  /** The scratch file after writing an image with truncation: exactly the
      image, whatever it held before. */
  function Overwrite(file: Bytes, image: Bytes): (r: Bytes)
    ensures r == image
    ensures |file| <= |image| ==> r == OverwriteAsWritten(file, image)
  {
    image
  }

  /** The scratch file always holds the art of the last track reported with
      art, independent of earlier tracks. */
  lemma OverwriteForgetsPrevious(a: Bytes, b: Bytes, image: Bytes)
    ensures Overwrite(a, image) == Overwrite(b, image)
  {
  }

  /** The loop state of `run` once the server is present: what it last saw,
      the staging buffer, the scratch file's contents, and the log of batches
      handed to the server.  Path and queue are read once, before the loop. */
  class DiffLoop {
    const path: string
    const queue: seq<string>
    const scratchPath: string
    const removeExt: string -> string
    var playback: bool
    var volume: real
    var index: nat
    var properties: seq<Property>
    var scratch: Bytes
    var emitted: seq<seq<Property>>

    function Last(): Observed
      reads this
    {
      Observed(playback, volume, index)
    }

    /** Between ticks the staging buffer is empty. */
    predicate Valid()
      reads this
    {
      properties == []
    }

    constructor (startIndex: nat, path: string, queue: seq<string>, scratchPath: string, removeExt: string -> string)
      ensures Valid() && Last() == Baseline(startIndex)
      ensures this.path == path && this.queue == queue
      ensures this.scratchPath == scratchPath && this.removeExt == removeExt
      ensures scratch == [] && emitted == []
    {
      this.path, this.queue, this.scratchPath, this.removeExt := path, queue, scratchPath, removeExt;
      playback, volume, index := false, 1.0, startIndex;
      properties, scratch, emitted := [], [], [];
    }

    /** One tick against the snapshot `view`.  `meta` and `image` are the
        decoded tags and art of `queue[view.index]`; the source panics when
        the index is out of the queue or the track does not decode. */
    method Tick(view: RunnerView, meta: TrackMeta, image: Bytes)
      requires Valid()
      requires view.index != index ==> view.index < |queue|
      modifies this
      ensures Valid()
      ensures Last() == Observe(view)
      ensures var batch := TickBatch(old(Last()), Observe(view), meta, image, queue, scratchPath, removeExt);
        emitted == old(emitted) + (if batch == [] then [] else [batch])
      ensures scratch == if view.index != old(index) && image != [] then Overwrite(old(scratch), image) else old(scratch)
    {
      ghost var last, now := Last(), Observe(view);
      if playback != view.playback {
        playback := view.playback;
        properties := properties + [Playing(playback)];
      }
      assert properties == if last.playback != now.playback then [Playing(now.playback)] else [];
      ghost var staged := properties;
      if volume != view.volume {
        volume := view.volume;
        properties := properties + [Volume(volume)];
      }
      assert properties == staged + if last.volume != now.volume then [Volume(now.volume)] else [];
      staged := properties;
      if index != view.index {
        index := view.index;
        var trackName := queue[index];
        if image != [] {
          scratch := Overwrite(scratch, image);
        }
        properties := properties + [Metadata(MetadataFor(meta, trackName, image, scratchPath, removeExt))];
      }
      assert properties == TickBatch(last, Observe(view), meta, image, queue, scratchPath, removeExt);
      if properties != [] {
        emitted := emitted + [properties];
        properties := [];
      }
    }
  }

  /** Every index that differs from the one seen before it lies in the queue. */
  predicate IndicesInQueue(prev: nat, views: seq<RunnerView>, queueLength: nat)
    decreases |views|
  {
    views == []
    || ((views[0].index != prev ==> views[0].index < queueLength)
        && IndicesInQueue(views[0].index, views[1..], queueLength))
  }

  /** The decoded tags of the track at `index`, where there is one. */
  function MetaAt(path: string, queue: seq<string>, index: nat, metaOf: (string, string) -> TrackMeta): TrackMeta {
    if index < |queue| then metaOf(path, queue[index]) else TrackMeta([], [], 0)
  }

  /** The embedded art of the track at `index`, where there is one. */
  function ImageAt(path: string, queue: seq<string>, index: nat, imageOf: (string, string) -> Bytes): Bytes {
    if index < |queue| then imageOf(path, queue[index]) else []
  }

  /** The batches handed to the server over a run of ticks. */
  function Batches(
    last: Observed, views: seq<RunnerView>, path: string, queue: seq<string>, scratchPath: string,
    removeExt: string -> string, metaOf: (string, string) -> TrackMeta, imageOf: (string, string) -> Bytes): (batches: seq<seq<Property>>)
    requires IndicesInQueue(last.index, views, |queue|)
    ensures |batches| <= |views|
    ensures forall k :: 0 <= k < |batches| ==> batches[k] != []
    decreases |views|
  {
    if views == [] then []
    else
      var now := Observe(views[0]);
      var batch := TickBatch(last, now, MetaAt(path, queue, now.index, metaOf), ImageAt(path, queue, now.index, imageOf),
                             queue, scratchPath, removeExt);
      (if batch == [] then [] else [batch])
      + Batches(now, views[1..], path, queue, scratchPath, removeExt, metaOf, imageOf)
  }

  /** While the runner's playback flag, volume and index stay as last seen,
      the server hears nothing. */
  lemma {:induction false} SteadyStateIsSilent(
    last: Observed, views: seq<RunnerView>, path: string, queue: seq<string>, scratchPath: string,
    removeExt: string -> string, metaOf: (string, string) -> TrackMeta, imageOf: (string, string) -> Bytes)
    requires forall k :: 0 <= k < |views| ==> Observe(views[k]) == last
    ensures IndicesInQueue(last.index, views, |queue|)
    ensures Batches(last, views, path, queue, scratchPath, removeExt, metaOf, imageOf) == []
    decreases |views|
  {
    if views != [] {
      assert Observe(views[0]) == last;
      SteadyStateIsSilent(last, views[1..], path, queue, scratchPath, removeExt, metaOf, imageOf);
    }
  }

  lemma BatchesStep(
    last: Observed, views: seq<RunnerView>, i: nat, path: string, queue: seq<string>, scratchPath: string,
    removeExt: string -> string, metaOf: (string, string) -> TrackMeta, imageOf: (string, string) -> Bytes)
    requires i < |views|
    requires IndicesInQueue(last.index, views[i..], |queue|)
    ensures views[i].index != last.index ==> views[i].index < |queue|
    ensures IndicesInQueue(views[i].index, views[i + 1..], |queue|)
    ensures var now := Observe(views[i]);
      var batch := TickBatch(last, now, MetaAt(path, queue, now.index, metaOf), ImageAt(path, queue, now.index, imageOf),
                             queue, scratchPath, removeExt);
      Batches(last, views[i..], path, queue, scratchPath, removeExt, metaOf, imageOf)
      == (if batch == [] then [] else [batch]) + Batches(now, views[i + 1..], path, queue, scratchPath, removeExt, metaOf, imageOf)
  {
    assert views[i..][0] == views[i] && views[i..][1..] == views[i + 1..];
  }

  /** One pass of `run`'s loop: a tick against `views[i]`, after which the
      batches emitted so far followed by those the remaining ticks emit are
      still the whole run's. */
  method Step(
    loop: DiffLoop, views: seq<RunnerView>, i: nat,
    metaOf: (string, string) -> TrackMeta, imageOf: (string, string) -> Bytes,
    ghost all: seq<seq<Property>>)
    requires i < |views| && loop.Valid()
    requires IndicesInQueue(loop.index, views[i..], |loop.queue|)
    requires loop.emitted + Batches(loop.Last(), views[i..], loop.path, loop.queue, loop.scratchPath, loop.removeExt, metaOf, imageOf) == all
    modifies loop
    ensures loop.Valid()
    ensures IndicesInQueue(loop.index, views[i + 1..], |loop.queue|)
    ensures loop.emitted + Batches(loop.Last(), views[i + 1..], loop.path, loop.queue, loop.scratchPath, loop.removeExt, metaOf, imageOf) == all
  {
    var view := views[i];
    var meta := MetaAt(loop.path, loop.queue, view.index, metaOf);
    var image := ImageAt(loop.path, loop.queue, view.index, imageOf);
    ghost var before, last, now := loop.emitted, loop.Last(), Observe(view);
    ghost var batch := TickBatch(last, now, meta, image, loop.queue, loop.scratchPath, loop.removeExt);
    ghost var head := if batch == [] then [] else [batch];
    ghost var rest := Batches(now, views[i + 1..], loop.path, loop.queue, loop.scratchPath, loop.removeExt, metaOf, imageOf);
    BatchesStep(last, views, i, loop.path, loop.queue, loop.scratchPath, loop.removeExt, metaOf, imageOf);
    assert before + (head + rest) == all;
    loop.Tick(view, meta, image);
    assert loop.emitted == before + head;
    assert loop.emitted + rest == before + (head + rest);
  }

  /** `run`: without a server nothing happens; with one, the loop ticks once
      per snapshot in `views` (a finite prefix of the endless loop).  The
      start index, path and queue are read from the runner before the loop. */
  method Run(
    serverPresent: bool, startIndex: nat, path: string, queue: seq<string>, scratchPath: string,
    removeExt: string -> string, metaOf: (string, string) -> TrackMeta, imageOf: (string, string) -> Bytes,
    views: seq<RunnerView>)
    returns (batches: seq<seq<Property>>)
    requires IndicesInQueue(startIndex, views, |queue|)
    ensures !serverPresent ==> batches == []
    ensures serverPresent ==>
      batches == Batches(Baseline(startIndex), views, path, queue, scratchPath, removeExt, metaOf, imageOf)
  {
    if !serverPresent {
      return [];
    }
    var loop := new DiffLoop(startIndex, path, queue, scratchPath, removeExt);
    ghost var all := Batches(Baseline(startIndex), views, path, queue, scratchPath, removeExt, metaOf, imageOf);
    assert views[0..] == views;
    for i := 0 to |views|
      invariant loop.Valid()
      invariant loop.path == path && loop.queue == queue
      invariant loop.scratchPath == scratchPath && loop.removeExt == removeExt
      invariant IndicesInQueue(loop.index, views[i..], |queue|)
      invariant loop.emitted + Batches(loop.Last(), views[i..], path, queue, scratchPath, removeExt, metaOf, imageOf) == all
    {
      Step(loop, views, i, metaOf, imageOf, all);
    }
    assert views[|views|..] == [];
    batches := loop.emitted;
  }
}
