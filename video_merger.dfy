/**
 * The segment merger (`VideoMerger.mergeVideos` and `copyTracks`), written
 * against an abstract demuxer (`Extractor`) and muxer (`Muxer`).
 *
 * An input file is a sequence of tracks; a track has an optional MIME type
 * and the samples the demuxer reads from it, in order.  The muxer records the
 * formats registered with `addTrack` (by muxer track index), whether it was
 * started, stopped and released, and the log of `writeSampleData` calls.
 * The file system is a log of rename and delete requests whose results are
 * ignored, as the source ignores them.
 *
 * `MergeVideos` and `CopyTracks` follow the source's loops; they are proved
 * against the tail-recursive functions `RegisterFrom`, `CopyFrom`,
 * `CopySamples` and `MergeFrom`, and the lemmas after them state what a merge
 * registers, writes and deletes.
 */
module VideoMerger {
  import opened Wrappers

  /** `ByteBuffer.allocate(1024 * 1024)`: the one buffer every sample is read into. */
  const SampleBufferSize: nat := 1024 * 1024
  /** `MediaExtractor.SAMPLE_FLAG_SYNC`. */
  const SampleFlagSync: bv32 := 1
  /** `MediaCodec.BUFFER_FLAG_KEY_FRAME`. */
  const BufferFlagKeyFrame: bv32 := 1
  /** The merger's "no track registered yet" index. */
  const NoTrack: int := -1

  /** A muxer track index as the merger holds it: -1 or a real index. */
  type TrackIndex = i: int | NoTrack <= i witness NoTrack

  datatype Sample = Sample(timeUs: int, size: nat, flags: bv32)
  datatype Track = Track(mime: Option<string>, samples: seq<Sample>)
  datatype InputFile = InputFile(path: string, present: bool, openable: bool, tracks: seq<Track>)

  /** `MediaCodec.BufferInfo` as filled in for one sample. */
  datatype BufferInfo = BufferInfo(offset: nat, size: nat, presentationTimeUs: int, flags: bv32)
  /** One `writeSampleData(trackIndex, buffer, info)` call. */
  datatype WrittenSample = WrittenSample(trackIndex: nat, info: BufferInfo)

  datatype FileOp = Rename(from: string, to: string) | Delete(path: string)

  /** The exceptions that end a merge once the muxer exists (all caught, all
      turned into `false`); the muxer constructor's own exception is
      `MergeVideos`' `outputWritable`. */
  datatype Failure =
    | CannotOpen(path: string)   // setDataSource on a file that cannot be read
    | AddTrackAfterStart         // MediaMuxer.addTrack once started
    | SampleTooLarge             // readSampleData into a buffer that is too small
    | NegativeTime               // writeSampleData with a presentation time below 0
    | StopBeforeStart            // MediaMuxer.stop on a muxer never started

  type Outcome<T> = Result<T, Failure>

  predicate IsVideo(mime: string) { "video/" <= mime }
  predicate IsAudio(mime: string) { "audio/" <= mime }

  lemma VideoIsNotAudio(mime: string)
    ensures !(IsVideo(mime) && IsAudio(mime))
  {
    if IsVideo(mime) {
      assert mime[0] == "video/"[0];
    }
  }

  // ---------------------------------------------------------------------------
  // The platform objects
  // ---------------------------------------------------------------------------

  /** MediaMuxer writing one output file. */
  class Muxer {
    const outputPath: string
    var trackMimes: seq<string>
    var started: bool
    var stopped: bool
    var released: bool
    var written: seq<WrittenSample>

    constructor (outputPath: string)
      ensures this.outputPath == outputPath
      ensures trackMimes == [] && written == []
      ensures !started && !stopped && !released
    {
      this.outputPath := outputPath;
      trackMimes, written := [], [];
      started, stopped, released := false, false, false;
    }

    /** addTrack: returns the new track's index; throws once the muxer is started. */
    method AddTrack(mime: string) returns (r: Outcome<nat>)
      modifies this`trackMimes
      ensures started ==> r == Err(AddTrackAfterStart) && trackMimes == old(trackMimes)
      ensures !started ==> r == Ok(|old(trackMimes)|) && trackMimes == old(trackMimes) + [mime]
    {
      if started {
        r := Err(AddTrackAfterStart);
      } else {
        r := Ok(|trackMimes|);
        trackMimes := trackMimes + [mime];
      }
    }

    /** start: the platform refuses a second start and a start with no track. */
    method Start()
      requires !started && |trackMimes| > 0
      modifies this`started
      ensures started
    {
      started := true;
    }

    /** writeSampleData: only on a started muxer, only to a registered track;
        it throws, writing nothing, for a negative presentation time. */
    method WriteSampleData(trackIndex: nat, info: BufferInfo) returns (r: Outcome<()>)
      requires started && !stopped && trackIndex < |trackMimes|
      modifies this`written
      ensures info.presentationTimeUs < 0 ==> r == Err(NegativeTime) && written == old(written)
      ensures info.presentationTimeUs >= 0 ==> r == Ok(()) && written == old(written) + [WrittenSample(trackIndex, info)]
    {
      if info.presentationTimeUs < 0 {
        return Err(NegativeTime);
      }
      written := written + [WrittenSample(trackIndex, info)];
      r := Ok(());
    }

    /** stop: throws on a muxer that was never started. */
    method Stop() returns (ok: bool)
      modifies this`stopped
      ensures ok == started
      ensures stopped == (old(stopped) || started)
    {
      ok := started;
      if started {
        stopped := true;
      }
    }

    method Release()
      modifies this`released
      ensures released
    {
      released := true;
    }
  }

  /** MediaExtractor over one input file; at most one track selected at a time. */
  class Extractor {
    var tracks: seq<Track>
    var selected: int
    var position: nat

    constructor ()
      ensures tracks == [] && selected == -1 && position == 0
    {
      tracks, selected, position := [], -1, 0;
    }

    /** setDataSource: throws when the file cannot be read. */
    method SetDataSource(file: InputFile) returns (r: Outcome<()>)
      requires selected == -1
      modifies this`tracks
      ensures file.openable ==> r == Ok(()) && tracks == file.tracks
      ensures !file.openable ==> r == Err(CannotOpen(file.path)) && tracks == old(tracks)
    {
      if file.openable {
        tracks := file.tracks;
        r := Ok(());
      } else {
        r := Err(CannotOpen(file.path));
      }
    }

    /** getTrackFormat(i).getString(KEY_MIME). */
    method GetTrackMime(i: nat) returns (mime: Option<string>)
      requires i < |tracks|
      ensures mime == tracks[i].mime
    {
      mime := tracks[i].mime;
    }

    method SelectTrack(i: nat)
      requires i < |tracks|
      modifies this`selected, this`position
      ensures selected == i && position == 0
    {
      selected, position := i, 0;
    }

    method UnselectTrack(i: nat)
      requires selected == i
      modifies this`selected
      ensures selected == -1
    {
      selected := -1;
    }

    /** readSampleData: the sample's size, -1 at the end of the track,
        and an exception when the sample does not fit the buffer. */
    method ReadSampleData(capacity: nat) returns (r: Outcome<int>)
      requires 0 <= selected < |tracks| && position <= |tracks[selected].samples|
      ensures position == |tracks[selected].samples| ==> r == Ok(-1)
      ensures position < |tracks[selected].samples| ==>
        var s := tracks[selected].samples[position];
        r == if s.size <= capacity then Ok(s.size) else Err(SampleTooLarge)
    {
      var samples := tracks[selected].samples;
      if position == |samples| {
        r := Ok(-1);
      } else if samples[position].size <= capacity {
        r := Ok(samples[position].size);
      } else {
        r := Err(SampleTooLarge);
      }
    }

    method SampleTime() returns (t: int)
      requires 0 <= selected < |tracks| && position < |tracks[selected].samples|
      ensures t == tracks[selected].samples[position].timeUs
    {
      t := tracks[selected].samples[position].timeUs;
    }

    method SampleFlags() returns (f: bv32)
      requires 0 <= selected < |tracks| && position < |tracks[selected].samples|
      ensures f == tracks[selected].samples[position].flags
    {
      f := tracks[selected].samples[position].flags;
    }

    method Advance()
      requires 0 <= selected < |tracks| && position < |tracks[selected].samples|
      modifies this`position
      ensures position == old(position) + 1
    {
      position := position + 1;
    }
  }

  // ---------------------------------------------------------------------------
  // Specification of one merge
  // ---------------------------------------------------------------------------

  /** The merger's locals together with what the muxer holds. */
  datatype MergeState = MergeState(
    videoIndex: TrackIndex,      // videoTrackIndex
    audioIndex: TrackIndex,      // audioTrackIndex
    trackMimes: seq<string>,     // formats registered with the muxer
    started: bool,               // muxerStarted
    written: seq<WrittenSample>) // the muxer's log

  const Initial := MergeState(NoTrack, NoTrack, [], false, [])

  /** The buffer flags written for a sample: key frame exactly for sync samples. */
  function KeyFrameFlags(sampleFlags: bv32): (f: bv32)
    ensures f == 0 || f == BufferFlagKeyFrame
    ensures (f & BufferFlagKeyFrame != 0) <==> (sampleFlags & SampleFlagSync != 0)
  {
    if sampleFlags & SampleFlagSync != 0 then BufferFlagKeyFrame else 0
  }

  /** The write a sample turns into: same size and presentation time, no offset added. */
  function ToWritten(outIndex: nat, s: Sample): (w: WrittenSample)
    ensures w.trackIndex == outIndex && w.info.offset == 0 && w.info.size == s.size
    ensures w.info.presentationTimeUs == s.timeUs
    ensures (w.info.flags & BufferFlagKeyFrame != 0) <==> (s.flags & SampleFlagSync != 0)
  {
    WrittenSample(outIndex, BufferInfo(0, s.size, s.timeUs, KeyFrameFlags(s.flags)))
  }

  function WrittenOf(outIndex: nat, samples: seq<Sample>): seq<WrittenSample>
  {
    seq(|samples|, k requires 0 <= k < |samples| => ToWritten(outIndex, samples[k]))
  }

  /** Every sample fits the buffer and has a presentation time the muxer accepts. */
  predicate AllWritable(samples: seq<Sample>) {
    forall k :: 0 <= k < |samples| ==> samples[k].size <= SampleBufferSize && samples[k].timeUs >= 0
  }

  /** The sample loop of copyTracks from sample j on, appending to acc. */
  function CopySamples(samples: seq<Sample>, j: nat, outIndex: nat, acc: seq<WrittenSample>)
    : Outcome<seq<WrittenSample>>
    requires j <= |samples|
    decreases |samples| - j
  {
    if j == |samples| then Ok(acc)
    else if samples[j].size > SampleBufferSize then Err(SampleTooLarge)
    else if samples[j].timeUs < 0 then Err(NegativeTime)
    else CopySamples(samples, j + 1, outIndex, acc + [ToWritten(outIndex, samples[j])])
  }

  /** The registration step of mergeVideos for one track. */
  function RegisterStep(mime: Option<string>, st: MergeState): Outcome<MergeState>
  {
    match mime
    case None => Ok(st)
    case Some(m) =>
      if IsVideo(m) && st.videoIndex == NoTrack then
        if st.started then Err(AddTrackAfterStart)
        else Ok(st.(videoIndex := |st.trackMimes|, trackMimes := st.trackMimes + [m]))
      else if IsAudio(m) && st.audioIndex == NoTrack then
        if st.started then Err(AddTrackAfterStart)
        else Ok(st.(audioIndex := |st.trackMimes|, trackMimes := st.trackMimes + [m]))
      else Ok(st)
  }

  /** The registration loop of mergeVideos over the tracks of one input, from track i on. */
  function RegisterFrom(tracks: seq<Track>, i: nat, st: MergeState): Outcome<MergeState>
    requires i <= |tracks|
    decreases |tracks| - i
  {
    if i == |tracks| then Ok(st)
    else match RegisterStep(tracks[i].mime, st)
      case Err(e) => Err(e)
      case Ok(st') => RegisterFrom(tracks, i + 1, st')
  }

  /** The muxer index a track with this MIME type is copied to. */
  function OutputIndex(mime: string, videoIndex: TrackIndex, audioIndex: TrackIndex): TrackIndex
  {
    if IsVideo(mime) then videoIndex else audioIndex
  }

  /** The track loop of copyTracks from track i on, appending to acc. */
  function CopyFrom(tracks: seq<Track>, i: nat, videoIndex: TrackIndex, audioIndex: TrackIndex,
                    acc: seq<WrittenSample>): Outcome<seq<WrittenSample>>
    requires i <= |tracks|
    decreases |tracks| - i
  {
    if i == |tracks| then Ok(acc)
    else match tracks[i].mime
      case None => CopyFrom(tracks, i + 1, videoIndex, audioIndex, acc)
      case Some(m) =>
        var out := OutputIndex(m, videoIndex, audioIndex);
        if out == NoTrack then CopyFrom(tracks, i + 1, videoIndex, audioIndex, acc)
        else match CopySamples(tracks[i].samples, 0, out, acc)
          case Err(e) => Err(e)
          case Ok(acc') => CopyFrom(tracks, i + 1, videoIndex, audioIndex, acc')
  }

  /** Start the muxer once some track is registered and it has not been started. */
  function StartIfReady(st: MergeState): MergeState
  {
    if !st.started && (st.videoIndex != NoTrack || st.audioIndex != NoTrack)
    then st.(started := true) else st
  }

  /** One iteration of mergeVideos' loop over the inputs. */
  function MergeStep(input: InputFile, st: MergeState): Outcome<MergeState>
  {
    if !input.present then Ok(st)
    else if !input.openable then Err(CannotOpen(input.path))
    else match RegisterFrom(input.tracks, 0, st)
      case Err(e) => Err(e)
      case Ok(reg) =>
        var ready := StartIfReady(reg);
        match CopyFrom(input.tracks, 0, ready.videoIndex, ready.audioIndex, ready.written)
        case Err(e) => Err(e)
        case Ok(w) => Ok(ready.(written := w))
  }

  /** mergeVideos' loop over the inputs from input k on. */
  function MergeFrom(inputs: seq<InputFile>, k: nat, st: MergeState): Outcome<MergeState>
    requires k <= |inputs|
    decreases |inputs| - k
  {
    if k == |inputs| then Ok(st)
    else match MergeStep(inputs[k], st)
      case Err(e) => Err(e)
      case Ok(st') => MergeFrom(inputs, k + 1, st')
  }

  /** The muxing part of a merge of two or more inputs, up to and including stop(). */
  function MergeRun(inputs: seq<InputFile>): Outcome<MergeState>
  {
    match MergeFrom(inputs, 0, Initial)
    case Err(e) => Err(e)
    case Ok(st) => if st.started then Ok(st) else Err(StopBeforeStart)
  }

  /** The delete requests issued after a successful merge: every input, in order. */
  function DeleteAll(inputs: seq<InputFile>): (ops: seq<FileOp>)
    ensures |ops| == |inputs|
    ensures forall i :: 0 <= i < |inputs| ==> ops[i] == Delete(inputs[i].path)
  {
    seq(|inputs|, i requires 0 <= i < |inputs| => Delete(inputs[i].path))
  }

  // ---------------------------------------------------------------------------
  // The merger
  // ---------------------------------------------------------------------------

  /** Between steps: the indices name registered tracks of the right kind,
      one track per kind at most, writes go to registered tracks, and the
      muxer is started exactly when some track is registered. */
  ghost predicate Settled(st: MergeState) {
    && (st.videoIndex == NoTrack || (st.videoIndex < |st.trackMimes| && IsVideo(st.trackMimes[st.videoIndex])))
    && (st.audioIndex == NoTrack || (st.audioIndex < |st.trackMimes| && IsAudio(st.trackMimes[st.audioIndex])))
    && |st.trackMimes| == (if st.videoIndex == NoTrack then 0 else 1) + (if st.audioIndex == NoTrack then 0 else 1)
    && (st.videoIndex != NoTrack && st.audioIndex != NoTrack ==> st.videoIndex != st.audioIndex)
    && (st.started <==> (st.videoIndex != NoTrack || st.audioIndex != NoTrack))
    && (forall w :: w in st.written ==> w.trackIndex < |st.trackMimes|)
  }

  /** mergeVideos. `outputWritable` is whether `MediaMuxer(outputFile, MPEG_4)`
      can open the output: when it cannot, the constructor throws and the
      merge returns false before any input is read. */
  method MergeVideos(outputFile: string, outputWritable: bool, inputFiles: seq<InputFile>)
    returns (success: bool, muxer: Muxer?, fileOps: seq<FileOp>)
    ensures |inputFiles| == 0 ==> !success && muxer == null && fileOps == []
    ensures |inputFiles| == 1 ==> success && muxer == null && fileOps == [Rename(inputFiles[0].path, outputFile)]
    ensures |inputFiles| >= 2 && !outputWritable ==> !success && muxer == null && fileOps == []
    ensures |inputFiles| >= 2 && outputWritable ==> muxer != null && fresh(muxer) && muxer.outputPath == outputFile
    ensures |inputFiles| >= 2 ==> success == (outputWritable && MergeRun(inputFiles).Ok?)
    ensures |inputFiles| >= 2 && success ==>
      && fileOps == DeleteAll(inputFiles)
      && muxer.stopped && muxer.released
      && muxer.trackMimes == MergeRun(inputFiles).value.trackMimes
      && muxer.written == MergeRun(inputFiles).value.written
    ensures |inputFiles| >= 2 && !success ==> fileOps == []
  {
    fileOps := [];
    muxer := null;
    if |inputFiles| == 0 {
      return false, null, [];
    }
    if |inputFiles| == 1 {
      // renameTo's own result is ignored
      return true, null, [Rename(inputFiles[0].path, outputFile)];
    }

    if !outputWritable {
      return false, null, [];
    }
    muxer := new Muxer(outputFile);
    var videoTrackIndex: TrackIndex := NoTrack;
    var audioTrackIndex: TrackIndex := NoTrack;
    var muxerStarted := false;

    var k := 0;
    while k < |inputFiles|
      invariant 0 <= k <= |inputFiles|
      invariant fresh(muxer) && muxer.outputPath == outputFile
      invariant muxerStarted == muxer.started && !muxer.stopped && !muxer.released
      invariant Settled(MergeState(videoTrackIndex, audioTrackIndex, muxer.trackMimes, muxer.started, muxer.written))
      invariant MergeFrom(inputFiles, 0, Initial)
             == MergeFrom(inputFiles, k, MergeState(videoTrackIndex, audioTrackIndex, muxer.trackMimes, muxer.started, muxer.written))
    {
      var inputFile := inputFiles[k];
      ghost var before := MergeState(videoTrackIndex, audioTrackIndex, muxer.trackMimes, muxer.started, muxer.written);
      if inputFile.present {
        var extractor := new Extractor();
        var source := extractor.SetDataSource(inputFile);
        if source.Err? {
          return false, muxer, [];
        }

        var registered := RegisterTracks(extractor, muxer, videoTrackIndex, audioTrackIndex);
        if registered.Err? {
          return false, muxer, [];
        }
        videoTrackIndex, audioTrackIndex := registered.value.0, registered.value.1;
        RegisterFromKeeps(inputFile.tracks, 0, before, before);

        if !muxerStarted && (videoTrackIndex != NoTrack || audioTrackIndex != NoTrack) {
          muxer.Start();
          muxerStarted := true;
        }

        var copied := CopyTracks(extractor, muxer, videoTrackIndex, audioTrackIndex);
        if !copied {
          return false, muxer, [];
        }
        assert MergeStep(inputFile, before)
            == Ok(MergeState(videoTrackIndex, audioTrackIndex, muxer.trackMimes, muxer.started, muxer.written));
        MergeStepSettled(inputFile, before);
      }
      k := k + 1;
    }

    var stopped := muxer.Stop();
    if !stopped {
      return false, muxer, [];
    }
    muxer.Release();

    var j := 0;
    while j < |inputFiles|
      invariant 0 <= j <= |inputFiles|
      invariant fileOps == DeleteAll(inputFiles[..j])
    {
      // delete's own result is ignored
      fileOps := fileOps + [Delete(inputFiles[j].path)];
      j := j + 1;
    }
    assert inputFiles[..j] == inputFiles;
    success := true;
  }

  /** What the registration loop of one input keeps (used by MergeVideos). */
  ghost predicate Registered(before: MergeState, st: MergeState) {
    && st.started == before.started
    && st.written == before.written
    && (st.videoIndex == NoTrack || (st.videoIndex < |st.trackMimes| && IsVideo(st.trackMimes[st.videoIndex])))
    && (st.audioIndex == NoTrack || (st.audioIndex < |st.trackMimes| && IsAudio(st.trackMimes[st.audioIndex])))
    && |st.trackMimes| == (if st.videoIndex == NoTrack then 0 else 1) + (if st.audioIndex == NoTrack then 0 else 1)
    && (st.videoIndex != NoTrack && st.audioIndex != NoTrack ==> st.videoIndex != st.audioIndex)
    && (before.started ==> st.trackMimes == before.trackMimes && st.videoIndex == before.videoIndex && st.audioIndex == before.audioIndex)
    && (!before.started ==> before.videoIndex == NoTrack && before.audioIndex == NoTrack)
    && (forall w :: w in st.written ==> w.trackIndex < |st.trackMimes|)
  }

  method CopyTracks(extractor: Extractor, muxer: Muxer, videoTrackIndex: TrackIndex, audioTrackIndex: TrackIndex)
    returns (ok: bool)
    requires extractor.selected == -1
    requires videoTrackIndex < |muxer.trackMimes| && audioTrackIndex < |muxer.trackMimes|
    requires (videoTrackIndex == NoTrack && audioTrackIndex == NoTrack) || (muxer.started && !muxer.stopped)
    modifies extractor`selected, extractor`position, muxer`written
    ensures var r := CopyFrom(extractor.tracks, 0, videoTrackIndex, audioTrackIndex, old(muxer.written));
      ok == r.Ok? && (ok ==> muxer.written == r.value)
  {
    var trackCount := |extractor.tracks|;
    var i := 0;
    while i < trackCount
      invariant 0 <= i <= trackCount == |extractor.tracks|
      invariant extractor.selected == -1
      invariant CopyFrom(extractor.tracks, 0, videoTrackIndex, audioTrackIndex, old(muxer.written))
             == CopyFrom(extractor.tracks, i, videoTrackIndex, audioTrackIndex, muxer.written)
    {
      var mime := extractor.GetTrackMime(i);
      if mime.Some? {
        var isVideo := IsVideo(mime.value);
        var outputTrackIndex := if isVideo then videoTrackIndex else audioTrackIndex;
        if outputTrackIndex != NoTrack {
          extractor.SelectTrack(i);
          ghost var samples := extractor.tracks[i].samples;
          ghost var acc0 := muxer.written;
          while true
            invariant extractor.selected == i && extractor.position <= |samples|
            invariant CopySamples(samples, 0, outputTrackIndex, acc0)
                   == CopySamples(samples, extractor.position, outputTrackIndex, muxer.written)
            decreases |samples| - extractor.position
          {
            var read := extractor.ReadSampleData(SampleBufferSize);
            if read.Err? {
              return false;
            }
            var sampleSize := read.value;
            if sampleSize < 0 {
              break;
            }
            var presentationTimeUs := extractor.SampleTime();
            var sampleFlags := extractor.SampleFlags();
            var flags: bv32 := if sampleFlags & SampleFlagSync != 0 then BufferFlagKeyFrame else 0;
            var bufferInfo := BufferInfo(0, sampleSize, presentationTimeUs, flags);
            var write := muxer.WriteSampleData(outputTrackIndex, bufferInfo);
            if write.Err? {
              return false;
            }
            extractor.Advance();
          }
          extractor.UnselectTrack(i);
        }
      }
      i := i + 1;
    }
    ok := true;
  }

  /** The registration loop of mergeVideos over the tracks of one opened input:
      at most one "video/" and one "audio/" track, the first of each kind. */
  method RegisterTracks(extractor: Extractor, muxer: Muxer, videoIn: TrackIndex, audioIn: TrackIndex)
    returns (r: Outcome<(TrackIndex, TrackIndex)>)
    modifies muxer`trackMimes
    ensures var spec := RegisterFrom(extractor.tracks, 0, MergeState(videoIn, audioIn, old(muxer.trackMimes), muxer.started, muxer.written));
      r.Ok? == spec.Ok? &&
      (r.Ok? ==> spec.value == MergeState(r.value.0, r.value.1, muxer.trackMimes, muxer.started, muxer.written))
  {
    var videoTrackIndex: TrackIndex, audioTrackIndex: TrackIndex := videoIn, audioIn;
    var trackCount := |extractor.tracks|;
    var i := 0;
    while i < trackCount
      invariant 0 <= i <= trackCount == |extractor.tracks|
      invariant RegisterFrom(extractor.tracks, 0, MergeState(videoIn, audioIn, old(muxer.trackMimes), muxer.started, muxer.written))
             == RegisterFrom(extractor.tracks, i, MergeState(videoTrackIndex, audioTrackIndex, muxer.trackMimes, muxer.started, muxer.written))
    {
      var mime := extractor.GetTrackMime(i);
      if mime.Some? {
        if IsVideo(mime.value) && videoTrackIndex == NoTrack {
          var added := muxer.AddTrack(mime.value);
          if added.Err? {
            return Err(added.error);
          }
          videoTrackIndex := added.value;
        } else if IsAudio(mime.value) && audioTrackIndex == NoTrack {
          var added := muxer.AddTrack(mime.value);
          if added.Err? {
            return Err(added.error);
          }
          audioTrackIndex := added.value;
        }
      }
      i := i + 1;
    }
    r := Ok((videoTrackIndex, audioTrackIndex));
  }

  // ---------------------------------------------------------------------------
  // The invariant every step keeps
  // ---------------------------------------------------------------------------

  lemma {:induction false} CopySamplesIndices(samples: seq<Sample>, j: nat, outIndex: nat, acc: seq<WrittenSample>, n: nat)
    requires j <= |samples| && outIndex < n
    requires forall w :: w in acc ==> w.trackIndex < n
    ensures CopySamples(samples, j, outIndex, acc).Ok? ==>
      forall w :: w in CopySamples(samples, j, outIndex, acc).value ==> w.trackIndex < n
    decreases |samples| - j
  {
    if j < |samples| && samples[j].size <= SampleBufferSize && samples[j].timeUs >= 0 {
      CopySamplesIndices(samples, j + 1, outIndex, acc + [ToWritten(outIndex, samples[j])], n);
    }
  }

  lemma {:induction false} CopyFromIndices(tracks: seq<Track>, i: nat, videoIndex: TrackIndex, audioIndex: TrackIndex,
                                           acc: seq<WrittenSample>, n: nat)
    requires i <= |tracks| && videoIndex < n && audioIndex < n
    requires forall w :: w in acc ==> w.trackIndex < n
    ensures CopyFrom(tracks, i, videoIndex, audioIndex, acc).Ok? ==>
      forall w :: w in CopyFrom(tracks, i, videoIndex, audioIndex, acc).value ==> w.trackIndex < n
    decreases |tracks| - i
  {
    if i < |tracks| && tracks[i].mime.Some? {
      var out := OutputIndex(tracks[i].mime.value, videoIndex, audioIndex);
      if out == NoTrack {
        CopyFromIndices(tracks, i + 1, videoIndex, audioIndex, acc, n);
      } else {
        CopySamplesIndices(tracks[i].samples, 0, out, acc, n);
        var r := CopySamples(tracks[i].samples, 0, out, acc);
        if r.Ok? {
          CopyFromIndices(tracks, i + 1, videoIndex, audioIndex, r.value, n);
        }
      }
    } else if i < |tracks| {
      CopyFromIndices(tracks, i + 1, videoIndex, audioIndex, acc, n);
    }
  }

  lemma {:induction false} RegisterFromKeeps(tracks: seq<Track>, i: nat, before: MergeState, st: MergeState)
    requires i <= |tracks| && Registered(before, st)
    ensures RegisterFrom(tracks, i, st).Ok? ==> Registered(before, RegisterFrom(tracks, i, st).value)
    decreases |tracks| - i
  {
    if i < |tracks| {
      var r := RegisterStep(tracks[i].mime, st);
      if r.Ok? {
        if tracks[i].mime.Some? {
          VideoIsNotAudio(tracks[i].mime.value);
        }
        assert Registered(before, r.value);
        RegisterFromKeeps(tracks, i + 1, before, r.value);
      }
    }
  }

  /** Every step of the merge keeps the muxer and the merger's indices in agreement. */
  lemma MergeStepSettled(input: InputFile, st: MergeState)
    requires Settled(st)
    ensures MergeStep(input, st).Ok? ==> Settled(MergeStep(input, st).value)
  {
    if input.present && input.openable {
      assert Registered(st, st);
      RegisterFromKeeps(input.tracks, 0, st, st);
      var reg := RegisterFrom(input.tracks, 0, st);
      if reg.Ok? {
        var ready := StartIfReady(reg.value);
        CopyFromIndices(input.tracks, 0, ready.videoIndex, ready.audioIndex, ready.written, |ready.trackMimes|);
      }
    }
  }

  lemma {:induction false} MergeFromSettled(inputs: seq<InputFile>, k: nat, st: MergeState)
    requires k <= |inputs| && Settled(st)
    ensures MergeFrom(inputs, k, st).Ok? ==> Settled(MergeFrom(inputs, k, st).value)
    decreases |inputs| - k
  {
    if k < |inputs| {
      MergeStepSettled(inputs[k], st);
      var r := MergeStep(inputs[k], st);
      if r.Ok? {
        MergeFromSettled(inputs, k + 1, r.value);
      }
    }
  }

  /** A successful merge has a started muxer with one video track at most and
      one audio track at most, and every sample went to one of them. */
  lemma MergeRegistersAtMostOneTrackPerKind(inputs: seq<InputFile>)
    ensures MergeRun(inputs).Ok? ==>
      var st := MergeRun(inputs).value;
      && st.started
      && (st.videoIndex != NoTrack || st.audioIndex != NoTrack)
      && |st.trackMimes| == (if st.videoIndex == NoTrack then 0 else 1) + (if st.audioIndex == NoTrack then 0 else 1)
      && (st.videoIndex != NoTrack ==> st.videoIndex < |st.trackMimes| && IsVideo(st.trackMimes[st.videoIndex]))
      && (st.audioIndex != NoTrack ==> st.audioIndex < |st.trackMimes| && IsAudio(st.trackMimes[st.audioIndex]))
      && (st.videoIndex != NoTrack && st.audioIndex != NoTrack ==> st.videoIndex != st.audioIndex)
      && (forall w :: w in st.written ==> w.trackIndex < |st.trackMimes|)
  {
    MergeFromSettled(inputs, 0, Initial);
  }

  // ---------------------------------------------------------------------------
  // Which tracks are registered
  // ---------------------------------------------------------------------------

  datatype Kind = VideoKind | AudioKind

  predicate IsKind(mime: string, kind: Kind) {
    match kind
    case VideoKind => IsVideo(mime)
    case AudioKind => IsAudio(mime)
  }

  function IndexOf(st: MergeState, kind: Kind): TrackIndex {
    match kind
    case VideoKind => st.videoIndex
    case AudioKind => st.audioIndex
  }

  function OrElse(first: Option<string>, second: Option<string>): Option<string> {
    if first.Some? then first else second
  }

  /** The MIME type of the first track of this kind, from track i on. */
  function FirstInTracks(tracks: seq<Track>, i: nat, kind: Kind): Option<string>
    requires i <= |tracks|
    decreases |tracks| - i
  {
    if i == |tracks| then None
    else if tracks[i].mime.Some? && IsKind(tracks[i].mime.value, kind) then tracks[i].mime
    else FirstInTracks(tracks, i + 1, kind)
  }

  /** The MIME type of the first track of this kind in the inputs that exist, from input k on. */
  function FirstInInputs(inputs: seq<InputFile>, k: nat, kind: Kind): Option<string>
    requires k <= |inputs|
    decreases |inputs| - k
  {
    if k == |inputs| then None
    else OrElse(if inputs[k].present then FirstInTracks(inputs[k].tracks, 0, kind) else None,
                FirstInInputs(inputs, k + 1, kind))
  }

  /** The muxer track of this kind is registered with the given format, or none is when none is given. */
  predicate HoldsFirst(st: MergeState, kind: Kind, first: Option<string>) {
    match first
    case None => IndexOf(st, kind) == NoTrack
    case Some(m) => NoTrack < IndexOf(st, kind) < |st.trackMimes| && st.trackMimes[IndexOf(st, kind)] == m
  }

  lemma {:induction false} RegisterFromFirst(tracks: seq<Track>, i: nat, st: MergeState, kind: Kind, first: Option<string>)
    requires i <= |tracks| && HoldsFirst(st, kind, first)
    ensures RegisterFrom(tracks, i, st).Ok? ==>
      && st.trackMimes <= RegisterFrom(tracks, i, st).value.trackMimes
      && HoldsFirst(RegisterFrom(tracks, i, st).value, kind, OrElse(first, FirstInTracks(tracks, i, kind)))
    decreases |tracks| - i
  {
    if i < |tracks| {
      var r := RegisterStep(tracks[i].mime, st);
      if r.Ok? {
        if tracks[i].mime.Some? {
          VideoIsNotAudio(tracks[i].mime.value);
        }
        var next := OrElse(first, if tracks[i].mime.Some? && IsKind(tracks[i].mime.value, kind) then tracks[i].mime else None);
        assert HoldsFirst(r.value, kind, next);
        RegisterFromFirst(tracks, i + 1, r.value, kind, next);
      }
    }
  }

  lemma CopyFromKeepsTracks(input: InputFile, st: MergeState, kind: Kind, first: Option<string>)
    requires HoldsFirst(st, kind, first)
    ensures MergeStep(input, st).Ok? ==>
      HoldsFirst(MergeStep(input, st).value, kind,
                 OrElse(first, if input.present then FirstInTracks(input.tracks, 0, kind) else None))
  {
    if input.present && input.openable {
      RegisterFromFirst(input.tracks, 0, st, kind, first);
    }
  }

  lemma {:induction false} MergeFromFirst(inputs: seq<InputFile>, k: nat, st: MergeState, kind: Kind, first: Option<string>)
    requires k <= |inputs| && HoldsFirst(st, kind, first)
    ensures MergeFrom(inputs, k, st).Ok? ==>
      HoldsFirst(MergeFrom(inputs, k, st).value, kind, OrElse(first, FirstInInputs(inputs, k, kind)))
    decreases |inputs| - k
  {
    if k < |inputs| {
      CopyFromKeepsTracks(inputs[k], st, kind, first);
      var r := MergeStep(inputs[k], st);
      if r.Ok? {
        MergeFromFirst(inputs, k + 1, r.value, kind,
                       OrElse(first, if inputs[k].present then FirstInTracks(inputs[k].tracks, 0, kind) else None));
      }
    }
  }

  /** A successful merge registers, for each kind, the format of the first
      track of that kind in the first input that exists and has one, and
      registers no track of a kind no input has. */
  lemma MergeRegistersFirstTrackOfEachKind(inputs: seq<InputFile>, kind: Kind)
    ensures MergeRun(inputs).Ok? ==>
      var st := MergeRun(inputs).value;
      && (IndexOf(st, kind) == NoTrack <==> FirstInInputs(inputs, 0, kind).None?)
      && (IndexOf(st, kind) != NoTrack ==>
            IndexOf(st, kind) < |st.trackMimes| && st.trackMimes[IndexOf(st, kind)] == FirstInInputs(inputs, 0, kind).value)
  {
    MergeFromFirst(inputs, 0, Initial, kind, None);
  }

  /** With no video and no audio track in any existing input the muxer is never
      started, so stop() throws and the merge fails. */
  lemma MergeWithoutTracksFails(inputs: seq<InputFile>)
    requires FirstInInputs(inputs, 0, VideoKind).None? && FirstInInputs(inputs, 0, AudioKind).None?
    ensures MergeRun(inputs).Err?
  {
    MergeRegistersFirstTrackOfEachKind(inputs, VideoKind);
    MergeRegistersFirstTrackOfEachKind(inputs, AudioKind);
    MergeRegistersAtMostOneTrackPerKind(inputs);
  }

  /** Once the muxer is started, an input bringing a kind of track not yet
      registered makes addTrack throw. */
  lemma {:induction false} LateTrackKindFails(tracks: seq<Track>, i: nat, st: MergeState, kind: Kind)
    requires i <= |tracks| && st.started && IndexOf(st, kind) == NoTrack
    requires FirstInTracks(tracks, i, kind).Some?
    ensures RegisterFrom(tracks, i, st) == Err(AddTrackAfterStart)
    decreases |tracks| - i
  {
    var r := RegisterStep(tracks[i].mime, st);
    if tracks[i].mime.Some? && IsKind(tracks[i].mime.value, kind) {
      VideoIsNotAudio(tracks[i].mime.value);
      assert r == Err(AddTrackAfterStart);
    } else {
      if r.Ok? {
        assert r.value.started && IndexOf(r.value, kind) == NoTrack;
        LateTrackKindFails(tracks, i + 1, r.value, kind);
      }
    }
  }

  /** A segment with video only followed by one with video and audio: the audio
      track is met after start() and the whole merge fails. */
  lemma VideoOnlyThenVideoAndAudioFails(first: InputFile, second: InputFile)
    requires first.present && first.openable && second.present && second.openable
    requires first.tracks == [Track(Some("video/avc"), [])]
    requires second.tracks == [Track(Some("video/avc"), []), Track(Some("audio/mp4a-latm"), [])]
    ensures MergeRun([first, second]) == Err(AddTrackAfterStart)
  {
    assert IsVideo("video/avc") && IsAudio("audio/mp4a-latm");
    VideoIsNotAudio("video/avc");
    VideoIsNotAudio("audio/mp4a-latm");
    var registered := MergeState(0, NoTrack, ["video/avc"], false, []);
    var afterFirst := MergeState(0, NoTrack, ["video/avc"], true, []);
    assert Initial.trackMimes + ["video/avc"] == ["video/avc"];
    assert RegisterStep(first.tracks[0].mime, Initial) == Ok(registered);
    assert RegisterFrom(first.tracks, 1, registered) == Ok(registered);
    assert RegisterFrom(first.tracks, 0, Initial) == Ok(registered);
    assert CopySamples([], 0, 0, []) == Ok([]);
    assert CopyFrom(first.tracks, 1, 0, NoTrack, []) == Ok([]);
    assert CopyFrom(first.tracks, 0, 0, NoTrack, []) == Ok([]);
    assert MergeStep(first, Initial) == Ok(afterFirst);
    assert RegisterStep(second.tracks[0].mime, afterFirst) == Ok(afterFirst);
    assert FirstInTracks(second.tracks, 1, AudioKind).Some?;
    LateTrackKindFails(second.tracks, 1, afterFirst, AudioKind);
    assert RegisterFrom(second.tracks, 0, afterFirst) == RegisterFrom(second.tracks, 1, afterFirst);
    assert MergeStep(second, afterFirst) == Err(AddTrackAfterStart);
    var inputs := [first, second];
    assert inputs[0] == first && inputs[1] == second;
    assert MergeFrom(inputs, 1, afterFirst) == Err(AddTrackAfterStart);
    assert MergeFrom(inputs, 0, Initial) == Err(AddTrackAfterStart);
  }

  // ---------------------------------------------------------------------------
  // What is written for well-formed segments
  // ---------------------------------------------------------------------------

  /** A segment as the recorder writes it: one video track, then one audio track. */
  predicate WellFormedSegment(f: InputFile) {
    && f.present && f.openable && |f.tracks| == 2
    && f.tracks[0].mime.Some? && IsVideo(f.tracks[0].mime.value) && AllWritable(f.tracks[0].samples)
    && f.tracks[1].mime.Some? && IsAudio(f.tracks[1].mime.value) && AllWritable(f.tracks[1].samples)
  }

  /** The formats of the first segment's video and audio tracks. */
  function FirstSegmentMimes(inputs: seq<InputFile>): seq<string>
    requires |inputs| >= 1 && forall j :: 0 <= j < |inputs| ==> WellFormedSegment(inputs[j])
  {
    assert WellFormedSegment(inputs[0]);
    [inputs[0].tracks[0].mime.value, inputs[0].tracks[1].mime.value]
  }

  /** Every segment's video samples to track 0, then its audio samples to track 1, segment by segment. */
  function SegmentsWritten(inputs: seq<InputFile>, k: nat): seq<WrittenSample>
    requires k <= |inputs| && forall j :: 0 <= j < |inputs| ==> WellFormedSegment(inputs[j])
    decreases |inputs| - k
  {
    if k == |inputs| then []
    else assert WellFormedSegment(inputs[k]);
         WrittenOf(0, inputs[k].tracks[0].samples) + WrittenOf(1, inputs[k].tracks[1].samples)
         + SegmentsWritten(inputs, k + 1)
  }

  lemma {:induction false} CopySamplesAllWritable(samples: seq<Sample>, j: nat, outIndex: nat, acc: seq<WrittenSample>)
    requires j <= |samples| && AllWritable(samples)
    ensures CopySamples(samples, j, outIndex, acc) == Ok(acc + WrittenOf(outIndex, samples[j..]))
    decreases |samples| - j
  {
    if j < |samples| {
      var x := ToWritten(outIndex, samples[j]);
      CopySamplesAllWritable(samples, j + 1, outIndex, acc + [x]);
      assert [x] + WrittenOf(outIndex, samples[j + 1..]) == WrittenOf(outIndex, samples[j..]);
      assert (acc + [x]) + WrittenOf(outIndex, samples[j + 1..]) == acc + ([x] + WrittenOf(outIndex, samples[j + 1..]));
    } else {
      assert WrittenOf(outIndex, samples[j..]) == [];
      assert acc + [] == acc;
    }
  }

  /** Copying a well-formed segment into tracks 0 (video) and 1 (audio). */
  lemma CopySegment(f: InputFile, acc: seq<WrittenSample>)
    requires WellFormedSegment(f)
    ensures CopyFrom(f.tracks, 0, 0, 1, acc)
         == Ok(acc + WrittenOf(0, f.tracks[0].samples) + WrittenOf(1, f.tracks[1].samples))
  {
    var vs, au := f.tracks[0].samples, f.tracks[1].samples;
    var w0, w1 := WrittenOf(0, vs), WrittenOf(1, au);
    CopySamplesAllWritable(vs, 0, 0, acc);
    assert vs[0..] == vs;
    VideoIsNotAudio(f.tracks[1].mime.value);
    assert OutputIndex(f.tracks[0].mime.value, 0, 1) == 0;
    assert OutputIndex(f.tracks[1].mime.value, 0, 1) == 1;
    CopySamplesAllWritable(au, 0, 1, acc + w0);
    assert au[0..] == au;
    assert CopyFrom(f.tracks, 2, 0, 1, acc + w0 + w1) == Ok(acc + w0 + w1);
    assert CopyFrom(f.tracks, 1, 0, 1, acc + w0) == Ok(acc + w0 + w1);
  }

  lemma {:induction false} MergeSegmentsFrom(inputs: seq<InputFile>, k: nat, mimes: seq<string>, acc: seq<WrittenSample>)
    requires k <= |inputs| && forall j :: 0 <= j < |inputs| ==> WellFormedSegment(inputs[j])
    requires |mimes| == 2
    ensures MergeFrom(inputs, k, MergeState(0, 1, mimes, true, acc))
         == Ok(MergeState(0, 1, mimes, true, acc + SegmentsWritten(inputs, k)))
    decreases |inputs| - k
  {
    var st := MergeState(0, 1, mimes, true, acc);
    if k < |inputs| {
      var f := inputs[k];
      assert WellFormedSegment(f);
      VideoIsNotAudio(f.tracks[0].mime.value);
      VideoIsNotAudio(f.tracks[1].mime.value);
      assert RegisterStep(f.tracks[1].mime, st) == Ok(st);
      assert RegisterFrom(f.tracks, 2, st) == Ok(st);
      assert RegisterFrom(f.tracks, 1, st) == Ok(st);
      assert RegisterStep(f.tracks[0].mime, st) == Ok(st);
      assert RegisterFrom(f.tracks, 0, st) == Ok(st);
      CopySegment(f, acc);
      var w := WrittenOf(0, f.tracks[0].samples) + WrittenOf(1, f.tracks[1].samples);
      var acc' := acc + WrittenOf(0, f.tracks[0].samples) + WrittenOf(1, f.tracks[1].samples);
      assert MergeStep(f, st) == Ok(st.(written := acc'));
      MergeSegmentsFrom(inputs, k + 1, mimes, acc');
      assert SegmentsWritten(inputs, k) == w + SegmentsWritten(inputs, k + 1);
      assert acc' + SegmentsWritten(inputs, k + 1) == acc + SegmentsWritten(inputs, k);
    } else {
      assert acc + SegmentsWritten(inputs, k) == acc;
    }
  }

  /** The first well-formed segment registers its video track, then its audio track, and starts the muxer. */
  lemma FirstSegmentStep(f: InputFile)
    requires WellFormedSegment(f)
    ensures MergeStep(f, Initial)
         == Ok(MergeState(0, 1, [f.tracks[0].mime.value, f.tracks[1].mime.value], true,
                          WrittenOf(0, f.tracks[0].samples) + WrittenOf(1, f.tracks[1].samples)))
  {
    var vm, am := f.tracks[0].mime.value, f.tracks[1].mime.value;
    VideoIsNotAudio(vm);
    VideoIsNotAudio(am);
    var reg := MergeState(0, 1, [vm, am], false, []);
    assert [vm] + [am] == [vm, am];
    assert RegisterFrom(f.tracks, 2, reg) == Ok(reg);
    assert RegisterStep(f.tracks[1].mime, MergeState(0, NoTrack, [vm], false, [])) == Ok(reg);
    assert RegisterFrom(f.tracks, 1, MergeState(0, NoTrack, [vm], false, [])) == Ok(reg);
    assert Initial.trackMimes + [vm] == [vm];
    assert RegisterStep(f.tracks[0].mime, Initial) == Ok(MergeState(0, NoTrack, [vm], false, []));
    assert RegisterFrom(f.tracks, 0, Initial) == Ok(reg);
    CopySegment(f, []);
    assert [] + WrittenOf(0, f.tracks[0].samples) + WrittenOf(1, f.tracks[1].samples)
        == WrittenOf(0, f.tracks[0].samples) + WrittenOf(1, f.tracks[1].samples);
  }

  /** Merging segments that each hold one video and one audio track registers
      the first segment's two formats (video first) and writes every
      segment's video samples and then its audio samples, in segment order,
      with their own presentation times: track 0 gets the sum of the
      segments' video samples and track 1 the sum of their audio samples. */
  lemma MergeWellFormedSegments(inputs: seq<InputFile>)
    requires |inputs| >= 1 && forall j :: 0 <= j < |inputs| ==> WellFormedSegment(inputs[j])
    ensures MergeRun(inputs) == Ok(MergeState(0, 1, FirstSegmentMimes(inputs), true, SegmentsWritten(inputs, 0)))
  {
    var f := inputs[0];
    assert WellFormedSegment(f);
    FirstSegmentStep(f);
    var mimes := FirstSegmentMimes(inputs);
    var acc := WrittenOf(0, f.tracks[0].samples) + WrittenOf(1, f.tracks[1].samples);
    MergeSegmentsFrom(inputs, 1, mimes, acc);
    assert MergeFrom(inputs, 0, Initial) == MergeFrom(inputs, 1, MergeState(0, 1, mimes, true, acc));
    assert acc + SegmentsWritten(inputs, 1) == SegmentsWritten(inputs, 0);
  }

  /** Each track's writes in nondecreasing presentation time, the order
      `MediaMuxer.writeSampleData` documents for the samples of one track. */
  predicate ChronologicalPerTrack(written: seq<WrittenSample>) {
    forall i, j :: 0 <= i < j < |written| && written[i].trackIndex == written[j].trackIndex
      ==> written[i].info.presentationTimeUs <= written[j].info.presentationTimeUs
  }

  /** Times are copied without an offset, so when the second segment's first
      video sample is earlier than the first segment's last one (every
      recording starts its own clock), the merged video track goes back in time. */
  lemma SecondSegmentRewindsTime(a: InputFile, b: InputFile)
    requires WellFormedSegment(a) && WellFormedSegment(b)
    requires a.tracks[0].samples != [] && b.tracks[0].samples != []
    requires b.tracks[0].samples[0].timeUs < a.tracks[0].samples[|a.tracks[0].samples| - 1].timeUs
    ensures MergeRun([a, b]).Ok?
    ensures !ChronologicalPerTrack(MergeRun([a, b]).value.written)
  {
    var inputs := [a, b];
    assert inputs[0] == a && inputs[1] == b;
    MergeWellFormedSegments(inputs);
    var va, aa, vb := a.tracks[0].samples, a.tracks[1].samples, b.tracks[0].samples;
    var w := SegmentsWritten(inputs, 0);
    assert SegmentsWritten(inputs, 2) == [];
    assert w == WrittenOf(0, va) + WrittenOf(1, aa) + (WrittenOf(0, vb) + WrittenOf(1, b.tracks[1].samples) + []);
    var i, j := |va| - 1, |va| + |aa|;
    assert w[i] == ToWritten(0, va[|va| - 1]);
    assert w[j] == ToWritten(0, vb[0]);
  }
}
