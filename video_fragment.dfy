/**
 * The video screen's recording controller (`VideoFragment`). A recording is
 * a series of segment files: one per start, a new one each time the camera
 * is switched while recording. The Finalize event of each segment appends its
 * file to `videoSegments`, and stopping merges the collected segments and
 * publishes either the merged file or every segment. A one-second timer shows
 * the elapsed time as mm:ss.
 *
 * Platform calls are parameters: `now` stands for `System.currentTimeMillis()`,
 * `started` for whether the recorder's start returned, `bound` for whether a
 * camera could be bound, and a `MergeAttempt` for what `mergeVideos` did.
 */
module VideoFragment {
  import opened Wrappers
  import opened Decimal
  import opened CameraUtil
  import opened BaseCameraFragment

  /** formatTime: `%02d:%02d` of the whole minutes and the seconds left over.
      The two parts read back as the minutes and seconds of the argument. */
  function FormatTime(seconds: nat): (text: string)
    ensures |text| >= 5 && text[|text| - 3] == ':'
    ensures IsDigits(text[..|text| - 3]) && IsDigits(text[|text| - 2..])
    ensures ParseDigits(text[..|text| - 3]) == seconds / 60
    ensures ParseDigits(text[|text| - 2..]) == seconds % 60
    ensures seconds < 6000 ==> |text| == 5
    ensures |text| > 5 ==> text[0] != '0'
  {
    var minutes := seconds / 60;
    var remainingSeconds := seconds - minutes * 60;
    var mm, ss := ZeroPad2(minutes), ZeroPad2(remainingSeconds);
    assert (mm + ":" + ss)[..|mm|] == mm;
    assert (mm + ":" + ss)[|mm| + 1..] == ss;
    mm + ":" + ss
  }

  /** The minutes and seconds of an mm:ss text. */
  function ParseTime(text: string): Option<nat>
  {
    if |text| >= 4 && text[|text| - 3] == ':' && IsDigits(text[..|text| - 3]) && IsDigits(text[|text| - 2..])
    then Some(ParseDigits(text[..|text| - 3]) * 60 + ParseDigits(text[|text| - 2..]))
    else None
  }

  /** Reading the timer back gives the elapsed seconds, so distinct elapsed
      times never show alike. */
  lemma ParseFormatTime(seconds: nat)
    ensures ParseTime(FormatTime(seconds)) == Some(seconds)
  {
  }

  lemma FormatTimeInjective(s: nat, t: nat)
    requires FormatTime(s) == FormatTime(t)
    ensures s == t
  {
    ParseFormatTime(s);
    ParseFormatTime(t);
  }

  /** The base name of segment files: "VIDEO_SEGMENT_<index>_<millis>". */
  function SegmentName(index: nat, now: nat): (name: string)
    ensures |name| > 16 && name[..14] == "VIDEO_SEGMENT_"
  {
    "VIDEO_SEGMENT_" + NatToString(index) + "_" + NatToString(now)
  }

  /** The two numbers of a segment name sit between the prefix and a
      separator, and read back as the index and the clock. */
  lemma SegmentNameFields(index: nat, now: nat)
    ensures var name := SegmentName(index, now);
      exists k :: 14 < k < |name| && name[k] == '_'
        && IsDigits(name[14..k]) && ParseDigits(name[14..k]) == index
        && IsDigits(name[k + 1..]) && ParseDigits(name[k + 1..]) == now
  {
    var i, t := NatToString(index), NatToString(now);
    ParseNatToString(index);
    ParseNatToString(now);
    var name := SegmentName(index, now);
    var k := 14 + |i|;
    assert name[14..k] == i && name[k] == '_' && name[k + 1..] == t;
  }

  /** The base name of the merged file: "VIDEO_FINAL_<millis>", whose digits
      read back as the clock. */
  function FinalName(now: nat): (name: string)
    ensures |name| > 12 && name[..12] == "VIDEO_FINAL_"
    ensures IsDigits(name[12..]) && ParseDigits(name[12..]) == now
  {
    var t := NatToString(now);
    ParseNatToString(now);
    var name := "VIDEO_FINAL_" + t;
    assert name[12..] == t;
    name
  }

  lemma SeparatorNotInDigits(a: string, b: string, c: string, d: string)
    requires IsDigits(c) && |a| < |c|
    ensures a + "_" + b != c + "_" + d
  {
    assert (a + "_" + b)[|a|] == '_';
    assert (c + "_" + d)[|a|] == c[|a|];
  }

  /** Digits never contain the separator, so the split is unique. */
  lemma {:induction false} SplitAtSeparator(a: string, b: string, c: string, d: string)
    requires IsDigits(a) && IsDigits(c)
    requires a + "_" + b == c + "_" + d
    ensures a == c && b == d
  {
    var x := a + "_" + b;
    if |a| < |c| {
      SeparatorNotInDigits(a, b, c, d);
      assert false;
    } else if |c| < |a| {
      SeparatorNotInDigits(c, d, a, b);
      assert false;
    } else {
      assert a == x[..|a|] == c;
      assert b == x[|a| + 1..] == d;
    }
  }

  /** Segment names differ whenever their indices or clocks differ; in
      particular the segments of one session, numbered 0, 1, 2, ..., never
      overwrite each other, and no segment is named like a merged file. */
  lemma SegmentNameInjective(i: nat, t: nat, j: nat, u: nat)
    requires SegmentName(i, t) == SegmentName(j, u)
    ensures i == j && t == u
  {
    var p := "VIDEO_SEGMENT_";
    assert SegmentName(i, t) == p + (NatToString(i) + "_" + NatToString(t));
    assert SegmentName(j, u) == p + (NatToString(j) + "_" + NatToString(u));
    assert NatToString(i) + "_" + NatToString(t) == SegmentName(i, t)[|p|..];
    assert NatToString(j) + "_" + NatToString(u) == SegmentName(j, u)[|p|..];
    SplitAtSeparator(NatToString(i), NatToString(t), NatToString(j), NatToString(u));
    NatToStringInjective(i, j);
    NatToStringInjective(t, u);
  }

  lemma SegmentNameIsNotFinal(i: nat, t: nat, u: nat)
    ensures SegmentName(i, t) != FinalName(u)
  {
    assert SegmentName(i, t)[6] == 'S';
    assert FinalName(u)[6] == 'F';
  }

  /** How a merge attempt ended: `mergeVideos` returned its result (it
      catches its own exceptions), or creating the output file threw before
      the merge began and the catch of mergeAllSegments took over. */
  datatype MergeAttempt = Merged(success: bool) | OutputNotCreated

  /** The files mergeAllSegments hands to the media scanner. */
  function Published(segments: seq<string>, now: nat, attempt: MergeAttempt): (files: seq<string>)
    ensures segments == [] ==> files == []
    ensures segments != [] && attempt == Merged(true) ==> files == [FinalName(now)]
    ensures attempt != Merged(true) ==> files == segments
  {
    if segments == [] then []
    else if attempt == Merged(true) then [FinalName(now)]
    else segments
  }

  class RecordingController {
    var isRecording: bool
    /** `recording != null`. */
    var hasRecording: bool
    var secondsElapsed: nat
    var timerText: string
    var currentVideoFile: Option<string>
    var segmentIndex: nat
    var videoSegments: seq<string>
    var isFirstSegment: bool
    /** How many copies of the timer runnable are queued on the handler; each
        copy re-posts itself every second until removed. */
    var timerChains: nat
    /** Corrected stop only: a stop is waiting for its last segment's Finalize. */
    var stopPending: bool
    /** The camera part inherited from the base fragment. */
    const screen: CameraScreen

    /** The timer runs once exactly while recording. */
    ghost predicate TimerConsistent()
      reads this
    {
      timerChains == (if isRecording then 1 else 0)
    }

    constructor ()
      ensures !isRecording && !hasRecording && secondsElapsed == 0 && timerText == "00:00"
      ensures currentVideoFile.None? && segmentIndex == 0 && videoSegments == [] && isFirstSegment
      ensures timerChains == 0 && TimerConsistent() && !stopPending
      ensures fresh(screen) && fresh(screen.torch)
      ensures screen.cameraSelector == DefaultBack && !screen.cameraBound
    {
      isRecording := false;
      hasRecording := false;
      secondsElapsed := 0;
      timerText := "00:00";
      currentVideoFile := None;
      segmentIndex := 0;
      videoSegments := [];
      isFirstSegment := true;
      timerChains := 0;
      stopPending := false;
      screen := new CameraScreen();
    }

    /** startRecording corrected: the segment is named with the current
        index, which then moves on whether or not the recorder starts. Only a
        started recorder sets `isRecording` and (re)starts the timer: its
        queued copies are removed and one is posted to run a second later
        (`postDelayed`), so a start counts no second of its own. */
    method StartRecording(now: nat, started: bool)
      modifies this`currentVideoFile, this`segmentIndex, this`hasRecording, this`isRecording, this`timerChains
      ensures currentVideoFile == Some(SegmentName(old(segmentIndex), now))
      ensures segmentIndex == old(segmentIndex) + 1
      ensures started ==> hasRecording && isRecording && timerChains == 1
      ensures !started ==> hasRecording == old(hasRecording) && isRecording == old(isRecording)
                           && timerChains == old(timerChains)
      ensures old(TimerConsistent()) ==> TimerConsistent()
    {
      currentVideoFile := Some(SegmentName(segmentIndex, now));
      segmentIndex := segmentIndex + 1;
      if started {
        hasRecording := true;
        isRecording := true;
        timerChains := 1;
      }
    }

    /** startRecording as written: every successful start posts the timer
        runnable without delay and without removing a copy already queued.
        The posted copy runs at once, counting one second, and then re-posts
        itself every second as one more queued copy. */
    method StartRecordingAsWritten(now: nat, started: bool)
      modifies this`currentVideoFile, this`segmentIndex, this`hasRecording, this`isRecording, this`timerChains,
               this`secondsElapsed, this`timerText
      ensures currentVideoFile == Some(SegmentName(old(segmentIndex), now))
      ensures segmentIndex == old(segmentIndex) + 1
      ensures started ==> hasRecording && isRecording && timerChains == old(timerChains) + 1
                          && secondsElapsed == old(secondsElapsed) + 1 && timerText == FormatTime(secondsElapsed)
      ensures !started ==> hasRecording == old(hasRecording) && isRecording == old(isRecording)
                           && timerChains == old(timerChains)
                           && secondsElapsed == old(secondsElapsed) && timerText == old(timerText)
    {
      currentVideoFile := Some(SegmentName(segmentIndex, now));
      segmentIndex := segmentIndex + 1;
      if started {
        hasRecording := true;
        isRecording := true;
        TimerTick();
        timerChains := timerChains + 1;
      }
    }

    /** One run of the timer runnable: one more second, shown as mm:ss. */
    method TimerTick()
      modifies this`secondsElapsed, this`timerText
      ensures secondsElapsed == old(secondsElapsed) + 1
      ensures timerText == FormatTime(secondsElapsed)
    {
      secondsElapsed := secondsElapsed + 1;
      timerText := FormatTime(secondsElapsed);
    }

    /** One second of wall time: every queued copy of the runnable runs once
        (the copy a start posts runs at once, inside `StartRecordingAsWritten`). */
    method ElapseSecond()
      modifies this`secondsElapsed, this`timerText
      ensures secondsElapsed == old(secondsElapsed) + timerChains
      ensures timerChains > 0 ==> timerText == FormatTime(secondsElapsed)
      ensures timerChains == 0 ==> timerText == old(timerText)
      ensures TimerConsistent() ==> secondsElapsed == old(secondsElapsed) + (if isRecording then 1 else 0)
    {
      var k := 0;
      while k < timerChains
        invariant 0 <= k <= timerChains
        invariant secondsElapsed == old(secondsElapsed) + k
        invariant k > 0 ==> timerText == FormatTime(secondsElapsed)
        invariant k == 0 ==> timerText == old(timerText)
      {
        TimerTick();
        k := k + 1;
      }
    }

    /** handleRecordingFinalize: a failed segment adds nothing; otherwise the
        file the controller names as current goes to the end of the list. */
    method HandleFinalize(hasError: bool)
      modifies this`videoSegments
      ensures hasError || currentVideoFile.None? ==> videoSegments == old(videoSegments)
      ensures !hasError && currentVideoFile.Some? ==> videoSegments == old(videoSegments) + [currentVideoFile.value]
    {
      if hasError {
        return;
      }
      if currentVideoFile.Some? {
        videoSegments := videoSegments + [currentVideoFile.value];
      }
    }

    /** mergeAllSegments: nothing without segments; the merged file when the
        merge reports success; every segment on its own when it reports
        failure or the output file could not be created. */
    method MergeAllSegments(now: nat, attempt: MergeAttempt) returns (published: seq<string>)
      ensures published == Published(videoSegments, now, attempt)
    {
      if videoSegments == [] {
        return [];
      }
      match attempt {
        case OutputNotCreated =>
          published := videoSegments;
        case Merged(success) =>
          if success {
            published := [FinalName(now)];
          } else {
            published := videoSegments;
          }
      }
    }

    /** stopRecording: the timer stops, the collected segments are merged when
        there are any, and the session is reset. */
    method StopRecording(now: nat, attempt: MergeAttempt) returns (published: seq<string>)
      modifies this`hasRecording, this`isRecording, this`timerChains, this`segmentIndex,
               this`isFirstSegment, this`videoSegments, this`secondsElapsed, this`timerText
      ensures published == Published(old(videoSegments), now, attempt)
      ensures !hasRecording && !isRecording && timerChains == 0 && TimerConsistent()
      ensures segmentIndex == 0 && isFirstSegment && videoSegments == []
      ensures secondsElapsed == 0 && timerText == FormatTime(0)
    {
      hasRecording := false;
      isRecording := false;
      timerChains := 0;
      published := [];
      if videoSegments != [] {
        published := MergeAllSegments(now, attempt);
      }
      segmentIndex := 0;
      isFirstSegment := true;
      videoSegments := [];
      secondsElapsed := 0;
      assert FormatTime(0) == "00:00";
      timerText := "00:00";
    }

    /** switchCameraDuringRecording: stop the current segment, flip the
        camera (hiding the flash button for the front one), bind it again
        and start the next segment, which is not the first. */
    method SwitchCameraDuringRecording(now: nat, bound: bool, started: bool)
      modifies this`hasRecording, this`isFirstSegment, this`currentVideoFile, this`segmentIndex,
               this`isRecording, this`timerChains,
               screen`cameraSelector, screen`flashButtonVisible, screen`cameraBound
      ensures screen.cameraSelector == Toggled(old(screen.cameraSelector))
      ensures screen.flashButtonVisible <==> !IsFrontCamera(screen.cameraSelector)
      ensures screen.cameraBound == (old(screen.cameraBound) || bound)
      ensures !isFirstSegment
      ensures currentVideoFile == Some(SegmentName(old(segmentIndex), now))
      ensures segmentIndex == old(segmentIndex) + 1
      ensures hasRecording == started
      ensures started ==> isRecording && timerChains == 1
      ensures !started ==> isRecording == old(isRecording) && timerChains == old(timerChains)
      ensures old(TimerConsistent()) ==> TimerConsistent()
    {
      hasRecording := false;
      screen.FlipCamera();
      screen.SetupCamera(bound);
      isFirstSegment := false;
      StartRecording(now, started);
    }

    /** switchCameraDuringRecording over the start as written. */
    method SwitchCameraDuringRecordingAsWritten(now: nat, bound: bool, started: bool)
      modifies this`hasRecording, this`isFirstSegment, this`currentVideoFile, this`segmentIndex,
               this`isRecording, this`timerChains, this`secondsElapsed, this`timerText,
               screen`cameraSelector, screen`flashButtonVisible, screen`cameraBound
      ensures screen.cameraSelector == Toggled(old(screen.cameraSelector))
      ensures !isFirstSegment && hasRecording == started
      ensures segmentIndex == old(segmentIndex) + 1
      ensures started ==> isRecording && timerChains == old(timerChains) + 1
                          && secondsElapsed == old(secondsElapsed) + 1
      ensures !started ==> isRecording == old(isRecording) && timerChains == old(timerChains)
                           && secondsElapsed == old(secondsElapsed)
    {
      hasRecording := false;
      screen.FlipCamera();
      screen.SetupCamera(bound);
      isFirstSegment := false;
      StartRecordingAsWritten(now, started);
    }

    /** stopRecording corrected: while a segment is being recorded its file
        reaches the list only with its Finalize event, so the stop resets the
        timer and the display and leaves merging to that event. Without a
        recording in progress it merges at once, as the source does. */
    method StopRecordingDeferred(now: nat, attempt: MergeAttempt) returns (published: seq<string>)
      modifies this`hasRecording, this`isRecording, this`timerChains, this`segmentIndex,
               this`isFirstSegment, this`videoSegments, this`secondsElapsed, this`timerText, this`stopPending
      ensures !hasRecording && !isRecording && timerChains == 0 && TimerConsistent()
      ensures secondsElapsed == 0 && timerText == FormatTime(0)
      ensures old(hasRecording) ==> published == [] && stopPending && videoSegments == old(videoSegments)
                                    && segmentIndex == old(segmentIndex) && isFirstSegment == old(isFirstSegment)
      ensures !old(hasRecording) ==> published == Published(old(videoSegments), now, attempt) && !stopPending
                                     && segmentIndex == 0 && isFirstSegment && videoSegments == []
    {
      var recordingInProgress := hasRecording;
      hasRecording := false;
      isRecording := false;
      timerChains := 0;
      secondsElapsed := 0;
      assert FormatTime(0) == "00:00";
      timerText := "00:00";
      published := [];
      if recordingInProgress {
        stopPending := true;
      } else {
        stopPending := false;
        if videoSegments != [] {
          published := MergeAllSegments(now, attempt);
        }
        segmentIndex := 0;
        isFirstSegment := true;
        videoSegments := [];
      }
    }

    /** handleRecordingFinalize corrected: the segment is added as before, and
        a stop waiting for it now merges the whole session, this segment
        included, and resets it. */
    method HandleFinalizeDeferred(hasError: bool, now: nat, attempt: MergeAttempt) returns (published: seq<string>)
      modifies this`videoSegments, this`segmentIndex, this`isFirstSegment, this`stopPending
      ensures var session := old(videoSegments) + (if !hasError && currentVideoFile.Some? then [currentVideoFile.value] else []);
        && (old(stopPending) ==> published == Published(session, now, attempt) && !stopPending
                                 && videoSegments == [] && segmentIndex == 0 && isFirstSegment)
        && (!old(stopPending) ==> published == [] && !stopPending && videoSegments == session
                                  && segmentIndex == old(segmentIndex) && isFirstSegment == old(isFirstSegment))
    {
      HandleFinalize(hasError);
      published := [];
      if stopPending {
        if videoSegments != [] {
          published := MergeAllSegments(now, attempt);
        }
        segmentIndex := 0;
        isFirstSegment := true;
        videoSegments := [];
        stopPending := false;
      }
    }
  }

  /** As written: start a recording, switch the camera once, and let one
      second pass. The start and the switch each count a second at once, and
      the two queued copies count two more: the timer shows 4 seconds. */
  method TimerAfterSwitchAsWritten() returns (elapsed: nat, chains: nat, text: string)
    ensures chains == 2 && elapsed == 4 && text == "00:04"
  {
    var c := new RecordingController();
    c.StartRecordingAsWritten(0, true);
    c.SwitchCameraDuringRecordingAsWritten(1, true, true);
    c.ElapseSecond();
    elapsed, chains, text := c.secondsElapsed, c.timerChains, c.timerText;
    assert FormatTime(4) == "00:04";
  }

  /** Corrected: with the queued copies removed and one copy posted a second
      later, the same steps count the one second that passed. */
  method TimerAfterSwitch() returns (elapsed: nat, chains: nat, text: string)
    ensures chains == 1 && elapsed == 1 && text == "00:01"
  {
    var c := new RecordingController();
    c.StartRecording(0, true);
    c.SwitchCameraDuringRecording(1, true, true);
    c.ElapseSecond();
    elapsed, chains, text := c.secondsElapsed, c.timerChains, c.timerText;
    assert FormatTime(1) == "00:01";
  }

  /** As written: the Finalize of the last segment arrives after stopRecording
      has merged and cleared the list, so that segment is not published by
      this stop and is carried into the next session's list instead. */
  method StopThenFinalize() returns (published: seq<string>, carried: seq<string>)
    ensures published == [] && carried == [SegmentName(0, 5)]
  {
    var c := new RecordingController();
    c.StartRecordingAsWritten(5, true);
    published := c.StopRecording(9, Merged(true));
    c.HandleFinalize(false);
    carried := c.videoSegments;
  }

  /** With the merge deferred to the Finalize event, the same steps publish
      the session's segment (merged under the clock of the event) and carry
      nothing over. */
  method StopThenFinalizeDeferred() returns (published: seq<string>, carried: seq<string>)
    ensures published == [FinalName(9)] && carried == []
  {
    var c := new RecordingController();
    c.StartRecording(5, true);
    var atStop := c.StopRecordingDeferred(8, Merged(true));
    published := c.HandleFinalizeDeferred(false, 9, Merged(true));
    carried := c.videoSegments;
  }
}
