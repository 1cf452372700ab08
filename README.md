# Camera app core, modelled in Dafny

This project models the logic of a small Android camera app (package
`ru.rut.democamera`), written in Kotlin. It covers:

- **VideoMerger.** Merges the segment files of one video recording into one MPEG-4 file. A demuxer (`Extractor`) and a muxer (`Muxer`) stand for the platform's `MediaExtractor` and `MediaMuxer`. An input file is a list of tracks. A track has an optional MIME type and the samples read from it. The muxer keeps a log of what it registered and wrote.
  - `MergeVideos`, `RegisterTracks` and `CopyTracks` follow the source's loops. Each is proved against a tail-recursive function: `MergeFrom`, `RegisterFrom` and `CopyFrom`/`CopySamples`.
  - Three muxer rules are preconditions of the muxer: a start happens once, only with a registered track, and samples are written only to started, registered tracks. Verifying `MergeVideos` therefore proves that the merger obeys these three rules. The rule that each track's samples arrive in chronological order is not a precondition; `SecondSegmentRewindsTime` shows that the merger breaks it (see "Left out").
  - Platform exceptions are modelled as `Failure` values: `addTrack` after start, a sample larger than the 1 MiB buffer, a negative presentation time passed to `writeSampleData`, `stop` before `start`, and an unreadable input. A muxer that cannot open its output is the `outputWritable` parameter of `MergeVideos`.
- **VideoFragment.** The recording controller, as the class `RecordingController`. It covers segment naming, start, stop, the Finalize event, the merge-or-publish-each decision, switching camera while recording, and the one-second timer with its `mm:ss` text.
- **BaseCameraFragment.** Permission gating, the flash toggle, the back/front switch, and tap-to-focus, in the class `CameraScreen`.
- **CameraUtil.** The selector toggle. Also the torch commands around recording and around an action, kept as a command log (`CameraLog`).
- **OrientationUtil.** Bucketing of sensor degrees into display rotations. A listener that reports only changes.
- **PermissionsUtil.** The "all granted" check and the missing-permission filter.
- **Gallery screens and full-screen viewer.** Covers `GalleryActivity`, `GalleryFragment` and `FullScreenFragment`:
  - the newest-first media listing and the item-count label (module `MediaListing`);
  - click forwarding;
  - index clamping and delete-at-position in the viewer.

Values come from the platform as parameters:
- the clock is `now`;
- whether a recorder started, a camera bound or a file was deleted are booleans;
- the grant state is a set of permission names;
- a directory listing is an `Option` (null when the folder is unreadable);
- how a merge attempt ended is a `MergeAttempt`: the result `mergeVideos` returned, or a failure to create the output file.

Behaviours of the code that the model keeps as they are:
- an empty input list makes `mergeVideos` return `false`; it does not raise an error;
- inputs that do not exist are skipped;
- every track whose MIME type does not start with `video/` is copied to the audio track, even one that is neither video nor audio;
- sample timestamps are copied unchanged, with no offset per segment.

## Model

| member | source | states |
|---|---|---|
| VideoMerger.VideoIsNotAudio | app/src/main/java/ru/rut/democamera/utils/VideoMerger.kt:40-44 | No MIME type starts with both "video/" and "audio/", so a track is never registered as both kinds |
| VideoMerger.Muxer.constructor | app/src/main/java/ru/rut/democamera/utils/VideoMerger.kt:20-23 | A new muxer for the output path: no track, no write, not started, stopped or released |
| VideoMerger.Muxer.Release | app/src/main/java/ru/rut/democamera/utils/VideoMerger.kt:57 | The muxer is released |
| VideoMerger.Extractor.constructor | app/src/main/java/ru/rut/democamera/utils/VideoMerger.kt:32 | A new extractor: no track, none selected, at position 0 |
| VideoMerger.Extractor.GetTrackMime | app/src/main/java/ru/rut/democamera/utils/VideoMerger.kt:37-38 | The MIME type of track i, or none when the format has no KEY_MIME |
| VideoMerger.Extractor.SelectTrack | app/src/main/java/ru/rut/democamera/utils/VideoMerger.kt:87 | Selects track i and reads it from its first sample (the merger selects each track once, so reading starts at the beginning) |
| VideoMerger.Extractor.UnselectTrack | app/src/main/java/ru/rut/democamera/utils/VideoMerger.kt:108 | No track is selected afterwards |
| VideoMerger.Extractor.SampleTime | app/src/main/java/ru/rut/democamera/utils/VideoMerger.kt:95 | The presentation time of the current sample |
| VideoMerger.Extractor.SampleFlags | app/src/main/java/ru/rut/democamera/utils/VideoMerger.kt:97 | The flags of the current sample |
| VideoMerger.Extractor.Advance | app/src/main/java/ru/rut/democamera/utils/VideoMerger.kt:105 | Moves to the next sample of the selected track |
| VideoMerger.Muxer.AddTrack | app/src/main/java/ru/rut/democamera/utils/VideoMerger.kt:41-43 | Returns the next track index and records the format; once started it fails and nothing changes |
| VideoMerger.Muxer.Start | app/src/main/java/ru/rut/democamera/utils/VideoMerger.kt:47-50 | Callable only on an unstarted muxer that has a track |
| VideoMerger.Muxer.WriteSampleData | app/src/main/java/ru/rut/democamera/utils/VideoMerger.kt:104 | Callable only when started, not stopped, and on a registered track. A negative presentation time fails and writes nothing; any other time appends exactly one write to the log |
| VideoMerger.Muxer.Stop | app/src/main/java/ru/rut/democamera/utils/VideoMerger.kt:56 | Succeeds exactly when the muxer was started |
| VideoMerger.Extractor.SetDataSource | app/src/main/java/ru/rut/democamera/utils/VideoMerger.kt:32-33 | Loads the file's tracks, or fails with the file's path when it cannot be read |
| VideoMerger.Extractor.ReadSampleData | app/src/main/java/ru/rut/democamera/utils/VideoMerger.kt:90-91 | Returns -1 at the end of the track, the sample's size if it fits the buffer, and fails otherwise |
| VideoMerger.KeyFrameFlags | app/src/main/java/ru/rut/democamera/utils/VideoMerger.kt:97-102 | The written flags are 0 or KEY_FRAME, and carry KEY_FRAME exactly when the sample has SYNC |
| VideoMerger.ToWritten | app/src/main/java/ru/rut/democamera/utils/VideoMerger.kt:93-104 | A write keeps the sample's size and its presentation time unchanged, with offset 0; key frame iff sync |
| VideoMerger.DeleteAll | app/src/main/java/ru/rut/democamera/utils/VideoMerger.kt:59 | One delete request per input, in input order |
| VideoMerger.MergeVideos | app/src/main/java/ru/rut/democamera/utils/VideoMerger.kt:12-66 | No input: false, no muxer, no file operation. One input: true, only a rename to the output. Two or more: false with no muxer and no file operation when the output cannot be opened; otherwise true exactly when the merge specification succeeds. On success, the muxer is stopped and released, its tracks and writes are those of the specification, and only then are all inputs deleted. On failure, nothing is deleted |
| VideoMerger.RegisterTracks | app/src/main/java/ru/rut/democamera/utils/VideoMerger.kt:35-45 | The track loop of one input registers what `RegisterFrom` registers, and fails exactly when it does |
| VideoMerger.CopyTracks | app/src/main/java/ru/rut/democamera/utils/VideoMerger.kt:68-110 | Succeeds exactly when `CopyFrom` does, and then the muxer log is `CopyFrom`'s result |
| VideoMerger.CopySamplesIndices | app/src/main/java/ru/rut/democamera/utils/VideoMerger.kt:89-106 | The sample loop writes only to the output index it was given |
| VideoMerger.CopyFromIndices | app/src/main/java/ru/rut/democamera/utils/VideoMerger.kt:78-109 | The track loop writes only to the video or the audio index |
| VideoMerger.RegisterFromKeeps | app/src/main/java/ru/rut/democamera/utils/VideoMerger.kt:36-45 | Registration keeps at most one track per kind, of the right kind, at distinct indices, and adds nothing once started |
| VideoMerger.MergeStepSettled | app/src/main/java/ru/rut/democamera/utils/VideoMerger.kt:29-54 | One input keeps the invariant: indices name registered tracks of their kind, the muxer is started iff a track is registered, and writes go to registered tracks |
| VideoMerger.MergeFromSettled | app/src/main/java/ru/rut/democamera/utils/VideoMerger.kt:29-54 | The whole loop over inputs keeps that invariant |
| VideoMerger.MergeRegistersAtMostOneTrackPerKind | app/src/main/java/ru/rut/democamera/utils/VideoMerger.kt:25-50 | After a successful merge: the muxer is started, there are one or two tracks (at most one video, at most one audio, at distinct indices), and every write targets one of them |
| VideoMerger.RegisterFromFirst | app/src/main/java/ru/rut/democamera/utils/VideoMerger.kt:36-45 | Within one input, the registered track of a kind is the first track of that kind |
| VideoMerger.CopyFromKeepsTracks | app/src/main/java/ru/rut/democamera/utils/VideoMerger.kt:47-52 | Starting the muxer and copying samples do not change which track of a kind is registered |
| VideoMerger.MergeFromFirst | app/src/main/java/ru/rut/democamera/utils/VideoMerger.kt:29-54 | Across inputs, the registered track of a kind stays the first one met |
| VideoMerger.MergeRegistersFirstTrackOfEachKind | app/src/main/java/ru/rut/democamera/utils/VideoMerger.kt:29-45 | A successful merge registers, per kind, the format of the first track of that kind in the first existing input that has one, and none when no input has one |
| VideoMerger.MergeWithoutTracksFails | app/src/main/java/ru/rut/democamera/utils/VideoMerger.kt:47-56 | Without any video or audio track the muxer never starts and the merge fails |
| VideoMerger.LateTrackKindFails | app/src/main/java/ru/rut/democamera/utils/VideoMerger.kt:40-44 | Once the muxer is started, meeting a track of a kind not yet registered makes registration fail |
| VideoMerger.VideoOnlyThenVideoAndAudioFails | app/src/main/java/ru/rut/democamera/utils/VideoMerger.kt:29-54 | A video-only segment followed by a video+audio segment fails: the audio track arrives after start |
| VideoMerger.CopySamplesAllWritable | app/src/main/java/ru/rut/democamera/utils/VideoMerger.kt:89-106 | When every sample fits the buffer and has a non-negative time, the sample loop writes every sample, in read order |
| VideoMerger.CopySegment | app/src/main/java/ru/rut/democamera/utils/VideoMerger.kt:78-109 | A video+audio segment copies all its video samples to track 0, then all its audio samples to track 1 |
| VideoMerger.MergeSegmentsFrom | app/src/main/java/ru/rut/democamera/utils/VideoMerger.kt:29-54 | Once both tracks are registered, each further segment appends its samples, in segment order |
| VideoMerger.FirstSegmentStep | app/src/main/java/ru/rut/democamera/utils/VideoMerger.kt:36-52 | The first segment registers video as track 0 and audio as track 1, starts the muxer and copies its samples |
| VideoMerger.MergeWellFormedSegments | app/src/main/java/ru/rut/democamera/utils/VideoMerger.kt:12-66 | For video+audio segments, the merge succeeds with the first segment's two formats. Each track receives every segment's samples of its kind, in file order, with their own times |
| VideoMerger.SecondSegmentRewindsTime | app/src/main/java/ru/rut/democamera/utils/VideoMerger.kt:93-104 | Two video+audio segments merge, and when the second's first video time is earlier than the first's last, the merged video track is not in chronological order |
| VideoFragment.FormatTime | app/src/main/java/ru/rut/democamera/VideoFragment.kt:298-302 | The text is `<minutes>:<ss>`. The part before ':' reads back as seconds/60, the two digits after it as seconds%60 (below 60). The text is five characters below 100 minutes, and a longer text has no leading zero |
| VideoFragment.ParseFormatTime | app/src/main/java/ru/rut/democamera/VideoFragment.kt:298-302 | Reading the timer text back gives the elapsed seconds |
| VideoFragment.FormatTimeInjective | app/src/main/java/ru/rut/democamera/VideoFragment.kt:298-302 | Different elapsed times never show the same text |
| VideoFragment.SegmentName | app/src/main/java/ru/rut/democamera/VideoFragment.kt:173 | The segment base name starts with "VIDEO_SEGMENT_" and carries the index and the clock after it |
| VideoFragment.SegmentNameFields | app/src/main/java/ru/rut/democamera/VideoFragment.kt:173 | After the prefix come the index's digits, a "_", and the clock's digits, and both read back |
| VideoFragment.FinalName | app/src/main/java/ru/rut/democamera/VideoFragment.kt:231 | The merged base name is "VIDEO_FINAL_" followed by digits that read back as the clock |
| VideoFragment.SeparatorNotInDigits | app/src/main/java/ru/rut/democamera/VideoFragment.kt:172-175 | A digit run cannot end earlier than another one at the "_" separator |
| VideoFragment.SplitAtSeparator | app/src/main/java/ru/rut/democamera/VideoFragment.kt:172-175 | `<digits>_<rest>` splits in one way only |
| VideoFragment.SegmentNameInjective | app/src/main/java/ru/rut/democamera/VideoFragment.kt:172-175 | Two segment names are equal only for equal index and equal clock, so the numbered segments of a session never collide |
| VideoFragment.SegmentNameIsNotFinal | app/src/main/java/ru/rut/democamera/VideoFragment.kt:230-233 | No segment is named like a merged file |
| VideoFragment.Published | app/src/main/java/ru/rut/democamera/VideoFragment.kt:226-281 | Nothing without segments. The merged file alone after a reported success. Every segment, in order, after a reported failure or when the output file could not be created |
| VideoFragment.RecordingController.constructor | app/src/main/java/ru/rut/democamera/VideoFragment.kt:35-45 | Not recording, no segment, index 0, first segment, 0 seconds, "00:00", no timer queued, back camera |
| VideoFragment.RecordingController.StartRecording | app/src/main/java/ru/rut/democamera/VideoFragment.kt:171-203 | Names the segment with the current index, then increments it whether or not the start succeeds. Only a successful start sets `isRecording`. Corrected (see Findings): the queued timer copies are removed and exactly one is queued to run a second later, so the start itself adds no second. Keeps the timer invariant |
| VideoFragment.RecordingController.StartRecordingAsWritten | app/src/main/java/ru/rut/democamera/VideoFragment.kt:171-203 | Same naming and index rule. Every successful start runs the timer at once (one more second, shown as mm:ss) and queues one more copy that repeats every second |
| VideoFragment.RecordingController.TimerTick | app/src/main/java/ru/rut/democamera/VideoFragment.kt:47-53 | One run adds exactly one second and shows it as mm:ss |
| VideoFragment.RecordingController.ElapseSecond | app/src/main/java/ru/rut/democamera/VideoFragment.kt:47-53 | In one second each queued copy runs once. With the timer invariant that is exactly 1 second while recording and 0 otherwise. The run that `post` makes at once is part of the as-written start |
| VideoFragment.RecordingController.HandleFinalize | app/src/main/java/ru/rut/democamera/VideoFragment.kt:283-296 | An error appends nothing. Otherwise the current segment file is appended at the end of the list |
| VideoFragment.RecordingController.MergeAllSegments | app/src/main/java/ru/rut/democamera/VideoFragment.kt:226-281 | Publishes exactly `Published` of the current segment list |
| VideoFragment.RecordingController.StopRecording | app/src/main/java/ru/rut/democamera/VideoFragment.kt:205-223 | Publishes what merging the collected segments yields, and merges only when there are some. Afterwards: not recording, timer removed, index 0, first segment, empty list, 0 seconds, "00:00" |
| VideoFragment.RecordingController.SwitchCameraDuringRecording | app/src/main/java/ru/rut/democamera/VideoFragment.kt:123-152 | Flips back/front; the flash button is visible iff not front. Binds again, marks the next segment as not first and starts it as `StartRecording` does |
| VideoFragment.RecordingController.SwitchCameraDuringRecordingAsWritten | app/src/main/java/ru/rut/democamera/VideoFragment.kt:123-152 | The same switch over the as-written start: a successful restart counts one second at once and queues one timer copy more |
| VideoFragment.TimerAfterSwitchAsWritten | app/src/main/java/ru/rut/democamera/VideoFragment.kt:47-53 | As written: start, one switch, one second. The start and the switch each count a second at once, two copies are queued, and the timer shows 4 seconds ("00:04") |
| VideoFragment.TimerAfterSwitch | app/src/main/java/ru/rut/democamera/VideoFragment.kt:123-152 | Corrected: the same steps give one copy and 1 second ("00:01") |
| VideoFragment.StopThenFinalize | app/src/main/java/ru/rut/democamera/VideoFragment.kt:205-223 | As written: a Finalize that arrives after stop is not published by that stop. It lands in the list of the next session (see Findings) |
| VideoFragment.RecordingController.StopRecordingDeferred | app/src/main/java/ru/rut/democamera/VideoFragment.kt:205-223 | Corrected stop: the timer and display reset as before. With a segment being recorded nothing is published yet and the session waits for its Finalize; otherwise the collected segments are published at once |
| VideoFragment.RecordingController.HandleFinalizeDeferred | app/src/main/java/ru/rut/democamera/VideoFragment.kt:283-296 | Corrected Finalize: appends the segment as before. If a stop is waiting, publishes what merging the session (earlier segments plus this one) yields and resets the session |
| VideoFragment.StopThenFinalizeDeferred | app/src/main/java/ru/rut/democamera/VideoFragment.kt:205-223 | Corrected: start, stop, then Finalize publishes the merged file and carries nothing into the next session |
| BaseCameraFragment.CheckAndRequestPermissions | app/src/main/java/ru/rut/democamera/BaseCameraFragment.kt:59-70 | Sets up the camera iff every required permission is granted; otherwise shows the rationale dialog |
| BaseCameraFragment.OnPermissionResult | app/src/main/java/ru/rut/democamera/BaseCameraFragment.kt:37-46 | Sets up iff every answer in the result is a grant; otherwise shows the denied dialog |
| BaseCameraFragment.CheckMatchesMissing | app/src/main/java/ru/rut/democamera/BaseCameraFragment.kt:59-70 | Setup starts straight away iff no permission is missing |
| BaseCameraFragment.GrantedResultSetsUp | app/src/main/java/ru/rut/democamera/BaseCameraFragment.kt:37-46 | A result of grants only, and an empty result, both lead to setup |
| BaseCameraFragment.CameraScreen.constructor | app/src/main/java/ru/rut/democamera/BaseCameraFragment.kt:22-31 | Back camera, flash off, no camera bound |
| BaseCameraFragment.CameraScreen.ToggleFlash | app/src/main/java/ru/rut/democamera/BaseCameraFragment.kt:158-165 | Negates the flag. The icon shows the new flag, and a bound camera's torch is sent the new flag |
| BaseCameraFragment.ToggleFlashTwice | app/src/main/java/ru/rut/democamera/BaseCameraFragment.kt:158-165 | Two toggles restore the flag and the icon; the torch is sent the new and then the original value |
| BaseCameraFragment.CameraScreen.FlipCamera | app/src/main/java/ru/rut/democamera/BaseCameraFragment.kt:167-174 | Back becomes front and anything else back; the flash button is visible iff not front |
| BaseCameraFragment.CameraScreen.SwitchCamera | app/src/main/java/ru/rut/democamera/BaseCameraFragment.kt:167-176 | Flips the camera as `FlipCamera` does, then runs setup once more |
| BaseCameraFragment.CameraScreen.SetupCamera | app/src/main/java/ru/rut/democamera/BaseCameraFragment.kt:78-97 | A successful bind makes a camera available; a failed one leaves the previous state |
| BaseCameraFragment.CameraScreen.HandleTouchEvent | app/src/main/java/ru/rut/democamera/BaseCameraFragment.kt:119-126 | Always handled. Focus starts exactly on a single-pointer ACTION_UP with a bound camera |
| BaseCameraFragment.CameraScreen.HandleTapToFocus | app/src/main/java/ru/rut/democamera/BaseCameraFragment.kt:128-137 | Does nothing without a camera, otherwise starts one focus action |
| CameraUtil.Toggled | app/src/main/java/ru/rut/democamera/utils/CameraUtil.kt:58-69 | The result is back or front, and front exactly when the input is back |
| CameraUtil.ToggleCameraSelector | app/src/main/java/ru/rut/democamera/utils/CameraUtil.kt:58-73 | Returns the toggled selector. The callback argument is true iff the new selector is front, iff the old one was back |
| CameraUtil.ToggleTwice | app/src/main/java/ru/rut/democamera/utils/CameraUtil.kt:58-69 | Two toggles return to back or front. From any other selector they give front |
| CameraUtil.TorchOnRecording | app/src/main/java/ru/rut/democamera/utils/CameraUtil.kt:26-32 | With flash and a camera: torch on iff recording, torch off otherwise. No command without flash or without a camera |
| CameraUtil.FlashAroundAction | app/src/main/java/ru/rut/democamera/utils/CameraUtil.kt:34-46 | The action completes exactly once. With flash and a camera it is torch on, action, torch off; otherwise there is no torch command |
| CameraUtil.CameraLog.EnableTorch | app/src/main/java/ru/rut/democamera/utils/CameraUtil.kt:28 | `enableTorch(on)` appends exactly one torch command with that value |
| CameraUtil.CameraLog.CompleteAction | app/src/main/java/ru/rut/democamera/utils/CameraUtil.kt:42 | The caller's action appends exactly one completion event |
| CameraUtil.EnableTorchOnRecording | app/src/main/java/ru/rut/democamera/utils/CameraUtil.kt:26-32 | Appends exactly `TorchOnRecording`'s commands to the camera log |
| CameraUtil.ControlFlashDuringAction | app/src/main/java/ru/rut/democamera/utils/CameraUtil.kt:34-46 | Appends exactly `FlashAroundAction`'s events to the log |
| CameraUtil.HandleTouchEvent | app/src/main/java/ru/rut/democamera/utils/CameraUtil.kt:92-95 | Always reports the event as handled |
| OrientationUtil.GetSurfaceRotation | app/src/main/java/ru/rut/democamera/utils/OrientationUtil.kt:12-19 | Always one of the four rotations. 45..134 gives 270, 135..224 gives 180, 225..314 gives 90, and every other value (negatives, ≥ 315) gives 0, each in both directions |
| OrientationUtil.OrientationStep | app/src/main/java/ru/rut/democamera/utils/OrientationUtil.kt:23-31 | The callback fires iff the reading is known and its bucket differs from the stored one. Afterwards the stored rotation is the bucket of any known reading; an unknown reading changes nothing |
| OrientationUtil.RepeatedReadingFiresAtMostOnce | app/src/main/java/ru/rut/democamera/utils/OrientationUtil.kt:26-30 | The same reading handled twice fires at most once |
| OrientationUtil.ReplaySplit | app/src/main/java/ru/rut/democamera/utils/OrientationUtil.kt:23-31 | Handling a run of readings is handling all but the last, then the last |
| OrientationUtil.ReplayStoresLastKnown | app/src/main/java/ru/rut/democamera/utils/OrientationUtil.kt:9-43 | After any run of readings, the stored rotation (what `getCurrentRotation` returns) is the bucket of the last known reading, or the start value |
| OrientationUtil.ReplayFiresChanges | app/src/main/java/ru/rut/democamera/utils/OrientationUtil.kt:23-31 | Callbacks report rotations. Each differs from the one before (the first from the start value), and there are no more callbacks than readings |
| OrientationUtil.OrientationListener.constructor | app/src/main/java/ru/rut/democamera/utils/OrientationUtil.kt:9 | The stored rotation starts at ROTATION_0 |
| OrientationUtil.OrientationListener.OnOrientationChanged | app/src/main/java/ru/rut/democamera/utils/OrientationUtil.kt:23-31 | Stores and reports as `OrientationStep` does |
| OrientationUtil.OrientationListener.GetCurrentRotation | app/src/main/java/ru/rut/democamera/utils/OrientationUtil.kt:41-43 | Returns the stored rotation |
| PermissionsUtil.ArePermissionsGranted | app/src/main/java/ru/rut/democamera/utils/PermissionsUtil.kt:19-23 | True iff every listed permission is granted, so true for an empty list |
| PermissionsUtil.GetMissingPermissions | app/src/main/java/ru/rut/democamera/utils/PermissionsUtil.kt:25-29 | Holds exactly the listed, non-granted permissions, and is no longer than the list |
| PermissionsUtil.MissingOfConcat | app/src/main/java/ru/rut/democamera/utils/PermissionsUtil.kt:25-29 | The filter distributes over concatenation, so input order is kept |
| PermissionsUtil.MissingOfOne | app/src/main/java/ru/rut/democamera/utils/PermissionsUtil.kt:25-29 | A single permission is kept iff it is not granted |
| PermissionsUtil.MissingEmptyIffGranted | app/src/main/java/ru/rut/democamera/utils/PermissionsUtil.kt:19-29 | Nothing is missing iff everything is granted |
| PermissionsUtil.VideoGrantImpliesPhotoGrant | app/src/main/java/ru/rut/democamera/utils/PermissionsUtil.kt:11-17 | The photo permissions are among the video permissions, so the video grant implies the photo grant |
| MediaListing.InsertNewestFirst | app/src/main/java/ru/rut/democamera/GalleryActivity.kt:34-36 | Inserting into a newest-first list keeps it newest first, and adds exactly that file |
| MediaListing.NewestFirst | app/src/main/java/ru/rut/democamera/GalleryActivity.kt:34-36 | The result is ordered by `lastModified`, newest first, and is a permutation of the input |
| MediaListing.NewestFirstOfSorted | app/src/main/java/ru/rut/democamera/FullScreenFragment.kt:46-47 | A list already newest first is returned unchanged |
| MediaListing.NewestFirstIdempotent | app/src/main/java/ru/rut/democamera/GalleryFragment.kt:41-43 | Sorting twice is sorting once |
| MediaListing.ListMediaFiles | app/src/main/java/ru/rut/democamera/GalleryActivity.kt:29-38 | An unreadable folder gives the empty list. Otherwise the result is newest first and a permutation of the folder's entries |
| MediaListing.ItemCountLabel | app/src/main/java/ru/rut/democamera/GalleryActivity.kt:54-60 | "No files yet" for 0, "1 file" for 1. From 2 on, digits followed by " files", and the digits read back as the count |
| MediaListing.ItemCountLabelInjective | app/src/main/java/ru/rut/democamera/GalleryFragment.kt:54-60 | Different counts never share a label |
| MediaListing.SetupGrid | app/src/main/java/ru/rut/democamera/GalleryFragment.kt:28-60 | The grid lists the folder newest first. Its label counts the folder's entries: "No files yet" for an empty or unreadable folder |
| FullScreenFragment.NewInstance | app/src/main/java/ru/rut/democamera/FullScreenFragment.kt:22-28 | The arguments carry "current_index" = the given index |
| FullScreenFragment.RequestedIndex | app/src/main/java/ru/rut/democamera/FullScreenFragment.kt:49 | A missing bundle or key reads as 0; otherwise the stored value |
| FullScreenFragment.Clamped | app/src/main/java/ru/rut/democamera/FullScreenFragment.kt:51-52 | 0 for an empty list, otherwise in [0, size-1]. An in-range index is unchanged, a too-large one becomes size-1, a negative one 0 |
| FullScreenFragment.RemoveAt | app/src/main/java/ru/rut/democamera/FullScreenFragment.kt:64 | Exactly the element at the position leaves; the others keep their order |
| FullScreenFragment.RemoveAtKeepsOrder | app/src/main/java/ru/rut/democamera/FullScreenFragment.kt:46-64 | Removing a file keeps the list newest first |
| FullScreenFragment.FullScreenViewer.constructor | app/src/main/java/ru/rut/democamera/FullScreenFragment.kt:39-52 | Lists the folder newest first and sets the index to the clamp of the requested one |
| FullScreenFragment.FullScreenViewer.DeleteCurrent | app/src/main/java/ru/rut/democamera/FullScreenFragment.kt:58-73 | Does nothing on an empty list or when the delete fails. Otherwise it removes exactly the shown file, keeps the order, and leaves the screen when the list becomes empty |
| FullScreenFragment.FullScreenViewer.Back | app/src/main/java/ru/rut/democamera/FullScreenFragment.kt:75-77 | The back button leaves the screen |
| FullScreenFragment.OpenAtListedPosition | app/src/main/java/ru/rut/democamera/FullScreenFragment.kt:49-52 | Opened with a listed position, the viewer shows that position |
| GalleryActivity.OnItemClick | app/src/main/java/ru/rut/democamera/GalleryActivity.kt:62-66 | Opens the full-screen view with "current_index" equal to the clicked position |
| GalleryActivity.OnNavSelected | app/src/main/java/ru/rut/democamera/GalleryActivity.kt:68-77 | The gallery entry does nothing; photo and video open their screens |
| GalleryActivity.TapShowsTappedFile | app/src/main/java/ru/rut/democamera/GalleryActivity.kt:62-66 | For the same folder, a viewer reading the tap's "current_index" shows the tapped file |
| GalleryFragment.OnItemClick | app/src/main/java/ru/rut/democamera/GalleryFragment.kt:62-64 | Forwards the unchanged position iff the host is the main activity |
| Decimal.NatToString | app/src/main/java/ru/rut/democamera/GalleryActivity.kt:58 | At least one digit, no leading zero, and exactly one digit for numbers below 10 |
| Decimal.ParseNatToString | app/src/main/java/ru/rut/democamera/GalleryActivity.kt:58 | The rendered digits read back as the number |
| Decimal.NatToStringInjective | app/src/main/java/ru/rut/democamera/GalleryActivity.kt:58 | Different numbers render differently |
| Decimal.ZeroPad2 | app/src/main/java/ru/rut/democamera/VideoFragment.kt:301 | `%02d`: all digits, at least two of them, exactly two below 100, and reads back as the number |

## Left out

- MPEG-4 container and codec internals. Track formats are their MIME strings. The bytes of a sample are not modelled, only its size, time and flags.
- Timestamp renormalisation across segments. The source copies each sample's time unchanged (VideoMerger.kt:95), so the model does the same.
- VideoMerger.Muxer.WriteSampleData: the rule that the samples of one track are written in chronological order is not a precondition, and what the platform does with an earlier time is not modelled. VideoMerger.MergeVideos therefore claims success for merges whose tracks go back in time at a segment boundary; `SecondSegmentRewindsTime` states when that happens.
- VideoMerger.MergeVideos: the release of extractors, and the state of the muxer after a failure, are not stated. The source leaves both to the exception path.
- CameraX: provider futures, `bindToLifecycle`, Preview/VideoCapture use cases, `setupAdditionalUseCases` and the recorder itself. Their outcomes are the parameters `bound` and `started`.
- Pinch-to-zoom (`initPinchToZoom`, `setupGestureDetector`). It is floating-point arithmetic.
- BaseCameraFragment.CameraScreen.HandleTouchEvent: feeding the event to the zoom detector is not modelled.
- Threading and asynchronous delivery:
  - toasts posted to the main looper;
  - the camera-provider callback in `switchCameraDuringRecording`, which the model runs at once.
  - The model does not fix the order between a segment's Finalize event and the restart after a switch. `HandleFinalize` appends whatever file is current when the event is handled, as the source does.
- UI feedback: toasts, dialogs (`showRationaleDialog`, the denied dialog), the focus indicator, capture-button icons and timer visibility. Only the flash icon, the flash button's visibility and the timer text are kept.
- OrientationUtil: `initOrientationListener` and `disableOrientationListener` enable and disable the platform sensor, so they are not modelled. The listener object starts at ROTATION_0 like the `object`'s field, and the readings are its inputs.
- VideoFragment's button dispatch in `setupListeners` is not modelled. It calls stop or start, and the switch during recording or the plain switch, according to `isRecording`. Its orientation forwarding and `onDestroyView` are not modelled either.
- `CameraUtil.generateOutputFile` is not part of this model; CameraUtil.kt does not define it. Files are identified by the base names the fragment builds, `VIDEO_SEGMENT_<index>_<millis>` and `VIDEO_FINAL_<millis>`.
- MediaScannerConnection is reduced to the list of files handed to it.
- `FullScreenActivity` and `MainActivity.showFullScreenFragment` are not part of this model. GalleryActivity.TapShowsTappedFile assumes that the "current_index" extra reaches the viewer as its argument.
- VideoFragment.Published: an exception thrown after `mergeVideos` has returned (`scanFile`, `requireContext` or the toast, VideoFragment.kt:241-250) is not modelled. The source's catch then hands every segment to the scanner, although a successful merge has already deleted them.
- Kotlin `Int` overflow of `secondsElapsed`, `segmentIndex` and the clock is not modelled: all three are unbounded naturals. FormatTime therefore has no negative argument.
- VideoFragment.FormatTime: formats as in a locale with ASCII digits. `String.format` uses the default locale, which may print other digits; Decimal.ZeroPad2 makes the same assumption.
- MediaListing.NewestFirst: stability is not stated as a lemma, although the insertion keeps files with equal `lastModified` in listing order, as Kotlin's `sortedByDescending` does.
- MediaGridAdapter (the "mp4" badge), NavBarFragment, MainActivity, VideoActivity, PhotoFragment, BaseCameraActivity and DialogUtil are navigation and adapter code outside the modelled core.

## Findings

| source | as written | input that shows it | evidently intended | confidence | as-written member | corrected member |
|---|---|---|---|---|---|---|
| app/src/main/java/ru/rut/democamera/VideoFragment.kt:192 | Every successful `startRecording` posts `timerRunnable` with no delay, so it runs at once and then re-posts itself every second. `switchCameraDuringRecording` (lines 123-152) restarts recording without `removeCallbacks`, so a second self-reposting copy joins the first, and the restart itself counts one more second | Start a recording, switch the camera once, wait one second: two copies are queued and `secondsElapsed` is 4 ("00:04") where one second has passed | One copy of the timer while recording, one second per second: remove queued copies and post the next run one second later (`postDelayed`) | not executed; follows from Handler semantics | VideoFragment.TimerAfterSwitchAsWritten | VideoFragment.TimerAfterSwitch |
| app/src/main/java/ru/rut/democamera/VideoFragment.kt:213-219 | `stopRecording` merges and clears `videoSegments` right after `recording?.stop()`. The segment being recorded reaches the list only with its Finalize event (lines 283-296), which the recorder delivers later on the main executor | Start at clock 5, stop at clock 9, then a Finalize without error: nothing is published, and the list of the next session starts as `[VIDEO_SEGMENT_0_5]` | A stop publishes every segment of its own session, the last one included | not executed; follows from the asynchronous Finalize delivery | VideoFragment.StopThenFinalize | VideoFragment.StopThenFinalizeDeferred |

The as-written start is `RecordingController.StartRecordingAsWritten`, used by
`SwitchCameraDuringRecordingAsWritten`. The corrected `StartRecording` removes the queued copies and posts one to run a second later. It keeps
the invariant `TimerConsistent` (one queued copy exactly while recording).
The rest of the controller uses the corrected start.

The as-written stop is `RecordingController.StopRecording` with
`HandleFinalize`. The corrected pair `StopRecordingDeferred` and
`HandleFinalizeDeferred` leaves the merge to the Finalize event that a stop
is waiting for. Its contract states that the merge covers the session's
earlier segments plus the one being finalized.
