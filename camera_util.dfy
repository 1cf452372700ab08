/**
 * Camera helpers (`CameraUtil`): the back/front selector toggle, and the
 * torch commands issued around a recording or a capture. Torch commands and
 * the completed action are appended to a log of what the camera was told.
 */
module CameraUtil {

  /** `CameraSelector`: the two stock selectors, or any other one the app
      might hold (the toggle treats every non-back selector alike). */
  datatype CameraSelector = DefaultBack | DefaultFront | Other(id: nat)

  /** isFrontCamera. */
  predicate IsFrontCamera(selector: CameraSelector) {
    selector == DefaultFront
  }

  /** The selector after a toggle: back becomes front, anything else back. */
  function Toggled(current: CameraSelector): (next: CameraSelector)
    ensures next == DefaultBack || next == DefaultFront
    ensures next == DefaultFront <==> current == DefaultBack
  {
    if current == DefaultBack then DefaultFront else DefaultBack
  }

  /** toggleCameraSelector: the new selector, and the one argument the
      callback is called with. */
  function ToggleCameraSelector(current: CameraSelector): (r: (CameraSelector, bool))
    ensures r.0 == Toggled(current)
    ensures r.1 <==> r.0 == DefaultFront
    ensures r.1 <==> current == DefaultBack
  {
    var next := Toggled(current);
    (next, IsFrontCamera(next))
  }

  /** Toggling twice from one of the stock selectors returns to it; from any
      other selector two toggles land on the front camera. */
  lemma ToggleTwice(current: CameraSelector)
    ensures current.Other? ==> Toggled(Toggled(current)) == DefaultFront
    ensures !current.Other? ==> Toggled(Toggled(current)) == current
  {
  }

  /** What the camera (or the caller's action) was told, in order. */
  datatype CameraEvent = Torch(on: bool) | ActionCompleted

  function ActionCount(events: seq<CameraEvent>): nat {
    multiset(events)[ActionCompleted]
  }

  function TorchCount(events: seq<CameraEvent>): nat {
    multiset(events)[Torch(true)] + multiset(events)[Torch(false)]
  }

  /** The command that enableTorchOnRecording issues: with flash on, the
      torch follows the recording state; with flash off, or without a camera,
      nothing is sent. */
  function TorchOnRecording(hasCamera: bool, isRecording: bool, flashEnabled: bool): (cmds: seq<CameraEvent>)
    ensures |cmds| <= 1 && ActionCount(cmds) == 0
    ensures cmds == [Torch(true)] <==> hasCamera && flashEnabled && isRecording
    ensures cmds == [Torch(false)] <==> hasCamera && flashEnabled && !isRecording
    ensures cmds == [] <==> !hasCamera || !flashEnabled
  {
    if !hasCamera then []
    else if flashEnabled && isRecording then [Torch(true)]
    else if flashEnabled then [Torch(false)]
    else []
  }

  /** The events of controlFlashDuringAction: the action completes exactly
      once; with flash enabled it is bracketed by torch on and torch off. */
  function FlashAroundAction(hasCamera: bool, flashEnabled: bool): (events: seq<CameraEvent>)
    ensures ActionCount(events) == 1
    ensures TorchCount(events) == (if hasCamera && flashEnabled then 2 else 0)
    ensures hasCamera && flashEnabled ==> events == [Torch(true), ActionCompleted, Torch(false)]
    ensures TorchCount(events) > 0 ==> events[|events| - 1] == Torch(false)
  {
    if hasCamera && flashEnabled then [Torch(true), ActionCompleted, Torch(false)] else [ActionCompleted]
  }

  /** The camera control the commands are sent to, as a log. */
  class CameraLog {
    var events: seq<CameraEvent>

    constructor ()
      ensures events == []
    {
      events := [];
    }

    /** cameraControl.enableTorch. */
    method EnableTorch(on: bool)
      modifies this
      ensures events == old(events) + [Torch(on)]
    {
      events := events + [Torch(on)];
    }

    /** The caller's action, run by controlFlashDuringAction. */
    method CompleteAction()
      modifies this
      ensures events == old(events) + [ActionCompleted]
    {
      events := events + [ActionCompleted];
    }
  }

  /** enableTorchOnRecording; `hasCamera` is false for a null camera. */
  method EnableTorchOnRecording(log: CameraLog, hasCamera: bool, isRecording: bool, flashEnabled: bool)
    modifies log
    ensures log.events == old(log.events) + TorchOnRecording(hasCamera, isRecording, flashEnabled)
  {
    if flashEnabled && isRecording {
      if hasCamera {
        log.EnableTorch(true);
      }
    } else if flashEnabled {
      if hasCamera {
        log.EnableTorch(false);
      }
    }
  }

  /** controlFlashDuringAction. */
  method ControlFlashDuringAction(log: CameraLog, hasCamera: bool, flashEnabled: bool)
    modifies log
    ensures log.events == old(log.events) + FlashAroundAction(hasCamera, flashEnabled)
  {
    if flashEnabled && hasCamera {
      log.EnableTorch(true);
    }
    log.CompleteAction();
    if flashEnabled && hasCamera {
      log.EnableTorch(false);
    }
  }

  /** handleTouchEvent: the event is passed to the pinch detector (zoom is
      not modelled) and always reported as handled. */
  function HandleTouchEvent(): (handled: bool)
    ensures handled
  {
    true
  }
}
