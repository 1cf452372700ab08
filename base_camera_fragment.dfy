/**
 * The camera screen shared by the photo and video fragments
 * (`BaseCameraFragment`): permission gating before the camera is set up,
 * the flash toggle, the back/front switch, and tap-to-focus.
 */
module BaseCameraFragment {
  import opened CameraUtil
  import opened PermissionsUtil

  /** `MotionEvent.ACTION_UP`. */
  const ActionUp: int := 1

  /** What a permission check leads to. */
  datatype PermissionOutcome =
    | SetupCamera          // onPermissionsGranted: the camera provider is requested
    | RationaleDialog      // the rationale dialog, whose "Grant" launches the request
    | DeniedDialog         // the dialog pointing to the app settings

  /** checkAndRequestPermissions: set the camera up when every required
      permission is already granted, otherwise explain and ask. */
  function CheckAndRequestPermissions(required: seq<string>, granted: set<string>): (r: PermissionOutcome)
    ensures r == SetupCamera <==> forall i :: 0 <= i < |required| ==> required[i] in granted
    ensures r != SetupCamera ==> r == RationaleDialog
  {
    if ArePermissionsGranted(required, granted) then SetupCamera else RationaleDialog
  }

  /** The result callback of the permission request: set up when every
      answer in the result is a grant, otherwise show the denied dialog. */
  function OnPermissionResult(results: map<string, bool>): (r: PermissionOutcome)
    ensures r == SetupCamera <==> forall p :: p in results ==> results[p]
    ensures r != SetupCamera ==> r == DeniedDialog
  {
    if forall p :: p in results ==> results[p] then SetupCamera else DeniedDialog
  }

  /** The check agrees with the missing-permission list: the camera is set up
      straight away exactly when nothing is missing. */
  lemma CheckMatchesMissing(required: seq<string>, granted: set<string>)
    ensures CheckAndRequestPermissions(required, granted) == SetupCamera
        <==> GetMissingPermissions(required, granted) == []
  {
    MissingEmptyIffGranted(required, granted);
  }

  /** A result that answers every permission it holds with a grant sets the
      camera up; so does an empty result, which carries no refusal. */
  lemma GrantedResultSetsUp(results: map<string, bool>)
    requires forall p :: p in results ==> results[p]
    ensures OnPermissionResult(results) == SetupCamera
    ensures OnPermissionResult(map[]) == SetupCamera
  {
  }

  class CameraScreen {
    var cameraSelector: CameraSelector
    var isFlashEnabled: bool
    /** `camera != null`: a camera has been bound at least once. */
    var cameraBound: bool
    var flashIconOn: bool
    var flashButtonVisible: bool
    /** How many times setup has been requested (onPermissionsGranted). */
    var setupRequests: nat
    /** How many focus-and-metering actions were started. */
    var focusRequests: nat
    /** The torch commands sent to the bound camera. */
    const torch: CameraLog

    constructor ()
      ensures cameraSelector == DefaultBack && !isFlashEnabled && !cameraBound
      ensures !flashIconOn && flashButtonVisible
      ensures setupRequests == 0 && focusRequests == 0
      ensures fresh(torch) && torch.events == []
    {
      cameraSelector := DefaultBack;
      isFlashEnabled := false;
      cameraBound := false;
      // the icon and the button's visibility start as the layout declares them
      flashIconOn := false;
      flashButtonVisible := true;
      setupRequests := 0;
      focusRequests := 0;
      torch := new CameraLog();
    }

    /** toggleFlash: flip the flag, show it on the icon, and ask a bound
        camera's torch to follow it. */
    method ToggleFlash()
      modifies this`isFlashEnabled, this`flashIconOn, torch
      ensures isFlashEnabled == !old(isFlashEnabled)
      ensures flashIconOn == isFlashEnabled
      ensures torch.events == old(torch.events) + (if cameraBound then [Torch(isFlashEnabled)] else [])
    {
      isFlashEnabled := !isFlashEnabled;
      flashIconOn := isFlashEnabled;
      if cameraBound {
        torch.EnableTorch(isFlashEnabled);
      }
    }

    /** The selector flip and flash-button rule shared by switchCamera and the
        video fragment's switch during recording: the flash button is hidden
        exactly for the front camera. */
    method FlipCamera()
      modifies this`cameraSelector, this`flashButtonVisible
      ensures cameraSelector == Toggled(old(cameraSelector))
      ensures flashButtonVisible <==> !IsFrontCamera(cameraSelector)
    {
      cameraSelector := if cameraSelector == DefaultBack then DefaultFront else DefaultBack;
      var isFrontCamera := cameraSelector == DefaultFront;
      flashButtonVisible := !isFrontCamera;
    }

    /** switchCamera: flip, then run setup again. */
    method SwitchCamera()
      modifies this`cameraSelector, this`flashButtonVisible, this`setupRequests
      ensures cameraSelector == Toggled(old(cameraSelector))
      ensures flashButtonVisible <==> cameraSelector == DefaultBack
      ensures setupRequests == old(setupRequests) + 1
    {
      FlipCamera();
      setupRequests := setupRequests + 1;
    }

    /** setupCamera: `bound` is whether bindToLifecycle returned a camera;
        an exception leaves the previous camera in place. */
    method SetupCamera(bound: bool)
      modifies this`cameraBound
      ensures cameraBound == (old(cameraBound) || bound)
    {
      if bound {
        cameraBound := true;
      }
    }

    /** handleTouchEvent: a single-pointer ACTION_UP asks for tap-to-focus,
        which does nothing without a camera; the event always counts as handled. */
    method HandleTouchEvent(pointerCount: int, action: int) returns (handled: bool)
      modifies this`focusRequests
      ensures handled
      ensures focusRequests == old(focusRequests) + (if FocusFires(pointerCount, action, cameraBound) then 1 else 0)
    {
      if pointerCount == 1 && action == ActionUp {
        HandleTapToFocus();
      }
      handled := true;
    }

    /** handleTapToFocus. */
    method HandleTapToFocus()
      modifies this`focusRequests
      ensures focusRequests == old(focusRequests) + (if cameraBound then 1 else 0)
    {
      if !cameraBound {
        return;
      }
      focusRequests := focusRequests + 1;
    }
  }

  /** When a touch starts focusing: one finger lifted, over a bound camera. */
  predicate FocusFires(pointerCount: int, action: int, cameraBound: bool) {
    pointerCount == 1 && action == ActionUp && cameraBound
  }

  /** Two flash toggles restore the flag and the icon, and the torch has been
      told the new value and then the original one. */
  method ToggleFlashTwice(screen: CameraScreen)
    modifies screen`isFlashEnabled, screen`flashIconOn, screen.torch
    ensures screen.isFlashEnabled == old(screen.isFlashEnabled)
    ensures screen.flashIconOn == screen.isFlashEnabled
    ensures screen.cameraBound ==>
      screen.torch.events == old(screen.torch.events) + [Torch(!screen.isFlashEnabled), Torch(screen.isFlashEnabled)]
  {
    screen.ToggleFlash();
    screen.ToggleFlash();
  }
}
