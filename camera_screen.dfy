/**
 * The state of the `App` component and the updates its handlers make: which
 * camera faces the scene, the ratio and picture size handed to the camera, the
 * uri of the photo under review, and whether the camera is still being set up.
 * Each React setter becomes an assignment to a field of `CameraScreen`; the
 * asynchronous camera-library calls are replaced by their results, passed in
 * as parameters.
 */
module CameraScreen {
  import opened Optional
  import opened Parsing
  import opened Selection

  datatype CameraType = Back | Front

  /** The updater `toggleCameraType` hands to `setType`: back becomes front and anything else becomes back. */
  function Toggled(current: CameraType): (next: CameraType)
    ensures next != current
  {
    if current == Back then Front else Back
  }

  /** Toggling twice restores the original camera. */
  lemma ToggleIsInvolution(current: CameraType)
    ensures Toggled(Toggled(current)) == current
  {
  }

  /** The ratio the component starts with and falls back to (App.js:25). */
  const DefaultRatio: string := "4:3"

  class Screen {
    var cameraType: CameraType
    var cameraRatio: string
    var selectedPictureSize: Option<string>
    var imageUri: Option<string>
    var isLoading: bool

    /** The initial values of the five `useState` hooks. */
    constructor ()
      ensures cameraType == Back && cameraRatio == DefaultRatio
      ensures selectedPictureSize == None && imageUri == None && isLoading
    {
      cameraType := Back;
      cameraRatio := DefaultRatio;
      selectedPictureSize := None;
      imageUri := None;
      isLoading := true;
    }

    /**
     * The review overlay with the retake and confirm buttons is shown while
     * `imageUri` is truthy: present and not the empty string.
     */
    predicate IsReviewing()
      reads this
      ensures IsReviewing() ==> imageUri.Some?
      ensures imageUri.Some? && |imageUri.value| > 0 ==> IsReviewing()
    {
      imageUri.Some? && imageUri.value != ""
    }

    /** The shutter is disabled while the camera is being set up, and only then. */
    predicate ShutterEnabled()
      reads this
    {
      !isLoading
    }

    /**
     * `onCameraReady` on Android: pick the ratio closest to 4:3 from what the
     * device supports and the picture size from what it offers for that
     * ratio, keep the previous value of either when its selector returns
     * null, and end the loading phase. `cameraRatios` and
     * `availablePicturesSizes` are the results of the camera library's
     * queries.
     */
    method OnCameraReady(cameraRatios: Option<seq<string>>, availablePicturesSizes: Option<seq<string>>)
      requires cameraRatios.Some? ==> AllRatios(cameraRatios.value)
      requires availablePicturesSizes.Some? ==> AllResolutions(availablePicturesSizes.value)
      modifies this
      ensures cameraRatio == GetOr(BestCameraRatio(cameraRatios), old(cameraRatio))
      ensures selectedPictureSize == OrElse(BestPhotoResolution(availablePicturesSizes), old(selectedPictureSize))
      ensures !isLoading
      ensures cameraType == old(cameraType) && imageUri == old(imageUri)
    {
      var chosenRatio := FindBestCameraRatio(cameraRatios);
      cameraRatio := GetOr(chosenRatio, cameraRatio);
      var bestPhotoResolution := FindBestPhotoResolution(availablePicturesSizes);
      selectedPictureSize := OrElse(bestPhotoResolution, selectedPictureSize);
      isLoading := false;
    }

    /** `toggleCameraType`: flip the camera; nothing else changes. */
    method ToggleCameraType()
      modifies this
      ensures cameraType == Toggled(old(cameraType))
      ensures cameraRatio == old(cameraRatio) && selectedPictureSize == old(selectedPictureSize)
      ensures imageUri == old(imageUri) && isLoading == old(isLoading)
    {
      cameraType := Toggled(cameraType);
    }

    /**
     * `takePicture`: when the camera view is mounted, ask for a photo and,
     * once the library resolves with one, store its uri. `capturedUri` is
     * what the library resolves with, None when it rejects (the rejection is
     * not handled, so nothing changes). There is no check of `imageUri`: a
     * new photo replaces the one under review.
     */
    method TakePicture(cameraMounted: bool, capturedUri: Option<string>)
      modifies this
      ensures imageUri == (if cameraMounted && capturedUri.Some? then capturedUri else old(imageUri))
      ensures cameraType == old(cameraType) && cameraRatio == old(cameraRatio)
      ensures selectedPictureSize == old(selectedPictureSize) && isLoading == old(isLoading)
    {
      if cameraMounted && capturedUri.Some? {
        imageUri := capturedUri;
      }
    }

    /** A press on the shutter: ignored while it is disabled, `takePicture` otherwise. */
    method PressShutter(cameraMounted: bool, capturedUri: Option<string>)
      modifies this
      ensures imageUri == (if ShutterEnabled() && cameraMounted && capturedUri.Some? then capturedUri else old(imageUri))
      ensures cameraType == old(cameraType) && cameraRatio == old(cameraRatio)
      ensures selectedPictureSize == old(selectedPictureSize) && isLoading == old(isLoading)
    {
      if ShutterEnabled() {
        TakePicture(cameraMounted, capturedUri);
      }
    }

    /** The retake button: drop the photo under review. */
    method Retake()
      modifies this
      ensures imageUri == None && !IsReviewing()
      ensures cameraType == old(cameraType) && cameraRatio == old(cameraRatio)
      ensures selectedPictureSize == old(selectedPictureSize) && isLoading == old(isLoading)
    {
      imageUri := None;
    }

    /** The confirm button: its handler is empty, so nothing changes. */
    method Confirm()
      ensures cameraType == old(cameraType) && cameraRatio == old(cameraRatio)
      ensures selectedPictureSize == old(selectedPictureSize) && imageUri == old(imageUri)
      ensures isLoading == old(isLoading)
    {
    }
  }

  /**
   * A session as a user lives it: the camera comes up without any ratio
   * reported, a photo is taken and reviewed, retaken, taken again and
   * confirmed.
   */
  method Session(uri1: string, uri2: string)
    requires uri1 != "" && uri2 != ""
  {
    var screen := new Screen();
    screen.PressShutter(true, Some(uri1));
    assert screen.imageUri == None;
    screen.OnCameraReady(None, Some([]));
    assert screen.cameraRatio == DefaultRatio && screen.selectedPictureSize == None;
    screen.ToggleCameraType();
    screen.ToggleCameraType();
    assert screen.cameraType == Back;
    screen.PressShutter(true, Some(uri1));
    assert screen.IsReviewing() && screen.imageUri == Some(uri1);
    screen.Retake();
    screen.PressShutter(true, None);
    assert !screen.IsReviewing();
    screen.PressShutter(true, Some(uri2));
    screen.Confirm();
    assert screen.IsReviewing() && screen.imageUri == Some(uri2);
  }
}
