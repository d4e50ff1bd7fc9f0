/**
 * The photo input: the upload size gate, the camera support check, the
 * classification of camera errors, the facing-mode toggle, and the camera
 * session controller whose flags the handlers update.
 *
 * Browser calls are inputs: `getUserMedia` answers through `OnAccessGranted`
 * or `OnAccessDenied`, the video element's `loadeddata` and `error` events
 * arrive through `OnVideoLoaded` and `OnVideoError`, a `FileReader` answers
 * through `OnFileLoaded`, and a media stream is represented by a number.
 * Every call of the `onPhotoSelected` callback is appended to `selections`.
 */
module PhotoInput {
  import opened Values

  /** The upload limit: 4 MiB. */
  const MaxUploadBytes: nat := 4 * 1024 * 1024

  /** A file picked in the dialog or dropped on the drop zone; only its size matters here. */
  datatype FileInfo = FileInfo(size: nat)

  /** What an upload does with the picked files. */
  datatype UploadDecision = NoFile | TooLarge | ReadStarted(file: FileInfo)

  /**
   * `handleFileChange` / `handleDrop` followed by `processFile`: the first
   * file is used; one larger than 4 MiB is rejected, any other one is read.
   */
  function ProcessFiles(files: seq<FileInfo>): (r: UploadDecision)
    ensures files == [] ==> r == NoFile
    ensures files != [] && files[0].size > MaxUploadBytes ==> r == TooLarge
    ensures files != [] && files[0].size <= MaxUploadBytes ==> r == ReadStarted(files[0])
  {
    if files == [] then NoFile
    else if files[0].size > 4 * 1024 * 1024 then TooLarge
    else ReadStarted(files[0])
  }

  /** Exactly 4 MiB is read; one byte more is rejected. */
  lemma UploadBoundary()
    ensures ProcessFiles([FileInfo(4194304)]) == ReadStarted(FileInfo(4194304))
    ensures ProcessFiles([FileInfo(4194305)]) == TooLarge
  {
  }

  /** The parts of the browser that the support check looks at. */
  datatype BrowserEnv = BrowserEnv(hasMediaDevices: bool, hasGetUserMedia: bool, protocol: string, hostname: string)

  /**
   * `checkCameraSupport`: unsupported without `getUserMedia`; otherwise
   * supported exactly on a secure origin (https, or the host localhost or
   * 127.0.0.1).
   */
  function CheckCameraSupport(env: BrowserEnv): (supported: bool)
    ensures !(env.hasMediaDevices && env.hasGetUserMedia) ==> !supported
    ensures env.hasMediaDevices && env.hasGetUserMedia ==>
      (supported <==> env.protocol == "https:" || env.hostname == "localhost" || env.hostname == "127.0.0.1")
  {
    if !env.hasMediaDevices || !env.hasGetUserMedia then false
    else
      var isSecure := env.protocol == "https:" || env.hostname == "localhost" || env.hostname == "127.0.0.1";
      if !isSecure then false else true
  }

  /** A value thrown by `getUserMedia`: an `Error` with its `name` and `message`, or anything else. */
  datatype Thrown = ErrorObject(name: string, message: string) | OtherValue

  /** `String.prototype.includes`: `sub` occurs in `s` as a contiguous run. */
  predicate Includes(s: string, sub: string)
    decreases |s|
  {
    if |sub| > |s| then false
    else s[..|sub|] == sub || (|s| > 0 && Includes(s[1..], sub))
  }

  /** `sub` occurs in `s` starting at position `i`. */
  predicate OccursAt(s: string, sub: string, i: nat)
  {
    i + |sub| <= |s| && s[i..i + |sub|] == sub
  }

  lemma SliceOfTail(s: string, i: nat, n: nat)
    requires 1 <= i && i + n <= |s|
    ensures s[1..][i - 1..i - 1 + n] == s[i..i + n]
  {
    var a, b := s[1..][i - 1..i - 1 + n], s[i..i + n];
    assert |a| == n == |b|;
    assert forall k :: 0 <= k < n ==> a[k] == b[k];
  }

  /** `Includes` agrees with the positional definition of a substring. */
  lemma {:induction false} IncludesAt(s: string, sub: string)
    ensures Includes(s, sub) <==> exists i: nat :: OccursAt(s, sub, i)
    decreases |s|
  {
    if |sub| > |s| {
      forall i: nat ensures !OccursAt(s, sub, i) { }
    } else if s[..|sub|] == sub {
      assert OccursAt(s, sub, 0);
    } else {
      IncludesAt(s[1..], sub);
      if Includes(s[1..], sub) {
        var i: nat :| OccursAt(s[1..], sub, i);
        SliceOfTail(s, i + 1, |sub|);
        assert OccursAt(s, sub, i + 1);
      } else {
        forall i: nat ensures !OccursAt(s, sub, i) {
          if i > 0 && i + |sub| <= |s| {
            SliceOfTail(s, i, |sub|);
            assert !OccursAt(s[1..], sub, i - 1);
          }
        }
      }
    }
  }

  /** The kinds of camera failure the page tells apart. */
  datatype CameraErrorKind = PermissionDenied | DeviceNotFound | StartTimeout | Unknown

  predicate DeniedMatch(name: string, message: string)
  {
    Includes(message, "Permission denied") || name == "NotAllowedError"
  }

  predicate NotFoundMatch(name: string, message: string)
  {
    Includes(message, "not found") || name == "NotFoundError"
  }

  /**
   * The ordered tests of `startCamera`'s catch block: permission denied
   * first, then no device, then a timeout, and otherwise the default.  A
   * thrown value that is not an `Error` always gets the default.
   */
  function ClassifyCameraError(err: Thrown): (r: CameraErrorKind)
    ensures err.OtherValue? ==> r == Unknown
    ensures r == PermissionDenied <==> err.ErrorObject? && DeniedMatch(err.name, err.message)
    ensures r == DeviceNotFound <==>
      err.ErrorObject? && !DeniedMatch(err.name, err.message) && NotFoundMatch(err.name, err.message)
    ensures r == StartTimeout <==>
      && err.ErrorObject? && !DeniedMatch(err.name, err.message) && !NotFoundMatch(err.name, err.message)
      && Includes(err.message, "timeout")
  {
    match err
    case OtherValue => Unknown
    case ErrorObject(name, message) =>
      if DeniedMatch(name, message) then PermissionDenied
      else if NotFoundMatch(name, message) then DeviceNotFound
      else if Includes(message, "timeout") then StartTimeout
      else Unknown
  }

  const PermissionDeniedToast := "Camera permission denied. Please allow camera access and try again."
  const DeviceNotFoundToast := "No camera found on this device."
  const StartTimeoutToast := "Camera took too long to start. Please try again."
  const DefaultCameraToast := "Please allow camera access in your browser settings to use this feature."

  /** The toast text of each kind. */
  function CameraErrorMessage(kind: CameraErrorKind): string
  {
    match kind
    case PermissionDenied => PermissionDeniedToast
    case DeviceNotFound => DeviceNotFoundToast
    case StartTimeout => StartTimeoutToast
    case Unknown => DefaultCameraToast
  }

  /** The four kinds have four different toast texts. */
  lemma CameraToastsDistinct(a: CameraErrorKind, b: CameraErrorKind)
    ensures CameraErrorMessage(a) == CameraErrorMessage(b) <==> a == b
  {
    assert |PermissionDeniedToast| == 67 && |DeviceNotFoundToast| == 31;
    assert |StartTimeoutToast| == 48 && |DefaultCameraToast| == 72;
  }

  /** An error named NotAllowedError is a permission failure whatever its message says. */
  lemma NotAllowedIsDenied(message: string)
    ensures ClassifyCameraError(ErrorObject("NotAllowedError", message)) == PermissionDenied
  {
  }

  datatype FacingMode = User | Environment

  /** The Switch Camera toggle between the front (`user`) and rear (`environment`) camera. */
  function Toggled(m: FacingMode): (r: FacingMode)
    ensures r != m
  {
    if m == User then Environment else User
  }

  lemma ToggleTwiceIsIdentity(m: FacingMode)
    ensures Toggled(Toggled(m)) == m
  {
  }

  /** What the Capture button did. */
  datatype CaptureOutcome = NotReady | CaptureFailed | Captured(dataUri: string)

  class PhotoInputController {
    var activeTab: string
    var isCameraActive: bool
    var isCameraLoading: bool
    var hasCameraPermission: Option<bool>
    var cameraSupported: Option<bool>
    var cameraFacingMode: FacingMode
    /** `streamRef.current`. */
    var stream: Option<nat>
    /** A `loadeddata` listener is attached to a video element showing the held stream. */
    var awaitingLoad: bool
    /** An `error` listener is attached to a video element showing the held stream. */
    var watchingErrors: bool
    /** `getUserMedia` calls not yet settled. */
    var pendingAccess: nat
    /** File reads not yet finished. */
    var pendingReads: nat
    /** Streams whose tracks were stopped, in order. */
    var released: seq<nat>
    /** The arguments of every `onPhotoSelected` call, in order (None is `null`). */
    var selections: seq<Option<string>>

    /** The camera is only active with a stream and never active and loading at once; listeners watch a held stream. */
    ghost predicate Valid()
      reads this
    {
      && (isCameraActive ==> stream.Some? && !isCameraLoading)
      && (awaitingLoad || watchingErrors ==> stream.Some?)
    }

    /** No stream, no listener, neither active nor loading. */
    predicate Stopped()
      reads this
    {
      stream.None? && !isCameraActive && !isCameraLoading && !awaitingLoad && !watchingErrors
    }

    /**
     * The `<video>` element is in the page only on the camera tab, with no
     * photo chosen, the camera not known to be unsupported, and the camera
     * active and not loading.
     */
    predicate VideoRendered(photoChosen: bool)
      reads this
    {
      !photoChosen && activeTab == "camera" && cameraSupported != Some(false) && !isCameraLoading && isCameraActive
    }

    constructor ()
      ensures Valid() && Stopped()
      ensures activeTab == "upload" && hasCameraPermission.None? && cameraSupported.None?
      ensures cameraFacingMode == User && pendingAccess == 0 && pendingReads == 0
      ensures released == [] && selections == []
    {
      activeTab := "upload";
      isCameraActive, isCameraLoading := false, false;
      hasCameraPermission, cameraSupported := None, None;
      cameraFacingMode := User;
      stream := None;
      awaitingLoad, watchingErrors := false, false;
      pendingAccess, pendingReads := 0, 0;
      released, selections := [], [];
    }

    /** The mount effect records the result of the support check. */
    method Mount(env: BrowserEnv)
      requires Valid()
      modifies this`cameraSupported
      ensures Valid()
      ensures cameraSupported == Some(CheckCameraSupport(env))
    {
      cameraSupported := Some(CheckCameraSupport(env));
    }

    /**
     * `startCamera`: a no-op while a stream is held or a start is loading;
     * otherwise loading begins and `getUserMedia` is asked for the current
     * facing mode.
     */
    method StartCamera() returns (request: Option<FacingMode>)
      requires Valid()
      modifies this`isCameraLoading, this`pendingAccess
      ensures Valid()
      ensures old(stream).Some? || old(isCameraLoading) ==>
        request.None? && isCameraLoading == old(isCameraLoading) && pendingAccess == old(pendingAccess)
      ensures old(stream).None? && !old(isCameraLoading) ==>
        && request == Some(cameraFacingMode)
        && isCameraLoading && !isCameraActive
        && pendingAccess == old(pendingAccess) + 1
    {
      if stream.Some? || isCameraLoading {
        return None;
      }
      isCameraLoading := true;
      pendingAccess := pendingAccess + 1;
      request := Some(cameraFacingMode);
    }

    /**
     * `getUserMedia` resolved, as the code is written: the stream is held,
     * and the `loadeddata` and `error` listeners are attached only when the
     * video element is in the page (`videoMounted` is `videoRef.current`).
     * The loading flag is left as it was.
     */
    method OnAccessGranted(s: nat, videoMounted: bool)
      requires Valid() && pendingAccess > 0
      modifies this`stream, this`pendingAccess, this`awaitingLoad, this`watchingErrors
      ensures Valid()
      ensures stream == Some(s) && pendingAccess == old(pendingAccess) - 1
      ensures awaitingLoad == (old(awaitingLoad) || videoMounted)
      ensures watchingErrors == (old(watchingErrors) || videoMounted)
    {
      stream := Some(s);
      pendingAccess := pendingAccess - 1;
      if videoMounted {
        awaitingLoad, watchingErrors := true, true;
      }
    }

    /**
     * `getUserMedia` resolved, corrected: the stream is bound to the video
     * element and its listeners are attached whichever branch is on screen.
     */
    method OnAccessGrantedBound(s: nat)
      requires Valid() && pendingAccess > 0
      modifies this`stream, this`pendingAccess, this`awaitingLoad, this`watchingErrors
      ensures Valid()
      ensures stream == Some(s) && pendingAccess == old(pendingAccess) - 1
      ensures awaitingLoad && watchingErrors
    {
      stream := Some(s);
      pendingAccess := pendingAccess - 1;
      awaitingLoad, watchingErrors := true, true;
    }

    /** `handleLoadedData`: the camera is active, no longer loading, and permission was granted. */
    method OnVideoLoaded()
      requires Valid() && awaitingLoad
      modifies this`isCameraActive, this`isCameraLoading, this`hasCameraPermission, this`awaitingLoad
      ensures Valid()
      ensures isCameraActive && !isCameraLoading && hasCameraPermission == Some(true) && !awaitingLoad
    {
      isCameraActive, isCameraLoading := true, false;
      hasCameraPermission := Some(true);
      awaitingLoad := false;
    }

    /** `handleError` of the video element: the flags are cleared and the camera stopped. */
    method OnVideoError()
      requires Valid() && watchingErrors
      modifies this`stream, this`released, this`awaitingLoad, this`watchingErrors, this`isCameraActive, this`isCameraLoading
      ensures Valid() && Stopped()
      ensures released == old(released) + [old(stream).value]
    {
      watchingErrors := false;
      isCameraLoading, isCameraActive := false, false;
      StopCamera();
    }

    /**
     * `getUserMedia` rejected: permission is recorded as refused, the camera
     * is neither active nor loading, and the toast names the error's kind.
     */
    method OnAccessDenied(err: Thrown) returns (message: string)
      requires Valid() && pendingAccess > 0
      modifies this`hasCameraPermission, this`isCameraActive, this`isCameraLoading, this`pendingAccess
      ensures Valid()
      ensures message == CameraErrorMessage(ClassifyCameraError(err))
      ensures hasCameraPermission == Some(false) && !isCameraActive && !isCameraLoading
      ensures pendingAccess == old(pendingAccess) - 1
    {
      message := CameraErrorMessage(ClassifyCameraError(err));
      hasCameraPermission := Some(false);
      isCameraActive, isCameraLoading := false, false;
      pendingAccess := pendingAccess - 1;
    }

    /**
     * `stopCamera`: the held stream's tracks are stopped and the stream
     * dropped, the video element's source is cleared, and the camera is
     * neither active nor loading.  On a stopped controller it changes
     * nothing, so stopping twice is stopping once.
     */
    method StopCamera()
      modifies this`stream, this`released, this`awaitingLoad, this`watchingErrors, this`isCameraActive, this`isCameraLoading
      ensures Valid() && Stopped()
      ensures released == old(released) + (if old(stream).Some? then [old(stream).value] else [])
      ensures old(Stopped()) ==> unchanged(this)
    {
      if stream.Some? {
        released := released + [stream.value];
        stream := None;
      }
      awaitingLoad, watchingErrors := false, false;
      isCameraActive, isCameraLoading := false, false;
    }

    /** The unmount effect stops the camera. */
    method Unmount()
      modifies this`stream, this`released, this`awaitingLoad, this`watchingErrors, this`isCameraActive, this`isCameraLoading
      ensures Valid() && Stopped()
      ensures released == old(released) + (if old(stream).Some? then [old(stream).value] else [])
    {
      StopCamera();
    }

    /** `handleTabChange`: any tab but "camera" stops the camera; "camera" does not start it. */
    method HandleTabChange(value: string)
      modifies this`activeTab, this`stream, this`released, this`awaitingLoad, this`watchingErrors,
        this`isCameraActive, this`isCameraLoading
      requires Valid()
      ensures Valid() && activeTab == value
      ensures value != "camera" ==>
        && Stopped()
        && released == old(released) + (if old(stream).Some? then [old(stream).value] else [])
      ensures value == "camera" ==>
        && stream == old(stream) && isCameraActive == old(isCameraActive)
        && isCameraLoading == old(isCameraLoading)
        && awaitingLoad == old(awaitingLoad) && watchingErrors == old(watchingErrors)
        && released == old(released)
    {
      activeTab := value;
      if value != "camera" {
        StopCamera();
      }
    }

    /** The Switch Camera button: the facing mode flips and the camera stops (the delayed restart is not modelled). */
    method SwitchCamera()
      modifies this`cameraFacingMode, this`stream, this`released, this`awaitingLoad, this`watchingErrors,
        this`isCameraActive, this`isCameraLoading
      ensures Valid() && Stopped()
      ensures cameraFacingMode == Toggled(old(cameraFacingMode))
      ensures released == old(released) + (if old(stream).Some? then [old(stream).value] else [])
    {
      cameraFacingMode := Toggled(cameraFacingMode);
      StopCamera();
    }

    /**
     * `capturePhoto`.  Without both the video and the canvas element nothing
     * is selected; when the canvas cannot be drawn on, nothing is selected
     * either; otherwise the frame is selected and then the camera stopped.
     */
    method CapturePhoto(videoPresent: bool, canvasPresent: bool, drawable: bool, frame: string)
      returns (outcome: CaptureOutcome)
      requires Valid()
      modifies this`selections, this`stream, this`released, this`awaitingLoad, this`watchingErrors,
        this`isCameraActive, this`isCameraLoading
      ensures Valid()
      ensures !(videoPresent && canvasPresent) ==> outcome == NotReady && unchanged(this)
      ensures videoPresent && canvasPresent && !drawable ==> outcome == CaptureFailed && unchanged(this)
      ensures videoPresent && canvasPresent && drawable ==>
        && outcome == Captured(frame)
        && selections == old(selections) + [Some(frame)]
        && Stopped()
        && released == old(released) + (if old(stream).Some? then [old(stream).value] else [])
    {
      if !(videoPresent && canvasPresent) {
        return NotReady;
      }
      if !drawable {
        return CaptureFailed;
      }
      selections := selections + [Some(frame)];
      StopCamera();
      outcome := Captured(frame);
    }

    /** `clearPhoto`: `onPhotoSelected(null)`. */
    method ClearPhoto()
      requires Valid()
      modifies this`selections
      ensures Valid()
      ensures selections == old(selections) + [None]
    {
      selections := selections + [None];
    }

    /** A file is picked or dropped: a rejected or missing file selects nothing and starts no read. */
    method HandleFiles(files: seq<FileInfo>) returns (decision: UploadDecision)
      requires Valid()
      modifies this`pendingReads
      ensures Valid()
      ensures decision == ProcessFiles(files)
      ensures pendingReads == old(pendingReads) + (if decision.ReadStarted? then 1 else 0)
    {
      decision := ProcessFiles(files);
      if decision.ReadStarted? {
        pendingReads := pendingReads + 1;
      }
    }

    /** The reader finished: its data URI is selected. */
    method OnFileLoaded(dataUri: string)
      requires Valid() && pendingReads > 0
      modifies this`selections, this`pendingReads
      ensures Valid()
      ensures selections == old(selections) + [Some(dataUri)]
      ensures pendingReads == old(pendingReads) - 1
    {
      selections := selections + [Some(dataUri)];
      pendingReads := pendingReads - 1;
    }
  }

  /**
   * As written, the first start on a supported browser never activates the
   * camera: while loading, the page shows the spinner instead of the
   * `<video>` element, so when access is granted no listener is attached,
   * the loading flag stays set, and Start Camera is a no-op from then on.
   */
  method FirstStartAsWritten(env: BrowserEnv, s: nat) returns (c: PhotoInputController)
    requires CheckCameraSupport(env)
    ensures c.Valid()
    ensures c.isCameraLoading && !c.isCameraActive && c.stream == Some(s)
    ensures !c.awaitingLoad && !c.watchingErrors && c.pendingAccess == 0
    ensures c.activeTab == "camera" && c.cameraSupported == Some(true)
  {
    c := new PhotoInputController();
    c.Mount(env);
    c.HandleTabChange("camera");
    var request := c.StartCamera();
    assert request == Some(User);
    var mounted := c.VideoRendered(false);
    assert !mounted;
    c.OnAccessGranted(s, mounted);
    var again := c.StartCamera();
    assert again.None?;
  }

  /**
   * Corrected, the same first start ends with the camera active on the
   * granted stream, and a capture then selects the frame and releases it.
   */
  method FirstStartCorrected(env: BrowserEnv, s: nat, frame: string) returns (c: PhotoInputController)
    requires CheckCameraSupport(env)
    ensures c.Valid() && c.Stopped()
    ensures c.selections == [Some(frame)] && c.released == [s]
    ensures c.hasCameraPermission == Some(true) && c.activeTab == "camera"
  {
    c := new PhotoInputController();
    c.Mount(env);
    c.HandleTabChange("camera");
    var request := c.StartCamera();
    assert request == Some(User);
    c.OnAccessGrantedBound(s);
    c.OnVideoLoaded();
    assert c.isCameraActive && !c.isCameraLoading && c.stream == Some(s);
    assert c.VideoRendered(false);
    var outcome := c.CapturePhoto(true, true, true, frame);
    assert outcome == Captured(frame);
  }
}
