/**
 * The activity of the `app` sample, reduced to its decisions: what the live
 * button's listener does, what the two LiveData observers set, and what
 * happens once the permissions are granted. Views are reduced to the fields
 * the code writes.
 */
module AppActivity {
  import opened Platform
  import opened Presenter
  import opened AppViewModel

  /** `ApplicationConstants.supportedOrientation` */
  const SupportedOrientation: int := ScreenOrientationUnspecified

  class MainActivity {
    const viewModel: MainViewModel
    /** `binding.liveButton.isChecked` */
    var liveButtonChecked: bool
    /** `requestedOrientation` */
    var requestedOrientation: int
    /** Whether the preview has been bound to the streamer. */
    var previewBound: bool

    constructor (viewModel: MainViewModel)
      ensures this.viewModel == viewModel
      ensures !liveButtonChecked && requestedOrientation == SupportedOrientation && !previewBound
    {
      this.viewModel := viewModel;
      liveButtonChecked, requestedOrientation, previewBound := false, SupportedOrientation, false;
    }

    /**
     * The live button's checked-change listener, run once the button has
     * become `isChecked`; `pressed` is `view.isPressed`. Only a user press
     * acts: checking starts the stream, and a failed start unchecks the
     * button again; unchecking stops the stream.
     */
    method OnLiveButtonCheckedChange(pressed: bool, isChecked: bool, engine: Outcome)
      modifies this`liveButtonChecked, viewModel`trying, viewModel`effects
      ensures liveButtonChecked == (isChecked && !(pressed && engine.Failure?))
      ensures !pressed ==>
        viewModel.effects == old(viewModel.effects) && viewModel.trying == old(viewModel.trying)
      ensures pressed && isChecked ==>
        viewModel.effects == old(viewModel.effects) + StartEffects() && viewModel.trying == Some(false)
      ensures pressed && !isChecked ==>
        viewModel.effects == old(viewModel.effects) + [EngineStopStream]
        && viewModel.trying == old(viewModel.trying)
    {
      liveButtonChecked := isChecked;
      if pressed {
        if isChecked {
          var outcome := viewModel.StartStream(engine);
          if outcome.Failure? {
            liveButtonChecked := false;
          }
        } else {
          viewModel.StopStream();
        }
      }
    }

    /**
     * The `isStreamingLiveData` observer: orientation locked exactly while
     * streaming, and the button checked while streaming or trying to connect.
     */
    method OnIsStreaming(isStreaming: bool)
      modifies this`liveButtonChecked, this`requestedOrientation
      ensures requestedOrientation == OrientationFor(isStreaming, SupportedOrientation)
      ensures requestedOrientation == ScreenOrientationLocked <==> isStreaming
      ensures liveButtonChecked <==> isStreaming || viewModel.trying == Some(true)
    {
      if isStreaming {
        LockOrientation();
      } else {
        UnlockOrientation();
      }
      liveButtonChecked := Checked(isStreaming, viewModel.trying);
    }

    /**
     * The `isTryingConnectionLiveData` observer; `streamingValue` is what
     * `isStreamingLiveData.value` reads at that moment.
     */
    method OnIsTryingConnection(isWaitingForConnection: bool, streamingValue: Option<bool>)
      modifies this`liveButtonChecked
      ensures liveButtonChecked <==> isWaitingForConnection || streamingValue == Some(true)
    {
      liveButtonChecked := Checked(isWaitingForConnection, streamingValue);
    }

    /** `lockOrientation()` */
    method LockOrientation()
      modifies this`requestedOrientation
      ensures requestedOrientation == ScreenOrientationLocked
    {
      requestedOrientation := ScreenOrientationLocked;
    }

    /** `unlockOrientation()` */
    method UnlockOrientation()
      modifies this`requestedOrientation
      ensures requestedOrientation == SupportedOrientation
    {
      requestedOrientation := SupportedOrientation;
    }

    /**
     * `onPermissionsGranted()`: the microphone, then the camera `cameraId`
     * (the device's default camera), become the engine's sources, and the
     * preview is bound.
     */
    method OnPermissionsGranted(cameraId: string)
      modifies this`previewBound, viewModel`effects
      ensures viewModel.effects
           == old(viewModel.effects) + [EngineSetAudioSource, EngineSetCameraId(cameraId)]
      ensures previewBound
    {
      viewModel.SetAudioSource();
      viewModel.SetCameraId(cameraId);
      previewBound := true;
    }
  }
}
