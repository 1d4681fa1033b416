/**
 * The activity of the `example` sample, which drives the engine itself and
 * keeps its own "is trying to connect" flag. Reduced to its decisions: what
 * the live button's listener does, what the "is streaming" collector sets,
 * how rotations reach the engine, and how engine errors are reported.
 */
module ExampleActivity {
  import opened Platform
  import opened Presenter
  import opened ErrorRouting

  /**
   * The messages a collector shows for `errors`, one per error and in the
   * same order, each prefixed with `prefix`.
   */
  function Reports(prefix: string, errors: seq<Throwable>): (r: seq<string>)
    ensures |r| == |errors|
    ensures forall t :: t in errors ==> prefix + t.message in r
    ensures forall i :: 0 <= i < |errors| ==> r[i] == prefix + errors[i].message
    ensures forall t :: t in errors ==> prefix + t.message in r
    ensures forall s :: s in r ==> exists t :: t in errors && s == prefix + t.message
  {
    var r := seq(|errors|, i requires 0 <= i < |errors| => prefix + errors[i].message);
    assert forall i :: 0 <= i < |errors| ==> r[i] == prefix + errors[i].message;
    r
  }

  /** What the general error collector reports. */
  function ErrorReports(flow: seq<Option<Throwable>>): (r: seq<string>)
    ensures |r| == |OtherErrors(flow)|
    ensures forall i :: 0 <= i < |r| ==> r[i] == "Error: " + OtherErrors(flow)[i].message
    ensures forall t :: Some(t) in flow && !t.isClosed ==> "Error: " + t.message in r
    ensures forall s :: s in r ==> exists t :: Some(t) in flow && !t.isClosed && s == "Error: " + t.message
  {
    Reports("Error: ", OtherErrors(flow))
  }

  /** What the connection error collector reports. */
  function ConnectionLostReports(flow: seq<Option<Throwable>>): (r: seq<string>)
    ensures |r| == |ClosedErrors(flow)|
    ensures forall i :: 0 <= i < |r| ==> r[i] == "Connection lost: " + ClosedErrors(flow)[i].message
    ensures forall t :: Some(t) in flow && t.isClosed ==> "Connection lost: " + t.message in r
    ensures forall s :: s in r ==>
              exists t :: Some(t) in flow && t.isClosed && s == "Connection lost: " + t.message
  {
    Reports("Connection lost: ", ClosedErrors(flow))
  }

  /**
   * Each non-null error of the engine's flow is reported exactly once: as
   * "Connection lost" when the engine calls it closed, as "Error" otherwise.
   * Nulls are not reported. Since report `i` of a channel belongs to error
   * `i` of that channel, an error occurring `k` times in the flow is an
   * error of its own channel exactly `k` times and of the other channel never.
   */
  lemma ReportsPartition(flow: seq<Option<Throwable>>)
    ensures |ErrorReports(flow)| + |ConnectionLostReports(flow)| == |NotNull(flow)|
    ensures forall t :: Some(t) in flow && t.isClosed ==>
              "Connection lost: " + t.message in ConnectionLostReports(flow)
    ensures forall t :: Some(t) in flow && !t.isClosed ==> "Error: " + t.message in ErrorReports(flow)
    ensures forall t: Throwable :: t.isClosed ==>
              multiset(ClosedErrors(flow))[t] == multiset(flow)[Some(t)] && multiset(OtherErrors(flow))[t] == 0
    ensures forall t: Throwable :: !t.isClosed ==>
              multiset(OtherErrors(flow))[t] == multiset(flow)[Some(t)] && multiset(ClosedErrors(flow))[t] == 0
  {
    ChannelsPartition(flow);
    forall t: Throwable
      ensures multiset(ClosedErrors(flow))[t] + multiset(OtherErrors(flow))[t] == multiset(flow)[Some(t)]
    {
      assert multiset(NotNull(flow))[t] == multiset(flow)[Some(t)];
    }
  }

  class MainActivity {
    /** `binding.liveButton.isChecked` */
    var liveButtonChecked: bool
    /** `requestedOrientation` */
    var requestedOrientation: int
    /** `isTryingConnectionLiveData.value`: absent until the first post. */
    var trying: Option<bool>
    /** The rotation last handed to the engine's `setTargetRotation`. */
    var targetRotation: Option<int>
    /** Every post to the trying LiveData and every engine call, in order. */
    var effects: seq<Effect>
    /** Whether the preview has been given the streamer and started. */
    var previewStarted: bool

    constructor ()
      ensures !liveButtonChecked && requestedOrientation == ScreenOrientationUnspecified
      ensures trying == None && targetRotation == None && effects == [] && !previewStarted
    {
      liveButtonChecked, requestedOrientation := false, ScreenOrientationUnspecified;
      trying, targetRotation, effects, previewStarted := None, None, [], false;
    }

    /**
     * The live button's checked-change listener, run once the button has
     * become `isChecked`; `pressed` is `view.isPressed`. Only a user press
     * acts. Checking raises the flag, connects, and lowers the flag whatever
     * happened; a failure is caught here and unchecks the button.
     * Unchecking stops the stream.
     */
    method OnLiveButtonCheckedChange(pressed: bool, isChecked: bool, engine: Outcome)
      modifies this`liveButtonChecked, this`trying, this`effects
      ensures liveButtonChecked == (isChecked && !(pressed && engine.Failure?))
      ensures !pressed ==> effects == old(effects) && trying == old(trying)
      ensures pressed && isChecked ==> effects == old(effects) + StartEffects() && trying == Some(false)
      ensures pressed && !isChecked ==> effects == old(effects) + [EngineStopStream] && trying == old(trying)
    {
      liveButtonChecked := isChecked;
      if pressed {
        if isChecked {
          // try
          trying := Some(true);
          effects := effects + [PostTrying(true)];
          effects := effects + [EngineStartStream(StreamUrl)];
          if engine.Failure? {
            // catch
            liveButtonChecked := false;
          }
          // finally
          trying := Some(false);
          effects := effects + [PostTrying(false)];
        } else {
          effects := effects + [EngineStopStream];
        }
      }
    }

    /**
     * The `isStreamingFlow` collector: orientation locked exactly while
     * streaming, and the button checked while streaming or trying to connect.
     */
    method OnIsStreaming(isStreaming: bool)
      modifies this`liveButtonChecked, this`requestedOrientation
      ensures requestedOrientation == OrientationFor(isStreaming, ScreenOrientationUnspecified)
      ensures requestedOrientation == ScreenOrientationLocked <==> isStreaming
      ensures liveButtonChecked <==> isStreaming || trying == Some(true)
    {
      if isStreaming {
        LockOrientation();
      } else {
        UnlockOrientation();
      }
      liveButtonChecked := Checked(isStreaming, trying);
    }

    /** `lockOrientation()` */
    method LockOrientation()
      modifies this`requestedOrientation
      ensures requestedOrientation == ScreenOrientationLocked
    {
      requestedOrientation := ScreenOrientationLocked;
    }

    /** `unlockOrientation()` */
    method UnlockOrientation()
      modifies this`requestedOrientation
      ensures requestedOrientation == ScreenOrientationUnspecified
    {
      requestedOrientation := ScreenOrientationUnspecified;
    }

    /**
     * The rotation collector: each rotation is handed to the engine in turn,
     * so the engine ends up with the last one.
     */
    method ForwardRotations(rotations: seq<int>)
      modifies this`targetRotation, this`effects
      ensures effects == old(effects) + RotationEffects(rotations)
      ensures targetRotation == if rotations == [] then old(targetRotation) else Some(Last(rotations))
    {
      var i := 0;
      while i < |rotations|
        invariant 0 <= i <= |rotations|
        invariant effects == old(effects) + RotationEffects(rotations[..i])
        invariant targetRotation == if i == 0 then old(targetRotation) else Some(rotations[i - 1])
      {
        RotationEffectsSnoc(rotations, i);
        effects := effects + [EngineSetTargetRotation(rotations[i])];
        targetRotation := Some(rotations[i]);
        i := i + 1;
      }
      assert rotations[..i] == rotations;
    }

    /**
     * `onPermissionsGranted()`: the microphone, then the camera `cameraId`
     * (the device's default camera), become the engine's sources, and the
     * preview is given the streamer and started.
     */
    method OnPermissionsGranted(cameraId: string)
      modifies this`previewStarted, this`effects
      ensures effects == old(effects) + [EngineSetAudioSource, EngineSetCameraId(cameraId)]
      ensures previewStarted
    {
      effects := effects + [EngineSetAudioSource];
      effects := effects + [EngineSetCameraId(cameraId)];
      previewStarted := true;
    }
  }
}
