/**
 * The view model of the `app` sample: it owns the "is trying to connect"
 * flag, connects and disconnects the engine, and forwards device rotations
 * to it. Its two error channels are `ErrorRouting.ClosedErrors` and
 * `ErrorRouting.OtherErrors` over the engine's error flow.
 */
module AppViewModel {
  import opened Platform

  class MainViewModel {
    /** `_isTryingConnectionLiveData.value`: absent until the first post. */
    var trying: Option<bool>
    /** The rotation last handed to the engine's `setTargetRotation`. */
    var targetRotation: Option<int>
    /** Every post to the trying LiveData and every engine call, in order. */
    var effects: seq<Effect>

    constructor ()
      ensures trying == None && targetRotation == None && effects == []
    {
      trying, targetRotation, effects := None, None, [];
    }

    /**
     * `startStream()`: raises the flag, connects to the fixed URL, and lowers
     * the flag whatever the engine did; the engine's failure is handed back
     * to the caller unchanged (the `try` has only a `finally`).
     */
    method StartStream(engine: Outcome) returns (outcome: Outcome)
      modifies this`trying, this`effects
      ensures outcome == engine
      ensures effects == old(effects) + StartEffects()
      ensures trying == Some(false)
    {
      trying := Some(true);
      effects := effects + [PostTrying(true)];
      // try
      effects := effects + [EngineStartStream(StreamUrl)];
      outcome := engine;
      // finally
      trying := Some(false);
      effects := effects + [PostTrying(false)];
    }

    /** `stopStream()`: forwards to the engine and leaves the flag alone. */
    method StopStream()
      modifies this`effects
      ensures effects == old(effects) + [EngineStopStream]
    {
      effects := effects + [EngineStopStream];
    }

    /**
     * The rotation collector started in `init`: each rotation is handed to
     * the engine in turn, so the engine ends up with the last one.
     */
    method ForwardRotations(rotations: seq<int>)
      modifies this`targetRotation, this`effects
      ensures effects == old(effects) + RotationEffects(rotations)
      ensures targetRotation == if rotations == [] then old(targetRotation) else Some(Last(rotations))
    {
      var i := 0;
      while i < |rotations|
        invariant 0 <= i <= |rotations|
        invariant effects == old(effects) + RotationEffects(rotations[..i])
        invariant targetRotation == if i == 0 then old(targetRotation) else Some(rotations[i - 1])
      {
        RotationEffectsSnoc(rotations, i);
        effects := effects + [EngineSetTargetRotation(rotations[i])];
        targetRotation := Some(rotations[i]);
        i := i + 1;
      }
      assert rotations[..i] == rotations;
    }

    /** `setAudioSource()`: the microphone becomes the engine's audio source. */
    method SetAudioSource()
      modifies this`effects
      ensures effects == old(effects) + [EngineSetAudioSource]
    {
      effects := effects + [EngineSetAudioSource];
    }

    /** `setCameraId(cameraId)` */
    method SetCameraId(cameraId: string)
      modifies this`effects
      ensures effects == old(effects) + [EngineSetCameraId(cameraId)]
    {
      effects := effects + [EngineSetCameraId(cameraId)];
    }
  }
}
