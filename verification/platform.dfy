/**
 * Values shared by the whole model: Android constants, what the streaming
 * engine hands back, and the effects the two sample applications perform
 * on the engine and on their LiveData, recorded in program order.
 */
module Platform {

  datatype Option<+T> = None | Some(value: T)

  /** `ActivityInfo.SCREEN_ORIENTATION_LOCKED` */
  const ScreenOrientationLocked: int := 14

  /** `ActivityInfo.SCREEN_ORIENTATION_UNSPECIFIED` */
  const ScreenOrientationUnspecified: int := -1

  /** The ingest URL both samples connect to. */
  const StreamUrl: string := "rtmp://my.server.url:1935/app/streamKey"

  /**
   * An error the engine reports or throws. The engine's `isClosedException`
   * extension is not visible to this model; `isClosed` stands for its answer.
   */
  datatype Throwable = Throwable(message: string, isClosed: bool)

  /** How a call into the engine ends: normally, or by throwing `error`. */
  datatype Outcome = Success | Failure(error: Throwable)

  /**
   * One thing the code does to the outside world: a value posted to the
   * "is trying to connect" LiveData, or a call into the streaming engine.
   * Rotation angles are opaque integers.
   */
  datatype Effect =
    | PostTrying(trying: bool)
    | EngineStartStream(url: string)
    | EngineStopStream
    | EngineSetTargetRotation(rotation: int)
    | EngineSetAudioSource
    | EngineSetCameraId(cameraId: string)

  /** What one connection attempt does, in order: flag up, connect, flag down. */
  function StartEffects(): seq<Effect>
  {
    [PostTrying(true), EngineStartStream(StreamUrl), PostTrying(false)]
  }

  /** The engine calls made by forwarding `rotations` one by one. */
  function RotationEffects(rotations: seq<int>): seq<Effect>
  {
    seq(|rotations|, i requires 0 <= i < |rotations| => EngineSetTargetRotation(rotations[i]))
  }

  lemma RotationEffectsSnoc(rotations: seq<int>, i: nat)
    requires i < |rotations|
    ensures RotationEffects(rotations[..i + 1])
         == RotationEffects(rotations[..i]) + [EngineSetTargetRotation(rotations[i])]
  {
    var lhs := RotationEffects(rotations[..i + 1]);
    var rhs := RotationEffects(rotations[..i]) + [EngineSetTargetRotation(rotations[i])];
    assert |lhs| == |rhs|;
    forall k | 0 <= k < |lhs| ensures lhs[k] == rhs[k] { }
  }

  function Last<T>(s: seq<T>): T
    requires s != []
  {
    s[|s| - 1]
  }
}
