/**
 * The decisions both sample activities take when the engine's "is
 * streaming" state or the "is trying to connect" flag changes: whether the
 * live button shows as checked, and which screen orientation to request.
 */
module Presenter {
  import opened Platform

  /**
   * The button state either observer sets: `own` is the value the observer
   * was handed, `other` the current value of the other LiveData (absent
   * until something has been posted to it). Checked while streaming or
   * while trying to connect.
   */
  function Checked(own: bool, other: Option<bool>): (checked: bool)
    ensures checked <==> own || other == Some(true)
  {
    if own then true
    else if other == Some(true) then true
    else false
  }

  /** Whichever of the two observers fires last, the button shows the same state. */
  lemma ObserversAgree(isStreaming: bool, isTrying: bool)
    ensures Checked(isStreaming, Some(isTrying)) == Checked(isTrying, Some(isStreaming))
  {
  }

  /**
   * The orientation requested when the streaming state changes: locked
   * exactly while streaming, the application's `unlocked` orientation otherwise.
   */
  function OrientationFor(isStreaming: bool, unlocked: int): (orientation: int)
    requires unlocked != ScreenOrientationLocked
    ensures orientation == ScreenOrientationLocked <==> isStreaming
    ensures !isStreaming ==> orientation == unlocked
  {
    if isStreaming then ScreenOrientationLocked else unlocked
  }
}
