/**
 * How both samples split the engine's error flow into two channels: null
 * values are dropped, errors the engine calls "closed" (an established link
 * that went down) go to one channel, every other error to the other.
 */
module ErrorRouting {
  import opened Platform

  /** `filterNotNull()` */
  function NotNull(flow: seq<Option<Throwable>>): (errors: seq<Throwable>)
    ensures forall t :: t in errors <==> Some(t) in flow
    ensures forall t :: multiset(errors)[t] == multiset(flow)[Some(t)]
    ensures |errors| <= |flow|
  {
    if flow == [] then []
    else
      assert flow == [flow[0]] + flow[1..];
      (if flow[0].Some? then [flow[0].value] else []) + NotNull(flow[1..])
  }

  /** `filter { it.isClosedException == closed }` */
  function WithClosed(errors: seq<Throwable>, closed: bool): (r: seq<Throwable>)
    ensures forall t :: t in r <==> t in errors && t.isClosed == closed
  {
    if errors == [] then []
    else
      assert errors == [errors[0]] + errors[1..];
      (if errors[0].isClosed == closed then [errors[0]] else []) + WithClosed(errors[1..], closed)
  }

  /** The "connection closed" channel: `filterNotNull().filter { it.isClosedException }`. */
  function ClosedErrors(flow: seq<Option<Throwable>>): (r: seq<Throwable>)
    ensures forall t :: t in r <==> Some(t) in flow && t.isClosed
  {
    WithClosed(NotNull(flow), true)
  }

  /** The general error channel: `filterNotNull().filter { !it.isClosedException }`. */
  function OtherErrors(flow: seq<Option<Throwable>>): (r: seq<Throwable>)
    ensures forall t :: t in r <==> Some(t) in flow && !t.isClosed
  {
    WithClosed(NotNull(flow), false)
  }

  lemma {:induction false} WithClosedSplits(errors: seq<Throwable>)
    ensures multiset(WithClosed(errors, true)) + multiset(WithClosed(errors, false)) == multiset(errors)
  {
    if errors != [] {
      WithClosedSplits(errors[1..]);
      assert errors == [errors[0]] + errors[1..];
    }
  }

  /**
   * Every non-null error of the flow reaches exactly one channel, as often
   * as it occurs: the closed channel when the engine calls it closed, the
   * general channel otherwise. Nulls reach neither.
   */
  lemma ChannelsPartition(flow: seq<Option<Throwable>>)
    ensures multiset(ClosedErrors(flow)) + multiset(OtherErrors(flow)) == multiset(NotNull(flow))
    ensures multiset(ClosedErrors(flow)) !! multiset(OtherErrors(flow))
    ensures |ClosedErrors(flow)| + |OtherErrors(flow)| == |NotNull(flow)|
    ensures forall t :: Some(t) in flow ==>
              (t in ClosedErrors(flow) <==> t.isClosed) && (t in OtherErrors(flow) <==> !t.isClosed)
  {
    WithClosedSplits(NotNull(flow));
    var closed, other := ClosedErrors(flow), OtherErrors(flow);
    assert |multiset(closed) + multiset(other)| == |multiset(NotNull(flow))|;
    forall t | t in multiset(closed) ensures t !in multiset(other) {
      assert t in closed;
    }
  }
}
