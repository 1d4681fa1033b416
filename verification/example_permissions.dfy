/**
 * The permission gate of the `example` sample. It walks the required list
 * once: for every permission the platform flags it shows the rationale
 * (always for the whole required list) and, if the callback answers true,
 * requests that one permission. Only when nothing was flagged does it
 * request the whole list. Its result handler never shows a rationale.
 */
module ExamplePermissions {
  import opened Permissions

  /**
   * The answers of the rationale callback, which returns a Boolean: the
   * k-th call answers `answers[k]`; a call beyond the list answers false.
   */
  predicate Answer(answers: seq<bool>, k: nat)
  {
    k < |answers| && answers[k]
  }

  /** `hasPermissions()` */
  predicate HasPermissions(required: seq<Permission>, granted: map<Permission, bool>)
    ensures HasPermissions(required, granted)
        <==> forall i :: 0 <= i < |required| ==> Holds(granted, required[i])
  {
    All(required, p => Holds(granted, p))
  }

  /**
   * The events of one step of the `forEach`, for permission `p` when the
   * callback has been asked `k` times before: for a flagged permission, the
   * rationale callback (handed `required`), then a single-permission launch
   * if that call answers true.
   */
  function Step(required: seq<Permission>, p: Permission, rationale: map<Permission, bool>,
                answers: seq<bool>, k: nat): (r: seq<Event>)
    ensures |r| <= 2
    ensures r != [] <==> Holds(rationale, p)
    ensures r != [] ==> r[0] == ShowRationale(required)
  {
    if Holds(rationale, p) then
      [ShowRationale(required)] + (if Answer(answers, k) then [Launch([p])] else [])
    else []
  }

  /** The events of the `forEach` over the prefix `ps` of the required list. */
  function RationaleRound(required: seq<Permission>, ps: seq<Permission>,
                          rationale: map<Permission, bool>, answers: seq<bool>): (r: seq<Event>)
    ensures |r| <= 2 * |ps|
    decreases |ps|
  {
    if ps == [] then []
    else
      var init := ps[..|ps| - 1];
      RationaleRound(required, init, rationale, answers)
      + Step(required, ps[|ps| - 1], rationale, answers, |Flagged(init, rationale)|)
  }

  /** The walk emits one or two events per flagged permission and none for the others. */
  lemma {:induction false} RoundLength(required: seq<Permission>, ps: seq<Permission>,
                                       rationale: map<Permission, bool>, answers: seq<bool>)
    ensures var n := |Flagged(ps, rationale)|;
      n <= |RationaleRound(required, ps, rationale, answers)| <= 2 * n
    decreases |ps|
  {
    if ps != [] {
      RoundLength(required, ps[..|ps| - 1], rationale, answers);
    }
  }

  /** One more permission walked: one more step, and the filter grows by it if flagged. */
  lemma RoundSnoc(required: seq<Permission>, ps: seq<Permission>, p: Permission,
                  rationale: map<Permission, bool>, answers: seq<bool>)
    ensures RationaleRound(required, ps + [p], rationale, answers)
         == RationaleRound(required, ps, rationale, answers)
            + Step(required, p, rationale, answers, |Flagged(ps, rationale)|)
    ensures Flagged(ps + [p], rationale)
         == Flagged(ps, rationale) + (if Holds(rationale, p) then [p] else [])
  {
    assert (ps + [p])[..|ps|] == ps;
  }

  /** `RoundSnoc` for the walk over a prefix of the required list. */
  lemma RoundPrefixStep(required: seq<Permission>, i: nat, rationale: map<Permission, bool>,
                        answers: seq<bool>)
    requires i < |required|
    ensures RationaleRound(required, required[..i + 1], rationale, answers)
         == RationaleRound(required, required[..i], rationale, answers)
            + Step(required, required[i], rationale, answers, |Flagged(required[..i], rationale)|)
    ensures |Flagged(required[..i + 1], rationale)|
         == |Flagged(required[..i], rationale)| + (if Holds(rationale, required[i]) then 1 else 0)
  {
    assert required[..i + 1] == required[..i] + [required[i]];
    RoundSnoc(required, required[..i], required[i], rationale, answers);
  }

  lemma AppendAssociates(a: seq<Event>, b: seq<Event>, c: seq<Event>)
    ensures (a + b) + c == a + (b + c)
  {
  }

  /** The events `requestPermissions()` emits. */
  function RequestEvents(required: seq<Permission>, granted: map<Permission, bool>,
                         rationale: map<Permission, bool>, answers: seq<bool>): (r: seq<Event>)
    ensures 1 <= |r| <= 2 * |required| + 1
  {
    RoundLength(required, required, rationale, answers);
    if HasPermissions(required, granted) then [AllGranted]
    else
      RationaleRound(required, required, rationale, answers)
      + (if Flagged(required, rationale) == [] then [Launch(required)] else [])
  }

  /** The events the `requestMultiplePermissions` result callback emits. */
  function ResultEvents(result: RequestResult): (r: seq<Event>)
    ensures |r| == 1 && !r[0].ShowRationale? && !r[0].Launch?
  {
    var denied := DeniedOf(result);
    if denied != [] then [Denied(denied)] else [AllGranted]
  }

  /** The lists handed to the rationale callback, in order. */
  function Shown(events: seq<Event>): seq<seq<Permission>>
  {
    if events == [] then []
    else
      var e := events[|events| - 1];
      Shown(events[..|events| - 1]) + (if e.ShowRationale? then [e.permissions] else [])
  }

  /** The permissions requested by all launches, in order. */
  function Launched(events: seq<Event>): seq<Permission>
  {
    if events == [] then []
    else
      var e := events[|events| - 1];
      Launched(events[..|events| - 1]) + (if e.Launch? then e.permissions else [])
  }

  /** The members of `list` whose position's callback answer is true, in order. */
  function Accepted(list: seq<Permission>, answers: seq<bool>): (r: seq<Permission>)
    ensures |r| <= |list|
    ensures forall p :: p in r ==> p in list
  {
    if list == [] then []
    else
      var init, p := list[..|list| - 1], list[|list| - 1];
      assert list == init + [p];
      Accepted(init, answers) + (if Answer(answers, |init|) then [p] else [])
  }

  /**
   * A member of `list` is kept exactly when the callback answered true at
   * its position: every position answered true is kept, and every kept
   * permission sits at such a position.
   */
  lemma {:induction false} AcceptedMembers(list: seq<Permission>, answers: seq<bool>)
    ensures forall i :: 0 <= i < |list| && Answer(answers, i) ==> list[i] in Accepted(list, answers)
    ensures forall p :: p in Accepted(list, answers) ==>
              exists i :: 0 <= i < |list| && list[i] == p && Answer(answers, i)
    decreases |list|
  {
    if list != [] {
      var init, p := list[..|list| - 1], list[|list| - 1];
      AcceptedMembers(init, answers);
      forall q | q in Accepted(list, answers)
        ensures exists i :: 0 <= i < |list| && list[i] == q && Answer(answers, i)
      {
        if q in Accepted(init, answers) {
          var i :| 0 <= i < |init| && init[i] == q && Answer(answers, i);
          assert list[i] == q;
        } else {
          assert list[|init|] == q && Answer(answers, |init|);
        }
      }
    }
  }

  lemma {:induction false} ShownAppend(a: seq<Event>, b: seq<Event>)
    ensures Shown(a + b) == Shown(a) + Shown(b)
    decreases |b|
  {
    if b == [] {
      assert a + b == a;
    } else {
      assert (a + b)[..|a + b| - 1] == a + b[..|b| - 1];
      ShownAppend(a, b[..|b| - 1]);
    }
  }

  lemma {:induction false} LaunchedAppend(a: seq<Event>, b: seq<Event>)
    ensures Launched(a + b) == Launched(a) + Launched(b)
    decreases |b|
  {
    if b == [] {
      assert a + b == a;
    } else {
      assert (a + b)[..|a + b| - 1] == a + b[..|b| - 1];
      LaunchedAppend(a, b[..|b| - 1]);
    }
  }

  lemma StepShape(required: seq<Permission>, p: Permission, rationale: map<Permission, bool>,
                  answers: seq<bool>, k: nat)
    ensures var events := Step(required, p, rationale, answers, k);
      && Shown(events) == (if Holds(rationale, p) then [required] else [])
      && Launched(events) == (if Holds(rationale, p) && Answer(answers, k) then [p] else [])
  {
    var show := [ShowRationale(required)];
    var launch := if Answer(answers, k) then [Launch([p])] else [];
    assert show[..0] == [];
    assert Shown(show) == [required] && Launched(show) == [];
    if Answer(answers, k) {
      assert launch[..0] == [];
    }
    ShownAppend(show, launch);
    LaunchedAppend(show, launch);
  }

  /** The rationale callback is called once per flagged permission, always with the whole required list. */
  lemma {:induction false} RoundShown(required: seq<Permission>, ps: seq<Permission>,
                                      rationale: map<Permission, bool>, answers: seq<bool>)
    ensures var shown := Shown(RationaleRound(required, ps, rationale, answers));
      |shown| == |Flagged(ps, rationale)| && forall list :: list in shown ==> list == required
    decreases |ps|
  {
    if ps != [] {
      var init, p := ps[..|ps| - 1], ps[|ps| - 1];
      var k := |Flagged(init, rationale)|;
      var before := RationaleRound(required, init, rationale, answers);
      var step := Step(required, p, rationale, answers, k);
      RoundShown(required, init, rationale, answers);
      ShownAppend(before, step);
      StepShape(required, p, rationale, answers, k);
      var shown := Shown(before) + Shown(step);
      assert Shown(RationaleRound(required, ps, rationale, answers)) == shown;
      assert |shown| == |Flagged(ps, rationale)|;
      forall list | list in shown ensures list == required {
        assert list in Shown(before) || list in Shown(step);
      }
    }
  }

  lemma AcceptedSnoc(list: seq<Permission>, p: Permission, answers: seq<bool>)
    ensures Accepted(list + [p], answers)
         == Accepted(list, answers) + (if Answer(answers, |list|) then [p] else [])
  {
    assert (list + [p])[..|list|] == list;
  }

  /**
   * The permissions launched while walking `ps` are exactly the flagged ones
   * whose callback call answered true, in order.
   */
  lemma {:induction false} RoundLaunched(required: seq<Permission>, ps: seq<Permission>,
                                         rationale: map<Permission, bool>, answers: seq<bool>)
    ensures Launched(RationaleRound(required, ps, rationale, answers))
         == Accepted(Flagged(ps, rationale), answers)
    decreases |ps|
  {
    if ps != [] {
      var init, p := ps[..|ps| - 1], ps[|ps| - 1];
      var flaggedInit := Flagged(init, rationale);
      var k := |flaggedInit|;
      var before := RationaleRound(required, init, rationale, answers);
      var step := Step(required, p, rationale, answers, k);
      assert ps == init + [p];
      RoundSnoc(required, init, p, rationale, answers);
      RoundLaunched(required, init, rationale, answers);
      LaunchedAppend(before, step);
      StepShape(required, p, rationale, answers, k);
      AcceptedSnoc(flaggedInit, p, answers);
      if Holds(rationale, p) {
        assert Flagged(ps, rationale) == flaggedInit + [p];
      } else {
        assert Flagged(ps, rationale) == flaggedInit;
      }
    }
  }

  /**
   * Every event of the walk over `ps` is the rationale callback for the whole
   * list or a launch of one flagged permission of `ps`.
   */
  lemma {:induction false} RoundEvents(required: seq<Permission>, ps: seq<Permission>,
                                       rationale: map<Permission, bool>, answers: seq<bool>)
    ensures forall e :: e in RationaleRound(required, ps, rationale, answers) ==>
              e == ShowRationale(required)
              || (e.Launch? && |e.permissions| == 1 && e.permissions[0] in ps
                  && Holds(rationale, e.permissions[0]))
    decreases |ps|
  {
    if ps != [] {
      var init, p := ps[..|ps| - 1], ps[|ps| - 1];
      assert ps == init + [p];
      RoundEvents(required, init, rationale, answers);
      RoundSnoc(required, init, p, rationale, answers);
    }
  }

  /**
   * `requestPermissions()` fires onAllGranted exactly when every required
   * permission is granted, and then does nothing else; it never fires onDenied.
   */
  lemma RequestGrantedShortCircuits(required: seq<Permission>, granted: map<Permission, bool>,
                                    rationale: map<Permission, bool>, answers: seq<bool>)
    ensures var events := RequestEvents(required, granted, rationale, answers);
      && (AllGranted in events <==> forall i :: 0 <= i < |required| ==> Holds(granted, required[i]))
      && (AllGranted in events ==> events == [AllGranted])
      && forall e :: e in events ==> !e.Denied?
  {
    if !HasPermissions(required, granted) {
      RoundEvents(required, required, rationale, answers);
    }
  }

  /** A walk that meets no flagged permission emits nothing. */
  lemma {:induction false} RoundQuietWithoutFlags(required: seq<Permission>, ps: seq<Permission>,
                                                  rationale: map<Permission, bool>, answers: seq<bool>)
    requires Flagged(ps, rationale) == []
    ensures RationaleRound(required, ps, rationale, answers) == []
    decreases |ps|
  {
    if ps != [] {
      var init, p := ps[..|ps| - 1], ps[|ps| - 1];
      assert ps == init + [p];
      RoundSnoc(required, init, p, rationale, answers);
      RoundQuietWithoutFlags(required, init, rationale, answers);
    }
  }

  /**
   * When something is missing and no permission is flagged, the one and only
   * thing `requestPermissions()` does is launch the full required list.
   */
  lemma RequestWithoutRationale(required: seq<Permission>, granted: map<Permission, bool>,
                                rationale: map<Permission, bool>, answers: seq<bool>)
    requires !HasPermissions(required, granted)
    requires forall i :: 0 <= i < |required| ==> !Holds(rationale, required[i])
    ensures RequestEvents(required, granted, rationale, answers) == [Launch(required)]
  {
    FlaggedNone(required, rationale);
    RoundQuietWithoutFlags(required, required, rationale, answers);
  }

  /**
   * When something is missing and some permissions are flagged, the
   * rationale callback is called once per flagged permission, always with
   * the whole required list, and the launches are single-permission requests
   * for exactly the flagged permissions whose callback answered true, in
   * order: at most one per flagged permission.
   */
  lemma RequestWithRationale(required: seq<Permission>, granted: map<Permission, bool>,
                             rationale: map<Permission, bool>, answers: seq<bool>)
    requires !HasPermissions(required, granted)
    requires exists i :: 0 <= i < |required| && Holds(rationale, required[i])
    ensures var events := RequestEvents(required, granted, rationale, answers);
      && |Shown(events)| == |Flagged(required, rationale)|
      && (forall list :: list in Shown(events) ==> list == required)
      && Launched(events) == Accepted(Flagged(required, rationale), answers)
      && |Launched(events)| <= |Flagged(required, rationale)|
      && forall e :: e in events && e.Launch? ==>
           |e.permissions| == 1 && Holds(rationale, e.permissions[0])
  {
    FlaggedMembers(required, rationale);
    var i :| 0 <= i < |required| && Holds(rationale, required[i]);
    assert required[i] in Flagged(required, rationale);
    var events := RequestEvents(required, granted, rationale, answers);
    assert events == RationaleRound(required, required, rationale, answers);
    RoundShown(required, required, rationale, answers);
    RoundLaunched(required, required, rationale, answers);
    RoundEvents(required, required, rationale, answers);
  }

  /**
   * The result callback: onDenied with exactly the permissions reported as
   * not granted when there are any, onAllGranted otherwise; no second
   * rationale round and no launch.
   */
  lemma ResultOutcome(result: RequestResult)
    ensures var events := ResultEvents(result);
      && |events| == 1
      && (events[0] == AllGranted <==> forall k :: 0 <= k < |result| ==> result[k].1)
      && (events[0].Denied? <==> exists k :: 0 <= k < |result| && !result[k].1)
      && (events[0].Denied? ==>
            events[0].permissions == DeniedOf(result)
            && forall p :: p in events[0].permissions <==> (p, false) in result)
      && !events[0].ShowRationale? && !events[0].Launch?
  {
  }

  /**
   * The manager of the `example` sample. The platform oracles and the
   * rationale callback's answers are passed to each step; `log` records
   * every callback fired and every request launched.
   */
  class PermissionsManager {
    const required: seq<Permission>
    var log: seq<Event>

    constructor (required: seq<Permission>)
      ensures this.required == required && log == []
    {
      this.required := required;
      log := [];
    }

    /** `requestPermissions()` */
    method RequestPermissions(granted: map<Permission, bool>, rationale: map<Permission, bool>,
                              answers: seq<bool>)
      modifies this
      ensures log == old(log) + RequestEvents(required, granted, rationale, answers)
    {
      if HasPermissions(required, granted) {
        log := log + [AllGranted];
      } else {
        var hasShownRationale := WalkRationales(rationale, answers);
        ghost var round := RationaleRound(required, required, rationale, answers);
        if !hasShownRationale {
          log := log + [Launch(required)];
          AppendAssociates(old(log), round, [Launch(required)]);
        } else {
          assert round + [] == round;
        }
      }
    }

    /**
     * The `forEach` of `requestPermissions()` over the required list, with
     * its `hasShownRationale` flag.
     */
    method WalkRationales(rationale: map<Permission, bool>, answers: seq<bool>)
      returns (hasShownRationale: bool)
      modifies this
      ensures log == old(log) + RationaleRound(required, required, rationale, answers)
      ensures hasShownRationale <==> Flagged(required, rationale) != []
    {
      ghost var log0 := log;
      hasShownRationale := false;
      var calls := 0;  // how many times the rationale callback has been asked so far
      var i := 0;
      while i < |required|
        invariant 0 <= i <= |required|
        invariant log == log0 + RationaleRound(required, required[..i], rationale, answers)
        invariant calls == |Flagged(required[..i], rationale)|
        invariant hasShownRationale <==> calls > 0
      {
        ghost var before := RationaleRound(required, required[..i], rationale, answers);
        var flagged := VisitPermission(required[i], rationale, answers, calls);
        ghost var step := Step(required, required[i], rationale, answers, calls);
        RoundPrefixStep(required, i, rationale, answers);
        AppendAssociates(log0, before, step);
        if flagged {
          hasShownRationale := true;
          calls := calls + 1;
        }
        assert log == log0 + RationaleRound(required, required[..i + 1], rationale, answers);
        assert calls == |Flagged(required[..i + 1], rationale)|;
        i := i + 1;
      }
      assert required[..|required|] == required;
    }

    /**
     * The body of the `forEach` for permission `p`, the rationale callback
     * having been asked `calls` times before; reports whether `p` is flagged.
     */
    method VisitPermission(p: Permission, rationale: map<Permission, bool>, answers: seq<bool>,
                           calls: nat) returns (flagged: bool)
      modifies this
      ensures flagged == Holds(rationale, p)
      ensures log == old(log) + Step(required, p, rationale, answers, calls)
    {
      flagged := Holds(rationale, p);
      if flagged {
        log := log + [ShowRationale(required)];
        if Answer(answers, calls) {
          log := log + [Launch([p])];
        }
      }
    }

    /** The `requestMultiplePermissions` result callback. */
    method OnPermissionsResult(result: RequestResult)
      modifies this
      ensures log == old(log) + ResultEvents(result)
    {
      var denied := DeniedOf(result);
      if denied != [] {
        log := log + [Denied(denied)];
      } else {
        log := log + [AllGranted];
      }
    }
  }
}
