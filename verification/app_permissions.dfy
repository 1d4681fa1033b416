/**
 * The permission gate of the `app` sample. A request either reports that
 * everything is granted, shows a rationale for the permissions the platform
 * says need one (with a retry that requests exactly those), or requests the
 * whole list. Its result handler may go back to the rationale step.
 */
module AppPermissions {
  import opened Permissions

  /** `hasAllPermissions()` */
  predicate HasAllPermissions(required: seq<Permission>, granted: map<Permission, bool>)
    ensures HasAllPermissions(required, granted)
        <==> forall i :: 0 <= i < |required| ==> Holds(granted, required[i])
  {
    All(required, p => Holds(granted, p))
  }

  /** `hasShownAllRationales()`: no required permission is still owed a rationale. */
  predicate HasShownAllRationales(required: seq<Permission>, rationale: map<Permission, bool>)
    ensures HasShownAllRationales(required, rationale)
        <==> forall i :: 0 <= i < |required| ==> !Holds(rationale, required[i])
  {
    All(required, p => !Holds(rationale, p))
  }

  /** The events `requestRationales()` emits: the rationale callback, if its list is not empty. */
  function RationaleEvents(required: seq<Permission>, rationale: map<Permission, bool>): (r: seq<Event>)
    ensures |r| <= 1
    ensures r == [] <==> HasShownAllRationales(required, rationale)
    ensures forall e :: e in r ==> e.ShowRationale? && e.permissions != []
  {
    ShownAllIffNoRationales(required, rationale);
    var rationales := Flagged(required, rationale);
    if rationales != [] then [ShowRationale(rationales)] else []
  }

  /** The events `requestPermissions()` emits. */
  function RequestEvents(required: seq<Permission>, granted: map<Permission, bool>,
                         rationale: map<Permission, bool>): (r: seq<Event>)
    ensures |r| == 1 && !r[0].Denied?
  {
    if HasAllPermissions(required, granted) then [AllGranted]
    else
      RationaleEvents(required, rationale)
      + (if Flagged(required, rationale) == [] then [Launch(required)] else [])
  }

  /** The events the `requestMultiplePermissions` result callback emits. */
  function ResultEvents(required: seq<Permission>, rationale: map<Permission, bool>,
                        result: RequestResult): (r: seq<Event>)
    ensures |r| == 1 && !r[0].Launch?
  {
    var denied := DeniedOf(result);
    if denied != [] then
      if !HasShownAllRationales(required, rationale) then RationaleEvents(required, rationale)
      else [Denied(denied)]
    else [AllGranted]
  }

  /** `hasShownAllRationales()` holds exactly when `requestRationales()` collects nothing. */
  lemma ShownAllIffNoRationales(required: seq<Permission>, rationale: map<Permission, bool>)
    ensures HasShownAllRationales(required, rationale) <==> Flagged(required, rationale) == []
  {
    FlaggedMembers(required, rationale);
    if !HasShownAllRationales(required, rationale) {
      var i :| 0 <= i < |required| && Holds(rationale, required[i]);
      assert required[i] in Flagged(required, rationale);
    }
  }

  /**
   * `requestPermissions()` emits exactly one event. It is onAllGranted exactly
   * when every required permission is granted; otherwise the rationale
   * callback receives exactly the flagged permissions in required-list order
   * if there are any, and the full required list is launched if there are none.
   */
  lemma RequestOutcome(required: seq<Permission>, granted: map<Permission, bool>,
                       rationale: map<Permission, bool>)
    ensures var events := RequestEvents(required, granted, rationale);
      && |events| == 1
      && (events[0] == AllGranted <==> forall i :: 0 <= i < |required| ==> Holds(granted, required[i]))
      && (events[0].ShowRationale? <==>
            (exists i :: 0 <= i < |required| && !Holds(granted, required[i]))
            && (exists j :: 0 <= j < |required| && Holds(rationale, required[j])))
      && (events[0].ShowRationale? ==>
            events[0].permissions == Flagged(required, rationale)
            && events[0].permissions != []
            && forall p :: p in events[0].permissions <==> p in required && Holds(rationale, p))
      && (events[0] == Launch(required) <==>
            (exists i :: 0 <= i < |required| && !Holds(granted, required[i]))
            && (forall j :: 0 <= j < |required| ==> !Holds(rationale, required[j])))
      && !events[0].Denied?
  {
    ShownAllIffNoRationales(required, rationale);
    FlaggedMembers(required, rationale);
  }

  /**
   * The list the rationale callback receives, and so the list its retry
   * launches, leaves out every required permission that is not flagged: it
   * is not the full required list as soon as one permission is unflagged.
   */
  lemma RetryRequestsOnlyRationales(required: seq<Permission>, granted: map<Permission, bool>,
                                    rationale: map<Permission, bool>, i: nat)
    requires !HasAllPermissions(required, granted)
    requires i < |required| && !Holds(rationale, required[i])
    ensures forall list :: ShowRationale(list) in RequestEvents(required, granted, rationale) ==>
              required[i] !in list && list != required
  {
    FlaggedMembers(required, rationale);
  }

  /**
   * The result callback takes exactly one of three branches: onAllGranted
   * when nothing was denied; a new rationale round when something was denied
   * and any required permission (not only a denied one) is still flagged;
   * otherwise onDenied with exactly this round's denied permissions. It never
   * launches a request itself.
   */
  lemma ResultOutcome(required: seq<Permission>, rationale: map<Permission, bool>, result: RequestResult)
    ensures var events := ResultEvents(required, rationale, result);
      && |events| == 1
      && (events[0] == AllGranted <==> forall k :: 0 <= k < |result| ==> result[k].1)
      && (events[0].ShowRationale? <==>
            (exists k :: 0 <= k < |result| && !result[k].1)
            && (exists j :: 0 <= j < |required| && Holds(rationale, required[j])))
      && (events[0].ShowRationale? ==> events[0].permissions == Flagged(required, rationale))
      && (events[0].Denied? <==>
            (exists k :: 0 <= k < |result| && !result[k].1)
            && (forall j :: 0 <= j < |required| ==> !Holds(rationale, required[j])))
      && (events[0].Denied? ==>
            events[0].permissions == DeniedOf(result)
            && forall p :: p in events[0].permissions <==> (p, false) in result)
      && !events[0].Launch?
  {
    ShownAllIffNoRationales(required, rationale);
  }

  /**
   * Two permissions, both denied, a rationale owed for the first only: the
   * rationale names the first alone, its retry requests it alone, and once
   * the platform stops flagging it a second denial ends in onDenied with it.
   */
  lemma RationaleThenDenied(a: Permission, b: Permission)
    requires a != b
    ensures RequestEvents([a, b], map[a := false, b := false], map[a := true, b := false])
         == [ShowRationale([a])]
    ensures ResultEvents([a, b], map[a := false, b := false], [(a, false)]) == [Denied([a])]
  {
    var rationale := map[a := true, b := false];
    assert [a, b][..1] == [a];
    assert [a][..0] == [];
    assert Flagged([a, b], rationale) == [a];
    assert !HasAllPermissions([a, b], map[a := false, b := false]);
    assert HasShownAllRationales([a, b], map[a := false, b := false]);
    assert [(a, false)][1..] == [];
    assert DeniedOf([(a, false)]) == [a];
  }

  /**
   * Two permissions, both missing, a rationale owed for the first only: the
   * retry requests the first alone, and when that request is granted the
   * result handler fires onAllGranted although the second is still not
   * granted, since it looks only at the permissions of this result.
   */
  lemma RetryGrantedEndsAllGranted(a: Permission, b: Permission)
    requires a != b
    ensures RequestEvents([a, b], map[a := false, b := false], map[a := true, b := false])
         == [ShowRationale([a])]
    ensures ResultEvents([a, b], map[a := false, b := false], [(a, true)]) == [AllGranted]
    ensures !HasAllPermissions([a, b], map[a := true, b := false])
  {
    var rationale := map[a := true, b := false];
    assert [a, b][..1] == [a];
    assert [a][..0] == [];
    assert Flagged([a, b], rationale) == [a];
    assert !HasAllPermissions([a, b], map[a := false, b := false]);
    assert !Holds(map[a := true, b := false], [a, b][1]);
    assert [(a, true)][1..] == [];
    assert DeniedOf([(a, true)]) == [];
  }

  /**
   * A request whose result has no entries, as when the platform dialog is
   * dismissed, ends in onAllGranted whatever is still missing, since
   * nothing in it is reported denied.
   */
  lemma EmptyResultEndsAllGranted(required: seq<Permission>, rationale: map<Permission, bool>)
    ensures ResultEvents(required, rationale, []) == [AllGranted]
  {
    assert DeniedOf([]) == [];
  }

  /**
   * The manager of the `app` sample. The platform oracles are passed to each
   * step as they stand at that moment; `log` records every callback fired
   * and every request launched.
   */
  class PermissionsManager {
    const required: seq<Permission>
    var log: seq<Event>

    constructor (required: seq<Permission>)
      ensures this.required == required && log == []
    {
      this.required := required;
      log := [];
    }

    /** `requestPermissions()` */
    method RequestPermissions(granted: map<Permission, bool>, rationale: map<Permission, bool>)
      modifies this
      ensures log == old(log) + RequestEvents(required, granted, rationale)
    {
      if HasAllPermissions(required, granted) {
        log := log + [AllGranted];
      } else {
        var noRationale := RequestRationales(rationale);
        if noRationale {
          log := log + [Launch(required)];
        }
      }
    }

    /**
     * `requestRationales()`: collects the flagged permissions, shows the
     * rationale for them if there are any, and reports whether there were none.
     */
    method RequestRationales(rationale: map<Permission, bool>) returns (noRationale: bool)
      modifies this
      ensures noRationale <==> Flagged(required, rationale) == []
      ensures log == old(log) + RationaleEvents(required, rationale)
    {
      var rationales: seq<Permission> := [];
      var i := 0;
      while i < |required|
        invariant 0 <= i <= |required|
        invariant rationales == Flagged(required[..i], rationale)
      {
        assert required[..i + 1][..i] == required[..i];
        if Holds(rationale, required[i]) {
          rationales := rationales + [required[i]];
        }
        i := i + 1;
      }
      assert required[..|required|] == required;
      if rationales != [] {
        log := log + [ShowRationale(rationales)];
      }
      noRationale := rationales == [];
    }

    /**
     * The retry handed to the rationale callback logged at `k`, invoked:
     * it requests exactly the list that callback received.
     */
    method Retry(k: nat)
      requires k < |log| && log[k].ShowRationale?
      modifies this
      ensures log == old(log) + [Launch(old(log)[k].permissions)]
    {
      log := log + [Launch(log[k].permissions)];
    }

    /** The `requestMultiplePermissions` result callback. */
    method OnPermissionsResult(result: RequestResult, rationale: map<Permission, bool>)
      modifies this
      ensures log == old(log) + ResultEvents(required, rationale, result)
    {
      var denied := DeniedOf(result);
      if denied != [] {
        if !HasShownAllRationales(required, rationale) {
          var _ := RequestRationales(rationale);
        } else {
          log := log + [Denied(denied)];
        }
      } else {
        log := log + [AllGranted];
      }
    }
  }
}
