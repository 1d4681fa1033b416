/**
 * What both permission managers share: the platform oracles, the events a
 * manager emits (callbacks it fires and requests it launches), and the
 * list operations they apply to the required permissions and to a request
 * result.
 */
module Permissions {

  /** A platform permission name such as "android.permission.CAMERA". */
  type Permission = string

  /**
   * A platform oracle (`checkSelfPermission(p) == PERMISSION_GRANTED`, or
   * `shouldShowRequestPermissionRationale(p)`) at the moment it is asked.
   * A permission the map does not mention reads as false.
   */
  predicate Holds(oracle: map<Permission, bool>, p: Permission)
  {
    p in oracle && oracle[p]
  }

  /** What a manager does, as seen from outside: a callback or a launch. */
  datatype Event =
    | AllGranted                                   // onAllGranted()
    | ShowRationale(permissions: seq<Permission>)  // onShowPermissionRationale(permissions, ...)
    | Launch(permissions: seq<Permission>)         // requestMultiplePermissions.launch(permissions)
    | Denied(permissions: seq<Permission>)         // onDenied(permissions)

  /**
   * The entries of the map a permission request returns, in its iteration
   * order: each permission with whether it was granted.
   */
  type RequestResult = seq<(Permission, bool)>

  /** Kotlin's `Iterable.all` over a list of permissions. */
  function All(ps: seq<Permission>, f: Permission -> bool): (r: bool)
    ensures r <==> forall i :: 0 <= i < |ps| ==> f(ps[i])
  {
    if ps == [] then true else f(ps[0]) && All(ps[1..], f)
  }

  /** `ps.filter { oracle(it) }`: the members of `ps` the oracle flags, in order. */
  function Flagged(ps: seq<Permission>, oracle: map<Permission, bool>): (r: seq<Permission>)
    ensures |r| <= |ps|
  {
    if ps == [] then []
    else
      var init, p := ps[..|ps| - 1], ps[|ps| - 1];
      Flagged(init, oracle) + (if Holds(oracle, p) then [p] else [])
  }

  /** The filter keeps exactly the flagged members. */
  lemma {:induction false} FlaggedMembers(ps: seq<Permission>, oracle: map<Permission, bool>)
    ensures forall p :: p in Flagged(ps, oracle) <==> p in ps && Holds(oracle, p)
    decreases |ps|
  {
    if ps != [] {
      var init, p := ps[..|ps| - 1], ps[|ps| - 1];
      assert ps == init + [p];
      FlaggedMembers(init, oracle);
    }
  }

  /** Filtering keeps order: it distributes over concatenation. */
  lemma {:induction false} FlaggedAppend(a: seq<Permission>, b: seq<Permission>, oracle: map<Permission, bool>)
    ensures Flagged(a + b, oracle) == Flagged(a, oracle) + Flagged(b, oracle)
    decreases |b|
  {
    if b == [] {
      assert a + b == a;
    } else {
      var init, p := b[..|b| - 1], b[|b| - 1];
      assert (a + b)[..|a + b| - 1] == a + init;
      assert (a + b)[|a + b| - 1] == p;
      FlaggedAppend(a, init, oracle);
    }
  }

  /** A list with no flagged member filters to nothing. */
  lemma {:induction false} FlaggedNone(ps: seq<Permission>, oracle: map<Permission, bool>)
    requires forall i :: 0 <= i < |ps| ==> !Holds(oracle, ps[i])
    ensures Flagged(ps, oracle) == []
    decreases |ps|
  {
    if ps != [] {
      FlaggedNone(ps[..|ps| - 1], oracle);
    }
  }

  /**
   * `permissions.filter { !it.value }.keys.toList()`: the permissions the
   * result reports as not granted, in the result's order.
   */
  function DeniedOf(result: RequestResult): (denied: seq<Permission>)
    ensures forall p :: p in denied <==> (p, false) in result
    ensures |denied| <= |result|
    ensures denied == [] <==> forall k :: 0 <= k < |result| ==> result[k].1
  {
    if result == [] then []
    else
      assert result == [result[0]] + result[1..];
      (if result[0].1 then [] else [result[0].0]) + DeniedOf(result[1..])
  }
}
