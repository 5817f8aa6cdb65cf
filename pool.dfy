/** Fixed-capacity pools of reusable game objects. A pool is seen here through the
    `active` flags of its slots, in slot order: a slot is never freed, only switched
    off, and a request for a new object is served by the first inactive slot. */
module Pool {
  import opened Options

  /** The `maxSize` of the enemy group and of the projectile group. */
  const ENEMY_CAPACITY := 50
  const PROJECTILE_CAPACITY := 30

  /** The slot a request is served from: the first inactive one, or none when every slot
      is active (the request is then silently skipped). */
  function FirstInactive(flags: seq<bool>): (r: Option<nat>)
    ensures r.None? <==> forall i :: 0 <= i < |flags| ==> flags[i]
    ensures r.Some? ==> r.value < |flags| && !flags[r.value]
    ensures r.Some? ==> forall i :: 0 <= i < r.value ==> flags[i]
  {
    if |flags| == 0 then None
    else if !flags[0] then Some(0)
    else
      match FirstInactive(flags[1..])
      case None => None
      case Some(k) => Some(k + 1)
  }

  /** Number of active slots. */
  function CountActive(flags: seq<bool>): (r: nat)
    ensures r <= |flags|
    ensures r == |flags| <==> forall i :: 0 <= i < |flags| ==> flags[i]
    ensures r == 0 <==> forall i :: 0 <= i < |flags| ==> !flags[i]
  {
    if |flags| == 0 then 0
    else (if flags[0] then 1 else 0) + CountActive(flags[1..])
  }

  /** Switching one inactive slot on adds exactly one active object. */
  lemma {:induction false} CountAfterActivate(flags: seq<bool>, k: nat)
    requires k < |flags| && !flags[k]
    ensures CountActive(flags[k := true]) == CountActive(flags) + 1
  {
    if k > 0 {
      assert flags[k := true][1..] == flags[1..][k - 1 := true];
      CountAfterActivate(flags[1..], k - 1);
    } else {
      assert flags[k := true][1..] == flags[1..];
    }
  }

  /** Switching one active slot off removes exactly one active object. */
  lemma {:induction false} CountAfterDeactivate(flags: seq<bool>, k: nat)
    requires k < |flags| && flags[k]
    ensures CountActive(flags[k := false]) + 1 == CountActive(flags)
  {
    if k > 0 {
      assert flags[k := false][1..] == flags[1..][k - 1 := false];
      CountAfterDeactivate(flags[1..], k - 1);
    } else {
      assert flags[k := false][1..] == flags[1..];
    }
  }

  /** Serving a request from the first inactive slot never pushes the number of active
      objects past the capacity: it grows by one when a slot was free and stays put
      otherwise. */
  lemma AcquireWithinCapacity(flags: seq<bool>)
    ensures FirstInactive(flags).Some? ==>
              CountActive(flags[FirstInactive(flags).value := true]) == CountActive(flags) + 1 <= |flags|
    ensures FirstInactive(flags).None? ==> CountActive(flags) == |flags|
  {
    if FirstInactive(flags).Some? {
      var k := FirstInactive(flags).value;
      CountAfterActivate(flags, k);
      assert CountActive(flags[k := true]) <= |flags[k := true]|;
    }
  }

  /** Switching slots off, never on, cannot raise the number of active objects. */
  lemma {:induction false} CountMonotone(fewer: seq<bool>, more: seq<bool>)
    requires |fewer| == |more|
    requires forall i :: 0 <= i < |fewer| && fewer[i] ==> more[i]
    ensures CountActive(fewer) <= CountActive(more)
  {
    if |fewer| > 0 {
      CountMonotone(fewer[1..], more[1..]);
    }
  }
}
