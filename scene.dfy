/**
 * Scene objects.  A GameObject is an engine object with identity: the mover
 * scripts key dictionaries on it, and the same object may be listed twice, or
 * be both a mover object and a step controller.  Only the two transform values
 * the scripts read and write are kept.
 */
module Scene {
  import opened Wrappers
  import opened UnityMath

  class GameObject {
    var localPosition: Vec3
    var localRotation: Quaternion

    constructor (localPosition: Vec3, localRotation: Quaternion)
      ensures this.localPosition == localPosition && this.localRotation == localRotation
    {
      this.localPosition := localPosition;
      this.localRotation := localRotation;
    }
  }

  /** The writes of one loop iteration of a mover script: each present value replaces the object's own. */
  method Apply(o: GameObject, position: Option<Vec3>, rotation: Option<Quaternion>)
    modifies o
    ensures o.localPosition == if position.Some? then position.value else old(o.localPosition)
    ensures o.localRotation == if rotation.Some? then rotation.value else old(o.localRotation)
  {
    if position.Some? {
      o.localPosition := position.value;
    }
    if rotation.Some? {
      o.localRotation := rotation.value;
    }
  }

  /**
   * The value object o holds after a loop has written writes[i] (when present)
   * to objs[i] for i = 0 .. n-1 in order, starting from d: the last write to o
   * wins.
   */
  function LastWrite<T>(objs: seq<GameObject>, writes: seq<Option<T>>, n: nat, o: GameObject, d: T): T
    requires n <= |objs| && n <= |writes|
    decreases n
  {
    if n == 0 then d
    else if objs[n - 1] == o && writes[n - 1].Some? then writes[n - 1].value
    else LastWrite(objs, writes, n - 1, o, d)
  }

  /** No two of the first n objects are the same object. */
  predicate Distinct(objs: seq<GameObject>, n: nat)
    requires n <= |objs|
  {
    forall i, j :: 0 <= i < j < n ==> objs[i] != objs[j]
  }

  /** An object the loop never writes, because it is not listed or all its writes are absent, keeps its value. */
  lemma {:induction false} LastWriteUntouched<T>(objs: seq<GameObject>, writes: seq<Option<T>>, n: nat, o: GameObject, d: T)
    requires n <= |objs| && n <= |writes|
    requires forall i :: 0 <= i < n && objs[i] == o ==> writes[i].None?
    ensures LastWrite(objs, writes, n, o, d) == d
  {
    if n > 0 {
      LastWriteUntouched(objs, writes, n - 1, o, d);
    }
  }

  /** When every object is listed once, object k ends with its own write, or keeps its value. */
  lemma {:induction false} LastWriteDistinct<T>(objs: seq<GameObject>, writes: seq<Option<T>>, n: nat, k: nat, d: T)
    requires n <= |objs| && n <= |writes| && k < n
    requires Distinct(objs, n)
    ensures LastWrite(objs, writes, n, objs[k], d) == if writes[k].Some? then writes[k].value else d
  {
    if k == n - 1 {
      if writes[k].None? {
        LastWriteUntouched(objs, writes, n - 1, objs[k], d);
      }
    } else {
      LastWriteDistinct(objs, writes, n - 1, k, d);
    }
  }

  /** When every write is present, an object listed at all ends with the write of its last listing. */
  lemma {:induction false} LastWriteAllPresent<T>(objs: seq<GameObject>, writes: seq<Option<T>>, n: nat, k: nat, d: T)
    requires n <= |objs| && n <= |writes| && k < n
    requires forall i :: 0 <= i < n ==> writes[i].Some?
    requires forall i :: k < i < n ==> objs[i] != objs[k]
    ensures LastWrite(objs, writes, n, objs[k], d) == writes[k].value
  {
    if k < n - 1 {
      LastWriteAllPresent(objs, writes, n - 1, k, d);
    }
  }
  /** Writing an object only its own value, or nothing, leaves it as it was. */
  lemma {:induction false} LastWriteSameValue<T>(objs: seq<GameObject>, writes: seq<Option<T>>, n: nat, o: GameObject, d: T)
    requires n <= |objs| && n <= |writes|
    requires forall i :: 0 <= i < n && objs[i] == o && writes[i].Some? ==> writes[i].value == d
    ensures LastWrite(objs, writes, n, o, d) == d
  {
    if n > 0 {
      LastWriteSameValue(objs, writes, n - 1, o, d);
    }
  }

  /** objs[k] is the last listing of its object. */
  predicate LastListing(objs: seq<GameObject>, k: nat)
    requires k < |objs|
  {
    forall j :: k < j < |objs| ==> objs[j] != objs[k]
  }

  /** Every listed object has a last listing. */
  lemma {:induction false} LastListingExists(objs: seq<GameObject>, o: GameObject) returns (k: nat)
    requires o in objs
    ensures k < |objs| && objs[k] == o && LastListing(objs, k)
  {
    var n := |objs|;
    if objs[n - 1] == o {
      k := n - 1;
    } else {
      var prefix := objs[..n - 1];
      assert o in prefix by {
        var i :| 0 <= i < n && objs[i] == o;
        assert prefix[i] == o;
      }
      k := LastListingExists(prefix, o);
      assert objs[k] == prefix[k];
      forall j | k < j < n
        ensures objs[j] != objs[k]
      {
        if j < n - 1 {
          assert objs[j] == prefix[j];
        }
      }
    }
  }
}
