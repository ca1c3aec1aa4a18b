/**
 * MoverControls, the first revision of the procedural mover.  Start captures
 * each object's local position and the x, y, z components of its local
 * rotation quaternion into its parameters.  Update advances the phase timer
 * and, object by object, adds the enabled clamped sine, clamped cosine and
 * curve terms onto a base: the local position, or, when the rotation is moved,
 * the captured rotation components divided by 180, which replace the position
 * base.  The sum is written as the local position and, multiplied by 180, as
 * Euler angles of the local rotation.  Time.deltaTime is a parameter of Update.
 */
module MoverControls {
  import opened Wrappers
  import opened UnityMath
  import opened Scene
  import opened MoverCore

  /** The curve term of this revision: the curve's value used as a Lerp parameter between the clamp bounds. */
  function CurveLerpTerm(a: AxisParams, lerpTimer: real): (r: real)
    ensures a.clampMin <= a.clampMax ==> a.clampMin <= r <= a.clampMax
    ensures a.animCurve(lerpTimer) <= 0.0 ==> r == a.clampMin
    ensures a.animCurve(lerpTimer) >= 1.0 ==> r == a.clampMax
  {
    Lerp(a.clampMin, a.clampMax, a.animCurve(lerpTimer))
  }

  /** What an axis adds onto its base: each term only when its flag is set. */
  function AxisTerms(a: AxisParams, moverTime: real, lerpTimer: real, lib: UnityLib): real {
    Term(a.sine, ClampedSine(a, moverTime, lib))
      + Term(a.cosine, ClampedCosine(a, moverTime, lib))
      + Term(a.curve, CurveLerpTerm(a, lerpTimer))
  }

  /**
   * Every term is clamped into [clampMin, clampMax], so the added total lies
   * between the enabled terms' count times clampMin and times clampMax.
   */
  lemma AxisTermsBounds(a: AxisParams, moverTime: real, lerpTimer: real, lib: UnityLib)
    requires a.clampMin <= a.clampMax
    ensures Term(a.sine, a.clampMin) + Term(a.cosine, a.clampMin) + Term(a.curve, a.clampMin)
         <= AxisTerms(a, moverTime, lerpTimer, lib)
         <= Term(a.sine, a.clampMax) + Term(a.cosine, a.clampMax) + Term(a.curve, a.clampMax)
  {
    var s := ClampedSine(a, moverTime, lib);
    var c := ClampedCosine(a, moverTime, lib);
    var l := CurveLerpTerm(a, lerpTimer);
    assert a.clampMin <= s <= a.clampMax && a.clampMin <= c <= a.clampMax && a.clampMin <= l <= a.clampMax;
  }

  /** The base of the three axes: zero, the captured position, or the captured rotation over 180, the last one winning. */
  function Base(p: ObjectParams): Vec3 {
    var b := if p.movePosition then p.capturedPosition else Zero;
    if p.moveRotation then Vec3(p.capturedAngles.x / 180.0, p.capturedAngles.y / 180.0, p.capturedAngles.z / 180.0)
    else b
  }

  /** localX, localY, localZ after the additions. */
  function ObjectLocal(p: ObjectParams, moverTime: real, lerpTimer: real, lib: UnityLib): Vec3 {
    var b := Base(p);
    Vec3(b.x + AxisTerms(p.x, moverTime, lerpTimer, lib),
         b.y + AxisTerms(p.y, moverTime, lerpTimer, lib),
         b.z + AxisTerms(p.z, moverTime, lerpTimer, lib))
  }

  /** The local position Update writes to the object, if it writes one. */
  function PositionWrite(p: ObjectParams, moverTime: real, lerpTimer: real, lib: UnityLib): Option<Vec3> {
    if p.movePosition then Some(ObjectLocal(p, moverTime, lerpTimer, lib)) else None
  }

  /** The Euler angles of the rotation write: the local values times 180. */
  function RotationAngles(p: ObjectParams, moverTime: real, lerpTimer: real, lib: UnityLib): Vec3 {
    var l := ObjectLocal(p, moverTime, lerpTimer, lib);
    Vec3(l.x * 180.0, l.y * 180.0, l.z * 180.0)
  }

  /** The local rotation Update writes to the object, if it writes one. */
  function RotationWrite(p: ObjectParams, moverTime: real, lerpTimer: real, lib: UnityLib): Option<Quaternion> {
    if p.moveRotation then Some(lib.euler(RotationAngles(p, moverTime, lerpTimer, lib))) else None
  }

  /**
   * With the rotation moved, the division by 180 and the later multiplication
   * cancel: each angle is the captured component plus 180 times the added terms.
   */
  lemma RotationIsCapturedPlusTerms(p: ObjectParams, moverTime: real, lerpTimer: real, lib: UnityLib)
    requires p.moveRotation
    ensures RotationAngles(p, moverTime, lerpTimer, lib)
         == Vec3(p.capturedAngles.x + 180.0 * AxisTerms(p.x, moverTime, lerpTimer, lib),
                 p.capturedAngles.y + 180.0 * AxisTerms(p.y, moverTime, lerpTimer, lib),
                 p.capturedAngles.z + 180.0 * AxisTerms(p.z, moverTime, lerpTimer, lib))
  {
    var tx, ty, tz := AxisTerms(p.x, moverTime, lerpTimer, lib), AxisTerms(p.y, moverTime, lerpTimer, lib), AxisTerms(p.z, moverTime, lerpTimer, lib);
    var c := p.capturedAngles;
    assert ObjectLocal(p, moverTime, lerpTimer, lib) == Vec3(c.x / 180.0 + tx, c.y / 180.0 + ty, c.z / 180.0 + tz);
    assert (c.x / 180.0 + tx) * 180.0 == c.x + 180.0 * tx;
    assert (c.y / 180.0 + ty) * 180.0 == c.y + 180.0 * ty;
    assert (c.z / 180.0 + tz) * 180.0 == c.z + 180.0 * tz;
  }

  /**
   * With both flags set, the rotation base replaces the position base, so the
   * position written is the captured rotation over 180 plus the added terms,
   * and the captured position plays no part.
   */
  lemma RotationBaseOverridesPosition(p: ObjectParams, q: ObjectParams, moverTime: real, lerpTimer: real, lib: UnityLib)
    requires p.movePosition && p.moveRotation
    requires q == p.(capturedPosition := q.capturedPosition)
    ensures PositionWrite(p, moverTime, lerpTimer, lib) == PositionWrite(q, moverTime, lerpTimer, lib)
    ensures PositionWrite(p, moverTime, lerpTimer, lib)
         == Some(Vec3(p.capturedAngles.x / 180.0 + AxisTerms(p.x, moverTime, lerpTimer, lib),
                      p.capturedAngles.y / 180.0 + AxisTerms(p.y, moverTime, lerpTimer, lib),
                      p.capturedAngles.z / 180.0 + AxisTerms(p.z, moverTime, lerpTimer, lib)))
  {
    assert Base(p) == Base(q);
  }

  /** One axis of Update's loop body: the base, then the enabled terms added one by one. */
  method ComposeAxis(a: AxisParams, base: real, moverTime: real, lerpTimer: real, lib: UnityLib) returns (local: real)
    ensures local == base + AxisTerms(a, moverTime, lerpTimer, lib)
  {
    var sineValue := SineValue(moverTime, a.frequency, a.amplitude, PhaseRadians(a.phaseOffset), a.returnValueOffset, lib);
    if sineValue < a.clampMin { sineValue := a.clampMin; }
    if sineValue > a.clampMax { sineValue := a.clampMax; }
    var cosineValue := CosineValue(moverTime, a.frequency, a.amplitude, PhaseRadians(a.phaseOffset), a.returnValueOffset, lib);
    if cosineValue < a.clampMin { cosineValue := a.clampMin; }
    if cosineValue > a.clampMax { cosineValue := a.clampMax; }

    local := base;
    if a.sine { local := local + sineValue; }
    if a.cosine { local := local + cosineValue; }
    if a.curve { local := local + Lerp(a.clampMin, a.clampMax, a.animCurve(lerpTimer)); }
  }

  /** Update's loop body for one object: what it writes to the position and to the rotation. */
  method EvaluateObject(p: ObjectParams, moverTime: real, lerpTimer: real, lib: UnityLib)
    returns (position: Option<Vec3>, rotation: Option<Quaternion>)
    ensures position == PositionWrite(p, moverTime, lerpTimer, lib)
    ensures rotation == RotationWrite(p, moverTime, lerpTimer, lib)
  {
    var baseX, baseY, baseZ := 0.0, 0.0, 0.0;
    if p.movePosition {
      baseX, baseY, baseZ := p.capturedPosition.x, p.capturedPosition.y, p.capturedPosition.z;
    }
    if p.moveRotation {
      baseX, baseY, baseZ := p.capturedAngles.x / 180.0, p.capturedAngles.y / 180.0, p.capturedAngles.z / 180.0;
    }
    assert Vec3(baseX, baseY, baseZ) == Base(p);
    var localX := ComposeAxis(p.x, baseX, moverTime, lerpTimer, lib);
    var localY := ComposeAxis(p.y, baseY, moverTime, lerpTimer, lib);
    var localZ := ComposeAxis(p.z, baseZ, moverTime, lerpTimer, lib);
    assert Vec3(localX, localY, localZ) == ObjectLocal(p, moverTime, lerpTimer, lib);

    position := None;
    if p.movePosition {
      position := Some(Vec3(localX, localY, localZ));
    }
    rotation := None;
    if p.moveRotation {
      localX, localY, localZ := localX * 180.0, localY * 180.0, localZ * 180.0;
      rotation := Some(lib.euler(Vec3(localX, localY, localZ)));
    }
  }

  /** The position writes of one Update, entry by entry. */
  function PositionWrites(ps: seq<ObjectParams>, moverTime: real, lerpTimer: real, lib: UnityLib): (w: seq<Option<Vec3>>)
    ensures |w| == |ps|
  {
    if |ps| == 0 then []
    else PositionWrites(ps[..|ps| - 1], moverTime, lerpTimer, lib) + [PositionWrite(ps[|ps| - 1], moverTime, lerpTimer, lib)]
  }

  lemma {:induction false} PositionWritesAt(ps: seq<ObjectParams>, i: nat, moverTime: real, lerpTimer: real, lib: UnityLib)
    requires i < |ps|
    ensures PositionWrites(ps, moverTime, lerpTimer, lib)[i] == PositionWrite(ps[i], moverTime, lerpTimer, lib)
  {
    if i < |ps| - 1 {
      PositionWritesAt(ps[..|ps| - 1], i, moverTime, lerpTimer, lib);
    }
  }

  /** The rotation writes of one Update, entry by entry. */
  function RotationWrites(ps: seq<ObjectParams>, moverTime: real, lerpTimer: real, lib: UnityLib): (w: seq<Option<Quaternion>>)
    ensures |w| == |ps|
  {
    if |ps| == 0 then []
    else RotationWrites(ps[..|ps| - 1], moverTime, lerpTimer, lib) + [RotationWrite(ps[|ps| - 1], moverTime, lerpTimer, lib)]
  }

  lemma {:induction false} RotationWritesAt(ps: seq<ObjectParams>, i: nat, moverTime: real, lerpTimer: real, lib: UnityLib)
    requires i < |ps|
    ensures RotationWrites(ps, moverTime, lerpTimer, lib)[i] == RotationWrite(ps[i], moverTime, lerpTimer, lib)
  {
    if i < |ps| - 1 {
      RotationWritesAt(ps[..|ps| - 1], i, moverTime, lerpTimer, lib);
    }
  }

  /** An object none of whose entries moves its position keeps its local position through Update. */
  lemma UnmovedPositionKept(objs: seq<GameObject>, ps: seq<ObjectParams>, moverTime: real, lerpTimer: real, o: GameObject, d: Vec3, lib: UnityLib)
    requires |objs| == |ps|
    requires forall i :: 0 <= i < |ps| && objs[i] == o ==> !ps[i].movePosition
    ensures LastWrite(objs, PositionWrites(ps, moverTime, lerpTimer, lib), |ps|, o, d) == d
  {
    forall i | 0 <= i < |ps| && objs[i] == o {
      PositionWritesAt(ps, i, moverTime, lerpTimer, lib);
    }
    LastWriteUntouched(objs, PositionWrites(ps, moverTime, lerpTimer, lib), |ps|, o, d);
  }

  class MoverControls {
    /** Inspector value. */
    const moveSpeed: real
    /** The gameObject of each parameter entry, in the same order. */
    const gameObjects: seq<GameObject>
    var moverObjectsParameters: seq<ObjectParams>
    /** The x value of the sine graph, starting at 0. */
    var moverTime: real

    ghost predicate Valid()
      reads this
    {
      |gameObjects| == |moverObjectsParameters|
    }

    constructor (moveSpeed: real, gameObjects: seq<GameObject>, moverObjectsParameters: seq<ObjectParams>)
      requires |gameObjects| == |moverObjectsParameters|
      ensures Valid()
      ensures this.moveSpeed == moveSpeed && this.gameObjects == gameObjects
      ensures this.moverObjectsParameters == moverObjectsParameters && moverTime == 0.0
    {
      this.moveSpeed := moveSpeed;
      this.gameObjects := gameObjects;
      this.moverObjectsParameters := moverObjectsParameters;
      moverTime := 0.0;
    }

    /** Start: capture every object's local position and rotation components into its entry. */
    method Start()
      requires Valid()
      modifies this`moverObjectsParameters
      ensures Valid()
      ensures |moverObjectsParameters| == |old(moverObjectsParameters)|
      ensures forall i :: 0 <= i < |moverObjectsParameters| ==>
        moverObjectsParameters[i] == old(moverObjectsParameters[i]).(
          capturedPosition := gameObjects[i].localPosition,
          capturedAngles := Vec3(gameObjects[i].localRotation.x, gameObjects[i].localRotation.y, gameObjects[i].localRotation.z))
    {
      for i := 0 to |moverObjectsParameters|
        invariant |moverObjectsParameters| == |old(moverObjectsParameters)|
        invariant forall j :: 0 <= j < i ==>
          moverObjectsParameters[j] == old(moverObjectsParameters[j]).(
            capturedPosition := gameObjects[j].localPosition,
            capturedAngles := Vec3(gameObjects[j].localRotation.x, gameObjects[j].localRotation.y, gameObjects[j].localRotation.z))
        invariant forall j :: i <= j < |moverObjectsParameters| ==> moverObjectsParameters[j] == old(moverObjectsParameters[j])
      {
        var currentObject := gameObjects[i];
        var rotation := currentObject.localRotation;
        var objParams := moverObjectsParameters[i].(
          capturedPosition := currentObject.localPosition,
          capturedAngles := Vec3(rotation.x, rotation.y, rotation.z));
        moverObjectsParameters := moverObjectsParameters[i := objParams];
      }
    }

    /**
     * Update: advance the phase, then evaluate and write the entries in order;
     * an object listed twice ends with its last entry's writes.
     */
    method Update(dt: real, lib: UnityLib)
      requires Valid()
      modifies this`moverTime, gameObjects
      ensures moverTime == AdvanceMoverTime(old(moverTime), dt, moveSpeed)
      ensures forall k :: 0 <= k < |gameObjects| ==>
        gameObjects[k].localPosition == LastWrite(gameObjects, PositionWrites(moverObjectsParameters, moverTime, LerpTimer(moverTime), lib),
                                           |moverObjectsParameters|, gameObjects[k], old(gameObjects[k].localPosition))
      ensures forall k :: 0 <= k < |gameObjects| ==>
        gameObjects[k].localRotation == LastWrite(gameObjects, RotationWrites(moverObjectsParameters, moverTime, LerpTimer(moverTime), lib),
                                           |moverObjectsParameters|, gameObjects[k], old(gameObjects[k].localRotation))
    {
      moverTime := moverTime + dt * moveSpeed;
      if moverTime >= PI * 2.0 { moverTime := 0.0; }
      var lerpTimer := InverseLerp(0.0, PI * 2.0, moverTime);
      assert lerpTimer == LerpTimer(moverTime);
      WriteObjects(lerpTimer, lib);
    }

    /** Update's loop: every entry's writes, in order, at the current phase. */
    method WriteObjects(lerpTimer: real, lib: UnityLib)
      requires Valid()
      modifies gameObjects
      ensures forall k :: 0 <= k < |gameObjects| ==>
        gameObjects[k].localPosition == LastWrite(gameObjects, PositionWrites(moverObjectsParameters, moverTime, lerpTimer, lib),
                                           |moverObjectsParameters|, gameObjects[k], old(gameObjects[k].localPosition))
      ensures forall k :: 0 <= k < |gameObjects| ==>
        gameObjects[k].localRotation == LastWrite(gameObjects, RotationWrites(moverObjectsParameters, moverTime, lerpTimer, lib),
                                           |moverObjectsParameters|, gameObjects[k], old(gameObjects[k].localRotation))
    {
      ghost var positions := PositionWrites(moverObjectsParameters, moverTime, lerpTimer, lib);
      ghost var rotations := RotationWrites(moverObjectsParameters, moverTime, lerpTimer, lib);
      for i := 0 to |moverObjectsParameters|
        invariant forall k :: 0 <= k < |gameObjects| ==>
          gameObjects[k].localPosition == LastWrite(gameObjects, positions, i, gameObjects[k], old(gameObjects[k].localPosition))
        invariant forall k :: 0 <= k < |gameObjects| ==>
          gameObjects[k].localRotation == LastWrite(gameObjects, rotations, i, gameObjects[k], old(gameObjects[k].localRotation))
      {
        var currentObject := gameObjects[i];
        var position, rotation := EvaluateObject(moverObjectsParameters[i], moverTime, lerpTimer, lib);
        PositionWritesAt(moverObjectsParameters, i, moverTime, lerpTimer, lib);
        RotationWritesAt(moverObjectsParameters, i, moverTime, lerpTimer, lib);
        Apply(currentObject, position, rotation);
      }
    }
  }
}
