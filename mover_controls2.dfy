/**
 * MoverControls2, the second revision of the procedural mover.  The
 * parameters live in a MoveData asset shared with the inspector; Start
 * captures each mover object's local position and local Euler angles into it,
 * but only when the asset lists exactly as many entries as there are mover
 * objects.  Update advances the phase timer, moves the root along its forward
 * axis, composes each object's clamped sine, clamped cosine and raw curve
 * terms onto its captured position, writes the position and maps the same
 * composed values to Euler angles, and finally scales the two step
 * controllers' z by the step distance, shifted forward by half a step.
 * Time.deltaTime and the root's forward axis are parameters of Update.
 */
module MoverControls2 {
  import opened Wrappers
  import opened UnityMath
  import opened Scene
  import opened MoverCore

  /** What an axis adds onto its base: the clamped waves and the curve's raw value, each only when its flag is set. */
  function AxisTerms(a: AxisParams, moverTime: real, lerpTimer: real, lib: UnityLib): real {
    Term(a.sine, ClampedSine(a, moverTime, lib))
      + Term(a.cosine, ClampedCosine(a, moverTime, lib))
      + Term(a.curve, a.animCurve(lerpTimer))
  }

  /**
   * Each flag switches exactly its own term: setting it adds the term, and the
   * value of a term does not depend on the flags.
   */
  lemma FlagsSwitchTerms(a: AxisParams, moverTime: real, lerpTimer: real, lib: UnityLib)
    ensures AxisTerms(a.(sine := true), moverTime, lerpTimer, lib)
         == AxisTerms(a.(sine := false), moverTime, lerpTimer, lib) + ClampedSine(a, moverTime, lib)
    ensures AxisTerms(a.(cosine := true), moverTime, lerpTimer, lib)
         == AxisTerms(a.(cosine := false), moverTime, lerpTimer, lib) + ClampedCosine(a, moverTime, lib)
    ensures AxisTerms(a.(curve := true), moverTime, lerpTimer, lib)
         == AxisTerms(a.(curve := false), moverTime, lerpTimer, lib) + a.animCurve(lerpTimer)
  {
    assert ClampedSine(a.(sine := true), moverTime, lib) == ClampedSine(a.(sine := false), moverTime, lib) == ClampedSine(a, moverTime, lib);
    assert ClampedCosine(a.(cosine := true), moverTime, lib) == ClampedCosine(a.(cosine := false), moverTime, lib) == ClampedCosine(a, moverTime, lib);
    assert ClampedSine(a.(cosine := true), moverTime, lib) == ClampedSine(a.(cosine := false), moverTime, lib);
    assert ClampedSine(a.(curve := true), moverTime, lib) == ClampedSine(a.(curve := false), moverTime, lib);
    assert ClampedCosine(a.(sine := true), moverTime, lib) == ClampedCosine(a.(sine := false), moverTime, lib);
    assert ClampedCosine(a.(curve := true), moverTime, lib) == ClampedCosine(a.(curve := false), moverTime, lib);
  }

  /** The base of the three axes: the captured position when the position is moved, otherwise zero. */
  function PositionBase(p: ObjectParams): Vec3 {
    if p.movePosition then p.capturedPosition else Zero
  }

  /** localX, localY, localZ after the additions. */
  function ObjectLocal(p: ObjectParams, moverTime: real, lerpTimer: real, lib: UnityLib): Vec3 {
    var b := PositionBase(p);
    Vec3(b.x + AxisTerms(p.x, moverTime, lerpTimer, lib),
         b.y + AxisTerms(p.y, moverTime, lerpTimer, lib),
         b.z + AxisTerms(p.z, moverTime, lerpTimer, lib))
  }

  /** The local position Update writes to the object, if it writes one. */
  function PositionWrite(p: ObjectParams, moverTime: real, lerpTimer: real, lib: UnityLib): Option<Vec3> {
    if p.movePosition then Some(ObjectLocal(p, moverTime, lerpTimer, lib)) else None
  }

  /** The Euler angles of the rotation write: each composed value mapped into its axis' angle window. */
  function RotationAngles(p: ObjectParams, moverTime: real, lerpTimer: real, lib: UnityLib): Vec3 {
    var l := ObjectLocal(p, moverTime, lerpTimer, lib);
    var c := p.capturedAngles;
    Vec3(MappedAngle(c.x, p.x.amplitude, p.x.returnValueOffset, l.x),
         MappedAngle(c.y, p.y.amplitude, p.y.returnValueOffset, l.y),
         MappedAngle(c.z, p.z.amplitude, p.z.returnValueOffset, l.z))
  }

  /** The local rotation Update writes to the object, if it writes one. */
  function RotationWrite(p: ObjectParams, moverTime: real, lerpTimer: real, lib: UnityLib): Option<Quaternion> {
    if p.moveRotation then Some(lib.euler(RotationAngles(p, moverTime, lerpTimer, lib))) else None
  }

  /**
   * Unlike the first revision, moving the rotation does not touch the
   * position: the position write depends neither on the rotation flag nor on
   * the captured angles, and without the position flag neither on the
   * captured position.
   */
  lemma PositionIgnoresRotation(p: ObjectParams, q: ObjectParams, moverTime: real, lerpTimer: real, lib: UnityLib)
    requires q == p.(moveRotation := q.moveRotation, capturedAngles := q.capturedAngles)
    ensures PositionWrite(p, moverTime, lerpTimer, lib) == PositionWrite(q, moverTime, lerpTimer, lib)
    ensures !p.movePosition ==> ObjectLocal(p, moverTime, lerpTimer, lib) == ObjectLocal(p.(capturedPosition := Zero), moverTime, lerpTimer, lib)
  {
    assert PositionBase(p) == PositionBase(q);
    assert p.x == q.x && p.y == q.y && p.z == q.z;
  }

  /**
   * Each angle lies in its window [initial - amplitude + offset, initial +
   * amplitude + offset] when the amplitude is non-negative, and is the
   * captured angle plus the composed value clamped to [offset - amplitude,
   * offset + amplitude].
   */
  lemma RotationAnglesInWindow(p: ObjectParams, moverTime: real, lerpTimer: real, lib: UnityLib)
    requires p.x.amplitude >= 0.0 && p.y.amplitude >= 0.0 && p.z.amplitude >= 0.0
    ensures var r, c := RotationAngles(p, moverTime, lerpTimer, lib), p.capturedAngles;
      c.x - p.x.amplitude + p.x.returnValueOffset <= r.x <= c.x + p.x.amplitude + p.x.returnValueOffset &&
      c.y - p.y.amplitude + p.y.returnValueOffset <= r.y <= c.y + p.y.amplitude + p.y.returnValueOffset &&
      c.z - p.z.amplitude + p.z.returnValueOffset <= r.z <= c.z + p.z.amplitude + p.z.returnValueOffset
    ensures var r, c, l := RotationAngles(p, moverTime, lerpTimer, lib), p.capturedAngles, ObjectLocal(p, moverTime, lerpTimer, lib);
      r == Vec3(c.x + ClampSequential(l.x, p.x.returnValueOffset - p.x.amplitude, p.x.returnValueOffset + p.x.amplitude),
                c.y + ClampSequential(l.y, p.y.returnValueOffset - p.y.amplitude, p.y.returnValueOffset + p.y.amplitude),
                c.z + ClampSequential(l.z, p.z.returnValueOffset - p.z.amplitude, p.z.returnValueOffset + p.z.amplitude))
  {
    var l, c := ObjectLocal(p, moverTime, lerpTimer, lib), p.capturedAngles;
    MappedAngleIsClampedShift(c.x, p.x.amplitude, p.x.returnValueOffset, l.x);
    MappedAngleIsClampedShift(c.y, p.y.amplitude, p.y.returnValueOffset, l.y);
    MappedAngleIsClampedShift(c.z, p.z.amplitude, p.z.returnValueOffset, l.z);
  }

  /** One axis of Update's loop body: the clamped waves, then the enabled terms added onto the base. */
  method ComposeAxis(a: AxisParams, base: real, moverTime: real, lerpTimer: real, lib: UnityLib) returns (local: real)
    ensures local == base + AxisTerms(a, moverTime, lerpTimer, lib)
  {
    var sineValue := SineValue(moverTime, a.frequency, a.amplitude, PhaseRadians(a.phaseOffset), a.returnValueOffset, lib);
    if sineValue < a.clampMin { sineValue := a.clampMin; }
    if sineValue > a.clampMax { sineValue := a.clampMax; }
    var cosineValue := CosineValue(moverTime, a.frequency, a.amplitude, PhaseRadians(a.phaseOffset), a.returnValueOffset, lib);
    if cosineValue < a.clampMin { cosineValue := a.clampMin; }
    if cosineValue > a.clampMax { cosineValue := a.clampMax; }

    local := base;
    if a.sine { local := local + sineValue; }
    if a.cosine { local := local + cosineValue; }
    if a.curve { local := local + a.animCurve(lerpTimer); }
  }

  /** Update's loop body for one object: what it writes to the position and to the rotation. */
  method EvaluateObject(p: ObjectParams, moverTime: real, lerpTimer: real, lib: UnityLib)
    returns (position: Option<Vec3>, rotation: Option<Quaternion>)
    ensures position == PositionWrite(p, moverTime, lerpTimer, lib)
    ensures rotation == RotationWrite(p, moverTime, lerpTimer, lib)
  {
    var baseX, baseY, baseZ := 0.0, 0.0, 0.0;
    var initialX, initialY, initialZ := 0.0, 0.0, 0.0;
    if p.movePosition {
      baseX, baseY, baseZ := p.capturedPosition.x, p.capturedPosition.y, p.capturedPosition.z;
    }
    if p.moveRotation {
      initialX, initialY, initialZ := p.capturedAngles.x, p.capturedAngles.y, p.capturedAngles.z;
    }
    assert Vec3(baseX, baseY, baseZ) == PositionBase(p);
    var localX := ComposeAxis(p.x, baseX, moverTime, lerpTimer, lib);
    var localY := ComposeAxis(p.y, baseY, moverTime, lerpTimer, lib);
    var localZ := ComposeAxis(p.z, baseZ, moverTime, lerpTimer, lib);
    assert Vec3(localX, localY, localZ) == ObjectLocal(p, moverTime, lerpTimer, lib);

    position := None;
    if p.movePosition {
      position := Some(Vec3(localX, localY, localZ));
    }
    rotation := None;
    if p.moveRotation {
      var xAngle := MappedAngle(initialX, p.x.amplitude, p.x.returnValueOffset, localX);
      var yAngle := MappedAngle(initialY, p.y.amplitude, p.y.returnValueOffset, localY);
      var zAngle := MappedAngle(initialZ, p.z.amplitude, p.z.returnValueOffset, localZ);
      assert Vec3(xAngle, yAngle, zAngle) == RotationAngles(p, moverTime, lerpTimer, lib);
      rotation := Some(lib.euler(Vec3(xAngle, yAngle, zAngle)));
    }
  }

  /** The position writes of one Update, entry by entry. */
  function PositionWrites(ps: seq<ObjectParams>, moverTime: real, lerpTimer: real, lib: UnityLib): (w: seq<Option<Vec3>>)
    ensures |w| == |ps|
  {
    if |ps| == 0 then []
    else PositionWrites(ps[..|ps| - 1], moverTime, lerpTimer, lib) + [PositionWrite(ps[|ps| - 1], moverTime, lerpTimer, lib)]
  }

  /** Entry i of the position writes is entry i's own write. */
  lemma {:induction false} PositionWritesAt(ps: seq<ObjectParams>, i: nat, moverTime: real, lerpTimer: real, lib: UnityLib)
    requires i < |ps|
    ensures PositionWrites(ps, moverTime, lerpTimer, lib)[i] == PositionWrite(ps[i], moverTime, lerpTimer, lib)
  {
    if i < |ps| - 1 {
      PositionWritesAt(ps[..|ps| - 1], i, moverTime, lerpTimer, lib);
    }
  }

  /** The rotation writes of one Update, entry by entry. */
  function RotationWrites(ps: seq<ObjectParams>, moverTime: real, lerpTimer: real, lib: UnityLib): (w: seq<Option<Quaternion>>)
    ensures |w| == |ps|
  {
    if |ps| == 0 then []
    else RotationWrites(ps[..|ps| - 1], moverTime, lerpTimer, lib) + [RotationWrite(ps[|ps| - 1], moverTime, lerpTimer, lib)]
  }

  /** Entry i of the rotation writes is entry i's own write. */
  lemma {:induction false} RotationWritesAt(ps: seq<ObjectParams>, i: nat, moverTime: real, lerpTimer: real, lib: UnityLib)
    requires i < |ps|
    ensures RotationWrites(ps, moverTime, lerpTimer, lib)[i] == RotationWrite(ps[i], moverTime, lerpTimer, lib)
  {
    if i < |ps| - 1 {
      RotationWritesAt(ps[..|ps| - 1], i, moverTime, lerpTimer, lib);
    }
  }

  /**
   * How many entries Update's loop gets through: all of them, or, when the
   * asset lists more entries than there are mover objects, as many as there
   * are objects; indexing past the last object throws and ends that Update.
   */
  function Processed(entries: nat, objects: nat): (n: nat)
    ensures n <= entries && n <= objects
    ensures n == entries || n == objects
  {
    if entries <= objects then entries else objects
  }

  /** The positional effect of one Update, as the ensures of Update state it. */
  datatype Effect = Effect(
    root: GameObject,
    /** The root's forward axis and rootZ_MoveDistance. */
    forward: Vec3,
    rootDistance: real,
    movers: seq<GameObject>,
    writes: seq<Option<Vec3>>,
    processed: nat,
    stepL: GameObject,
    stepR: GameObject,
    /** Whether Update got past the loop to the step controllers. */
    stepsRun: bool,
    stepDistance: real)

  /**
   * Where an object's local position ends up after one Update, from its
   * position d before it: the root is translated first, then the loop's
   * writes land in order (the last one to the object wins), then a step
   * controller's z is scaled and shifted by half a step.  Both controllers are
   * read before either is written, so a single object serving as both is
   * scaled once.
   */
  function UpdatedPosition(e: Effect, o: GameObject, d: Vec3): Vec3
    requires e.processed <= |e.movers| && e.processed <= |e.writes|
  {
    var moved := if o == e.root then Translated(d, e.forward, e.rootDistance) else d;
    var written := LastWrite(e.movers, e.writes, e.processed, o, moved);
    if e.stepsRun && (o == e.stepL || o == e.stepR) then ScaledZ(written, e.stepDistance, e.stepDistance / 2.0)
    else written
  }

  /**
   * A step controller that is neither the root nor written by the loop keeps
   * x and y and gets z * stepDistance + stepDistance / 2.
   */
  lemma StepControllerScaled(e: Effect, o: GameObject, d: Vec3)
    requires e.processed <= |e.movers| && e.processed <= |e.writes|
    requires e.stepsRun && (o == e.stepL || o == e.stepR) && o != e.root
    requires forall i :: 0 <= i < e.processed && e.movers[i] == o ==> e.writes[i].None?
    ensures UpdatedPosition(e, o, d) == Vec3(d.x, d.y, d.z * e.stepDistance + e.stepDistance / 2.0)
  {
    LastWriteUntouched(e.movers, e.writes, e.processed, o, d);
  }

  /**
   * A frozen root (distance zero) that the loop does not write and that is no step
   * controller stays where it is; any other object the Update does not touch
   * keeps its position as well.
   */
  lemma UntouchedKept(e: Effect, o: GameObject, d: Vec3)
    requires e.processed <= |e.movers| && e.processed <= |e.writes|
    requires o == e.root ==> e.rootDistance == 0.0
    requires forall i :: 0 <= i < e.processed && e.movers[i] == o ==> e.writes[i].None?
    requires e.stepsRun ==> o != e.stepL && o != e.stepR
    ensures UpdatedPosition(e, o, d) == d
  {
    LastWriteUntouched(e.movers, e.writes, e.processed, o, if o == e.root then Translated(d, e.forward, e.rootDistance) else d);
  }

  /**
   * Update's loop over the asset's entries ps, writing entry i to movers[i]
   * at the given phase.  It stops early, with completed false, at the first
   * entry without a mover object (the index error that ends the Update).
   */
  method WriteObjects(movers: seq<GameObject>, ps: seq<ObjectParams>, moverTime: real, lerpTimer: real, lib: UnityLib)
    returns (completed: bool)
    modifies set o | o in movers
    ensures completed <==> |ps| <= |movers|
    ensures forall k :: 0 <= k < |movers| ==>
      movers[k].localPosition
        == LastWrite(movers, PositionWrites(ps, moverTime, lerpTimer, lib), Processed(|ps|, |movers|), movers[k], old(movers[k].localPosition))
    ensures forall k :: 0 <= k < |movers| ==>
      movers[k].localRotation
        == LastWrite(movers, RotationWrites(ps, moverTime, lerpTimer, lib), Processed(|ps|, |movers|), movers[k], old(movers[k].localRotation))
  {
    ghost var positions := PositionWrites(ps, moverTime, lerpTimer, lib);
    ghost var rotations := RotationWrites(ps, moverTime, lerpTimer, lib);
    var i := 0;
    completed := true;
    while i < |ps|
      invariant i <= |ps| && i <= |movers|
      invariant completed
      invariant forall k :: 0 <= k < |movers| ==>
        movers[k].localPosition == LastWrite(movers, positions, i, movers[k], old(movers[k].localPosition))
      invariant forall k :: 0 <= k < |movers| ==>
        movers[k].localRotation == LastWrite(movers, rotations, i, movers[k], old(movers[k].localRotation))
    {
      var objParams := ps[i];
      if i >= |movers| {
        completed := false;
        break;
      }
      var currentObject := movers[i];
      var position, rotation := EvaluateObject(objParams, moverTime, lerpTimer, lib);
      PositionWritesAt(ps, i, moverTime, lerpTimer, lib);
      RotationWritesAt(ps, i, moverTime, lerpTimer, lib);
      Apply(currentObject, position, rotation);
      i := i + 1;
    }
    assert i == Processed(|ps|, |movers|);
  }

  /** The step controllers' z times stepDistance, shifted by half a step; both are read before either is written. */
  method ScaleSteps(stepControllerL: GameObject, stepControllerR: GameObject, stepDistance: real)
    modifies stepControllerL, stepControllerR
    ensures stepControllerL.localPosition == ScaledZ(old(stepControllerL.localPosition), stepDistance, stepDistance / 2.0)
    ensures stepControllerR.localPosition == ScaledZ(old(stepControllerR.localPosition), stepDistance, stepDistance / 2.0)
    ensures stepControllerL.localRotation == old(stepControllerL.localRotation)
    ensures stepControllerR.localRotation == old(stepControllerR.localRotation)
  {
    var stepperL := stepControllerL.localPosition;
    var stepperR := stepControllerR.localPosition;
    var stepperLZ := stepperL.z;
    var stepperRZ := stepperR.z;
    stepperLZ := stepperLZ * stepDistance;
    stepperRZ := stepperRZ * stepDistance;
    stepperLZ := stepperLZ + stepDistance / 2.0;
    stepperRZ := stepperRZ + stepDistance / 2.0;
    stepControllerL.localPosition := Vec3(stepperL.x, stepperL.y, stepperLZ);
    stepControllerR.localPosition := Vec3(stepperR.x, stepperR.y, stepperRZ);
  }

  /**
   * The writes of one Update after the phase advance: move the root, run the
   * loop over the entries, and, when the loop got through, scale the step
   * controllers.
   */
  method Frame(root: GameObject, forward: Vec3, rootMoveDistance: real,
               movers: seq<GameObject>, ps: seq<ObjectParams>, moverTime: real, lerpTimer: real, lib: UnityLib,
               stepControllerL: GameObject, stepControllerR: GameObject, stepDistance: real)
    returns (completed: bool)
    modifies root, (set o | o in movers), stepControllerL, stepControllerR
    ensures completed <==> |ps| <= |movers|
    ensures var e := Effect(root, forward, rootMoveDistance, movers, PositionWrites(ps, moverTime, lerpTimer, lib),
                            Processed(|ps|, |movers|), stepControllerL, stepControllerR, completed, stepDistance);
      (forall k :: 0 <= k < |movers| ==> movers[k].localPosition == UpdatedPosition(e, movers[k], old(movers[k].localPosition))) &&
      root.localPosition == UpdatedPosition(e, root, old(root.localPosition)) &&
      stepControllerL.localPosition == UpdatedPosition(e, stepControllerL, old(stepControllerL.localPosition)) &&
      stepControllerR.localPosition == UpdatedPosition(e, stepControllerR, old(stepControllerR.localPosition))
    ensures forall k :: 0 <= k < |movers| ==>
      movers[k].localRotation
        == LastWrite(movers, RotationWrites(ps, moverTime, lerpTimer, lib), Processed(|ps|, |movers|), movers[k], old(movers[k].localRotation))
    ensures root !in movers ==> root.localRotation == old(root.localRotation)
    ensures stepControllerL !in movers ==> stepControllerL.localRotation == old(stepControllerL.localRotation)
    ensures stepControllerR !in movers ==> stepControllerR.localRotation == old(stepControllerR.localRotation)
  {
    Translate(root, forward, rootMoveDistance);
    label moved:
    completed := WriteObjects(movers, ps, moverTime, lerpTimer, lib);
    label written:
    if completed {
      ScaleSteps(stepControllerL, stepControllerR, stepDistance);
    }
    ghost var e := Effect(root, forward, rootMoveDistance, movers, PositionWrites(ps, moverTime, lerpTimer, lib),
                          Processed(|ps|, |movers|), stepControllerL, stepControllerR, completed, stepDistance);
    forall o | o in movers || o == root || o == stepControllerL || o == stepControllerR
      ensures o.localPosition == UpdatedPosition(e, o, old(o.localPosition))
    {
      var d := old(o.localPosition);
      var m := if o == root then Translated(d, e.forward, e.rootDistance) else d;
      assert old@moved(o.localPosition) == m;
      assert old@written(o.localPosition) == LastWrite(e.movers, e.writes, e.processed, o, m) by {
        if o !in movers {
          LastWriteUntouched(e.movers, e.writes, e.processed, o, m);
        }
      }
    }
  }

  class MoverControls2 {
    const moveData: MoveData
    /** The root of the character, moved along its forward axis. */
    const rootObject: GameObject
    var freezeRootPosition: bool
    /** The objects that control the legs. */
    const stepControllerL: GameObject
    const stepControllerR: GameObject
    /** The mover objects, in the same order as the asset's entries. */
    const moverObjects: seq<GameObject>
    var moveSpeed: real
    var stepDistance: real
    /** The x value of the sine graph, starting at 0. */
    var moverTime: real

    constructor (moveData: MoveData, rootObject: GameObject, freezeRootPosition: bool,
                 stepControllerL: GameObject, stepControllerR: GameObject, moverObjects: seq<GameObject>)
      ensures this.moveData == moveData && this.rootObject == rootObject && this.freezeRootPosition == freezeRootPosition
      ensures this.stepControllerL == stepControllerL && this.stepControllerR == stepControllerR
      ensures this.moverObjects == moverObjects
      ensures moveSpeed == 0.0 && stepDistance == 0.0 && moverTime == 0.0
    {
      this.moveData := moveData;
      this.rootObject := rootObject;
      this.freezeRootPosition := freezeRootPosition;
      this.stepControllerL := stepControllerL;
      this.stepControllerR := stepControllerR;
      this.moverObjects := moverObjects;
      moveSpeed := 0.0;
      stepDistance := 0.0;
      moverTime := 0.0;
    }

    /**
     * Start: when the asset lists exactly one entry per mover object, capture
     * each object's local position and local Euler angles into its entry and
     * take the speed, step and freeze settings from the asset; otherwise
     * (the mismatch is only logged) change nothing.
     */
    method Start(lib: UnityLib)
      modifies moveData, this`moveSpeed, this`stepDistance, this`freezeRootPosition
      ensures |moveData.moverObjectsParameters| == |old(moveData.moverObjectsParameters)|
      ensures |old(moveData.moverObjectsParameters)| == |moverObjects| ==>
        (forall i :: 0 <= i < |moverObjects| ==>
          moveData.moverObjectsParameters[i] == old(moveData.moverObjectsParameters[i]).(
            capturedPosition := moverObjects[i].localPosition,
            capturedAngles := lib.eulerAngles(moverObjects[i].localRotation))) &&
        moveSpeed == moveData.moveSpeed && stepDistance == moveData.stepDistance &&
        freezeRootPosition == moveData.freezePosition
      ensures |old(moveData.moverObjectsParameters)| != |moverObjects| ==>
        moveData.moverObjectsParameters == old(moveData.moverObjectsParameters) &&
        moveSpeed == old(moveSpeed) && stepDistance == old(stepDistance) &&
        freezeRootPosition == old(freezeRootPosition)
      ensures moveData.moveSpeed == old(moveData.moveSpeed) && moveData.stepDistance == old(moveData.stepDistance)
      ensures moveData.freezePosition == old(moveData.freezePosition)
    {
      if |moveData.moverObjectsParameters| == |moverObjects| {
        for i := 0 to |moveData.moverObjectsParameters|
          invariant |moveData.moverObjectsParameters| == |old(moveData.moverObjectsParameters)|
          invariant forall j :: 0 <= j < i ==>
            moveData.moverObjectsParameters[j] == old(moveData.moverObjectsParameters[j]).(
              capturedPosition := moverObjects[j].localPosition,
              capturedAngles := lib.eulerAngles(moverObjects[j].localRotation))
          invariant forall j :: i <= j < |moveData.moverObjectsParameters| ==>
            moveData.moverObjectsParameters[j] == old(moveData.moverObjectsParameters[j])
          invariant unchanged(this)
          invariant moveData.moveSpeed == old(moveData.moveSpeed) && moveData.stepDistance == old(moveData.stepDistance)
          invariant moveData.freezePosition == old(moveData.freezePosition)
        {
          var currentObject := moverObjects[i];
          var objParams := moveData.moverObjectsParameters[i].(
            capturedPosition := currentObject.localPosition,
            capturedAngles := lib.eulerAngles(currentObject.localRotation));
          moveData.moverObjectsParameters := moveData.moverObjectsParameters[i := objParams];
        }
        moveSpeed := moveData.moveSpeed;
        stepDistance := moveData.stepDistance;
        freezeRootPosition := moveData.freezePosition;
      }
    }

    /** The asset's updated event: take the speed, step and freeze settings again. */
    method MoveDataUpdates()
      modifies this`moveSpeed, this`stepDistance, this`freezeRootPosition
      ensures moveSpeed == moveData.moveSpeed && stepDistance == moveData.stepDistance
      ensures freezeRootPosition == moveData.freezePosition
    {
      moveSpeed := moveData.moveSpeed;
      stepDistance := moveData.stepDistance;
      freezeRootPosition := moveData.freezePosition;
      for i := 0 to |moveData.moverObjectsParameters| {
        var objParams := moveData.moverObjectsParameters[i];
      }
    }

    /**
     * Update: advance the phase, then run the frame's writes: move the root,
     * evaluate and write the entries, scale the step controllers.
     */
    method Update(dt: real, forward: Vec3, lib: UnityLib) returns (completed: bool)
      modifies this`moverTime, rootObject, (set o | o in moverObjects), stepControllerL, stepControllerR
      ensures moverTime == AdvanceMoverTime(old(moverTime), dt, moveSpeed)
      ensures completed <==> |moveData.moverObjectsParameters| <= |moverObjects|
      ensures var e := Effect(rootObject, forward, RootMoveDistance(dt, moveSpeed, stepDistance, freezeRootPosition),
                              moverObjects, PositionWrites(moveData.moverObjectsParameters, moverTime, LerpTimer(moverTime), lib),
                              Processed(|moveData.moverObjectsParameters|, |moverObjects|),
                              stepControllerL, stepControllerR, completed, stepDistance);
        (forall k :: 0 <= k < |moverObjects| ==>
          moverObjects[k].localPosition == UpdatedPosition(e, moverObjects[k], old(moverObjects[k].localPosition))) &&
        rootObject.localPosition == UpdatedPosition(e, rootObject, old(rootObject.localPosition)) &&
        stepControllerL.localPosition == UpdatedPosition(e, stepControllerL, old(stepControllerL.localPosition)) &&
        stepControllerR.localPosition == UpdatedPosition(e, stepControllerR, old(stepControllerR.localPosition))
      ensures forall k :: 0 <= k < |moverObjects| ==>
        moverObjects[k].localRotation
          == LastWrite(moverObjects, RotationWrites(moveData.moverObjectsParameters, moverTime, LerpTimer(moverTime), lib),
                       Processed(|moveData.moverObjectsParameters|, |moverObjects|),
                       moverObjects[k], old(moverObjects[k].localRotation))
      ensures rootObject !in moverObjects ==> rootObject.localRotation == old(rootObject.localRotation)
      ensures stepControllerL !in moverObjects ==> stepControllerL.localRotation == old(stepControllerL.localRotation)
      ensures stepControllerR !in moverObjects ==> stepControllerR.localRotation == old(stepControllerR.localRotation)
    {
      var time := moverTime + dt * moveSpeed;
      if time >= PI * 2.0 { time := 0.0; }
      assert time == AdvanceMoverTime(moverTime, dt, moveSpeed);
      moverTime := time;
      var lerpTimer := InverseLerp(0.0, PI * 2.0, time);
      assert lerpTimer == LerpTimer(moverTime);

      var rootMoveDistance := dt * moveSpeed * stepDistance;
      if freezeRootPosition { rootMoveDistance := 0.0; }
      assert rootMoveDistance == RootMoveDistance(dt, moveSpeed, stepDistance, freezeRootPosition);
      completed := Frame(rootObject, forward, rootMoveDistance, moverObjects, moveData.moverObjectsParameters, moverTime, lerpTimer, lib,
                         stepControllerL, stepControllerR, stepDistance);
    }
  }
}
