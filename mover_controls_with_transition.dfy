/**
 * MoverControlsWithTransition, the third revision of the procedural mover.
 * Start captures each mover object's local position and the x, y, z of its
 * local rotation quaternion into the MoveData asset, computes for every object
 * the target it should reach on the first frame (caching the targets per
 * object in four dictionaries), and starts the Transition coroutine, which
 * lerps every object from where it is to its target over five seconds and then
 * snaps it there.  While the transition runs, Update does nothing; afterwards
 * it advances the phase timer, moves the root, composes each object's clamped
 * sine and raw curve terms (there is no cosine term), writes the position and
 * the mapped angles, and scales the z of the two step controllers and then of
 * the two arm controllers by the step distance.
 *
 * Time.deltaTime and the root's forward axis are parameters.  The coroutine
 * is an explicit step: Transition runs it up to its first yield, and each
 * later frame calls TransitionFrame once.
 */
module MoverControlsWithTransition {
  import opened Wrappers
  import opened UnityMath
  import opened Scene
  import opened MoverCore
  import MoverControls2

  // ---------------------------------------------------------------------------
  // Update's evaluation of one entry

  /** What an axis adds onto its base in Update: the clamped sine and the curve's raw value, each only when its flag is set. */
  function AxisTerms(a: AxisParams, moverTime: real, lerpTimer: real, lib: UnityLib): real {
    Term(a.sine, ClampedSine(a, moverTime, lib)) + Term(a.curve, a.animCurve(lerpTimer))
  }

  /** localX, localY, localZ after the additions, over the captured position when the position is moved and zero otherwise. */
  function ObjectLocal(p: ObjectParams, moverTime: real, lerpTimer: real, lib: UnityLib): Vec3 {
    var b := MoverControls2.PositionBase(p);
    Vec3(b.x + AxisTerms(p.x, moverTime, lerpTimer, lib),
         b.y + AxisTerms(p.y, moverTime, lerpTimer, lib),
         b.z + AxisTerms(p.z, moverTime, lerpTimer, lib))
  }

  /** The local position Update writes to the object, if it writes one. */
  function PositionWrite(p: ObjectParams, moverTime: real, lerpTimer: real, lib: UnityLib): Option<Vec3> {
    if p.movePosition then Some(ObjectLocal(p, moverTime, lerpTimer, lib)) else None
  }

  /** The Euler angles of the rotation write: each composed value mapped into its axis' angle window. */
  function RotationAngles(p: ObjectParams, moverTime: real, lerpTimer: real, lib: UnityLib): Vec3 {
    var l := ObjectLocal(p, moverTime, lerpTimer, lib);
    var c := p.capturedAngles;
    Vec3(MappedAngle(c.x, p.x.amplitude, p.x.returnValueOffset, l.x),
         MappedAngle(c.y, p.y.amplitude, p.y.returnValueOffset, l.y),
         MappedAngle(c.z, p.z.amplitude, p.z.returnValueOffset, l.z))
  }

  /** The local rotation Update writes to the object, if it writes one. */
  function RotationWrite(p: ObjectParams, moverTime: real, lerpTimer: real, lib: UnityLib): Option<Quaternion> {
    if p.moveRotation then Some(lib.euler(RotationAngles(p, moverTime, lerpTimer, lib))) else None
  }

  /** The entry with its three cosine flags cleared. */
  function WithoutCosine(p: ObjectParams): ObjectParams {
    p.(x := p.x.(cosine := false), y := p.y.(cosine := false), z := p.z.(cosine := false))
  }

  /**
   * This revision writes what the second revision writes for the same entry
   * with its cosine flags cleared: the cosine flags are ignored, and nothing
   * else about the evaluation changed.
   */
  lemma MatchesSecondRevisionWithoutCosine(p: ObjectParams, moverTime: real, lerpTimer: real, lib: UnityLib)
    ensures ObjectLocal(p, moverTime, lerpTimer, lib) == MoverControls2.ObjectLocal(WithoutCosine(p), moverTime, lerpTimer, lib)
    ensures PositionWrite(p, moverTime, lerpTimer, lib) == MoverControls2.PositionWrite(WithoutCosine(p), moverTime, lerpTimer, lib)
    ensures RotationAngles(p, moverTime, lerpTimer, lib) == MoverControls2.RotationAngles(WithoutCosine(p), moverTime, lerpTimer, lib)
    ensures RotationWrite(p, moverTime, lerpTimer, lib) == MoverControls2.RotationWrite(WithoutCosine(p), moverTime, lerpTimer, lib)
  {
    var q := WithoutCosine(p);
    assert ClampedSine(q.x, moverTime, lib) == ClampedSine(p.x, moverTime, lib);
    assert ClampedSine(q.y, moverTime, lib) == ClampedSine(p.y, moverTime, lib);
    assert ClampedSine(q.z, moverTime, lib) == ClampedSine(p.z, moverTime, lib);
    assert MoverControls2.PositionBase(q) == MoverControls2.PositionBase(p);
  }

  /** Each angle lies in [initial - amplitude + offset, initial + amplitude + offset] when the amplitude is non-negative. */
  lemma RotationAnglesInWindow(p: ObjectParams, moverTime: real, lerpTimer: real, lib: UnityLib)
    requires p.x.amplitude >= 0.0 && p.y.amplitude >= 0.0 && p.z.amplitude >= 0.0
    ensures var r, c := RotationAngles(p, moverTime, lerpTimer, lib), p.capturedAngles;
      c.x - p.x.amplitude + p.x.returnValueOffset <= r.x <= c.x + p.x.amplitude + p.x.returnValueOffset &&
      c.y - p.y.amplitude + p.y.returnValueOffset <= r.y <= c.y + p.y.amplitude + p.y.returnValueOffset &&
      c.z - p.z.amplitude + p.z.returnValueOffset <= r.z <= c.z + p.z.amplitude + p.z.returnValueOffset
  {
    MatchesSecondRevisionWithoutCosine(p, moverTime, lerpTimer, lib);
    MoverControls2.RotationAnglesInWindow(WithoutCosine(p), moverTime, lerpTimer, lib);
  }

  /** One axis of Update's loop body: the clamped sine, then the enabled terms added onto the base. */
  method ComposeAxis(a: AxisParams, base: real, moverTime: real, lerpTimer: real, lib: UnityLib) returns (local: real)
    ensures local == base + AxisTerms(a, moverTime, lerpTimer, lib)
  {
    var sineValue := SineValue(moverTime, a.frequency, a.amplitude, PhaseRadians(a.phaseOffset), a.returnValueOffset, lib);
    if sineValue < a.clampMin { sineValue := a.clampMin; }
    if sineValue > a.clampMax { sineValue := a.clampMax; }

    local := base;
    if a.sine { local := local + sineValue; }
    if a.curve { local := local + a.animCurve(lerpTimer); }
  }

  /** Update's loop body for one entry: what it writes to the position and to the rotation. */
  method EvaluateObject(p: ObjectParams, moverTime: real, lerpTimer: real, lib: UnityLib)
    returns (position: Option<Vec3>, rotation: Option<Quaternion>)
    ensures position == PositionWrite(p, moverTime, lerpTimer, lib)
    ensures rotation == RotationWrite(p, moverTime, lerpTimer, lib)
  {
    var baseX, baseY, baseZ := 0.0, 0.0, 0.0;
    var initialX, initialY, initialZ := 0.0, 0.0, 0.0;
    if p.movePosition {
      baseX, baseY, baseZ := p.capturedPosition.x, p.capturedPosition.y, p.capturedPosition.z;
    }
    if p.moveRotation {
      initialX, initialY, initialZ := p.capturedAngles.x, p.capturedAngles.y, p.capturedAngles.z;
    }
    assert Vec3(baseX, baseY, baseZ) == MoverControls2.PositionBase(p);
    var localX := ComposeAxis(p.x, baseX, moverTime, lerpTimer, lib);
    var localY := ComposeAxis(p.y, baseY, moverTime, lerpTimer, lib);
    var localZ := ComposeAxis(p.z, baseZ, moverTime, lerpTimer, lib);
    assert Vec3(localX, localY, localZ) == ObjectLocal(p, moverTime, lerpTimer, lib);

    position := None;
    if p.movePosition {
      position := Some(Vec3(localX, localY, localZ));
    }
    rotation := None;
    if p.moveRotation {
      var xAngle := MappedAngle(initialX, p.x.amplitude, p.x.returnValueOffset, localX);
      var yAngle := MappedAngle(initialY, p.y.amplitude, p.y.returnValueOffset, localY);
      var zAngle := MappedAngle(initialZ, p.z.amplitude, p.z.returnValueOffset, localZ);
      assert Vec3(xAngle, yAngle, zAngle) == RotationAngles(p, moverTime, lerpTimer, lib);
      rotation := Some(lib.euler(Vec3(xAngle, yAngle, zAngle)));
    }
  }

  /** The position writes of one Update, entry by entry. */
  function PositionWrites(ps: seq<ObjectParams>, moverTime: real, lerpTimer: real, lib: UnityLib): (w: seq<Option<Vec3>>)
    ensures |w| == |ps|
  {
    if |ps| == 0 then []
    else PositionWrites(ps[..|ps| - 1], moverTime, lerpTimer, lib) + [PositionWrite(ps[|ps| - 1], moverTime, lerpTimer, lib)]
  }

  /** Entry i of the position writes is entry i's own write. */
  lemma {:induction false} PositionWritesAt(ps: seq<ObjectParams>, i: nat, moverTime: real, lerpTimer: real, lib: UnityLib)
    requires i < |ps|
    ensures PositionWrites(ps, moverTime, lerpTimer, lib)[i] == PositionWrite(ps[i], moverTime, lerpTimer, lib)
  {
    if i < |ps| - 1 {
      PositionWritesAt(ps[..|ps| - 1], i, moverTime, lerpTimer, lib);
    }
  }

  /** The rotation writes of one Update, entry by entry. */
  function RotationWrites(ps: seq<ObjectParams>, moverTime: real, lerpTimer: real, lib: UnityLib): (w: seq<Option<Quaternion>>)
    ensures |w| == |ps|
  {
    if |ps| == 0 then []
    else RotationWrites(ps[..|ps| - 1], moverTime, lerpTimer, lib) + [RotationWrite(ps[|ps| - 1], moverTime, lerpTimer, lib)]
  }

  /** Entry i of the rotation writes is entry i's own write. */
  lemma {:induction false} RotationWritesAt(ps: seq<ObjectParams>, i: nat, moverTime: real, lerpTimer: real, lib: UnityLib)
    requires i < |ps|
    ensures RotationWrites(ps, moverTime, lerpTimer, lib)[i] == RotationWrite(ps[i], moverTime, lerpTimer, lib)
  {
    if i < |ps| - 1 {
      RotationWritesAt(ps[..|ps| - 1], i, moverTime, lerpTimer, lib);
    }
  }

  // ---------------------------------------------------------------------------
  // Start's first-frame targets

  /** SineValue at time 0 with an axis' parameters: the wave's value on the first frame. */
  function FirstFrameSine(a: AxisParams, lib: UnityLib): (r: real)
    ensures SinCosBounded(lib) && a.amplitude >= 0.0 ==> a.returnValueOffset - a.amplitude <= r <= a.returnValueOffset + a.amplitude
  {
    SineValue(0.0, a.frequency, a.amplitude, PhaseRadians(a.phaseOffset), a.returnValueOffset, lib)
  }

  /**
   * One first-frame target value: the start value plus wave's unclamped sine
   * at time 0 and its curve at 0, each only when its flag is set, and then the
   * sum clamped to [clampMin, clampMax].
   */
  function FirstFrameValue(start: real, sine: bool, curve: bool, wave: AxisParams, clampMin: real, clampMax: real, lib: UnityLib): (r: real)
    ensures clampMin <= clampMax ==> clampMin <= r <= clampMax
    ensures clampMin > clampMax ==> r == clampMax
  {
    ClampSequential(start + Term(sine, FirstFrameSine(wave, lib)) + Term(curve, wave.animCurve(0.0)), clampMin, clampMax)
  }

  /** The target position of an entry that moves its position: each axis from its own wave and clamps. */
  function FirstFramePosition(p: ObjectParams, local: Vec3, lib: UnityLib): (r: Vec3)
    ensures p.x.clampMin <= p.x.clampMax ==> p.x.clampMin <= r.x <= p.x.clampMax
    ensures p.y.clampMin <= p.y.clampMax ==> p.y.clampMin <= r.y <= p.y.clampMax
    ensures p.z.clampMin <= p.z.clampMax ==> p.z.clampMin <= r.z <= p.z.clampMax
  {
    Vec3(FirstFrameValue(local.x, p.x.sine, p.x.curve, p.x, p.x.clampMin, p.x.clampMax, lib),
         FirstFrameValue(local.y, p.y.sine, p.y.curve, p.y, p.y.clampMin, p.y.clampMax, lib),
         FirstFrameValue(local.z, p.z.sine, p.z.curve, p.z, p.z.clampMin, p.z.clampMax, lib))
  }

  /**
   * The target Euler angles of an entry that moves its rotation.  The y and z
   * angles use their own flags and clamps but the X axis' wave and curve.
   */
  function FirstFrameAngles(p: ObjectParams, angles: Vec3, lib: UnityLib): (r: Vec3)
    ensures p.x.clampMin <= p.x.clampMax ==> p.x.clampMin <= r.x <= p.x.clampMax
    ensures p.y.clampMin <= p.y.clampMax ==> p.y.clampMin <= r.y <= p.y.clampMax
    ensures p.z.clampMin <= p.z.clampMax ==> p.z.clampMin <= r.z <= p.z.clampMax
  {
    Vec3(FirstFrameValue(angles.x, p.x.sine, p.x.curve, p.x, p.x.clampMin, p.x.clampMax, lib),
         FirstFrameValue(angles.y, p.y.sine, p.y.curve, p.x, p.y.clampMin, p.y.clampMax, lib),
         FirstFrameValue(angles.z, p.z.sine, p.z.curve, p.x, p.z.clampMin, p.z.clampMax, lib))
  }

  /**
   * The Y and Z axes' own wave parameters and curves play no part in the
   * first-frame angles: an entry that differs only in those gets the same
   * target angles.
   */
  lemma AnglesIgnoreOwnWaves(p: ObjectParams, q: ObjectParams, angles: Vec3, lib: UnityLib)
    requires q.x == p.x
    requires q.y.sine == p.y.sine && q.y.curve == p.y.curve && q.y.clampMin == p.y.clampMin && q.y.clampMax == p.y.clampMax
    requires q.z.sine == p.z.sine && q.z.curve == p.z.curve && q.z.clampMin == p.z.clampMin && q.z.clampMax == p.z.clampMax
    ensures FirstFrameAngles(q, angles, lib) == FirstFrameAngles(p, angles, lib)
  {
  }

  /**
   * The first-frame target is not where Update's first write puts the object.
   * Start clamps the captured position plus the terms, while Update clamps only
   * the sine and adds it onto the captured position.  For a sine-only axis
   * whose captured value lies above the width of its clamp window, the target
   * the transition snaps to lies at least that excess below every position
   * Update then writes, whatever the mover time.
   */
  lemma FirstFrameTargetBelowUpdateWrite(p: ObjectParams, moverTime: real, lerpTimer: real, lib: UnityLib)
    requires p.movePosition && p.x.sine && !p.x.curve
    requires p.x.clampMin <= p.x.clampMax < p.capturedPosition.x + p.x.clampMin
    ensures PositionWrite(p, moverTime, lerpTimer, lib).Some?
    ensures PositionWrite(p, moverTime, lerpTimer, lib).value.x - FirstFramePosition(p, p.capturedPosition, lib).x
              >= p.capturedPosition.x + p.x.clampMin - p.x.clampMax > 0.0
  {
    assert ObjectLocal(p, moverTime, lerpTimer, lib).x == p.capturedPosition.x + ClampedSine(p.x, moverTime, lib);
  }

  /** Quaternion x, y and z, the three numbers Start stores as an object's initial angles. */
  function QuaternionXYZ(q: Quaternion): Vec3 {
    Vec3(q.x, q.y, q.z)
  }

  /** An entry after Start's capture: the object's local position, and the x, y, z of its local rotation. */
  function Captured(p: ObjectParams, position: Vec3, rotation: Quaternion): ObjectParams {
    p.(capturedPosition := position, capturedAngles := QuaternionXYZ(rotation))
  }

  // ---------------------------------------------------------------------------
  // The target cache

  /** A pair of Start's dictionaries: which objects have a target set, and the stored targets. */
  datatype Cache<T> = Cache(isSet: map<GameObject, bool>, stored: map<GameObject, T>)

  /**
   * What one entry asks of a cache: whether it moves this value, the object's
   * current value, and the first-frame target computed from the entry.
   */
  datatype Request<T> = Request(move: bool, current: T, computed: T)

  datatype Targeted<T> = Targeted(target: T, cache: Cache<T>)

  /**
   * One entry's target.  An object seen for the first time gets the computed
   * target, cached, when the entry moves the value, and its current value,
   * uncached, otherwise; an object already cached gets the stored target, or
   * missing when the stored dictionary lacks it.
   */
  function CachedTarget<T>(c: Cache<T>, o: GameObject, r: Request<T>, missing: T): Targeted<T> {
    if o !in c.isSet then
      if r.move then Targeted(r.computed, Cache(c.isSet[o := true], c.stored[o := r.computed]))
      else Targeted(r.current, c)
    else if o in c.stored then Targeted(c.stored[o], c)
    else Targeted(missing, c)
  }

  /** An entry's request for the position cache. */
  function PositionRequest(p: ObjectParams, local: Vec3, lib: UnityLib): Request<Vec3> {
    Request(p.movePosition, local, FirstFramePosition(p, local, lib))
  }

  /** An entry's request for the orientation cache: the angles start from the object's local Euler angles. */
  function OrientationRequest(p: ObjectParams, local: Quaternion, lib: UnityLib): Request<Quaternion> {
    Request(p.moveRotation, local, lib.euler(FirstFrameAngles(p, lib.eulerAngles(local), lib)))
  }

  /** The mover objects' local positions, in order. */
  function LocalPositions(movers: seq<GameObject>): (r: seq<Vec3>)
    reads movers
    ensures |r| == |movers|
  {
    if |movers| == 0 then [] else LocalPositions(movers[..|movers| - 1]) + [movers[|movers| - 1].localPosition]
  }

  lemma {:induction false} LocalPositionsAt(movers: seq<GameObject>, i: nat)
    requires i < |movers|
    ensures LocalPositions(movers)[i] == movers[i].localPosition
  {
    if i < |movers| - 1 {
      LocalPositionsAt(movers[..|movers| - 1], i);
    }
  }

  /** The mover objects' local rotations, in order. */
  function LocalRotations(movers: seq<GameObject>): (r: seq<Quaternion>)
    reads movers
    ensures |r| == |movers|
  {
    if |movers| == 0 then [] else LocalRotations(movers[..|movers| - 1]) + [movers[|movers| - 1].localRotation]
  }

  lemma {:induction false} LocalRotationsAt(movers: seq<GameObject>, i: nat)
    requires i < |movers|
    ensures LocalRotations(movers)[i] == movers[i].localRotation
  {
    if i < |movers| - 1 {
      LocalRotationsAt(movers[..|movers| - 1], i);
    }
  }

  /** The position requests of the entries, entry i with local position locals[i]. */
  function PositionRequests(ps: seq<ObjectParams>, locals: seq<Vec3>, lib: UnityLib): (r: seq<Request<Vec3>>)
    requires |ps| == |locals|
    ensures |r| == |ps|
  {
    if |ps| == 0 then []
    else PositionRequests(ps[..|ps| - 1], locals[..|ps| - 1], lib) + [PositionRequest(ps[|ps| - 1], locals[|ps| - 1], lib)]
  }

  lemma {:induction false} PositionRequestsAt(ps: seq<ObjectParams>, locals: seq<Vec3>, lib: UnityLib, i: nat)
    requires i < |ps| == |locals|
    ensures PositionRequests(ps, locals, lib)[i] == PositionRequest(ps[i], locals[i], lib)
  {
    if i < |ps| - 1 {
      PositionRequestsAt(ps[..|ps| - 1], locals[..|ps| - 1], lib, i);
    }
  }

  /** The orientation requests of the entries, entry i with local rotation locals[i]. */
  function OrientationRequests(ps: seq<ObjectParams>, locals: seq<Quaternion>, lib: UnityLib): (r: seq<Request<Quaternion>>)
    requires |ps| == |locals|
    ensures |r| == |ps|
  {
    if |ps| == 0 then []
    else OrientationRequests(ps[..|ps| - 1], locals[..|ps| - 1], lib) + [OrientationRequest(ps[|ps| - 1], locals[|ps| - 1], lib)]
  }

  lemma {:induction false} OrientationRequestsAt(ps: seq<ObjectParams>, locals: seq<Quaternion>, lib: UnityLib, i: nat)
    requires i < |ps| == |locals|
    ensures OrientationRequests(ps, locals, lib)[i] == OrientationRequest(ps[i], locals[i], lib)
  {
    if i < |ps| - 1 {
      OrientationRequestsAt(ps[..|ps| - 1], locals[..|ps| - 1], lib, i);
    }
  }

  datatype Fill<T> = Fill(targets: seq<T>, cache: Cache<T>)

  /** The targets of the first n entries, in order, and the cache after them, from cache c0. */
  function Targets<T>(objs: seq<GameObject>, reqs: seq<Request<T>>, missing: T, n: nat, c0: Cache<T>): (f: Fill<T>)
    requires n <= |objs| && n <= |reqs|
    ensures |f.targets| == n
  {
    if n == 0 then Fill([], c0)
    else
      var prev := Targets(objs, reqs, missing, n - 1, c0);
      var t := CachedTarget(prev.cache, objs[n - 1], reqs[n - 1], missing);
      Fill(prev.targets + [t.target], t.cache)
  }

  /** One more entry appends the target it resolves to and moves on to its cache. */
  lemma TargetsStep<T>(objs: seq<GameObject>, reqs: seq<Request<T>>, missing: T, n: nat, c0: Cache<T>, t: T, c: Cache<T>)
    requires n < |objs| && n < |reqs|
    requires Targeted(t, c) == CachedTarget(Targets(objs, reqs, missing, n, c0).cache, objs[n], reqs[n], missing)
    ensures Targets(objs, reqs, missing, n + 1, c0) == Fill(Targets(objs, reqs, missing, n, c0).targets + [t], c)
  {
  }

  /** Later entries do not change earlier targets. */
  lemma {:induction false} TargetsPrefix<T>(objs: seq<GameObject>, reqs: seq<Request<T>>, missing: T, m: nat, n: nat, c0: Cache<T>)
    requires m <= n <= |objs| && n <= |reqs|
    ensures Targets(objs, reqs, missing, m, c0).targets == Targets(objs, reqs, missing, n, c0).targets[..m]
  {
    if m < n {
      TargetsPrefix(objs, reqs, missing, m, n - 1, c0);
    }
  }

  /** The two dictionaries of a cache have the same keys. */
  predicate Consistent<T>(c: Cache<T>) {
    c.isSet.Keys == c.stored.Keys
  }

  /** Start sets the flag and stores the target together, so the cache stays consistent. */
  lemma {:induction false} TargetsConsistent<T>(objs: seq<GameObject>, reqs: seq<Request<T>>, missing: T, n: nat, c0: Cache<T>)
    requires n <= |objs| && n <= |reqs|
    requires Consistent(c0)
    ensures Consistent(Targets(objs, reqs, missing, n, c0).cache)
  {
    if n > 0 {
      TargetsConsistent(objs, reqs, missing, n - 1, c0);
    }
  }

  /**
   * From a consistent cache the "target not found" branch is never taken: the
   * default value it would use makes no difference.
   */
  lemma {:induction false} MissingNeverUsed<T>(objs: seq<GameObject>, reqs: seq<Request<T>>, missing1: T, missing2: T, n: nat, c0: Cache<T>)
    requires n <= |objs| && n <= |reqs|
    requires Consistent(c0)
    ensures Targets(objs, reqs, missing1, n, c0) == Targets(objs, reqs, missing2, n, c0)
  {
    if n > 0 {
      MissingNeverUsed(objs, reqs, missing1, missing2, n - 1, c0);
      TargetsConsistent(objs, reqs, missing1, n - 1, c0);
    }
  }

  /** The first of the first n entries that lists o and moves the value, if there is one. */
  function FirstMover<T>(objs: seq<GameObject>, reqs: seq<Request<T>>, n: nat, o: GameObject): (j: Option<nat>)
    requires n <= |objs| && n <= |reqs|
    ensures j.Some? ==> j.value < n && objs[j.value] == o && reqs[j.value].move
    ensures j.Some? ==> forall i :: 0 <= i < j.value ==> !(objs[i] == o && reqs[i].move)
    ensures j.None? ==> forall i :: 0 <= i < n ==> !(objs[i] == o && reqs[i].move)
  {
    if n == 0 then None
    else
      var prev := FirstMover(objs, reqs, n - 1, o);
      if prev.Some? then prev
      else if objs[n - 1] == o && reqs[n - 1].move then Some(n - 1)
      else None
  }

  /**
   * From an empty cache, after n entries: an object is cached exactly when
   * some entry so far lists it and moves the value, and its stored target is
   * the one computed for the first such entry.
   */
  lemma {:induction false} CacheAfter<T>(objs: seq<GameObject>, reqs: seq<Request<T>>, missing: T, n: nat, o: GameObject)
    requires n <= |objs| && n <= |reqs|
    ensures var c, j := Targets(objs, reqs, missing, n, Cache(map[], map[])).cache, FirstMover(objs, reqs, n, o);
      (o in c.isSet <==> j.Some?) && (o in c.stored <==> j.Some?) &&
      (j.Some? ==> c.stored[o] == reqs[j.value].computed)
  {
    if n > 0 {
      CacheAfter(objs, reqs, missing, n - 1, o);
      var prev := Targets(objs, reqs, missing, n - 1, Cache(map[], map[])).cache;
      var t := CachedTarget(prev, objs[n - 1], reqs[n - 1], missing);
      assert Targets(objs, reqs, missing, n, Cache(map[], map[])).cache == t.cache;
      if o != objs[n - 1] {
        assert FirstMover(objs, reqs, n, o) == FirstMover(objs, reqs, n - 1, o);
        assert (o in t.cache.isSet <==> o in prev.isSet) && (o in t.cache.stored <==> o in prev.stored);
        assert o in prev.stored ==> t.cache.stored[o] == prev.stored[o];
      }
    }
  }

  /** An entry's target when its object has not been cached: computed if it moves the value, current otherwise. */
  function OwnTarget<T>(r: Request<T>): T {
    if r.move then r.computed else r.current
  }

  /**
   * From an empty cache, entry k's target is the target computed for the
   * first earlier entry that lists the same object and moves the value, or,
   * when there is none, its own.
   */
  lemma TargetAt<T>(objs: seq<GameObject>, reqs: seq<Request<T>>, missing: T, n: nat, k: nat)
    requires k < n <= |objs| && n <= |reqs|
    ensures Targets(objs, reqs, missing, n, Cache(map[], map[])).targets[k]
         == match FirstMover(objs, reqs, k, objs[k])
            case Some(j) => reqs[j].computed
            case None => OwnTarget(reqs[k])
  {
    TargetsPrefix(objs, reqs, missing, k + 1, n, Cache(map[], map[]));
    CacheAfter(objs, reqs, missing, k, objs[k]);
  }

  /**
   * When every object is listed once, each entry gets its own target, and an
   * object ends up cached, with that target stored, exactly when its entry
   * moves the value.
   */
  lemma DistinctOwnTargets<T>(objs: seq<GameObject>, reqs: seq<Request<T>>, missing: T, n: nat, k: nat)
    requires k < n <= |objs| && n <= |reqs|
    requires Distinct(objs, n)
    ensures var f := Targets(objs, reqs, missing, n, Cache(map[], map[]));
      f.targets[k] == OwnTarget(reqs[k]) &&
      (objs[k] in f.cache.isSet <==> reqs[k].move) &&
      (objs[k] in f.cache.stored <==> reqs[k].move) &&
      (reqs[k].move ==> f.cache.stored[objs[k]] == reqs[k].computed)
  {
    TargetAt(objs, reqs, missing, n, k);
    CacheAfter(objs, reqs, missing, n, objs[k]);
    var j := FirstMover(objs, reqs, n, objs[k]);
    if j.Some? {
      assert j.value == k;
    }
  }

  /**
   * An object listed again after an entry that moved its value gets the same
   * target as that entry, whatever its own parameters say.
   */
  lemma RepeatedListingSharesTarget<T>(objs: seq<GameObject>, reqs: seq<Request<T>>, missing: T, n: nat, j: nat, k: nat)
    requires j < k < n <= |objs| && n <= |reqs|
    requires objs[j] == objs[k] && reqs[j].move
    ensures var f := Targets(objs, reqs, missing, n, Cache(map[], map[]));
      f.targets[k] == f.targets[j]
  {
    TargetAt(objs, reqs, missing, n, k);
    TargetAt(objs, reqs, missing, n, j);
    var first := FirstMover(objs, reqs, k, objs[k]);
    assert first.Some?;
    var earlier := FirstMover(objs, reqs, j, objs[j]);
    if earlier.Some? {
      assert earlier.value == first.value;
    } else {
      assert first.value == j;
    }
  }

  /**
   * One axis of Start's first-frame computation: add wave's sine at time 0
   * and its curve at 0 when the flags say so, then raise to clampMin and
   * lower to clampMax.
   */
  method FirstFrameAxis(start: real, sine: bool, curve: bool, wave: AxisParams, clampMin: real, clampMax: real, lib: UnityLib)
    returns (value: real)
    ensures value == FirstFrameValue(start, sine, curve, wave, clampMin, clampMax, lib)
  {
    value := start;
    if sine { value := value + SineValue(0.0, wave.frequency, wave.amplitude, PhaseRadians(wave.phaseOffset), wave.returnValueOffset, lib); }
    if curve { value := value + wave.animCurve(0.0); }
    if value < clampMin { value := clampMin; }
    if value > clampMax { value := clampMax; }
  }

  /**
   * Start's target position for one entry: on an object's first listing its
   * local position, replaced, when the entry moves the position, by the
   * first-frame position (stored in the cache); on a later listing the stored
   * target, or zero when none is stored.
   */
  method TargetPosition(positions: Cache<Vec3>, currentObject: GameObject, objParams: ObjectParams, objectLocalPosition: Vec3, lib: UnityLib)
    returns (objectTargetPosition: Vec3, updated: Cache<Vec3>)
    ensures Targeted(objectTargetPosition, updated)
         == CachedTarget(positions, currentObject, PositionRequest(objParams, objectLocalPosition, lib), Zero)
  {
    var hasTargetPositionSet, storedTargetPosition := positions.isSet, positions.stored;
    objectTargetPosition := Zero;
    if currentObject !in hasTargetPositionSet {
      objectTargetPosition := objectLocalPosition;
      if objParams.movePosition {
        var xValue := FirstFrameAxis(objectLocalPosition.x, objParams.x.sine, objParams.x.curve, objParams.x,
                                     objParams.x.clampMin, objParams.x.clampMax, lib);
        var yValue := FirstFrameAxis(objectLocalPosition.y, objParams.y.sine, objParams.y.curve, objParams.y,
                                     objParams.y.clampMin, objParams.y.clampMax, lib);
        var zValue := FirstFrameAxis(objectLocalPosition.z, objParams.z.sine, objParams.z.curve, objParams.z,
                                     objParams.z.clampMin, objParams.z.clampMax, lib);
        objectTargetPosition := Vec3(xValue, yValue, zValue);
        assert objectTargetPosition == FirstFramePosition(objParams, objectLocalPosition, lib);
        hasTargetPositionSet := hasTargetPositionSet[currentObject := true];
        storedTargetPosition := storedTargetPosition[currentObject := objectTargetPosition];
      }
    } else if currentObject in hasTargetPositionSet {
      if currentObject in storedTargetPosition {
        objectTargetPosition := storedTargetPosition[currentObject];
      } else {
        objectTargetPosition := Zero;
      }
    }
    updated := Cache(hasTargetPositionSet, storedTargetPosition);
  }

  /**
   * Start's target orientation for one entry, as for the position: the local
   * rotation, or, when the entry moves the rotation, the rotation of the
   * first-frame angles; the y and z angles add the X axis' wave and curve.  A
   * later listing takes the stored target, or the identity when none is stored.
   */
  method TargetOrientation(orientations: Cache<Quaternion>, currentObject: GameObject, objParams: ObjectParams,
                           objectLocalOrientation: Quaternion, lib: UnityLib)
    returns (objectTargetOrientation: Quaternion, updated: Cache<Quaternion>)
    ensures Targeted(objectTargetOrientation, updated)
         == CachedTarget(orientations, currentObject, OrientationRequest(objParams, objectLocalOrientation, lib), Identity)
  {
    var hasTargetOrientationSet, storedTargetOrientation := orientations.isSet, orientations.stored;
    objectTargetOrientation := Identity;
    if currentObject !in hasTargetOrientationSet {
      objectTargetOrientation := objectLocalOrientation;
      if objParams.moveRotation {
        var localEulerAngles := lib.eulerAngles(objectLocalOrientation);
        var xAngle := FirstFrameAxis(localEulerAngles.x, objParams.x.sine, objParams.x.curve, objParams.x,
                                     objParams.x.clampMin, objParams.x.clampMax, lib);
        var yAngle := FirstFrameAxis(localEulerAngles.y, objParams.y.sine, objParams.y.curve, objParams.x,
                                     objParams.y.clampMin, objParams.y.clampMax, lib);
        var zAngle := FirstFrameAxis(localEulerAngles.z, objParams.z.sine, objParams.z.curve, objParams.x,
                                     objParams.z.clampMin, objParams.z.clampMax, lib);
        assert Vec3(xAngle, yAngle, zAngle) == FirstFrameAngles(objParams, localEulerAngles, lib);
        objectTargetOrientation := lib.euler(Vec3(xAngle, yAngle, zAngle));
        hasTargetOrientationSet := hasTargetOrientationSet[currentObject := true];
        storedTargetOrientation := storedTargetOrientation[currentObject := objectTargetOrientation];
      }
    } else if currentObject in hasTargetOrientationSet {
      if currentObject in storedTargetOrientation {
        objectTargetOrientation := storedTargetOrientation[currentObject];
      } else {
        objectTargetOrientation := Identity;
      }
    }
    updated := Cache(hasTargetOrientationSet, storedTargetOrientation);
  }

  /**
   * Start's handling of the position cache for entry i: the target it
   * resolves to extends the targets of the entries before it.
   */
  method PositionStep(movers: seq<GameObject>, ghost ps: seq<ObjectParams>, ghost locals: seq<Vec3>, i: nat,
                      objParams: ObjectParams, objectLocalPosition: Vec3, positions0: Cache<Vec3>,
                      positions: Cache<Vec3>, ghost targets: seq<Vec3>, lib: UnityLib)
    returns (objectTargetPosition: Vec3, updated: Cache<Vec3>)
    requires i < |movers| == |ps| == |locals|
    requires objParams == ps[i] && objectLocalPosition == locals[i]
    requires Targets(movers, PositionRequests(ps, locals, lib), Zero, i, positions0) == Fill(targets, positions)
    ensures Targets(movers, PositionRequests(ps, locals, lib), Zero, i + 1, positions0) == Fill(targets + [objectTargetPosition], updated)
  {
    objectTargetPosition, updated := TargetPosition(positions, movers[i], objParams, objectLocalPosition, lib);
    PositionRequestsAt(ps, locals, lib, i);
    TargetsStep(movers, PositionRequests(ps, locals, lib), Zero, i, positions0, objectTargetPosition, updated);
  }

  /**
   * Start's handling of the orientation cache for entry i: the target it
   * resolves to extends the targets of the entries before it.
   */
  method OrientationStep(movers: seq<GameObject>, ghost ps: seq<ObjectParams>, ghost locals: seq<Quaternion>, i: nat,
                         objParams: ObjectParams, objectLocalOrientation: Quaternion, orientations0: Cache<Quaternion>,
                         orientations: Cache<Quaternion>, ghost targets: seq<Quaternion>, lib: UnityLib)
    returns (objectTargetOrientation: Quaternion, updated: Cache<Quaternion>)
    requires i < |movers| == |ps| == |locals|
    requires objParams == ps[i] && objectLocalOrientation == locals[i]
    requires Targets(movers, OrientationRequests(ps, locals, lib), Identity, i, orientations0) == Fill(targets, orientations)
    ensures Targets(movers, OrientationRequests(ps, locals, lib), Identity, i + 1, orientations0)
         == Fill(targets + [objectTargetOrientation], updated)
  {
    objectTargetOrientation, updated := TargetOrientation(orientations, movers[i], objParams, objectLocalOrientation, lib);
    OrientationRequestsAt(ps, locals, lib, i);
    TargetsStep(movers, OrientationRequests(ps, locals, lib), Identity, i, orientations0, objectTargetOrientation, updated);
  }

  /** Start's capture of entry i: the object's local position and the x, y, z of its local rotation. */
  method CaptureEntry(moveData: MoveData, i: nat, position: Vec3, rotation: Quaternion)
    requires i < |moveData.moverObjectsParameters|
    modifies moveData
    ensures moveData.moverObjectsParameters
         == old(moveData.moverObjectsParameters)[i := Captured(old(moveData.moverObjectsParameters[i]), position, rotation)]
    ensures moveData.moveSpeed == old(moveData.moveSpeed) && moveData.stepDistance == old(moveData.stepDistance)
    ensures moveData.freezePosition == old(moveData.freezePosition)
  {
    var objParams := moveData.moverObjectsParameters[i];
    moveData.moverObjectsParameters := moveData.moverObjectsParameters[i := Captured(objParams, position, rotation)];
  }

  /**
   * The capture half of Start's loop: record each mover object's local
   * position and rotation in its entry, and collect them in order.
   */
  method CaptureAll(moveData: MoveData, movers: seq<GameObject>)
    returns (currents: seq<Vec3>, currentRotations: seq<Quaternion>)
    requires |moveData.moverObjectsParameters| == |movers|
    modifies moveData
    ensures currents == old(LocalPositions(movers)) && currentRotations == old(LocalRotations(movers))
    ensures moveData.moveSpeed == old(moveData.moveSpeed) && moveData.stepDistance == old(moveData.stepDistance)
    ensures moveData.freezePosition == old(moveData.freezePosition)
    ensures |moveData.moverObjectsParameters| == |movers|
    ensures forall k :: 0 <= k < |movers| ==>
      moveData.moverObjectsParameters[k] == Captured(old(moveData.moverObjectsParameters[k]), currents[k], currentRotations[k])
  {
    var n := |movers|;
    ghost var ps := moveData.moverObjectsParameters;
    ghost var locals := LocalPositions(movers);
    ghost var rotations := LocalRotations(movers);
    currents, currentRotations := [], [];
    for i := 0 to n
      invariant |moveData.moverObjectsParameters| == n
      invariant forall k :: 0 <= k < i ==> moveData.moverObjectsParameters[k] == Captured(ps[k], locals[k], rotations[k])
      invariant forall k :: i <= k < n ==> moveData.moverObjectsParameters[k] == ps[k]
      invariant currents == locals[..i] && currentRotations == rotations[..i]
      invariant moveData.moveSpeed == old(moveData.moveSpeed) && moveData.stepDistance == old(moveData.stepDistance)
      invariant moveData.freezePosition == old(moveData.freezePosition)
    {
      var currentObject := movers[i];
      LocalPositionsAt(movers, i);
      LocalRotationsAt(movers, i);
      var objectLocalPosition := currentObject.localPosition;
      var objectLocalOrientation := currentObject.localRotation;
      CaptureEntry(moveData, i, objectLocalPosition, objectLocalOrientation);
      assert locals[..i + 1] == locals[..i] + [objectLocalPosition];
      assert rotations[..i + 1] == rotations[..i] + [objectLocalOrientation];
      currents, currentRotations := currents + [objectLocalPosition], currentRotations + [objectLocalOrientation];
    }
    assert locals[..n] == locals && rotations[..n] == rotations;
  }

  /**
   * The cache half of Start's loop: resolve every entry's target position
   * and orientation through the two caches, in order.
   */
  method ResolveTargets(movers: seq<GameObject>, ps: seq<ObjectParams>, currents: seq<Vec3>, currentRotations: seq<Quaternion>,
                        positions0: Cache<Vec3>, orientations0: Cache<Quaternion>, lib: UnityLib)
    returns (targets: seq<Vec3>, positions: Cache<Vec3>, targetRotations: seq<Quaternion>, orientations: Cache<Quaternion>)
    requires |movers| == |ps| == |currents| == |currentRotations|
    ensures Targets(movers, PositionRequests(ps, currents, lib), Zero, |movers|, positions0) == Fill(targets, positions)
    ensures Targets(movers, OrientationRequests(ps, currentRotations, lib), Identity, |movers|, orientations0)
         == Fill(targetRotations, orientations)
  {
    targets, positions := [], positions0;
    targetRotations, orientations := [], orientations0;
    for i := 0 to |movers|
      invariant Targets(movers, PositionRequests(ps, currents, lib), Zero, i, positions0) == Fill(targets, positions)
      invariant Targets(movers, OrientationRequests(ps, currentRotations, lib), Identity, i, orientations0)
             == Fill(targetRotations, orientations)
    {
      var objectTargetPosition;
      objectTargetPosition, positions := PositionStep(movers, ps, currents, i, ps[i], currents[i], positions0, positions, targets, lib);
      targets := targets + [objectTargetPosition];
      var objectTargetOrientation;
      objectTargetOrientation, orientations :=
        OrientationStep(movers, ps, currentRotations, i, ps[i], currentRotations[i], orientations0, orientations, targetRotations, lib);
      targetRotations := targetRotations + [objectTargetOrientation];
    }
  }

  /** What Start computes for the mover objects: their start values and their targets, resolved through the caches. */
  datatype StartTargets = StartTargets(currentPosition: seq<Vec3>, targetPosition: seq<Vec3>,
                                       currentOrientation: seq<Quaternion>, targetOrientation: seq<Quaternion>,
                                       positions: Cache<Vec3>, orientations: Cache<Quaternion>)

  /** Start's targets for the given entries and start values. */
  function Resolved(movers: seq<GameObject>, ps: seq<ObjectParams>, currents: seq<Vec3>, currentRotations: seq<Quaternion>,
                    positions0: Cache<Vec3>, orientations0: Cache<Quaternion>, lib: UnityLib): StartTargets
    requires |movers| == |ps| == |currents| == |currentRotations|
  {
    var p := Targets(movers, PositionRequests(ps, currents, lib), Zero, |movers|, positions0);
    var o := Targets(movers, OrientationRequests(ps, currentRotations, lib), Identity, |movers|, orientations0);
    StartTargets(currents, p.targets, currentRotations, o.targets, p.cache, o.cache)
  }

  // ---------------------------------------------------------------------------
  // The Transition coroutine

  /** transitionTime: the transition lasts five seconds. */
  const TransitionTime: real := 5.0

  /** The position writes of one transition frame: each object lerped from its start towards its target. */
  function LerpWrites(from: seq<Vec3>, to: seq<Vec3>, fraction: real): (w: seq<Option<Vec3>>)
    requires |from| == |to|
    ensures |w| == |from|
  {
    if |from| == 0 then []
    else LerpWrites(from[..|from| - 1], to[..|from| - 1], fraction) + [Some(LerpVec(from[|from| - 1], to[|from| - 1], fraction))]
  }

  lemma {:induction false} LerpWritesAt(from: seq<Vec3>, to: seq<Vec3>, fraction: real, i: nat)
    requires i < |from| == |to|
    ensures LerpWrites(from, to, fraction)[i] == Some(LerpVec(from[i], to[i], fraction))
  {
    if i < |from| - 1 {
      LerpWritesAt(from[..|from| - 1], to[..|from| - 1], fraction, i);
    }
  }

  /** The rotation writes of one transition frame: each object slerped from its start towards its target. */
  function SlerpWrites(from: seq<Quaternion>, to: seq<Quaternion>, fraction: real, lib: UnityLib): (w: seq<Option<Quaternion>>)
    requires |from| == |to|
    ensures |w| == |from|
  {
    if |from| == 0 then []
    else SlerpWrites(from[..|from| - 1], to[..|from| - 1], fraction, lib) + [Some(lib.slerp(from[|from| - 1], to[|from| - 1], fraction))]
  }

  lemma {:induction false} SlerpWritesAt(from: seq<Quaternion>, to: seq<Quaternion>, fraction: real, lib: UnityLib, i: nat)
    requires i < |from| == |to|
    ensures SlerpWrites(from, to, fraction, lib)[i] == Some(lib.slerp(from[i], to[i], fraction))
  {
    if i < |from| - 1 {
      SlerpWritesAt(from[..|from| - 1], to[..|from| - 1], fraction, lib, i);
    }
  }

  /** Writes of every value of s, in order: the final snap to the targets. */
  function AllWritten<T>(s: seq<T>): (w: seq<Option<T>>)
    ensures |w| == |s|
  {
    if |s| == 0 then [] else AllWritten(s[..|s| - 1]) + [Some(s[|s| - 1])]
  }

  lemma {:induction false} AllWrittenAt<T>(s: seq<T>, i: nat)
    requires i < |s|
    ensures AllWritten(s)[i] == Some(s[i])
  {
    if i < |s| - 1 {
      AllWrittenAt(s[..|s| - 1], i);
    }
  }

  /**
   * At the transition's first frame (fraction 0) every object is lerped onto
   * its own start: when the starts are the objects' current positions, the
   * positions do not move.
   */
  lemma {:induction false} FirstTransitionFrameKeepsPositions(movers: seq<GameObject>, from: seq<Vec3>, to: seq<Vec3>, o: GameObject, d: Vec3)
    requires |from| == |to| == |movers|
    requires forall i :: 0 <= i < |movers| && movers[i] == o ==> from[i] == d
    ensures LastWrite(movers, LerpWrites(from, to, 0.0), |movers|, o, d) == d
  {
    forall i | 0 <= i < |movers| && movers[i] == o
      ensures LerpWrites(from, to, 0.0)[i] == Some(d)
    {
      LerpWritesAt(from, to, 0.0, i);
    }
    LastWriteSameValue(movers, LerpWrites(from, to, 0.0), |movers|, o, d);
  }

  /**
   * Start's first transition frame leaves every position where it was: the
   * start values are the objects' own positions, and fraction 0 lerps onto
   * them.
   */
  lemma StartKeepsPosition(movers: seq<GameObject>, from: seq<Vec3>, to: seq<Vec3>, k: nat)
    requires k < |movers| == |from| == |to|
    requires from == LocalPositions(movers)
    ensures LastWrite(movers, LerpWrites(from, to, 0.0), |movers|, movers[k], movers[k].localPosition) == movers[k].localPosition
  {
    forall i | 0 <= i < |movers| && movers[i] == movers[k]
      ensures from[i] == movers[k].localPosition
    {
      LocalPositionsAt(movers, i);
    }
    FirstTransitionFrameKeepsPositions(movers, from, to, movers[k], movers[k].localPosition);
  }

  /** StartKeepsPosition for every mover object at once. */
  lemma StartKeepsPositions(movers: seq<GameObject>, from: seq<Vec3>, to: seq<Vec3>)
    requires |movers| == |from| == |to|
    requires from == LocalPositions(movers)
    ensures forall k :: 0 <= k < |movers| ==>
      LastWrite(movers, LerpWrites(from, to, 0.0), |movers|, movers[k], movers[k].localPosition) == movers[k].localPosition
  {
    forall k | 0 <= k < |movers|
      ensures LastWrite(movers, LerpWrites(from, to, 0.0), |movers|, movers[k], movers[k].localPosition) == movers[k].localPosition
    {
      StartKeepsPosition(movers, from, to, k);
    }
  }

  /**
   * One frame of the transition loop: every mover object i, in order, gets
   * the lerp of its start and target positions and the slerp of its start and
   * target orientations at the given fraction of the transition time.
   */
  method TransitionWrites(movers: seq<GameObject>, from: seq<Vec3>, to: seq<Vec3>,
                          fromRotation: seq<Quaternion>, toRotation: seq<Quaternion>, fraction: real, lib: UnityLib)
    requires |from| == |to| == |fromRotation| == |toRotation| == |movers|
    modifies set o | o in movers
    ensures forall k :: 0 <= k < |movers| ==>
      movers[k].localPosition == LastWrite(movers, LerpWrites(from, to, fraction), |movers|, movers[k], old(movers[k].localPosition))
    ensures forall k :: 0 <= k < |movers| ==>
      movers[k].localRotation
        == LastWrite(movers, SlerpWrites(fromRotation, toRotation, fraction, lib), |movers|, movers[k], old(movers[k].localRotation))
  {
    ghost var positions := LerpWrites(from, to, fraction);
    ghost var rotations := SlerpWrites(fromRotation, toRotation, fraction, lib);
    for i := 0 to |movers|
      invariant forall k :: 0 <= k < |movers| ==>
        movers[k].localPosition == LastWrite(movers, positions, i, movers[k], old(movers[k].localPosition))
      invariant forall k :: 0 <= k < |movers| ==>
        movers[k].localRotation == LastWrite(movers, rotations, i, movers[k], old(movers[k].localRotation))
    {
      var transitionPosition := LerpVec(from[i], to[i], fraction);
      var transitionOrientation := lib.slerp(fromRotation[i], toRotation[i], fraction);
      LerpWritesAt(from, to, fraction, i);
      SlerpWritesAt(fromRotation, toRotation, fraction, lib, i);
      Apply(movers[i], Some(transitionPosition), Some(transitionOrientation));
    }
  }

  /**
   * The end of the transition: every mover object i, in order, is put on its
   * target position and orientation; an object listed more than once ends on
   * the targets of its last listing.
   */
  method SnapToTargets(movers: seq<GameObject>, to: seq<Vec3>, toRotation: seq<Quaternion>)
    requires |to| == |toRotation| == |movers|
    modifies set o | o in movers
    ensures forall k :: 0 <= k < |movers| ==>
      movers[k].localPosition == LastWrite(movers, AllWritten(to), |movers|, movers[k], old(movers[k].localPosition))
    ensures forall k :: 0 <= k < |movers| ==>
      movers[k].localRotation == LastWrite(movers, AllWritten(toRotation), |movers|, movers[k], old(movers[k].localRotation))
    ensures forall k :: 0 <= k < |movers| && LastListing(movers, k) ==>
      movers[k].localPosition == to[k] && movers[k].localRotation == toRotation[k]
  {
    ghost var positions := AllWritten(to);
    ghost var rotations := AllWritten(toRotation);
    for i := 0 to |to|
      invariant forall k :: 0 <= k < |movers| ==>
        movers[k].localPosition == LastWrite(movers, positions, i, movers[k], old(movers[k].localPosition))
      invariant forall k :: 0 <= k < |movers| ==>
        movers[k].localRotation == LastWrite(movers, rotations, i, movers[k], old(movers[k].localRotation))
    {
      AllWrittenAt(to, i);
      AllWrittenAt(toRotation, i);
      Apply(movers[i], Some(to[i]), Some(toRotation[i]));
    }
    forall k | 0 <= k < |movers| && LastListing(movers, k)
      ensures movers[k].localPosition == to[k] && movers[k].localRotation == toRotation[k]
    {
      forall i | 0 <= i < |movers| ensures positions[i].Some? && rotations[i].Some? {
        AllWrittenAt(to, i);
        AllWrittenAt(toRotation, i);
      }
      AllWrittenAt(to, k);
      AllWrittenAt(toRotation, k);
      LastWriteAllPresent(movers, positions, |movers|, k, old(movers[k].localPosition));
      LastWriteAllPresent(movers, rotations, |movers|, k, old(movers[k].localRotation));
    }
  }

  /** The coroutine's clock: whether a transition is in progress, and its elapsed time. */
  datatype TransitionClock = TransitionClock(isTransitioning: bool, elapsedTime: real)

  /**
   * One resumption of the coroutine: while the elapsed time is below the
   * transition time it writes a frame and adds Time.deltaTime; otherwise it
   * snaps to the targets and the transition ends.  A finished coroutine does
   * nothing.
   */
  function Resume(c: TransitionClock, dt: real): (r: TransitionClock)
    ensures !c.isTransitioning ==> r == c
    ensures c.isTransitioning && c.elapsedTime < TransitionTime ==> r == TransitionClock(true, c.elapsedTime + dt)
    ensures c.isTransitioning && c.elapsedTime >= TransitionTime ==> !r.isTransitioning
  {
    if !c.isTransitioning then c
    else if c.elapsedTime < TransitionTime then TransitionClock(true, c.elapsedTime + dt)
    else TransitionClock(false, c.elapsedTime)
  }

  /** The clock after one resumption per frame, with the frames' delta times dts in order. */
  function Run(c: TransitionClock, dts: seq<real>): TransitionClock
    decreases |dts|
  {
    if |dts| == 0 then c else Run(Resume(c, dts[0]), dts[1..])
  }

  /** The sum of a sequence of delta times. */
  function Total(dts: seq<real>): real
    decreases |dts|
  {
    if |dts| == 0 then 0.0 else dts[0] + Total(dts[1..])
  }

  /** Total of all but the last delta time, peeled from the front. */
  lemma TotalPrefix(dts: seq<real>)
    requires |dts| >= 2
    ensures Total(dts[..|dts| - 1]) == dts[0] + Total(dts[1..][..|dts| - 2])
  {
    assert dts[..|dts| - 1][1..] == dts[1..][..|dts| - 2];
  }

  /**
   * The transition ends: once the delta times of all frames but the last add
   * up to the transition time, the last frame finds the time up and ends it.
   */
  lemma {:induction false} TransitionEnds(c: TransitionClock, dts: seq<real>)
    requires |dts| >= 1 && c.elapsedTime + Total(dts[..|dts| - 1]) >= TransitionTime
    ensures !Run(c, dts).isTransitioning
    decreases |dts|
  {
    var r := Resume(c, dts[0]);
    if !c.isTransitioning || c.elapsedTime >= TransitionTime {
      assert !r.isTransitioning;
      NotTransitioningStays(r, dts[1..]);
    } else {
      if |dts| == 1 {
        assert false;
      }
      TotalPrefix(dts);
      TransitionEnds(r, dts[1..]);
    }
  }

  /** A clock that is not transitioning stays so. */
  lemma {:induction false} NotTransitioningStays(c: TransitionClock, dts: seq<real>)
    requires !c.isTransitioning
    ensures Run(c, dts) == c
    decreases |dts|
  {
    if |dts| > 0 {
      NotTransitioningStays(Resume(c, dts[0]), dts[1..]);
    }
  }

  /**
   * Until the time is up the transition goes on: when the elapsed time plus
   * the delta times stays below the transition time (no delta time negative),
   * the clock is still transitioning and has added them all.
   */
  lemma {:induction false} TransitionRunsUntilTimeUp(c: TransitionClock, dts: seq<real>)
    requires c.isTransitioning
    requires forall i :: 0 <= i < |dts| ==> dts[i] >= 0.0
    requires c.elapsedTime + Total(dts) < TransitionTime
    ensures Run(c, dts) == TransitionClock(true, c.elapsedTime + Total(dts))
    decreases |dts|
  {
    if |dts| > 0 {
      TotalNonnegative(dts[1..]);
      TransitionRunsUntilTimeUp(Resume(c, dts[0]), dts[1..]);
    }
  }

  lemma {:induction false} TotalNonnegative(dts: seq<real>)
    requires forall i :: 0 <= i < |dts| ==> dts[i] >= 0.0
    ensures Total(dts) >= 0.0
    decreases |dts|
  {
    if |dts| > 0 {
      TotalNonnegative(dts[1..]);
    }
  }

  /**
   * The coroutine as written: besides the clock it keeps previousTimeValue
   * and may die.  In each resumption with time left and at least one mover
   * object, the loop body's debug log runs whenever previousTimeValue differs
   * from the elapsed time, and it reads moverObjects[2]; with one or two mover
   * objects the index is out of range, the exception ends the coroutine, and
   * isTransitioning is never reset.
   */
  datatype LoggedTransition = LoggedTransition(clock: TransitionClock, running: bool, previousTimeValue: real)

  function ResumeAsWritten(s: LoggedTransition, objects: nat, dt: real): (r: LoggedTransition)
    ensures !s.running ==> r == s
  {
    if !s.running then s
    else if s.clock.elapsedTime < TransitionTime then
      if objects == 0 then s.(clock := TransitionClock(true, s.clock.elapsedTime + dt))
      else if s.previousTimeValue != s.clock.elapsedTime && objects <= 2 then s.(running := false)
      else LoggedTransition(TransitionClock(true, s.clock.elapsedTime + dt), true, s.clock.elapsedTime)
    else LoggedTransition(TransitionClock(false, s.clock.elapsedTime), false, s.previousTimeValue)
  }

  function RunAsWritten(s: LoggedTransition, objects: nat, dts: seq<real>): LoggedTransition
    decreases |dts|
  {
    if |dts| == 0 then s else RunAsWritten(ResumeAsWritten(s, objects, dts[0]), objects, dts[1..])
  }

  /**
   * With one or two mover objects and a non-zero first delta time, the
   * coroutine as written never ends the transition: the second resumption
   * dies in the debug log, and Update stays blocked whatever frames follow.
   */
  lemma AsWrittenNeverEnds(objects: nat, dt0: real, dts: seq<real>)
    requires 1 <= objects <= 2 && dt0 != 0.0 && dt0 < TransitionTime
    ensures RunAsWritten(LoggedTransition(TransitionClock(true, dt0), true, 0.0), objects, dts).clock == TransitionClock(true, dt0)
  {
    var s := LoggedTransition(TransitionClock(true, dt0), true, 0.0);
    if |dts| > 0 {
      var dead := ResumeAsWritten(s, objects, dts[0]);
      assert dead == s.(running := false);
      DeadStays(dead, objects, dts[1..]);
    }
  }

  lemma {:induction false} DeadStays(s: LoggedTransition, objects: nat, dts: seq<real>)
    requires !s.running
    ensures RunAsWritten(s, objects, dts) == s
    decreases |dts|
  {
    if |dts| > 0 {
      DeadStays(ResumeAsWritten(s, objects, dts[0]), objects, dts[1..]);
    }
  }

  /**
   * With no mover objects, or with three or more, the coroutine as written
   * keeps the same clock as the corrected one, frame after frame.
   */
  lemma {:induction false} AsWrittenAgreesOtherwise(s: LoggedTransition, objects: nat, dts: seq<real>)
    requires objects == 0 || objects >= 3
    requires s.running == s.clock.isTransitioning
    ensures RunAsWritten(s, objects, dts).clock == Run(s.clock, dts)
    decreases |dts|
  {
    if |dts| > 0 {
      if !s.running {
        DeadStays(s, objects, dts);
        NotTransitioningStays(s.clock, dts);
      } else {
        AsWrittenAgreesOtherwise(ResumeAsWritten(s, objects, dts[0]), objects, dts[1..]);
      }
    }
  }

  // ---------------------------------------------------------------------------
  // Update's frame

  /** The four controller objects and the step distance their z is scaled by. */
  datatype Controllers = Controllers(stepL: GameObject, stepR: GameObject, armL: GameObject, armR: GameObject, stepDistance: real)

  predicate IsStepController(c: Controllers, o: GameObject) { o == c.stepL || o == c.stepR }

  predicate IsArmController(c: Controllers, o: GameObject) { o == c.armL || o == c.armR }

  /**
   * A position after the controller scaling: a step controller's z is
   * multiplied by the step distance, and then an arm controller's z is; an
   * object in both roles is scaled twice, an object listed twice in one pair
   * once, since each pair is read before it is written.
   */
  function ControllerPosition(c: Controllers, o: GameObject, d: Vec3): Vec3 {
    var stepped := if IsStepController(c, o) then ScaledZ(d, c.stepDistance, 0.0) else d;
    if IsArmController(c, o) then ScaledZ(stepped, c.stepDistance, 0.0) else stepped
  }

  /**
   * The scaling keeps x and y; z is multiplied by the step distance once for
   * each of the two roles the object plays, and an object in neither keeps
   * its position.
   */
  lemma ControllerScaled(c: Controllers, o: GameObject, d: Vec3)
    ensures ControllerPosition(c, o, d).x == d.x && ControllerPosition(c, o, d).y == d.y
    ensures IsStepController(c, o) != IsArmController(c, o) ==> ControllerPosition(c, o, d).z == d.z * c.stepDistance
    ensures IsStepController(c, o) && IsArmController(c, o) ==>
      ControllerPosition(c, o, d).z == d.z * c.stepDistance * c.stepDistance
    ensures !IsStepController(c, o) && !IsArmController(c, o) ==> ControllerPosition(c, o, d) == d
  {
  }

  /** One pair of controllers: both local positions are read, then both get z times the step distance. */
  method ScalePair(left: GameObject, right: GameObject, stepDistance: real)
    modifies left, right
    ensures left.localPosition == ScaledZ(old(left.localPosition), stepDistance, 0.0)
    ensures right.localPosition == ScaledZ(old(right.localPosition), stepDistance, 0.0)
    ensures left.localRotation == old(left.localRotation) && right.localRotation == old(right.localRotation)
  {
    var leftPosition := left.localPosition;
    var rightPosition := right.localPosition;
    var leftZ := leftPosition.z;
    var rightZ := rightPosition.z;
    leftZ := leftZ * stepDistance;
    rightZ := rightZ * stepDistance;
    left.localPosition := Vec3(leftPosition.x, leftPosition.y, leftZ);
    right.localPosition := Vec3(rightPosition.x, rightPosition.y, rightZ);
  }

  /** The end of Update: the step controllers' pair, then the arm controllers' pair. */
  method ScaleControllers(c: Controllers)
    modifies c.stepL, c.stepR, c.armL, c.armR
    ensures c.stepL.localPosition == ControllerPosition(c, c.stepL, old(c.stepL.localPosition))
    ensures c.stepR.localPosition == ControllerPosition(c, c.stepR, old(c.stepR.localPosition))
    ensures c.armL.localPosition == ControllerPosition(c, c.armL, old(c.armL.localPosition))
    ensures c.armR.localPosition == ControllerPosition(c, c.armR, old(c.armR.localPosition))
    ensures c.stepL.localRotation == old(c.stepL.localRotation) && c.stepR.localRotation == old(c.stepR.localRotation)
    ensures c.armL.localRotation == old(c.armL.localRotation) && c.armR.localRotation == old(c.armR.localRotation)
  {
    ScalePair(c.stepL, c.stepR, c.stepDistance);
    ScalePair(c.armL, c.armR, c.stepDistance);
  }

  /** The positional effect of one Update, as the ensures of Update state it. */
  datatype Effect = Effect(
    root: GameObject,
    /** The root's forward axis and rootZ_MoveDistance. */
    forward: Vec3,
    rootDistance: real,
    movers: seq<GameObject>,
    writes: seq<Option<Vec3>>,
    processed: nat,
    controllers: Controllers,
    /** Whether Update got past the loop to the controllers. */
    controllersRun: bool)

  /**
   * Where an object's local position ends up after one Update, from its
   * position d before it: the root is translated first, then the loop's
   * writes land in order (the last one to the object wins), then the
   * controllers are scaled.
   */
  function UpdatedPosition(e: Effect, o: GameObject, d: Vec3): Vec3
    requires e.processed <= |e.movers| && e.processed <= |e.writes|
  {
    var moved := if o == e.root then Translated(d, e.forward, e.rootDistance) else d;
    var written := LastWrite(e.movers, e.writes, e.processed, o, moved);
    if e.controllersRun then ControllerPosition(e.controllers, o, written) else written
  }

  /**
   * A controller that is neither the root nor written by the loop keeps x
   * and y and has its z multiplied by the step distance, once per role.
   */
  lemma ControllerUpdated(e: Effect, o: GameObject, d: Vec3)
    requires e.processed <= |e.movers| && e.processed <= |e.writes|
    requires e.controllersRun && o != e.root
    requires forall i :: 0 <= i < e.processed && e.movers[i] == o ==> e.writes[i].None?
    ensures UpdatedPosition(e, o, d) == ControllerPosition(e.controllers, o, d)
    ensures IsStepController(e.controllers, o) != IsArmController(e.controllers, o) ==>
      UpdatedPosition(e, o, d) == Vec3(d.x, d.y, d.z * e.controllers.stepDistance)
  {
    LastWriteUntouched(e.movers, e.writes, e.processed, o, d);
    ControllerScaled(e.controllers, o, d);
  }

  /**
   * A frozen root (distance zero) that the loop does not write and that is no
   * controller stays where it is; any other object the Update does not touch
   * keeps its position as well.
   */
  lemma UntouchedKept(e: Effect, o: GameObject, d: Vec3)
    requires e.processed <= |e.movers| && e.processed <= |e.writes|
    requires o == e.root ==> e.rootDistance == 0.0
    requires forall i :: 0 <= i < e.processed && e.movers[i] == o ==> e.writes[i].None?
    requires e.controllersRun ==> !IsStepController(e.controllers, o) && !IsArmController(e.controllers, o)
    ensures UpdatedPosition(e, o, d) == d
  {
    LastWriteUntouched(e.movers, e.writes, e.processed, o, if o == e.root then Translated(d, e.forward, e.rootDistance) else d);
  }

  /**
   * Update's loop over the asset's entries ps, writing entry i to movers[i]
   * at the given phase.  It stops early, with completed false, at the first
   * entry without a mover object (the index error that ends the Update).
   */
  method WriteObjects(movers: seq<GameObject>, ps: seq<ObjectParams>, moverTime: real, lerpTimer: real, lib: UnityLib)
    returns (completed: bool)
    modifies set o | o in movers
    ensures completed <==> |ps| <= |movers|
    ensures forall k :: 0 <= k < |movers| ==>
      movers[k].localPosition
        == LastWrite(movers, PositionWrites(ps, moverTime, lerpTimer, lib), MoverControls2.Processed(|ps|, |movers|),
                     movers[k], old(movers[k].localPosition))
    ensures forall k :: 0 <= k < |movers| ==>
      movers[k].localRotation
        == LastWrite(movers, RotationWrites(ps, moverTime, lerpTimer, lib), MoverControls2.Processed(|ps|, |movers|),
                     movers[k], old(movers[k].localRotation))
  {
    ghost var positions := PositionWrites(ps, moverTime, lerpTimer, lib);
    ghost var rotations := RotationWrites(ps, moverTime, lerpTimer, lib);
    var i := 0;
    completed := true;
    while i < |ps|
      invariant i <= |ps| && i <= |movers|
      invariant completed
      invariant forall k :: 0 <= k < |movers| ==>
        movers[k].localPosition == LastWrite(movers, positions, i, movers[k], old(movers[k].localPosition))
      invariant forall k :: 0 <= k < |movers| ==>
        movers[k].localRotation == LastWrite(movers, rotations, i, movers[k], old(movers[k].localRotation))
    {
      var objParams := ps[i];
      if i >= |movers| {
        completed := false;
        break;
      }
      var currentObject := movers[i];
      var position, rotation := EvaluateObject(objParams, moverTime, lerpTimer, lib);
      PositionWritesAt(ps, i, moverTime, lerpTimer, lib);
      RotationWritesAt(ps, i, moverTime, lerpTimer, lib);
      Apply(currentObject, position, rotation);
      i := i + 1;
    }
    assert i == MoverControls2.Processed(|ps|, |movers|);
  }

  /**
   * The writes of one Update after the phase advance: move the root, run the
   * loop over the entries, and, when the loop got through, scale the
   * controllers.
   */
  method Frame(root: GameObject, forward: Vec3, rootMoveDistance: real,
               movers: seq<GameObject>, ps: seq<ObjectParams>, moverTime: real, lerpTimer: real, lib: UnityLib,
               c: Controllers)
    returns (completed: bool)
    modifies root, (set o | o in movers), c.stepL, c.stepR, c.armL, c.armR
    ensures completed <==> |ps| <= |movers|
    ensures var e := Effect(root, forward, rootMoveDistance, movers, PositionWrites(ps, moverTime, lerpTimer, lib),
                            MoverControls2.Processed(|ps|, |movers|), c, completed);
      (forall k :: 0 <= k < |movers| ==> movers[k].localPosition == UpdatedPosition(e, movers[k], old(movers[k].localPosition))) &&
      root.localPosition == UpdatedPosition(e, root, old(root.localPosition)) &&
      c.stepL.localPosition == UpdatedPosition(e, c.stepL, old(c.stepL.localPosition)) &&
      c.stepR.localPosition == UpdatedPosition(e, c.stepR, old(c.stepR.localPosition)) &&
      c.armL.localPosition == UpdatedPosition(e, c.armL, old(c.armL.localPosition)) &&
      c.armR.localPosition == UpdatedPosition(e, c.armR, old(c.armR.localPosition))
    ensures forall k :: 0 <= k < |movers| ==>
      movers[k].localRotation
        == LastWrite(movers, RotationWrites(ps, moverTime, lerpTimer, lib), MoverControls2.Processed(|ps|, |movers|),
                     movers[k], old(movers[k].localRotation))
    ensures root !in movers ==> root.localRotation == old(root.localRotation)
    ensures c.stepL !in movers ==> c.stepL.localRotation == old(c.stepL.localRotation)
    ensures c.stepR !in movers ==> c.stepR.localRotation == old(c.stepR.localRotation)
    ensures c.armL !in movers ==> c.armL.localRotation == old(c.armL.localRotation)
    ensures c.armR !in movers ==> c.armR.localRotation == old(c.armR.localRotation)
  {
    Translate(root, forward, rootMoveDistance);
    label moved:
    completed := WriteObjects(movers, ps, moverTime, lerpTimer, lib);
    label written:
    if completed {
      ScaleControllers(c);
    }
    ghost var e := Effect(root, forward, rootMoveDistance, movers, PositionWrites(ps, moverTime, lerpTimer, lib),
                          MoverControls2.Processed(|ps|, |movers|), c, completed);
    forall o | o in movers || o == root || o == c.stepL || o == c.stepR || o == c.armL || o == c.armR
      ensures o.localPosition == UpdatedPosition(e, o, old(o.localPosition))
    {
      var d := old(o.localPosition);
      var m := if o == root then Translated(d, e.forward, e.rootDistance) else d;
      assert old@moved(o.localPosition) == m;
      assert old@written(o.localPosition) == LastWrite(e.movers, e.writes, e.processed, o, m) by {
        if o !in movers {
          LastWriteUntouched(e.movers, e.writes, e.processed, o, m);
        }
      }
    }
  }

  class MoverControlsWithTransition {
    const moveData: MoveData
    /** The root of the character, moved along its forward axis. */
    const rootObject: GameObject
    var freezeRootPosition: bool
    /** The objects that control the legs and the arms. */
    const stepControllerL: GameObject
    const stepControllerR: GameObject
    const armControllerL: GameObject
    const armControllerR: GameObject
    /** The mover objects, in the same order as the asset's entries. */
    const moverObjects: seq<GameObject>
    /** Start's captured start values and first-frame targets, one per mover object. */
    var currentPosition: seq<Vec3>
    var targetPosition: seq<Vec3>
    var currentOrientation: seq<Quaternion>
    var targetOrientation: seq<Quaternion>
    var moveSpeed: real
    var stepDistance: real
    /** The x value of the sine graph, starting at 0. */
    var moverTime: real
    var isTransitioning: bool
    /** The target caches of Start, keyed by object. */
    var hasTargetPositionSet: map<GameObject, bool>
    var hasTargetOrientationSet: map<GameObject, bool>
    var storedTargetPosition: map<GameObject, Vec3>
    var storedTargetOrientation: map<GameObject, Quaternion>
    /** The Transition coroutine's elapsedTime, kept between its frames. */
    var elapsedTime: real

    /** The four lists hold one value per mover object. */
    ghost predicate HasTargets()
      reads this`currentPosition, this`targetPosition, this`currentOrientation, this`targetOrientation
    {
      |currentPosition| == |targetPosition| == |currentOrientation| == |targetOrientation| == |moverObjects|
    }

    /** A running transition has its start values and targets. */
    ghost predicate Valid()
      reads this`isTransitioning, this`currentPosition, this`targetPosition, this`currentOrientation, this`targetOrientation
    {
      isTransitioning ==> HasTargets()
    }

    constructor (moveData: MoveData, rootObject: GameObject, freezeRootPosition: bool,
                 stepControllerL: GameObject, stepControllerR: GameObject,
                 armControllerL: GameObject, armControllerR: GameObject, moverObjects: seq<GameObject>)
      ensures this.moveData == moveData && this.rootObject == rootObject && this.freezeRootPosition == freezeRootPosition
      ensures this.stepControllerL == stepControllerL && this.stepControllerR == stepControllerR
      ensures this.armControllerL == armControllerL && this.armControllerR == armControllerR
      ensures this.moverObjects == moverObjects
      ensures currentPosition == [] && targetPosition == [] && currentOrientation == [] && targetOrientation == []
      ensures moveSpeed == 0.0 && stepDistance == 0.0 && moverTime == 0.0 && elapsedTime == 0.0
      ensures !isTransitioning
      ensures hasTargetPositionSet == map[] && storedTargetPosition == map[]
      ensures hasTargetOrientationSet == map[] && storedTargetOrientation == map[]
      ensures Valid()
    {
      this.moveData := moveData;
      this.rootObject := rootObject;
      this.freezeRootPosition := freezeRootPosition;
      this.stepControllerL := stepControllerL;
      this.stepControllerR := stepControllerR;
      this.armControllerL := armControllerL;
      this.armControllerR := armControllerR;
      this.moverObjects := moverObjects;
      currentPosition, targetPosition := [], [];
      currentOrientation, targetOrientation := [], [];
      moveSpeed, stepDistance, moverTime := 0.0, 0.0, 0.0;
      isTransitioning := false;
      hasTargetPositionSet, storedTargetPosition := map[], map[];
      hasTargetOrientationSet, storedTargetOrientation := map[], map[];
      elapsedTime := 0.0;
    }

    /**
     * Transition up to its first yield: unless a transition is already
     * running, mark one as running, write the first frame (fraction 0) and
     * add the frame's delta time to the elapsed time.
     */
    method Transition(dt: real, lib: UnityLib)
      requires HasTargets()
      modifies this`isTransitioning, this`elapsedTime, (set o | o in moverObjects)
      ensures unchanged(moveData)
      ensures unchanged(this`currentPosition, this`targetPosition, this`currentOrientation, this`targetOrientation,
                        this`hasTargetPositionSet, this`storedTargetPosition, this`hasTargetOrientationSet, this`storedTargetOrientation,
                        this`moveSpeed, this`stepDistance, this`freezeRootPosition)
      ensures old(isTransitioning) ==>
        isTransitioning && elapsedTime == old(elapsedTime) && unchanged(set o | o in moverObjects)
      ensures !old(isTransitioning) ==> isTransitioning && elapsedTime == dt
      ensures !old(isTransitioning) ==> forall k :: 0 <= k < |moverObjects| ==>
        moverObjects[k].localPosition
          == LastWrite(moverObjects, LerpWrites(currentPosition, targetPosition, 0.0), |moverObjects|,
                       moverObjects[k], old(moverObjects[k].localPosition))
      ensures !old(isTransitioning) ==> forall k :: 0 <= k < |moverObjects| ==>
        moverObjects[k].localRotation
          == LastWrite(moverObjects, SlerpWrites(currentOrientation, targetOrientation, 0.0, lib), |moverObjects|,
                       moverObjects[k], old(moverObjects[k].localRotation))
    {
      if isTransitioning {
        return;
      }
      isTransitioning := true;
      elapsedTime := 0.0;
      if elapsedTime < TransitionTime {
        TransitionWrites(moverObjects, currentPosition, targetPosition, currentOrientation, targetOrientation,
                         elapsedTime / TransitionTime, lib);
        elapsedTime := elapsedTime + dt;
      }
    }

    /**
     * One later frame of the Transition coroutine: with time left, write the
     * frame at the elapsed fraction and add the delta time; with the time up,
     * snap every object to its targets and end the transition.
     */
    method TransitionFrame(dt: real, lib: UnityLib)
      requires Valid()
      modifies this`isTransitioning, this`elapsedTime, (set o | o in moverObjects)
      ensures Valid()
      ensures TransitionClock(isTransitioning, elapsedTime) == Resume(TransitionClock(old(isTransitioning), old(elapsedTime)), dt)
      ensures !old(isTransitioning) ==> unchanged(set o | o in moverObjects)
      ensures old(isTransitioning) && old(elapsedTime) < TransitionTime ==>
        (forall k :: 0 <= k < |moverObjects| ==>
          moverObjects[k].localPosition
            == LastWrite(moverObjects, LerpWrites(currentPosition, targetPosition, old(elapsedTime) / TransitionTime),
                         |moverObjects|, moverObjects[k], old(moverObjects[k].localPosition))) &&
        (forall k :: 0 <= k < |moverObjects| ==>
          moverObjects[k].localRotation
            == LastWrite(moverObjects, SlerpWrites(currentOrientation, targetOrientation, old(elapsedTime) / TransitionTime, lib),
                         |moverObjects|, moverObjects[k], old(moverObjects[k].localRotation)))
      ensures old(isTransitioning) && old(elapsedTime) >= TransitionTime ==>
        forall k :: 0 <= k < |moverObjects| && LastListing(moverObjects, k) ==>
          moverObjects[k].localPosition == targetPosition[k] && moverObjects[k].localRotation == targetOrientation[k]
    {
      if !isTransitioning {
        return;
      }
      if elapsedTime < TransitionTime {
        TransitionWrites(moverObjects, currentPosition, targetPosition, currentOrientation, targetOrientation,
                         elapsedTime / TransitionTime, lib);
        elapsedTime := elapsedTime + dt;
      } else {
        SnapToTargets(moverObjects, targetPosition, targetOrientation);
        isTransitioning := false;
      }
    }

    /** Keep Start's start values, targets and caches, and the asset's settings, in the component's fields. */
    method Store(r: StartTargets, speed: real, step: real, freeze: bool)
      modifies this`currentPosition, this`targetPosition, this`currentOrientation, this`targetOrientation,
        this`hasTargetPositionSet, this`storedTargetPosition, this`hasTargetOrientationSet, this`storedTargetOrientation,
        this`moveSpeed, this`stepDistance, this`freezeRootPosition
      ensures currentPosition == r.currentPosition && targetPosition == r.targetPosition
      ensures currentOrientation == r.currentOrientation && targetOrientation == r.targetOrientation
      ensures Cache(hasTargetPositionSet, storedTargetPosition) == r.positions
      ensures Cache(hasTargetOrientationSet, storedTargetOrientation) == r.orientations
      ensures moveSpeed == speed && stepDistance == step && freezeRootPosition == freeze
    {
      currentPosition, targetPosition, currentOrientation, targetOrientation,
        hasTargetPositionSet, storedTargetPosition, hasTargetOrientationSet, storedTargetOrientation,
        moveSpeed, stepDistance, freezeRootPosition :=
        r.currentPosition, r.targetPosition, r.currentOrientation, r.targetOrientation,
        r.positions.isSet, r.positions.stored, r.orientations.isSet, r.orientations.stored,
        speed, step, freeze;
    }

    /**
     * Start's loop over the entries, as two passes: capture each object's
     * start values into its entry, then resolve the targets through the
     * caches; store both in the four arrays and the caches.
     */
    method PrepareTargets(lib: UnityLib)
      requires |moveData.moverObjectsParameters| == |moverObjects|
      modifies moveData, this`currentPosition, this`targetPosition, this`currentOrientation, this`targetOrientation,
        this`hasTargetPositionSet, this`storedTargetPosition, this`hasTargetOrientationSet, this`storedTargetOrientation,
        this`moveSpeed, this`stepDistance, this`freezeRootPosition
      ensures moveSpeed == moveData.moveSpeed && stepDistance == moveData.stepDistance && freezeRootPosition == moveData.freezePosition
      ensures moveData.moveSpeed == old(moveData.moveSpeed) && moveData.stepDistance == old(moveData.stepDistance)
      ensures moveData.freezePosition == old(moveData.freezePosition)
      ensures HasTargets()
      ensures StartTargets(currentPosition, targetPosition, currentOrientation, targetOrientation,
                     Cache(hasTargetPositionSet, storedTargetPosition), Cache(hasTargetOrientationSet, storedTargetOrientation))
        == Resolved(moverObjects, old(moveData.moverObjectsParameters), old(LocalPositions(moverObjects)),
                    old(LocalRotations(moverObjects)), old(Cache(hasTargetPositionSet, storedTargetPosition)),
                    old(Cache(hasTargetOrientationSet, storedTargetOrientation)), lib)
      ensures |moveData.moverObjectsParameters| == |moverObjects|
      ensures forall k :: 0 <= k < |moverObjects| ==>
        moveData.moverObjectsParameters[k]
          == Captured(old(moveData.moverObjectsParameters[k]), old(LocalPositions(moverObjects))[k], old(LocalRotations(moverObjects))[k])
    {
      var ps := moveData.moverObjectsParameters;
      var currents, currentRotations := CaptureAll(moveData, moverObjects);
      var targets, positions, targetRotations, orientations :=
        ResolveTargets(moverObjects, ps, currents, currentRotations, Cache(hasTargetPositionSet, storedTargetPosition),
                       Cache(hasTargetOrientationSet, storedTargetOrientation), lib);
      var resolved := StartTargets(currents, targets, currentRotations, targetRotations, positions, orientations);
      assert resolved
          == Resolved(moverObjects, old(moveData.moverObjectsParameters), old(LocalPositions(moverObjects)),
                      old(LocalRotations(moverObjects)), old(Cache(hasTargetPositionSet, storedTargetPosition)),
                      old(Cache(hasTargetOrientationSet, storedTargetOrientation)), lib);
      Store(resolved, moveData.moveSpeed, moveData.stepDistance, moveData.freezePosition);
    }

    /**
     * Start when the asset lists exactly one entry per mover object: capture
     * each object's start values into its entry, resolve the targets through
     * the caches, start the transition (whose first frame leaves every
     * position where it is) and take the speed, step and freeze settings from
     * the asset.
     */
    method StartMatched(dt: real, lib: UnityLib)
      requires |moveData.moverObjectsParameters| == |moverObjects| && !isTransitioning
      modifies moveData, (set o | o in moverObjects), this`currentPosition, this`targetPosition, this`currentOrientation,
        this`targetOrientation, this`hasTargetPositionSet, this`storedTargetPosition, this`hasTargetOrientationSet,
        this`storedTargetOrientation, this`isTransitioning, this`elapsedTime, this`moveSpeed, this`stepDistance,
        this`freezeRootPosition
      ensures moveData.moveSpeed == old(moveData.moveSpeed) && moveData.stepDistance == old(moveData.stepDistance)
      ensures moveData.freezePosition == old(moveData.freezePosition)
      ensures HasTargets()
      ensures StartTargets(currentPosition, targetPosition, currentOrientation, targetOrientation,
                     Cache(hasTargetPositionSet, storedTargetPosition), Cache(hasTargetOrientationSet, storedTargetOrientation))
        == Resolved(moverObjects, old(moveData.moverObjectsParameters), old(LocalPositions(moverObjects)),
                    old(LocalRotations(moverObjects)), old(Cache(hasTargetPositionSet, storedTargetPosition)),
                    old(Cache(hasTargetOrientationSet, storedTargetOrientation)), lib)
      ensures |moveData.moverObjectsParameters| == |moverObjects|
      ensures forall k :: 0 <= k < |moverObjects| ==>
        moveData.moverObjectsParameters[k]
          == Captured(old(moveData.moverObjectsParameters[k]), old(LocalPositions(moverObjects))[k], old(LocalRotations(moverObjects))[k])
      ensures isTransitioning && elapsedTime == dt
      ensures moveSpeed == moveData.moveSpeed && stepDistance == moveData.stepDistance && freezeRootPosition == moveData.freezePosition
      ensures forall k :: 0 <= k < |moverObjects| ==> moverObjects[k].localPosition == old(moverObjects[k].localPosition)
      ensures forall k :: 0 <= k < |moverObjects| ==>
        moverObjects[k].localRotation
          == LastWrite(moverObjects, SlerpWrites(currentOrientation, targetOrientation, 0.0, lib), |moverObjects|,
                       moverObjects[k], old(moverObjects[k].localRotation))
    {
      PrepareTargets(lib);
      StartKeepsPositions(moverObjects, currentPosition, targetPosition);
      Transition(dt, lib);
    }

    /**
     * Start: when the asset lists exactly one entry per mover object, run
     * StartMatched; otherwise (the mismatch is only logged) change nothing.
     */
    method Start(dt: real, lib: UnityLib)
      requires Valid() && !isTransitioning
      modifies moveData, (set o | o in moverObjects), this`currentPosition, this`targetPosition, this`currentOrientation,
        this`targetOrientation, this`hasTargetPositionSet, this`storedTargetPosition, this`hasTargetOrientationSet,
        this`storedTargetOrientation, this`isTransitioning, this`elapsedTime, this`moveSpeed, this`stepDistance,
        this`freezeRootPosition
      ensures Valid()
      ensures moveData.moveSpeed == old(moveData.moveSpeed) && moveData.stepDistance == old(moveData.stepDistance)
      ensures moveData.freezePosition == old(moveData.freezePosition)
      ensures |old(moveData.moverObjectsParameters)| != |moverObjects| ==>
        unchanged(moveData) && unchanged(set o | o in moverObjects) && unchanged(this)
      ensures |old(moveData.moverObjectsParameters)| == |moverObjects| ==>
        HasTargets()
      ensures |old(moveData.moverObjectsParameters)| == |moverObjects| ==>
        StartTargets(currentPosition, targetPosition, currentOrientation, targetOrientation,
                       Cache(hasTargetPositionSet, storedTargetPosition), Cache(hasTargetOrientationSet, storedTargetOrientation))
          == Resolved(moverObjects, old(moveData.moverObjectsParameters), old(LocalPositions(moverObjects)),
                      old(LocalRotations(moverObjects)), old(Cache(hasTargetPositionSet, storedTargetPosition)),
                      old(Cache(hasTargetOrientationSet, storedTargetOrientation)), lib)
      ensures |old(moveData.moverObjectsParameters)| == |moverObjects| ==>
        |moveData.moverObjectsParameters| == |moverObjects|
      ensures |old(moveData.moverObjectsParameters)| == |moverObjects| ==>
        forall k :: 0 <= k < |moverObjects| ==>
          moveData.moverObjectsParameters[k]
            == Captured(old(moveData.moverObjectsParameters[k]), old(LocalPositions(moverObjects))[k], old(LocalRotations(moverObjects))[k])
      ensures |old(moveData.moverObjectsParameters)| == |moverObjects| ==>
        isTransitioning && elapsedTime == dt
      ensures |old(moveData.moverObjectsParameters)| == |moverObjects| ==>
        moveSpeed == moveData.moveSpeed && stepDistance == moveData.stepDistance && freezeRootPosition == moveData.freezePosition
      ensures |old(moveData.moverObjectsParameters)| == |moverObjects| ==>
        forall k :: 0 <= k < |moverObjects| ==> moverObjects[k].localPosition == old(moverObjects[k].localPosition)
      ensures |old(moveData.moverObjectsParameters)| == |moverObjects| ==>
        forall k :: 0 <= k < |moverObjects| ==>
          moverObjects[k].localRotation
            == LastWrite(moverObjects, SlerpWrites(currentOrientation, targetOrientation, 0.0, lib), |moverObjects|,
                         moverObjects[k], old(moverObjects[k].localRotation))
    {
      if |moveData.moverObjectsParameters| == |moverObjects| {
        StartMatched(dt, lib);
      }
    }

    /** The asset's updated event: take the speed, step and freeze settings again. */
    method MoveDataUpdates()
      modifies this`moveSpeed, this`stepDistance, this`freezeRootPosition
      ensures moveSpeed == moveData.moveSpeed && stepDistance == moveData.stepDistance
      ensures freezeRootPosition == moveData.freezePosition
    {
      moveSpeed := moveData.moveSpeed;
      stepDistance := moveData.stepDistance;
      freezeRootPosition := moveData.freezePosition;
      for i := 0 to |moveData.moverObjectsParameters| {
        var objParams := moveData.moverObjectsParameters[i];
      }
    }

    /**
     * Update when no transition runs: advance the phase, then run the frame's
     * writes: move the root, evaluate and write the entries, scale the step and
     * then the arm controllers.
     */
    method Animate(dt: real, forward: Vec3, lib: UnityLib) returns (completed: bool)
      modifies this`moverTime, rootObject, (set o | o in moverObjects), stepControllerL, stepControllerR, armControllerL, armControllerR
      ensures moverTime == AdvanceMoverTime(old(moverTime), dt, moveSpeed)
      ensures completed <==> |moveData.moverObjectsParameters| <= |moverObjects|
      ensures var e := Effect(rootObject, forward, RootMoveDistance(dt, moveSpeed, stepDistance, freezeRootPosition),
                      moverObjects, PositionWrites(moveData.moverObjectsParameters, moverTime, LerpTimer(moverTime), lib),
                      MoverControls2.Processed(|moveData.moverObjectsParameters|, |moverObjects|),
                      Controllers(stepControllerL, stepControllerR, armControllerL, armControllerR, stepDistance), completed);
        (forall k :: 0 <= k < |moverObjects| ==>
          moverObjects[k].localPosition == UpdatedPosition(e, moverObjects[k], old(moverObjects[k].localPosition))) &&
        rootObject.localPosition == UpdatedPosition(e, rootObject, old(rootObject.localPosition)) &&
        stepControllerL.localPosition == UpdatedPosition(e, stepControllerL, old(stepControllerL.localPosition)) &&
        stepControllerR.localPosition == UpdatedPosition(e, stepControllerR, old(stepControllerR.localPosition)) &&
        armControllerL.localPosition == UpdatedPosition(e, armControllerL, old(armControllerL.localPosition)) &&
        armControllerR.localPosition == UpdatedPosition(e, armControllerR, old(armControllerR.localPosition))
      ensures forall k :: 0 <= k < |moverObjects| ==>
        moverObjects[k].localRotation
          == LastWrite(moverObjects, RotationWrites(moveData.moverObjectsParameters, moverTime, LerpTimer(moverTime), lib),
                       MoverControls2.Processed(|moveData.moverObjectsParameters|, |moverObjects|),
                       moverObjects[k], old(moverObjects[k].localRotation))
      ensures rootObject !in moverObjects ==> rootObject.localRotation == old(rootObject.localRotation)
      ensures stepControllerL !in moverObjects ==> stepControllerL.localRotation == old(stepControllerL.localRotation)
      ensures stepControllerR !in moverObjects ==> stepControllerR.localRotation == old(stepControllerR.localRotation)
      ensures armControllerL !in moverObjects ==> armControllerL.localRotation == old(armControllerL.localRotation)
      ensures armControllerR !in moverObjects ==> armControllerR.localRotation == old(armControllerR.localRotation)
    {
      var time := moverTime + dt * moveSpeed;
      if time >= PI * 2.0 { time := 0.0; }
      assert time == AdvanceMoverTime(moverTime, dt, moveSpeed);
      moverTime := time;
      var lerpTimer := InverseLerp(0.0, PI * 2.0, time);
      assert lerpTimer == LerpTimer(moverTime);

      var rootMoveDistance := dt * moveSpeed * stepDistance;
      if freezeRootPosition { rootMoveDistance := 0.0; }
      assert rootMoveDistance == RootMoveDistance(dt, moveSpeed, stepDistance, freezeRootPosition);
      completed := Frame(rootObject, forward, rootMoveDistance, moverObjects, moveData.moverObjectsParameters, moverTime, lerpTimer, lib,
                         Controllers(stepControllerL, stepControllerR, armControllerL, armControllerR, stepDistance));
    }

    /** Update: nothing while a transition runs; otherwise Animate. */
    method Update(dt: real, forward: Vec3, lib: UnityLib) returns (completed: bool)
      modifies this`moverTime, rootObject, (set o | o in moverObjects), stepControllerL, stepControllerR, armControllerL, armControllerR
      ensures old(isTransitioning) ==>
        completed && moverTime == old(moverTime) &&
        unchanged(rootObject, stepControllerL, stepControllerR, armControllerL, armControllerR) &&
        unchanged(set o | o in moverObjects)
      ensures !old(isTransitioning) ==> moverTime == AdvanceMoverTime(old(moverTime), dt, moveSpeed)
      ensures !old(isTransitioning) ==> (completed <==> |moveData.moverObjectsParameters| <= |moverObjects|)
      ensures !old(isTransitioning) ==>
        var e := Effect(rootObject, forward, RootMoveDistance(dt, moveSpeed, stepDistance, freezeRootPosition),
                        moverObjects, PositionWrites(moveData.moverObjectsParameters, moverTime, LerpTimer(moverTime), lib),
                        MoverControls2.Processed(|moveData.moverObjectsParameters|, |moverObjects|),
                        Controllers(stepControllerL, stepControllerR, armControllerL, armControllerR, stepDistance), completed);
        (forall k :: 0 <= k < |moverObjects| ==>
          moverObjects[k].localPosition == UpdatedPosition(e, moverObjects[k], old(moverObjects[k].localPosition))) &&
        rootObject.localPosition == UpdatedPosition(e, rootObject, old(rootObject.localPosition)) &&
        stepControllerL.localPosition == UpdatedPosition(e, stepControllerL, old(stepControllerL.localPosition)) &&
        stepControllerR.localPosition == UpdatedPosition(e, stepControllerR, old(stepControllerR.localPosition)) &&
        armControllerL.localPosition == UpdatedPosition(e, armControllerL, old(armControllerL.localPosition)) &&
        armControllerR.localPosition == UpdatedPosition(e, armControllerR, old(armControllerR.localPosition))
      ensures !old(isTransitioning) ==> forall k :: 0 <= k < |moverObjects| ==>
        moverObjects[k].localRotation
          == LastWrite(moverObjects, RotationWrites(moveData.moverObjectsParameters, moverTime, LerpTimer(moverTime), lib),
                       MoverControls2.Processed(|moveData.moverObjectsParameters|, |moverObjects|),
                       moverObjects[k], old(moverObjects[k].localRotation))
      ensures rootObject !in moverObjects ==> rootObject.localRotation == old(rootObject.localRotation)
      ensures stepControllerL !in moverObjects ==> stepControllerL.localRotation == old(stepControllerL.localRotation)
      ensures stepControllerR !in moverObjects ==> stepControllerR.localRotation == old(stepControllerR.localRotation)
      ensures armControllerL !in moverObjects ==> armControllerL.localRotation == old(armControllerL.localRotation)
      ensures armControllerR !in moverObjects ==> armControllerR.localRotation == old(armControllerR.localRotation)
    {
      if isTransitioning {
        completed := true;
        return;
      }
      completed := Animate(dt, forward, lib);
    }
  }
}
