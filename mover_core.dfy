/**
 * The evaluation kernel the three revisions of the procedural mover share: the
 * wave functions, the two-step per-axis clamp, the wrapped phase timer, the
 * root translation, the step-controller scaling and the InverseLerp/Lerp angle
 * mapping, over one parameter record with the fields the mover code reads.
 * The per-axis parameters live in a MoveData asset (a class, since the
 * scripts write the captured start values back into it).
 */
module MoverCore {
  import opened UnityMath
  import opened Scene

  /** The inspector parameters of one axis of one mover object. */
  datatype AxisParams = AxisParams(
    sine: bool,
    cosine: bool,
    curve: bool,
    frequency: real,
    amplitude: real,
    phaseOffset: real,
    returnValueOffset: real,
    clampMin: real,
    clampMax: real,
    /** AnimationCurve.Evaluate of the axis' curve, left uninterpreted. */
    animCurve: real -> real)

  /**
   * One mover object's parameters, with the start values the scripts capture
   * into it: the local position, and the local angles (three quaternion
   * components or the Euler angles, depending on the revision).
   */
  datatype ObjectParams = ObjectParams(
    movePosition: bool,
    moveRotation: bool,
    x: AxisParams,
    y: AxisParams,
    z: AxisParams,
    capturedPosition: Vec3,
    capturedAngles: Vec3)

  /** The MoveData asset: settings plus one parameter record per mover object. */
  class MoveData {
    var moveSpeed: real
    var stepDistance: real
    var freezePosition: bool
    var moverObjectsParameters: seq<ObjectParams>

    constructor (moveSpeed: real, stepDistance: real, freezePosition: bool, moverObjectsParameters: seq<ObjectParams>)
      ensures this.moveSpeed == moveSpeed && this.stepDistance == stepDistance
      ensures this.freezePosition == freezePosition
      ensures this.moverObjectsParameters == moverObjectsParameters
    {
      this.moveSpeed := moveSpeed;
      this.stepDistance := stepDistance;
      this.freezePosition := freezePosition;
      this.moverObjectsParameters := moverObjectsParameters;
    }
  }

  /** s * amplitude + offset stays within amplitude of offset when |s| <= 1. */
  lemma WaveBounds(s: real, amplitude: real, offset: real)
    ensures -1.0 <= s <= 1.0 && amplitude >= 0.0 ==> offset - amplitude <= s * amplitude + offset <= offset + amplitude
  {
    if -1.0 <= s <= 1.0 && amplitude >= 0.0 {
      MulNonneg(1.0 + s, amplitude);
      MulNonneg(1.0 - s, amplitude);
    }
  }

  /** SineValue: sin((time + phaseOffset) * frequency) * amplitude + offset. */
  function SineValue(time: real, frequency: real, amplitude: real, phaseOffset: real, offset: real, lib: UnityLib): (r: real)
    ensures SinCosBounded(lib) && amplitude >= 0.0 ==> offset - amplitude <= r <= offset + amplitude
  {
    var s := lib.sin((time + phaseOffset) * frequency);
    WaveBounds(s, amplitude, offset);
    s * amplitude + offset
  }

  /** CosineValue: cos((time + phaseOffset) * frequency) * amplitude + offset. */
  function CosineValue(time: real, frequency: real, amplitude: real, phaseOffset: real, offset: real, lib: UnityLib): (r: real)
    ensures SinCosBounded(lib) && amplitude >= 0.0 ==> offset - amplitude <= r <= offset + amplitude
  {
    var c := lib.cos((time + phaseOffset) * frequency);
    WaveBounds(c, amplitude, offset);
    c * amplitude + offset
  }

  /**
   * The scripts' clamp, two `if`s in this order: raise to min, then lower to
   * max.  With min > max the second one wins, whatever the value.
   */
  function ClampSequential(v: real, min: real, max: real): (r: real)
    ensures min <= max ==> min <= r <= max
    ensures min > max ==> r == max
    ensures min <= v <= max ==> r == v
    ensures min <= max && v < min ==> r == min
    ensures min <= max && v > max ==> r == max
  {
    var raised := if v < min then min else v;
    if raised > max then max else raised
  }

  /** Mathf.PI * phaseOffset: a phase offset of 1 inverts the wave. */
  function PhaseRadians(phaseOffset: real): real {
    PI * phaseOffset
  }

  /** The clamped sine term of an axis at the given mover time. */
  function ClampedSine(a: AxisParams, moverTime: real, lib: UnityLib): (r: real)
    ensures a.clampMin <= a.clampMax ==> a.clampMin <= r <= a.clampMax
  {
    ClampSequential(SineValue(moverTime, a.frequency, a.amplitude, PhaseRadians(a.phaseOffset), a.returnValueOffset, lib),
                    a.clampMin, a.clampMax)
  }

  /** The clamped cosine term of an axis at the given mover time. */
  function ClampedCosine(a: AxisParams, moverTime: real, lib: UnityLib): (r: real)
    ensures a.clampMin <= a.clampMax ==> a.clampMin <= r <= a.clampMax
  {
    ClampSequential(CosineValue(moverTime, a.frequency, a.amplitude, PhaseRadians(a.phaseOffset), a.returnValueOffset, lib),
                    a.clampMin, a.clampMax)
  }

  /** A term the composition adds only when its flag is set. */
  function Term(enabled: bool, value: real): real {
    if enabled then value else 0.0
  }

  /** Time.deltaTime * moveSpeed, how far the phase advances in one frame. */
  function TimeStep(dt: real, moveSpeed: real): real {
    dt * moveSpeed
  }

  /** Mathf.PI * 2, the period of the phase timer. */
  const TwoPI: real := PI * 2.0

  /**
   * The start of each mover Update: advance the phase, and reset it to 0 once
   * it reaches 2 pi (a reset, not a modulo: the overshoot is dropped).
   */
  function AdvanceMoverTime(moverTime: real, dt: real, moveSpeed: real): (r: real)
    ensures r < TwoPI
    ensures moverTime >= 0.0 && dt >= 0.0 && moveSpeed >= 0.0 ==> r >= 0.0
    ensures moverTime + TimeStep(dt, moveSpeed) < TwoPI ==> r == moverTime + TimeStep(dt, moveSpeed)
    ensures moverTime + TimeStep(dt, moveSpeed) >= TwoPI ==> r == 0.0
  {
    ProductNonneg(dt, moveSpeed);
    var t := moverTime + TimeStep(dt, moveSpeed);
    if t >= TwoPI then 0.0 else t
  }

  /** lerpTimer: where the phase sits in its period, as InverseLerp(0, 2 pi, moverTime). */
  function LerpTimer(moverTime: real): (r: real)
    ensures 0.0 <= r <= 1.0
    ensures moverTime <= 0.0 ==> r == 0.0
  {
    InverseLerpBelow(0.0, TwoPI, moverTime);
    InverseLerp(0.0, TwoPI, moverTime)
  }

  /** InverseLerp is 0 at or below its lower endpoint. */
  lemma InverseLerpBelow(a: real, b: real, value: real)
    ensures a < b && value <= a ==> InverseLerp(a, b, value) == 0.0
  {
    if a < b && value <= a {
      DivNonpositive(value - a, b - a);
    }
  }

  /** The product of two non-negative numbers is non-negative. */
  lemma ProductNonneg(x: real, y: real)
    ensures x >= 0.0 && y >= 0.0 ==> x * y >= 0.0
  {
    if x >= 0.0 && y >= 0.0 {
      MulNonneg(x, y);
    }
  }

  /** A non-positive number over a positive one is non-positive. */
  lemma DivNonpositive(x: real, d: real)
    requires x <= 0.0 && d > 0.0
    ensures x / d <= 0.0
  {
  }

  /** The root's move this frame along its forward axis: zero when frozen. */
  function RootMoveDistance(dt: real, moveSpeed: real, stepDistance: real, freeze: bool): (r: real)
    ensures freeze ==> r == 0.0
    ensures !freeze && dt >= 0.0 && moveSpeed >= 0.0 && stepDistance >= 0.0 ==> r >= 0.0
  {
    ProductNonneg(dt, moveSpeed);
    ProductNonneg(TimeStep(dt, moveSpeed), stepDistance);
    if freeze then 0.0 else TimeStep(dt, moveSpeed) * stepDistance
  }

  /** Transform.Translate(forward * distance, Space.World) on the root's world position. */
  function Translated(position: Vec3, forward: Vec3, distance: real): Vec3 {
    Add(position, Scale(forward, distance))
  }

  /** Transform.Translate(forward * distance, Space.World) on the root, whose local position is its world position. */
  method Translate(root: GameObject, forward: Vec3, distance: real)
    modifies root
    ensures root.localPosition == Translated(old(root.localPosition), forward, distance)
    ensures root.localRotation == old(root.localRotation)
  {
    root.localPosition := Add(root.localPosition, Scale(forward, distance));
  }

  /** A controller's local position with z multiplied by stepDistance, then shifted by shift. */
  function ScaledZ(p: Vec3, stepDistance: real, shift: real): (r: Vec3)
    ensures r.x == p.x && r.y == p.y
    ensures stepDistance == 1.0 && shift == 0.0 ==> r == p
  {
    Vec3(p.x, p.y, p.z * stepDistance + shift)
  }

  /**
   * The angle mapping of the later revisions: the composed value is placed in
   * [offset - amplitude, offset + amplitude] by InverseLerp and the angle
   * taken at the same fraction of [initial - amplitude + offset, initial +
   * amplitude + offset] by Lerp.
   */
  function MappedAngle(initial: real, amplitude: real, offset: real, value: real): (r: real)
    ensures amplitude >= 0.0 ==> initial - amplitude + offset <= r <= initial + amplitude + offset
  {
    var minAngle := initial - amplitude + offset;
    var maxAngle := initial + amplitude + offset;
    var normalised := InverseLerp(-amplitude + offset, amplitude + offset, value);
    Lerp(minAngle, maxAngle, normalised)
  }

  /**
   * Put together, the mapping is a clamp and a shift: the angle is the initial
   * angle plus the value clamped to the window [offset - amplitude, offset +
   * amplitude].  The return offset moves the window: it is not added on top.
   */
  lemma MappedAngleIsClampedShift(initial: real, amplitude: real, offset: real, value: real)
    requires amplitude >= 0.0
    ensures MappedAngle(initial, amplitude, offset, value)
         == initial + ClampSequential(value, offset - amplitude, offset + amplitude)
  {
    var lo := -amplitude + offset;
    var hi := amplitude + offset;
    var minAngle := initial - amplitude + offset;
    var maxAngle := initial + amplitude + offset;
    if amplitude == 0.0 {
      assert InverseLerp(lo, hi, value) == 0.0;
    } else {
      var q := (value - lo) / (hi - lo);
      assert InverseLerp(lo, hi, value) == Clamp01(q);
      assert maxAngle - minAngle == hi - lo;
      if value < lo {
        DivNonpositive(value - lo, hi - lo);
      } else if value > hi {
        DivAboveOne(value - lo, hi - lo);
      } else {
        MulDivCancel(value - lo, hi - lo);
        assert LerpUnclamped(minAngle, maxAngle, q) == minAngle + (hi - lo) * q;
      }
    }
  }

  /** x over a positive d below it exceeds 1. */
  lemma DivAboveOne(x: real, d: real)
    requires d > 0.0 && x > d
    ensures x / d > 1.0
  {
    DivSelf(d);
  }

  /** d * (x / d) is x again. */
  lemma MulDivCancel(x: real, d: real)
    requires d != 0.0
    ensures d * (x / d) == x
  {
  }
}
