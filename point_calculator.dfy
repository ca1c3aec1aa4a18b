/**
 * PointCalculator: spaces a row of child points evenly along the segment from a
 * start object to an end object, child i at i/n of the way (n children), so the
 * first sits on the start and the last one step short of the end.  Child
 * positions are the children's world positions, one array slot per child.
 */
module PointCalculator {
  import opened UnityMath

  /** Where CalculatePointsPositions puts child i of count. */
  function ChildPosition(start: Vec3, end: Vec3, count: nat, i: nat, lib: UnityLib): (p: Vec3)
    ensures i == 0 ==> p == start
  {
    var boneLength := Distance(start, end, lib);
    var direction := Normalized(Sub(end, start), lib);
    Add(start, Scale(direction, ChildOffset(i, SubdivisionDistance(boneLength, count))))
  }

  /** boneLength / count, the spacing between children (unused when there are none). */
  function SubdivisionDistance(boneLength: real, count: nat): real {
    if count != 0 then boneLength / count as real else 0.0
  }

  /** The loop's t: child i sits i spacings along the direction. */
  function ChildOffset(i: nat, subdivisionDistance: real): real {
    i as real * subdivisionDistance
  }

  /** Distance(start, end) is the magnitude of end - start as well. */
  lemma DistanceSymmetric(a: Vec3, b: Vec3, lib: UnityLib)
    requires IsMagnitude(lib)
    ensures Distance(a, b, lib) == lib.magnitude(Sub(b, a))
  {
    assert Sub(a, b) == Scale(Sub(b, a), -1.0);
  }

  /** The scalar step of ChildAtFraction: i spacings of len / n, as a fraction of len, are i / n. */
  lemma FractionOfLength(i: nat, n: nat, len: real)
    requires n > 0 && len > 0.0
    ensures ChildOffset(i, SubdivisionDistance(len, n)) / len == i as real / n as real
  {
    var q := i as real / n as real;
    assert i as real * (len / n as real) == q * len;
    assert (q * len) / len == q * (len / len);
    DivSelf(len);
  }

  /** The scalar step of ChildDistanceFromStart: i steps of len / n fall short of len while i < n. */
  lemma StepsBelowLength(i: real, n: real, len: real)
    requires 0.0 <= i < n && len > 0.0
    ensures 0.0 <= i * (len / n) < len
  {
    assert len / n > 0.0;
    assert i * (len / n) < n * (len / n);
    assert n * (len / n) == len;
  }

  /** The scalar step of ChildSpacing: one child further is one spacing further. */
  lemma NextStep(i: nat, sub: real)
    ensures ChildOffset(i + 1, sub) - ChildOffset(i, sub) == sub
  {
  }

  /** Two points on one ray from p differ by the difference of their offsets. */
  lemma OffsetDifference(p: Vec3, u: Vec3, a: real, b: real)
    ensures Sub(Add(p, Scale(u, a)), Add(p, Scale(u, b))) == Scale(u, a - b)
  {
    assert u.x * a - u.x * b == u.x * (a - b);
    assert u.y * a - u.y * b == u.y * (a - b);
    assert u.z * a - u.z * b == u.z * (a - b);
  }

  /** A point t along a unit direction from p is |t| away from it. */
  lemma AlongUnitDistance(p: Vec3, u: Vec3, t: real, lib: UnityLib)
    requires IsMagnitude(lib) && lib.magnitude(u) == 1.0
    ensures Distance(Add(p, Scale(u, t)), p, lib) == Abs(t)
  {
    assert Sub(Add(p, Scale(u, t)), p) == Scale(u, t);
    UnitScaleMagnitude(u, t, lib);
  }

  /** The unit direction ChildPosition steps along, for a segment long enough to normalise. */
  lemma DirectionIsUnit(start: Vec3, end: Vec3, lib: UnityLib)
    requires IsMagnitude(lib) && Distance(start, end, lib) > NormalizeEpsilon
    ensures Normalized(Sub(end, start), lib) == Scale(Sub(end, start), 1.0 / Distance(start, end, lib))
    ensures lib.magnitude(Normalized(Sub(end, start), lib)) == 1.0
  {
    DistanceSymmetric(start, end, lib);
  }

  /** For a segment long enough to normalise, child i is exactly i/count of the way from start to end. */
  lemma ChildAtFraction(start: Vec3, end: Vec3, count: nat, i: nat, lib: UnityLib)
    requires IsMagnitude(lib) && count > 0
    requires Distance(start, end, lib) > NormalizeEpsilon
    ensures ChildPosition(start, end, count, i, lib) == Add(start, Scale(Sub(end, start), i as real / count as real))
  {
    var d := Sub(end, start);
    var len := Distance(start, end, lib);
    var k := ChildOffset(i, SubdivisionDistance(len, count));
    DirectionIsUnit(start, end, lib);
    assert ChildPosition(start, end, count, i, lib) == Add(start, Scale(Scale(d, 1.0 / len), k));
    ScaleAlong(d, len, k);
    FractionOfLength(i, count, len);
  }

  /** Consecutive children are boneLength / count apart. */
  lemma ChildSpacing(start: Vec3, end: Vec3, count: nat, i: nat, lib: UnityLib)
    requires IsMagnitude(lib) && count > 0
    requires Distance(start, end, lib) > NormalizeEpsilon
    ensures Distance(ChildPosition(start, end, count, i + 1, lib), ChildPosition(start, end, count, i, lib), lib)
         == Distance(start, end, lib) / count as real
  {
    var u := Normalized(Sub(end, start), lib);
    var sub := SubdivisionDistance(Distance(start, end, lib), count);
    DirectionIsUnit(start, end, lib);
    OffsetDifference(start, u, ChildOffset(i + 1, sub), ChildOffset(i, sub));
    NextStep(i, sub);
    assert Sub(ChildPosition(start, end, count, i + 1, lib), ChildPosition(start, end, count, i, lib)) == Scale(u, sub);
    UnitScaleMagnitude(u, sub, lib);
  }

  /** Child i lies i * boneLength / count from the start: at a parameter in [0, boneLength) when i < count. */
  lemma ChildDistanceFromStart(start: Vec3, end: Vec3, count: nat, i: nat, lib: UnityLib)
    requires IsMagnitude(lib) && i < count
    requires Distance(start, end, lib) > NormalizeEpsilon
    ensures Distance(ChildPosition(start, end, count, i, lib), start, lib) == i as real * (Distance(start, end, lib) / count as real)
    ensures Distance(ChildPosition(start, end, count, i, lib), start, lib) < Distance(start, end, lib)
  {
    var len := Distance(start, end, lib);
    var t := ChildOffset(i, SubdivisionDistance(len, count));
    DirectionIsUnit(start, end, lib);
    AlongUnitDistance(start, Normalized(Sub(end, start), lib), t, lib);
    StepsBelowLength(i as real, count as real, len);
  }

  /** No child ever sits on the end object when start and end differ. */
  lemma ChildNeverAtEnd(start: Vec3, end: Vec3, count: nat, i: nat, lib: UnityLib)
    requires IsMagnitude(lib) && i < count
    requires start != end
    ensures ChildPosition(start, end, count, i, lib) != end
  {
    var len := Distance(start, end, lib);
    DistanceSymmetric(start, end, lib);
    if len > NormalizeEpsilon {
      ChildDistanceFromStart(start, end, count, i, lib);
    } else {
      assert Normalized(Sub(end, start), lib) == Zero;
      assert ChildPosition(start, end, count, i, lib) == start;
    }
  }

  class PointCalculator {
    /** World positions of the children, one slot per child object. */
    const childrenPoints: array<Vec3>
    var pointsAmount: int
    var startPosition: Vec3
    var endPosition: Vec3

    ghost predicate Valid()
      reads this
    {
      pointsAmount == childrenPoints.Length
    }

    /**
     * Start: the point count is the number of children, and the first layout
     * uses the default (zero) start and end, since Update has not set them yet.
     */
    constructor Start(childrenPoints: array<Vec3>, lib: UnityLib)
      modifies childrenPoints
      ensures Valid() && this.childrenPoints == childrenPoints
      ensures startPosition == Zero && endPosition == Zero
      ensures forall i :: 0 <= i < childrenPoints.Length ==> childrenPoints[i] == Zero
    {
      this.childrenPoints := childrenPoints;
      startPosition := Zero;
      endPosition := Zero;
      pointsAmount := childrenPoints.Length;
      new;
      CalculatePointsPositions(lib);
    }

    /** Update: read the two end objects' positions, then lay the children out. */
    method Update(parentPosition: Vec3, stretchToPosition: Vec3, lib: UnityLib)
      requires Valid()
      modifies this, childrenPoints
      ensures Valid() && startPosition == parentPosition && endPosition == stretchToPosition
      ensures forall i :: 0 <= i < childrenPoints.Length ==>
        childrenPoints[i] == ChildPosition(parentPosition, stretchToPosition, pointsAmount, i, lib)
    {
      startPosition := parentPosition;
      endPosition := stretchToPosition;
      CalculatePointsPositions(lib);
    }

    /** Writes every child's position and nothing else. */
    method CalculatePointsPositions(lib: UnityLib)
      requires Valid()
      modifies childrenPoints
      ensures forall i :: 0 <= i < childrenPoints.Length ==>
        childrenPoints[i] == ChildPosition(startPosition, endPosition, pointsAmount, i, lib)
    {
      var parentBoneLength := Distance(startPosition, endPosition, lib);
      var normalizedDirection := Normalized(Sub(endPosition, startPosition), lib);
      // with no children the source divides by zero, but the loop below never uses the quotient
      var subdivisionDistance := SubdivisionDistance(parentBoneLength, pointsAmount);

      for i := 0 to childrenPoints.Length
        invariant forall j :: 0 <= j < i ==>
          childrenPoints[j] == ChildPosition(startPosition, endPosition, pointsAmount, j, lib)
      {
        var t := ChildOffset(i, subdivisionDistance);
        var pointPosition := Add(startPosition, Scale(normalizedDirection, t));
        childrenPoints[i] := pointPosition;
      }
    }
  }
}
