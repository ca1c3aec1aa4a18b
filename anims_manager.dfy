/**
 * AnimsManager: a cursor over an inspector-assigned list of animations.  Each
 * frame the "previous" key (comma) steps it back and the "next" key (period)
 * steps it forward, wrapping at both ends, and the current animation follows
 * the cursor.  Key presses are parameters of Update.
 */
module AnimsManager {

  /** The step a frame's key presses ask for: -1, 0 or +1. */
  function KeyDelta(previousPressed: bool, nextPressed: bool): int {
    (if previousPressed then -1 else 0) + (if nextPressed then 1 else 0)
  }

  /**
   * The cursor after one frame: the two increments, then the wrap to 0 past the
   * end, then the wrap to count - 1 below 0, in that order.
   */
  function CycleIndex(index: int, count: int, previousPressed: bool, nextPressed: bool): (r: int)
    ensures 0 <= index < count ==> 0 <= r < count
    ensures previousPressed == nextPressed && 0 <= index < count ==> r == index
    ensures nextPressed && !previousPressed && index == count - 1 ==> r == 0
    ensures previousPressed && !nextPressed && index == 0 < count ==> r == count - 1
  {
    var stepped := index + KeyDelta(previousPressed, nextPressed);
    var wrapped := if stepped >= count then 0 else stepped;
    if wrapped < 0 then count - 1 else wrapped
  }

  /** Euclidean remainder is determined by any quotient/remainder split of a. */
  lemma ModUnique(a: int, b: int, q: int, r: int)
    requires 0 < b && 0 <= r < b && a == q * b + r
    ensures a % b == r
  {
    var q', r' := a / b, a % b;
    assert a == q' * b + r';
    assert (q - q') * b == r' - r;
    if q - q' >= 1 {
      assert false;
    } else if q - q' <= -1 {
      assert false;
    }
  }

  /** The wrap rules amount to stepping modulo the number of animations. */
  lemma CycleIndexIsModular(index: int, count: int, previousPressed: bool, nextPressed: bool)
    requires 0 <= index < count
    ensures CycleIndex(index, count, previousPressed, nextPressed)
         == (index + KeyDelta(previousPressed, nextPressed)) % count
  {
    var s := index + KeyDelta(previousPressed, nextPressed);
    if s == count {
      ModUnique(s, count, 1, 0);
    } else if s == -1 {
      ModUnique(s, count, -1, count - 1);
    } else {
      ModUnique(s, count, 0, s);
    }
  }

  class AnimsManager<A> {
    /** The inspector's animation array; the script never changes it. */
    const anims: seq<A>
    var currentAnim: A
    var animsIndex: int

    ghost predicate Valid()
      reads this
    {
      0 <= animsIndex < |anims| && currentAnim == anims[animsIndex]
    }

    /** Awake: start at the first animation (an empty array would throw in the source). */
    constructor Awake(anims: seq<A>)
      requires |anims| >= 1
      ensures Valid()
      ensures this.anims == anims && animsIndex == 0 && currentAnim == anims[0]
    {
      this.anims := anims;
      animsIndex := 0;
      currentAnim := anims[0];
    }

    /** Update: one frame with the two key states read from the input system. */
    method Update(previousPressed: bool, nextPressed: bool)
      requires Valid()
      modifies this
      ensures Valid()
      ensures animsIndex == CycleIndex(old(animsIndex), |anims|, previousPressed, nextPressed)
      ensures currentAnim == anims[animsIndex]
    {
      animsIndex := animsIndex + (if previousPressed then -1 else 0);
      animsIndex := animsIndex + (if nextPressed then 1 else 0);

      if animsIndex >= |anims| {
        animsIndex := 0;
      }
      if animsIndex < 0 {
        animsIndex := |anims| - 1;
      }

      currentAnim := anims[animsIndex];
    }
  }
}
