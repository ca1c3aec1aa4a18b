/**
 * WalkAnimsManager: holds the idle, walk and jog animations (the first three
 * of its array) and each frame picks the (previous, next) pair a blender
 * transitions between.  InputTransitionsCheck picks the pair from the player's
 * input magnitude against walkThreshold; AnimCycleCheck, a test mode that the
 * script's Update leaves disabled, steps through the array with the comma and
 * period keys.  Input magnitude and key states are parameters.
 */
module WalkAnimsManager {
  import opened AnimsManager

  class WalkAnimsManager<A> {
    /** The inspector's array, in the order idle, walk, jog, run; never changed. */
    const anims: seq<A>
    /** Inspector value, 0.1 unless set otherwise. */
    const walkThreshold: real
    var animsIndex: int
    var idleAnim: A
    var walkAnim: A
    var jogAnim: A
    var previousAnim: A
    var nextAnim: A
    var animsIndexChanged: bool
    var transitionTrue: bool

    ghost predicate Valid()
      reads this
    {
      && |anims| >= 3
      && 0 <= animsIndex < |anims|
      && idleAnim == anims[0] && walkAnim == anims[1] && jogAnim == anims[2]
    }

    /**
     * The field initialisers followed by Awake; an array with fewer than three
     * animations would throw in the source.
     */
    constructor Awake(anims: seq<A>, walkThreshold: real)
      requires |anims| >= 3
      ensures Valid()
      ensures this.anims == anims && this.walkThreshold == walkThreshold
      ensures animsIndex == 0 && previousAnim == anims[0] && nextAnim == anims[1]
      ensures !animsIndexChanged && !transitionTrue
    {
      this.anims := anims;
      this.walkThreshold := walkThreshold;
      transitionTrue := false;
      animsIndex := 0;
      idleAnim := anims[0];
      walkAnim := anims[1];
      jogAnim := anims[2];
      previousAnim := anims[0];
      nextAnim := anims[1];
      animsIndexChanged := false;
    }

    /** Update: only the input-driven selection is enabled. */
    method Update(moveSpeed: real)
      requires Valid()
      modifies this
      ensures Valid()
      ensures moveSpeed < walkThreshold ==> previousAnim == anims[0] && nextAnim == anims[1]
      ensures moveSpeed >= walkThreshold ==> previousAnim == anims[1] && nextAnim == anims[2]
      ensures animsIndex == old(animsIndex) && transitionTrue == old(transitionTrue)
      ensures animsIndexChanged == old(animsIndexChanged)
    {
      InputTransitionsCheck(moveSpeed);
    }

    /** The key-driven cycle; writes the pair and the one-frame transition flag. */
    method AnimCycleCheck(minusPressed: bool, plusPressed: bool)
      requires Valid()
      modifies this
      ensures Valid()
      ensures transitionTrue <==> minusPressed || plusPressed
      ensures minusPressed || plusPressed ==> previousAnim == old(nextAnim)
      ensures !minusPressed && !plusPressed ==> previousAnim == old(previousAnim)
      ensures !animsIndexChanged
      ensures animsIndex == CycleIndex(old(animsIndex), |anims|, minusPressed, plusPressed)
      ensures nextAnim == anims[animsIndex]
    {
      transitionTrue := false;

      animsIndexChanged := if minusPressed || plusPressed then true else false;

      if animsIndexChanged {
        transitionTrue := true;
        previousAnim := nextAnim;
        animsIndexChanged := false;
      }

      animsIndex := animsIndex + (if minusPressed then -1 else 0);
      animsIndex := animsIndex + (if plusPressed then 1 else 0);

      if animsIndex >= |anims| {
        animsIndex := 0;
      }
      if animsIndex < 0 {
        animsIndex := |anims| - 1;
      }

      nextAnim := anims[animsIndex];
    }

    /**
     * Below the threshold the pair is (idle, walk), at or above it (walk, jog):
     * two independent tests of which exactly one fires.  Either way next is the
     * animation right after previous in the array.
     */
    method InputTransitionsCheck(moveSpeed: real)
      requires Valid()
      modifies this
      ensures Valid()
      ensures moveSpeed < walkThreshold ==> previousAnim == idleAnim && nextAnim == walkAnim
      ensures moveSpeed >= walkThreshold ==> previousAnim == walkAnim && nextAnim == jogAnim
      ensures exists k :: 0 <= k < 2 && previousAnim == anims[k] && nextAnim == anims[k + 1]
      ensures idleAnim == old(idleAnim) && walkAnim == old(walkAnim) && jogAnim == old(jogAnim)
      ensures animsIndex == old(animsIndex) && transitionTrue == old(transitionTrue)
      ensures animsIndexChanged == old(animsIndexChanged)
    {
      if moveSpeed < walkThreshold {
        previousAnim := idleAnim;
        nextAnim := walkAnim;
      }

      if moveSpeed >= walkThreshold {
        previousAnim := walkAnim;
        nextAnim := jogAnim;
      }
      ghost var k := if moveSpeed < walkThreshold then 0 else 1;
      assert previousAnim == anims[k] && nextAnim == anims[k + 1];
    }
  }
}
