/** Change-stamped values (FStateAttr, FStateVec3, FStateVec4).  Every Set
    takes a fresh stamp from one shared counter; Update copies a value from
    another only when the two stamps differ, so a consumer can tell in O(1)
    whether a producer wrote since it last looked. */
module StateAttr {
  import opened GLValues

  /** FStateAttr::ChangeCounter, a static shared by every stamped value, made
      an explicit context object; a static int starts at 0. */
  class ChangeCounter {
    var value: int

    constructor ()
      ensures value == 0
    {
      value := 0;
    }
  }

  /** One change-stamped vector: FStateAttr's stamp `mLastChange` with the
      components of an FStateVec3 (three floats) or an FStateVec4 (four).
      The components form a value that `*this = *other` copies whole, so
      they are kept as a sequence. */
  class StateVec {
    var mLastChange: int
    var vec: seq<Float>

    /** FStateAttr(): stamp -1; the components are left uninitialised. */
    constructor ()
      ensures mLastChange == -1
    {
      mLastChange := -1;
    }

    /** `operator ==`: compares the stamps only, never the components. */
    predicate Equals(other: StateVec)
      reads this, other
    {
      mLastChange == other.mLastChange
    }

    /** `operator !=`: compares the stamps only. */
    predicate NotEquals(other: StateVec)
      reads this, other
    {
      mLastChange != other.mLastChange
    }

    /** No stamp handed out so far exceeds the counter. */
    ghost predicate StampedBy(ctx: ChangeCounter)
      reads this, ctx
    {
      mLastChange <= ctx.value
    }

    /** FStateVec3::Set: stores (x, z, y), Y and Z swapped, under the stamp
        `++ChangeCounter`. */
    method Set3(ctx: ChangeCounter, x: Float, y: Float, z: Float)
      modifies this, ctx
      ensures vec == [x, z, y]
      ensures ctx.value == old(ctx.value) + 1
      ensures mLastChange == ctx.value
      ensures StampedBy(ctx)
    {
      vec := [x, z, y];
      ctx.value := ctx.value + 1;
      mLastChange := ctx.value;
    }

    /** FStateVec4::Set: stores (r, g, b, a) in the order given under the
        stamp `++ChangeCounter`. */
    method Set4(ctx: ChangeCounter, r: Float, g: Float, b: Float, a: Float)
      modifies this, ctx
      ensures vec == [r, g, b, a]
      ensures ctx.value == old(ctx.value) + 1
      ensures mLastChange == ctx.value
      ensures StampedBy(ctx)
    {
      vec := [r, g, b, a];
      ctx.value := ctx.value + 1;
      mLastChange := ctx.value;
    }

    /** FStateVec3::Update / FStateVec4::Update: when the stamps differ this
        becomes an exact copy of `other` (components and stamp) and the
        answer is true; otherwise nothing changes.  `other` is never
        written. */
    method Update(other: StateVec) returns (changed: bool)
      modifies this
      ensures changed <==> old(mLastChange) != old(other.mLastChange)
      ensures other.mLastChange == old(other.mLastChange) && other.vec == old(other.vec)
      ensures changed ==> mLastChange == other.mLastChange && vec == other.vec
      ensures !changed ==> mLastChange == old(mLastChange) && vec == old(vec)
    {
      if mLastChange != other.mLastChange {
        mLastChange, vec := other.mLastChange, other.vec;
        changed := true;
      } else {
        changed := false;
      }
    }
  }

  /** `==` and `!=` look at the stamps only: two vectors with one stamp are
      equal whatever their components, and `!=` is exactly not `==`. */
  lemma StampsOnly(a: StateVec, b: StateVec)
    ensures a.Equals(b) <==> a.mLastChange == b.mLastChange
    ensures a.NotEquals(b) <==> !a.Equals(b)
  {
  }

  /** Setting the same components twice still takes two stamps, and each
      second stamp is strictly larger; so an Update made after the first Set
      reports a change again after the second one, although nothing but the
      stamp moved. */
  method RepeatedSetIsAChange(ctx: ChangeCounter, src: StateVec, dst: StateVec, x: Float, y: Float, z: Float)
    returns (stamp1: int, stamp2: int, changed1: bool, changed2: bool)
    requires src != dst
    requires dst.StampedBy(ctx)
    modifies ctx, src, dst
    ensures stamp1 < stamp2
    ensures changed1 && changed2
    ensures dst.vec == [x, z, y] && dst.mLastChange == stamp2
  {
    src.Set3(ctx, x, y, z);
    stamp1 := src.mLastChange;
    changed1 := dst.Update(src);
    src.Set3(ctx, x, y, z);
    stamp2 := src.mLastChange;
    changed2 := dst.Update(src);
  }

  /** A second Update from the same source, right after the first, copies
      nothing and reports no change. */
  method UpdateTwice(dst: StateVec, src: StateVec) returns (first: bool, second: bool)
    modifies dst
    ensures first <==> old(dst.mLastChange) != old(src.mLastChange)
    ensures !second
    ensures dst.Equals(src)
    ensures src.vec == old(src.vec) && src.mLastChange == old(src.mLastChange)
  {
    first := dst.Update(src);
    second := dst.Update(src);
  }
}
