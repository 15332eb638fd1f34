// The level of part III (partIII/GameLevel.swift): ten rings spaced evenly along the
// level, scored by hiding a ring the first time the player flies through it.

module LevelThree {

  const LevelLength: int := 640
  const NumberOfRings: int := 10
  /** The x of the middle lane (half of the level width 320). */
  const MiddleX: int := 160
  const RingHeight: int := 3

  /** A ring node: its position and whether it is hidden. */
  datatype RingNode = RingNode(x: int, y: int, z: int, hidden: bool)

  /** The distance between rings: the level length shared out over one more gap than rings. */
  function Space(length: int, rings: int): int
    requires rings >= 0
  {
    length / (rings + 1)
  }

  /** The depth of ring `i` (counting from 1). */
  function RingZ(i: int, length: int, rings: int): int
    requires rings >= 0
  {
    i * Space(length, rings)
  }

  /** The lane of a ring: left of the middle on a roll of 1, right of it on 3, else the middle. */
  function RingX(roll: int, offset: int): int
  {
    if roll == 1 then MiddleX - offset else if roll == 3 then MiddleX + offset else MiddleX
  }

  /** Multiplying by a non-negative factor keeps the order. */
  lemma MulMonotone(a: int, b: int, c: int)
    requires a <= b && c >= 0
    ensures a * c <= b * c
  {
    assert b * c - a * c == (b - a) * c;
  }

  /** Rings 1 to `rings` lie strictly inside the level, one behind the other, as long as the level
      is at least one unit longer than there are rings. */
  lemma RingsInsideLevel(i: int, j: int, length: int, rings: int)
    requires rings >= 1 && length >= rings + 1 && 1 <= i < j <= rings
    ensures 0 < RingZ(i, length, rings) < RingZ(j, length, rings) < length
  {
    var n := rings + 1;
    var q := length / n;
    var r := length % n;
    assert length == n * q + r && 0 <= r < n;
    if q <= 0 {
      MulMonotone(q, 0, n);
      assert false;
    }
    MulMonotone(1, i, q);
    MulMonotone(i + 1, j, q);
    MulMonotone(j, rings, q);
    assert n * q == rings * q + q;
  }

  /** The number of hidden rings. */
  function HiddenRings(rs: seq<RingNode>): (n: nat)
    ensures n <= |rs|
  {
    if rs == [] then 0 else HiddenRings(rs[..|rs| - 1]) + (if rs[|rs| - 1].hidden then 1 else 0)
  }

  /** Hiding one visible ring raises the number of hidden rings by exactly one. */
  lemma {:induction false} HideOneRing(rs: seq<RingNode>, i: nat)
    requires i < |rs| && !rs[i].hidden
    ensures HiddenRings(rs[i := rs[i].(hidden := true)]) == HiddenRings(rs) + 1
    decreases |rs|
  {
    var n := |rs| - 1;
    var hidden := rs[i := rs[i].(hidden := true)];
    assert hidden[..n] == if i < n then rs[..n][i := rs[i].(hidden := true)] else rs[..n];
    if i < n {
      HideOneRing(rs[..n], i);
    }
  }

  /** Appending visible rings leaves the number of hidden rings as it was. */
  lemma {:induction false} AppendVisibleRing(rs: seq<RingNode>, r: RingNode)
    requires !r.hidden
    ensures HiddenRings(rs + [r]) == HiddenRings(rs)
  {
    assert (rs + [r])[..|rs|] == rs;
  }

  /** Where the player's node meets another, what the other node's parent is. */
  datatype ContactParent = RingParent(index: nat) | OtherParent

  class GameLevel {
    var rings: seq<RingNode>
    var touchedRings: int
    /** The values shown as the HUD's `points`, in order, and whether a HUD is attached. */
    var hudPoints: seq<int>
    var hudAttached: bool

    /** Every touched ring is hidden, and only touched rings are hidden. */
    ghost predicate Valid()
      reads this
    {
      touchedRings == HiddenRings(rings)
    }

    constructor ()
      ensures Valid() && rings == [] && touchedRings == 0 && hudPoints == [] && !hudAttached
    {
      rings, touchedRings := [], 0;
      hudPoints, hudAttached := [], false;
    }

    method AttachHud()
      modifies this
      ensures hudAttached && hudPoints == old(hudPoints)
      ensures rings == old(rings) && touchedRings == old(touchedRings)
    {
      hudAttached := true;
    }

    /** `collision(withRing:)`: a hidden ring is ignored; otherwise it is hidden, one more ring
        is touched and the HUD shows the new count as its points. */
    method Collision(i: nat)
      requires Valid() && i < |rings|
      modifies this
      ensures Valid() && hudAttached == old(hudAttached)
      ensures old(rings[i].hidden) ==> rings == old(rings) && touchedRings == old(touchedRings) && hudPoints == old(hudPoints)
      ensures !old(rings[i].hidden) ==>
                && rings == old(rings)[i := old(rings[i]).(hidden := true)]
                && touchedRings == old(touchedRings) + 1
                && hudPoints == (if hudAttached then old(hudPoints) + [touchedRings] else old(hudPoints))
      ensures touchedRings <= |rings|
    {
      if rings[i].hidden {
        return;
      }
      HideOneRing(rings, i);
      rings := rings[i := rings[i].(hidden := true)];
      touchedRings := touchedRings + 1;
      if hudAttached {
        hudPoints := hudPoints + [touchedRings];
      }
    }

    /** `physicsWorld(_:didBegin:)`: only a contact whose second node belongs to a ring scores. */
    method Contact(parentOfB: ContactParent)
      requires Valid() && (parentOfB.RingParent? ==> parentOfB.index < |rings|)
      modifies this
      ensures Valid() && hudAttached == old(hudAttached)
      ensures parentOfB.OtherParent? ==> rings == old(rings) && touchedRings == old(touchedRings) && hudPoints == old(hudPoints)
      ensures parentOfB.RingParent? && old(rings[parentOfB.index].hidden) ==>
                rings == old(rings) && touchedRings == old(touchedRings) && hudPoints == old(hudPoints)
      ensures parentOfB.RingParent? && !old(rings[parentOfB.index].hidden) ==>
                && rings == old(rings)[parentOfB.index := old(rings[parentOfB.index]).(hidden := true)]
                && touchedRings == old(touchedRings) + 1
                && hudPoints == (if hudAttached then old(hudPoints) + [touchedRings] else old(hudPoints))
    {
      if parentOfB.RingParent? {
        Collision(parentOfB.index);
      }
    }

    /** `addRings`: ten visible rings, ring i at depth i * 58, at height 3, in the lane its roll picks.
        `rolls[i]` is the random roll of ring i + 1; `offset` is the player's sideways move offset. */
    method AddRings(rolls: seq<int>, offset: int)
      requires Valid() && |rolls| == NumberOfRings
      modifies this
      ensures Valid()
      ensures |rings| == |old(rings)| + NumberOfRings && rings[..|old(rings)|] == old(rings)
      ensures forall k :: |old(rings)| <= k < |rings| ==>
                rings[k] == RingNode(RingX(rolls[k - |old(rings)|], offset), RingHeight,
                                     RingZ(k - |old(rings)| + 1, LevelLength, NumberOfRings), false)
      ensures touchedRings == old(touchedRings) && hudPoints == old(hudPoints) && hudAttached == old(hudAttached)
    {
      var space := LevelLength / (NumberOfRings + 1);
      var added := rings;
      var i := 1;
      while i <= NumberOfRings
        invariant 1 <= i <= NumberOfRings + 1
        invariant |added| == |rings| + i - 1 && added[..|rings|] == rings
        invariant HiddenRings(added) == HiddenRings(rings)
        invariant rings == old(rings) && touchedRings == old(touchedRings)
        invariant hudPoints == old(hudPoints) && hudAttached == old(hudAttached)
        invariant forall k :: |rings| <= k < |added| ==>
                    added[k] == RingNode(RingX(rolls[k - |rings|], offset), RingHeight,
                                         RingZ(k - |rings| + 1, LevelLength, NumberOfRings), false)
      {
        var x := MiddleX;
        var rnd := rolls[i - 1];
        if rnd == 1 {
          x := x - offset;
        } else if rnd == 3 {
          x := x + offset;
        }
        AppendVisibleRing(added, RingNode(x, RingHeight, i * space, false));
        added := added + [RingNode(x, RingHeight, i * space, false)];
        i := i + 1;
      }
      rings := added;
    }
  }
}
