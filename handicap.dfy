// The obstacle of parts IV and VI (partIV/Handicap.swift, partVI/Handicap.swift).
// A handicap is alive from creation; `hit` kills it once and is ignored afterwards.
// The part VI version also carries the points of a handicap; the part IV one has
// no points, which is this class with `points` left unused.

module Handicaps {
  import opened GameObjects
  import Decimal

  /** The description of a handicap: "handicap " followed by its id. */
  function Description(id: nat): string
  {
    "handicap " + Decimal.Show(id)
  }

  /** A description names exactly one handicap: it starts with "handicap " and gives back the id. */
  lemma {:induction false} DescriptionNamesTheHandicap(a: nat, b: nat)
    ensures Description(a)[..|"handicap "|] == "handicap "
    ensures Description(a) == Description(b) <==> a == b
  {
    if Description(a) == Description(b) {
      assert Description(a)[|"handicap "|..] == Decimal.Show(a);
      assert Description(b)[|"handicap "|..] == Decimal.Show(b);
      Decimal.ShowInjective(a, b);
    }
  }

  class Handicap {
    const id: nat
    var state: ObjectState
    const points: int

    /** A new handicap draws its id from the counter and is `alive`, worth `Game.Points.handicap`. */
    constructor (counter: IdCounter, handicapPoints: int)
      requires counter.Valid()
      modifies counter
      ensures counter.Valid()
      ensures id == old(counter.count) + 1 && counter.count == id
      ensures id !in old(counter.issued) && counter.issued == old(counter.issued) + {id}
      ensures state == Alive && points == handicapPoints
    {
      var next := counter.Next();
      id := next;
      state := Alive;
      points := handicapPoints;
    }

    /** `hit`: an alive handicap dies; in any other state nothing happens. */
    method Hit()
      modifies this
      ensures state == HitState(old(state))
      ensures old(state) == Alive ==> state == Died
      ensures old(state) != Alive ==> state == old(state)
    {
      if state != Alive {
        return;
      }
      state := Died;
    }

    function Describe(): string
    {
      Description(id)
    }
  }

  /** Hitting a handicap twice leaves it as hitting it once: dead if it was alive, untouched otherwise. */
  method HitTwice(h: Handicap)
    modifies h
    ensures h.state == HitState(old(h.state)) && h.state != Alive
  {
    h.Hit();
    h.Hit();
  }
}
