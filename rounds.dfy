// What the level controllers of parts IV to VI share: the objects a level holds
// besides the player, the count of rings missed behind the player in one tick,
// the stored miss count that only ever rises, the end-of-round message, and the
// events a level sends to its HUD.

module Rounds {
  import opened GameObjects

  /** The kinds of object a level places besides the player; part IV rings carry no number (0 here). */
  datatype Kind = Ring(number: nat) | Handicap | Enemy

  /** A ring, handicap or enemy held by a level: its id, kind, state and the `points`
      it is worth (part VI only; 0 in parts IV and V, which keep no points). */
  datatype Obj = Obj(id: nat, kind: Kind, state: ObjectState, points: int)

  /** The messages a level sends to its heads-up display. */
  datatype HudEvent =
    | Rings(count: int)
    | MissedRings(count: int)
    | Points(points: int)
    | Message(title: string, information: string)
    | Reset

  const RestartInformation := "- Touch to restart - "
  const GameOver := "GAME OVER"
  const YouWin := "YOU WIN"
  const TryToImprove := "TRY TO IMPROVE"

  /** The title shown when a round is won with `missed` rings missed. */
  function EndTitle(missed: int): string
  {
    if missed < 3 then YouWin else TryToImprove
  }

  /** Fewer than three misses is a real win; anything more asks the player to improve. */
  lemma EndTitleByMisses(missed: int)
    ensures EndTitle(missed) == YouWin <==> missed < 3
    ensures EndTitle(missed) == TryToImprove <==> missed >= 3
    ensures EndTitle(missed) != GameOver
  {
  }

  /** The ring `o`, at depth `z`, counts as missed by a player at depth `playerZ`:
      it is a ring, lies more than 5 behind the player and is still alive. */
  predicate IsMissed(o: Obj, z: int, playerZ: int)
  {
    o.kind.Ring? && z + 5 < playerZ && o.state == Alive
  }

  /** The number of missed rings among `os`, whose depths are `zs`, counted in list order. */
  function MissedBehind(os: seq<Obj>, zs: seq<int>, playerZ: int): nat
    requires |zs| == |os|
  {
    if os == [] then 0
    else MissedBehind(os[..|os| - 1], zs[..|zs| - 1], playerZ)
         + (if IsMissed(os[|os| - 1], zs[|zs| - 1], playerZ) then 1 else 0)
  }

  /** The positions of the missed rings. */
  function MissedPositions(os: seq<Obj>, zs: seq<int>, playerZ: int): set<nat>
    requires |zs| == |os|
  {
    set i: nat | i < |os| && IsMissed(os[i], zs[i], playerZ)
  }

  /** The tick's count is exactly the number of positions holding a missed ring. */
  lemma {:induction false} MissedBehindCountsMissedRings(os: seq<Obj>, zs: seq<int>, playerZ: int)
    requires |zs| == |os|
    ensures MissedBehind(os, zs, playerZ) == |MissedPositions(os, zs, playerZ)|
    decreases |os|
  {
    if os != [] {
      var n := |os| - 1;
      MissedBehindCountsMissedRings(os[..n], zs[..n], playerZ);
      var front := MissedPositions(os[..n], zs[..n], playerZ);
      var all := MissedPositions(os, zs, playerZ);
      if IsMissed(os[n], zs[n], playerZ) {
        assert all == front + {n};
      } else {
        assert all == front;
      }
    }
  }

  /** The number of rings among `os` that are still alive. */
  function AliveRings(os: seq<Obj>): nat
  {
    if os == [] then 0
    else AliveRings(os[..|os| - 1]) + (if os[|os| - 1].kind.Ring? && os[|os| - 1].state == Alive then 1 else 0)
  }

  /** Only alive rings are ever counted, so a tick never counts more misses than there are alive rings. */
  lemma {:induction false} MissedAtMostAliveRings(os: seq<Obj>, zs: seq<int>, playerZ: int)
    requires |zs| == |os|
    ensures MissedBehind(os, zs, playerZ) <= AliveRings(os)
    decreases |os|
  {
    if os != [] {
      MissedAtMostAliveRings(os[..|os| - 1], zs[..|zs| - 1], playerZ);
    }
  }

  /** With the rings where they are, a player further ahead leaves at least as many rings behind. */
  lemma {:induction false} MissedGrowsWithPlayerDepth(os: seq<Obj>, zs: seq<int>, z1: int, z2: int)
    requires |zs| == |os| && z1 <= z2
    ensures MissedBehind(os, zs, z1) <= MissedBehind(os, zs, z2)
    decreases |os|
  {
    if os != [] {
      MissedGrowsWithPlayerDepth(os[..|os| - 1], zs[..|zs| - 1], z1, z2);
    }
  }

  /** The counting loop of `update` in parts IV to VI: the rings among `os` that lie more than 5
      behind the player and are still alive. `zs[i]` is the depth of `os[i]`. */
  method CountMissed(os: seq<Obj>, zs: seq<int>, playerZ: int) returns (missed: nat)
    requires |zs| == |os|
    ensures missed == MissedBehind(os, zs, playerZ)
    ensures missed == |MissedPositions(os, zs, playerZ)| && missed <= AliveRings(os)
  {
    missed := 0;
    var i := 0;
    while i < |os|
      invariant 0 <= i <= |os|
      invariant missed == MissedBehind(os[..i], zs[..i], playerZ)
    {
      assert os[..i + 1][..i] == os[..i] && zs[..i + 1][..i] == zs[..i];
      var o := os[i];
      if o.kind.Ring? {
        if zs[i] + 5 < playerZ {
          if o.state == Alive {
            missed := missed + 1;
          }
        }
      }
      i := i + 1;
    }
    assert os[..|os|] == os && zs[..|zs|] == zs;
    MissedBehindCountsMissedRings(os, zs, playerZ);
    MissedAtMostAliveRings(os, zs, playerZ);
  }

  /** The stored miss count after a tick that counted `missed`: replaced only by a larger count. */
  function RaisedMissed(stored: int, missed: int): (r: int)
    ensures r >= stored && r >= missed
    ensures r == stored || r == missed
    ensures r != stored <==> missed > stored
  {
    if missed > stored then missed else stored
  }

  /** The stored miss count after a run of ticks counting `ticks`, in order. */
  function StoredAfter(stored: int, ticks: seq<int>): int
    decreases |ticks|
  {
    if ticks == [] then stored else StoredAfter(RaisedMissed(stored, ticks[0]), ticks[1..])
  }

  /** Across any run of ticks the stored count never decreases, and it ends as the largest count seen. */
  lemma {:induction false} StoredAfterIsLargestCount(stored: int, ticks: seq<int>)
    ensures StoredAfter(stored, ticks) >= stored
    ensures forall i :: 0 <= i < |ticks| ==> StoredAfter(stored, ticks) >= ticks[i]
    ensures StoredAfter(stored, ticks) == stored || StoredAfter(stored, ticks) in ticks
    decreases |ticks|
  {
    if ticks != [] {
      var next := RaisedMissed(stored, ticks[0]);
      StoredAfterIsLargestCount(next, ticks[1..]);
      assert forall i :: 1 <= i < |ticks| ==> ticks[i] == ticks[1..][i - 1];
    }
  }

  /** The events of one tick: a miss update on a strict increase, then the end message if the round is won. */
  function TickEvents(stored: int, missed: int, touched: int, numberOfRings: int): seq<HudEvent>
  {
    (if missed > stored then [MissedRings(missed)] else [])
    + (if missed + touched == numberOfRings then [Message(EndTitle(missed), RestartInformation)] else [])
  }

  /** A tick reports a miss count only when it raises the stored one, and reports the end exactly when it is won. */
  lemma TickEventsReport(stored: int, missed: int, touched: int, numberOfRings: int)
    ensures MissedRings(missed) in TickEvents(stored, missed, touched, numberOfRings) <==> missed > stored
    ensures Message(EndTitle(missed), RestartInformation) in TickEvents(stored, missed, touched, numberOfRings)
            <==> missed + touched == numberOfRings
    ensures |TickEvents(stored, missed, touched, numberOfRings)| <= 2
  {
  }

  /** The HUD log after sending `events`: a detached HUD receives nothing. */
  function Send(log: seq<HudEvent>, attached: bool, events: seq<HudEvent>): (r: seq<HudEvent>)
    ensures attached ==> r == log + events
    ensures !attached ==> r == log
  {
    if attached then log + events else log
  }

  /** The object after `stop`: the base class `stop` makes any object `stopped`. */
  function StopObject(o: Obj): (r: Obj)
    ensures r.state == Stopped && r.kind == o.kind && r.id == o.id && r.points == o.points
  {
    o.(state := Stopped)
  }

  /** The object after `hit`: an alive ring or handicap dies, any other state is kept
      (`hit` of a ring is taken to act like that of a handicap). */
  function HitObject(o: Obj): (r: Obj)
    ensures r.state == HitState(o.state) && r.kind == o.kind && r.id == o.id && r.points == o.points
    ensures r.state != Alive
  {
    o.(state := HitState(o.state))
  }

  /** `n` numbered rings from position `from` on: ring k - from + 1 at position k, alive, worth `points`. */
  ghost predicate RingsAt(os: seq<Obj>, from: nat, n: nat, points: int)
  {
    from + n <= |os| &&
    forall k :: from <= k < from + n ==>
      os[k].kind == Ring(k - from + 1) && os[k].state == Alive && os[k].points == points
  }

  /** `n` alive handicaps worth `points` from position `from` on. */
  ghost predicate HandicapsAt(os: seq<Obj>, from: nat, n: nat, points: int)
  {
    from + n <= |os| &&
    forall k :: from <= k < from + n ==>
      os[k].kind == Handicap && os[k].state == Alive && os[k].points == points
  }

  /** `n` enemies in the state a new game object starts in, from position `from` on. */
  ghost predicate EnemiesAt(os: seq<Obj>, from: nat, n: nat)
  {
    from + n <= |os| &&
    forall k :: from <= k < from + n ==> os[k].kind == Enemy && os[k].state == Initialized
  }

  /** The handicaps placed in one gap between rings: three on a roll of 1 or 3, one otherwise. */
  function HandicapsFor(roll: int): nat
  {
    if roll == 1 || roll == 3 then 3 else 1
  }

  /** The handicaps placed for a run of rolls, one roll per gap. */
  function HandicapCount(rolls: seq<int>): nat
  {
    if rolls == [] then 0 else HandicapCount(rolls[..|rolls| - 1]) + HandicapsFor(rolls[|rolls| - 1])
  }

  /** Every gap gets at least one and at most three handicaps; it gets one exactly on a roll of 2
      (or any value besides 1 and 3). */
  lemma {:induction false} HandicapCountBounds(rolls: seq<int>)
    ensures |rolls| <= HandicapCount(rolls) <= 3 * |rolls|
    ensures HandicapCount(rolls) == |rolls| <==> forall i :: 0 <= i < |rolls| ==> HandicapsFor(rolls[i]) == 1
    decreases |rolls|
  {
    if rolls != [] {
      var n := |rolls| - 1;
      HandicapCountBounds(rolls[..n]);
      assert forall i :: 0 <= i < n ==> rolls[..n][i] == rolls[i];
    }
  }

  /** A contact end: an object of the level (by position), the player, a bullet of part VI (by position),
      or a node whose parent is not a game object. */
  datatype Body = Item(index: nat) | PlayerBody | BulletBody(bullet: nat) | Scenery

  /** One call of `collision(with:level:)`: `receiver.collision(with: other)`. */
  datatype Collision = Collision(receiver: Body, other: Body)

  /** The collision calls a contact between `a` and `b` makes, in order. */
  function Dispatch(a: Body, b: Body): (r: seq<Collision>)
    ensures a == Scenery || b == Scenery ==> r == []
    ensures a != Scenery && b != Scenery ==> |r| == 2 && r[0].receiver == a && r[1].receiver == b
  {
    if a == Scenery || b == Scenery then [] else [Collision(a, b), Collision(b, a)]
  }

  /** Each side of a contact is told about the other exactly once, `a` first: swapping the
      two ends swaps the order of the calls and nothing else. */
  lemma DispatchIsSymmetric(a: Body, b: Body)
    requires a != Scenery && b != Scenery
    ensures Dispatch(a, b)[0].other == b && Dispatch(a, b)[1].other == a
    ensures Dispatch(b, a) == [Dispatch(a, b)[1], Dispatch(a, b)[0]]
  {
  }
}
