// The level controller of part IV (partIV/GameLevel.swift): ten rings, no `ready`
// state (creation goes straight to `play`), a win that does not stop the player,
// `touchedHandicap` losing the round, `stop`, and the symmetric collision dispatch.
// The part IV player is a game object whose own hooks are not part of this model.
//
// The level's `gameObjects` list is `objects` (rings and handicaps, held as values in
// insertion order) followed by `player`. Positions are per-tick integer parameters.

module LevelFour {
  import GameObjects
  import opened Rounds

  /** `GameState` of part IV. */
  datatype GameState = Initialized | Play | Win | Lose | Stopped

  const NumberOfRings: int := 10

  /** The key of the action that moves the player along the level. */
  const MoveKey := "moveBy"

  class GameLevel {
    var objects: seq<Obj>
    var touchedRings: int
    var missedRings: int
    var state: GameState
    var player: GameObjects.GameObject?
    var hud: seq<HudEvent>
    var hudAttached: bool
    var contactsEnabled: bool
    var collisions: seq<Collision>

    /** A level in play has its player. */
    ghost predicate Valid()
      reads this
    {
      state == Play ==> player != null
    }

    /** Everything the level holds except its object list. */
    ghost function Rest(): (GameObjects.GameObject?, GameState, int, int, seq<HudEvent>, bool, bool, seq<Collision>)
      reads this
    {
      (player, state, touchedRings, missedRings, hud, hudAttached, contactsEnabled, collisions)
    }

    constructor ()
      ensures Valid()
      ensures objects == [] && player == null
      ensures touchedRings == 0 && missedRings == 0 && state == Initialized
      ensures hud == [] && !hudAttached && contactsEnabled && collisions == []
    {
      objects, player := [], null;
      touchedRings, missedRings := 0, 0;
      state := Initialized;
      hud, hudAttached, contactsEnabled, collisions := [], false, true, [];
    }

    method AttachHud()
      modifies this
      ensures hudAttached && hud == old(hud)
      ensures objects == old(objects) && player == old(player) && state == old(state)
      ensures touchedRings == old(touchedRings) && missedRings == old(missedRings)
      ensures contactsEnabled == old(contactsEnabled) && collisions == old(collisions)
    {
      hudAttached := true;
    }

    /** `flyTrough`: exactly one more ring touched, reported to the HUD. */
    method FlyTrough(ring: Obj)
      requires ring.kind.Ring?
      modifies this
      ensures touchedRings == old(touchedRings) + 1
      ensures hud == Send(old(hud), hudAttached, [Rings(touchedRings)])
      ensures objects == old(objects) && player == old(player) && state == old(state)
      ensures missedRings == old(missedRings) && hudAttached == old(hudAttached)
      ensures contactsEnabled == old(contactsEnabled) && collisions == old(collisions)
    {
      touchedRings := touchedRings + 1;
      if hudAttached {
        hud := hud + [Rings(touchedRings)];
      }
    }

    /** `touchedHandicap`: the round is lost (`lose`). */
    method TouchedHandicap(handicap: Obj)
      requires handicap.kind.Handicap?
      modifies this
      ensures state == Lose
      ensures hud == Send(old(hud), hudAttached, [Message(GameOver, RestartInformation)])
      ensures objects == old(objects) && player == old(player)
      ensures touchedRings == old(touchedRings) && missedRings == old(missedRings) && hudAttached == old(hudAttached)
      ensures contactsEnabled == old(contactsEnabled) && collisions == old(collisions)
    {
      if hudAttached {
        hud := hud + [Message(GameOver, RestartInformation)];
      }
      state := Lose;
    }

    /** `update`: outside `play` nothing happens; in play the misses are counted, the stored count
        is raised, and the round is won when this tick's count plus the touched rings is ten.
        Unlike later parts, the player is not stopped. */
    method Update(zs: seq<int>, playerZ: int)
      requires Valid() && |zs| == |objects|
      modifies this
      ensures Valid()
      ensures objects == old(objects) && player == old(player)
      ensures touchedRings == old(touchedRings) && hudAttached == old(hudAttached)
      ensures contactsEnabled == old(contactsEnabled) && collisions == old(collisions)
      ensures old(state) != Play ==> state == old(state) && missedRings == old(missedRings) && hud == old(hud)
      ensures old(state) == Play ==>
        var missed := MissedBehind(objects, zs, playerZ);
        && missedRings == RaisedMissed(old(missedRings), missed)
        && hud == Send(old(hud), hudAttached, TickEvents(old(missedRings), missed, touchedRings, NumberOfRings))
        && state == (if missed + touchedRings == NumberOfRings then Win else Play)
    {
      if state != Play {
        return;
      }
      var missed := CountMissed(objects, zs, playerZ);
      if missed > missedRings {
        missedRings := missed;
        if hudAttached {
          hud := hud + [MissedRings(missed)];
        }
      }
      if missed + touchedRings == NumberOfRings {
        if hudAttached {
          hud := hud + [Message(EndTitle(missed), RestartInformation)];
        }
        state := Win;
      }
    }

    /** `physicsWorld(_:didBegin:)`: when both ends are game objects, A is told about B and then
        B about A; contacts after `stop` are not delivered. */
    method Contact(a: Body, b: Body)
      modifies this
      ensures collisions == old(collisions) + (if old(contactsEnabled) then Dispatch(a, b) else [])
      ensures objects == old(objects) && player == old(player) && state == old(state)
      ensures touchedRings == old(touchedRings) && missedRings == old(missedRings)
      ensures hud == old(hud) && hudAttached == old(hudAttached) && contactsEnabled == old(contactsEnabled)
    {
      if contactsEnabled && a != Scenery && b != Scenery {
        collisions := collisions + [Collision(a, b)];
        collisions := collisions + [Collision(b, a)];
      }
    }

    /** `stop`: every game object is stopped (the player's whole node tree loses its actions),
        the HUD is detached, contacts are no longer delivered and the level is `stopped`. */
    method Stop()
      requires Valid()
      modifies this, player
      ensures Valid()
      ensures state == Stopped && !hudAttached && !contactsEnabled
      ensures |objects| == |old(objects)|
      ensures forall i :: 0 <= i < |objects| ==> objects[i] == StopObject(old(objects)[i])
      ensures player == old(player)
      ensures player != null ==>
                && player.state == GameObjects.Stopped && player.tag == old(player.tag)
                && player.node == GameObjects.StopAllActions(old(player.node))
                && GameObjects.Idle(player.node) && GameObjects.SameShape(player.node, old(player.node))
      ensures hud == old(hud) && collisions == old(collisions)
      ensures touchedRings == old(touchedRings) && missedRings == old(missedRings)
    {
      var stopped := objects;
      var i := 0;
      while i < |stopped|
        invariant 0 <= i <= |stopped| && |stopped| == |objects|
        invariant forall j :: 0 <= j < i ==> stopped[j] == StopObject(objects[j])
        invariant forall j :: i <= j < |stopped| ==> stopped[j] == objects[j]
      {
        stopped := stopped[i := StopObject(stopped[i])];
        i := i + 1;
      }
      objects := stopped;
      if player != null {
        player.Stop();
      }
      contactsEnabled := false;
      hudAttached := false;
      state := Stopped;
    }

    /** `addRings`: ten unnumbered rings, each alive, each drawing an id. */
    method AddRings(counter: GameObjects.IdCounter)
      requires counter.Valid()
      modifies this, counter
      ensures counter.Valid() && counter.count == old(counter.count) + NumberOfRings
      ensures |objects| == |old(objects)| + NumberOfRings && objects[..|old(objects)|] == old(objects)
      ensures forall k :: |old(objects)| <= k < |objects| ==>
                objects[k].kind == Ring(0) && objects[k].state == GameObjects.Alive
      ensures Rest() == old(Rest())
    {
      var i := 1;
      while i <= NumberOfRings
        invariant 1 <= i <= NumberOfRings + 1
        invariant counter.Valid() && counter.count == old(counter.count) + i - 1
        invariant |objects| == |old(objects)| + i - 1 && objects[..|old(objects)|] == old(objects)
        invariant forall k :: |old(objects)| <= k < |objects| ==>
                    objects[k].kind == Ring(0) && objects[k].state == GameObjects.Alive
        invariant Rest() == old(Rest())
      {
        var id := counter.Next();
        objects := objects + [Obj(id, Ring(0), GameObjects.Alive, 0)];
        i := i + 1;
      }
    }

    /** `addHandicap`: one alive handicap. */
    method AddHandicap(counter: GameObjects.IdCounter)
      requires counter.Valid()
      modifies this, counter
      ensures counter.Valid() && counter.count == old(counter.count) + 1
      ensures objects == old(objects) + [Obj(counter.count, Handicap, GameObjects.Alive, 0)]
      ensures Rest() == old(Rest())
    {
      var id := counter.Next();
      objects := objects + [Obj(id, Handicap, GameObjects.Alive, 0)];
    }

    /** `addHandicaps`: for each of the nine gaps, three handicaps on a roll of 1 or 3, else one. */
    method AddHandicaps(counter: GameObjects.IdCounter, rolls: seq<int>)
      requires counter.Valid() && |rolls| == NumberOfRings - 1
      modifies this, counter
      ensures counter.Valid() && counter.count == old(counter.count) + HandicapCount(rolls)
      ensures |objects| == |old(objects)| + HandicapCount(rolls) && objects[..|old(objects)|] == old(objects)
      ensures HandicapsAt(objects, |old(objects)|, HandicapCount(rolls), 0)
      ensures Rest() == old(Rest())
    {
      var i := 1;
      while i <= NumberOfRings - 1
        invariant 1 <= i <= NumberOfRings
        invariant counter.Valid() && counter.count == old(counter.count) + HandicapCount(rolls[..i - 1])
        invariant |objects| == |old(objects)| + HandicapCount(rolls[..i - 1]) && objects[..|old(objects)|] == old(objects)
        invariant HandicapsAt(objects, |old(objects)|, HandicapCount(rolls[..i - 1]), 0)
        invariant Rest() == old(Rest())
      {
        assert rolls[..i][..i - 1] == rolls[..i - 1];
        var rnd := rolls[i - 1];
        if rnd == 1 {
          AddHandicap(counter);
          AddHandicap(counter);
        } else if rnd == 3 {
          AddHandicap(counter);
          AddHandicap(counter);
        }
        AddHandicap(counter);
        i := i + 1;
      }
      assert rolls[..NumberOfRings - 1] == rolls;
    }

    /** `addPlayer`: a new player, set alive and moving along the level, becomes the last game object. */
    method AddPlayer(counter: GameObjects.IdCounter)
      requires counter.Valid()
      modifies this, counter
      ensures counter.Valid() && counter.count == old(counter.count) + 1
      ensures player != null && fresh(player) && player.id == counter.count
      ensures player.state == GameObjects.Alive && player.node.actions == {MoveKey}
      ensures objects == old(objects) && state == old(state)
      ensures touchedRings == old(touchedRings) && missedRings == old(missedRings)
      ensures hud == old(hud) && hudAttached == old(hudAttached)
      ensures contactsEnabled == old(contactsEnabled) && collisions == old(collisions)
    {
      player := new GameObjects.GameObject(counter);
      player.state := GameObjects.Alive;
      player.node := player.node.(actions := player.node.actions + {MoveKey});
    }

    /** `create`: ten rings, the handicaps, then the alive player last; the level goes straight to `play`. */
    method Create(counter: GameObjects.IdCounter, rolls: seq<int>)
      requires counter.Valid() && player == null && |rolls| == NumberOfRings - 1
      modifies this, counter
      ensures Valid() && counter.Valid()
      ensures state == Play && player != null && fresh(player)
      ensures player.id == counter.count && player.state == GameObjects.Alive
      ensures var base := |old(objects)|;
              var handicaps := HandicapCount(rolls);
              && |objects| == base + NumberOfRings + handicaps
              && objects[..base] == old(objects)
              && (forall k :: base <= k < base + NumberOfRings ==>
                    objects[k].kind == Ring(0) && objects[k].state == GameObjects.Alive)
              && HandicapsAt(objects, base + NumberOfRings, handicaps, 0)
              && counter.count == old(counter.count) + NumberOfRings + handicaps + 1
      ensures touchedRings == old(touchedRings) && missedRings == old(missedRings)
      ensures hud == old(hud) && hudAttached == old(hudAttached)
      ensures contactsEnabled == old(contactsEnabled) && collisions == old(collisions)
    {
      AddRings(counter);
      ghost var afterRings := objects;
      AddHandicaps(counter, rolls);
      assert objects[..|afterRings|] == afterRings;
      assert objects[..|old(objects)|] == afterRings[..|old(objects)|];
      AddPlayer(counter);
      state := Play;
    }
  }
}
