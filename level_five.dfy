// The level controller of part V (partV/GameLevel.swift) together with the player's
// collision reaction (partV/Player.swift): the round state machine, the per-tick miss
// count and win test, `flyTrough` without points, `touchedHandicap`, start/stop,
// creation with the player set alive and appended last, and contacts.
//
// The level's `gameObjects` list is `objects` (rings and handicaps, held as values in
// insertion order) followed by `player`. Positions are per-tick integer parameters.

module LevelFive {
  import GameObjects
  import Movement
  import opened Rounds
  import opened Players

  /** `GameState` of parts V and VI. */
  datatype GameState = Initialized | Ready | Play | Win | Loose | Stopped

  /** What the player's `collision(with:level:)` does with the other end of a contact. */
  datatype Reaction = Ignored | FlewThrough(ring: nat) | HitHandicap(handicap: nat)

  /** The player's reaction: nothing unless it is alive; an alive ring is flown through;
      a handicap, in any state, is hit; anything else is ignored. */
  function ReactionTo(playerState: GameObjects.ObjectState, os: seq<Obj>, other: Body): (r: Reaction)
    ensures r.FlewThrough? <==>
      playerState == GameObjects.Alive && other.Item? && other.index < |os| &&
      os[other.index].kind.Ring? && os[other.index].state == GameObjects.Alive
    ensures r.HitHandicap? <==>
      playerState == GameObjects.Alive && other.Item? && other.index < |os| && os[other.index].kind.Handicap?
    ensures r.FlewThrough? ==> other == Item(r.ring)
    ensures r.HitHandicap? ==> other == Item(r.handicap)
  {
    if playerState != GameObjects.Alive then Ignored
    else if other.Item? && other.index < |os| then
      var o := os[other.index];
      if o.kind.Ring? then (if o.state != GameObjects.Alive then Ignored else FlewThrough(other.index))
      else if o.kind.Handicap? then HitHandicap(other.index)
      else Ignored
    else Ignored
  }

  /** A ring scores once: after it was flown through and hit, touching it again is ignored,
      whatever the player's state. */
  lemma RingScoresOnce(playerState: GameObjects.ObjectState, later: GameObjects.ObjectState, os: seq<Obj>, i: nat)
    requires ReactionTo(playerState, os, Item(i)) == FlewThrough(i)
    ensures ReactionTo(later, os[i := HitObject(os[i])], Item(i)) == Ignored
  {
  }

  /** A handicap ends the player: once the player has died, every later contact is ignored. */
  lemma HandicapEndsThePlayer(playerState: GameObjects.ObjectState, os: seq<Obj>, other: Body, later: Body)
    requires ReactionTo(playerState, os, other).HitHandicap?
    ensures ReactionTo(GameObjects.HitState(playerState), os, later) == Ignored
  {
  }

  class GameLevel {
    /** `Game.Level.numberOfRings`. */
    const numberOfRings: int
    var objects: seq<Obj>
    var touchedRings: int
    var missedRings: int
    var state: GameState
    var player: Player?
    var hud: seq<HudEvent>
    var hudAttached: bool
    var contactsEnabled: bool
    var collisions: seq<Collision>

    /** A level that is ready or in play has its player. */
    ghost predicate Valid()
      reads this, player
    {
      (player != null ==> player.Valid()) &&
      (state == Ready || state == Play ==> player != null)
    }

    /** A contact end names something the level holds: a present object or an existing player. */
    predicate Holds(b: Body)
      reads this
    {
      !b.BulletBody? && (b.Item? ==> b.index < |objects|) && (b == PlayerBody ==> player != null)
    }

    /** Everything the level holds except its object list. */
    ghost function Rest(): (Player?, GameState, int, int, seq<HudEvent>, bool, bool, seq<Collision>)
      reads this
    {
      (player, state, touchedRings, missedRings, hud, hudAttached, contactsEnabled, collisions)
    }

    constructor (rings: int)
      ensures Valid()
      ensures numberOfRings == rings && objects == [] && player == null
      ensures touchedRings == 0 && missedRings == 0 && state == Initialized
      ensures hud == [] && !hudAttached && contactsEnabled && collisions == []
    {
      numberOfRings := rings;
      objects, player := [], null;
      touchedRings, missedRings := 0, 0;
      state := Initialized;
      hud, hudAttached, contactsEnabled, collisions := [], false, true, [];
    }

    method AttachHud()
      modifies this
      ensures hudAttached && hud == old(hud)
      ensures objects == old(objects) && player == old(player) && state == old(state)
      ensures touchedRings == old(touchedRings) && missedRings == old(missedRings)
      ensures contactsEnabled == old(contactsEnabled) && collisions == old(collisions)
    {
      hudAttached := true;
    }

    /** `flyTrough`: exactly one more ring touched, reported to the HUD; part V awards no points. */
    method FlyTrough(ring: Obj)
      requires ring.kind.Ring?
      modifies this
      ensures touchedRings == old(touchedRings) + 1
      ensures hud == Send(old(hud), hudAttached, [Rings(touchedRings)])
      ensures objects == old(objects) && player == old(player) && state == old(state)
      ensures missedRings == old(missedRings) && hudAttached == old(hudAttached)
      ensures contactsEnabled == old(contactsEnabled) && collisions == old(collisions)
    {
      touchedRings := touchedRings + 1;
      if hudAttached {
        hud := hud + [Rings(touchedRings)];
      }
    }

    /** `touchedHandicap`: the round is lost. */
    method TouchedHandicap(handicap: Obj)
      requires handicap.kind.Handicap?
      modifies this
      ensures state == Loose
      ensures hud == Send(old(hud), hudAttached, [Message(GameOver, RestartInformation)])
      ensures objects == old(objects) && player == old(player)
      ensures touchedRings == old(touchedRings) && missedRings == old(missedRings) && hudAttached == old(hudAttached)
      ensures contactsEnabled == old(contactsEnabled) && collisions == old(collisions)
    {
      if hudAttached {
        hud := hud + [Message(GameOver, RestartInformation)];
      }
      state := Loose;
    }

    /** `update`: outside `play` nothing happens; in play the misses are counted, the player
        runs its bound check, the stored count is raised and the round may be won. */
    method Update(zs: seq<int>, playerX: int, playerY: int, playerZ: int)
      requires Valid() && |zs| == |objects|
      modifies this, player
      ensures Valid()
      ensures objects == old(objects) && player == old(player)
      ensures touchedRings == old(touchedRings) && hudAttached == old(hudAttached)
      ensures contactsEnabled == old(contactsEnabled) && collisions == old(collisions)
      ensures old(state) != Play ==> state == old(state) && missedRings == old(missedRings) && hud == old(hud)
      ensures old(state) != Play && player != null ==> unchanged(player)
      ensures old(state) == Play ==>
        var missed := MissedBehind(objects, zs, playerZ);
        var won := missed + touchedRings == numberOfRings;
        && missedRings == RaisedMissed(old(missedRings), missed)
        && hud == Send(old(hud), hudAttached, TickEvents(old(missedRings), missed, touchedRings, numberOfRings))
        && state == (if won then Win else Play)
        && player != null
        && player.upDownDirection == Movement.VerticalAfterTick(old(player.upDownDirection), playerY, player.bounds)
        && player.leftRightDirection == Movement.HorizontalAfterTick(old(player.leftRightDirection), playerX, player.bounds)
        && player.hidden == old(player.hidden)
        && (won ==> player.state == GameObjects.Stopped && player.actions == {} && player.cameraX == 0.0)
        && (!won ==>
              && player.state == old(player.state)
              && player.actions == old(player.actions)
                   - (if player.upDownDirection != old(player.upDownDirection) then {UpDownKey} else {})
                   - (if player.leftRightDirection != old(player.leftRightDirection) then {LeftRightKey} else {})
              && player.cameraX ==
                   if player.leftRightDirection != old(player.leftRightDirection) then 0.1
                   else if player.upDownDirection != old(player.upDownDirection)
                   then CameraX(player.leftRightDirection, old(player.cameraX))
                   else old(player.cameraX))
    {
      if state != Play {
        return;
      }
      var missed := CountMissed(objects, zs, playerZ);
      // the player is the last game object, so its own update runs last in the loop
      player.Update(playerX, playerY);
      EndTick(missed);
    }

    /** The end of a tick in play that counted `missed`. */
    method EndTick(missed: nat)
      requires Valid() && state == Play
      modifies this, player
      ensures Valid()
      ensures objects == old(objects) && player == old(player)
      ensures touchedRings == old(touchedRings) && hudAttached == old(hudAttached)
      ensures contactsEnabled == old(contactsEnabled) && collisions == old(collisions)
      ensures missedRings == RaisedMissed(old(missedRings), missed)
      ensures hud == Send(old(hud), hudAttached, TickEvents(old(missedRings), missed, touchedRings, numberOfRings))
      ensures player.upDownDirection == old(player.upDownDirection)
      ensures player.leftRightDirection == old(player.leftRightDirection)
      ensures missed + touchedRings == numberOfRings ==>
                state == Win && player.state == GameObjects.Stopped && player.actions == {} && player.cameraX == 0.0
                && player.hidden == old(player.hidden)
      ensures missed + touchedRings != numberOfRings ==> state == Play && unchanged(player)
    {
      if missed > missedRings {
        missedRings := missed;
        if hudAttached {
          hud := hud + [MissedRings(missed)];
        }
      }
      if missed + touchedRings == numberOfRings {
        if hudAttached {
          hud := hud + [Message(EndTitle(missed), RestartInformation)];
        }
        state := Win;
        player.Stop();
      }
    }

    /** The player's `collision(with:level:)`: an alive player flies through an alive ring
        (`flyTrough`, then the ring is hit) or hits a handicap (`touchedHandicap`, the handicap
        is hit, the player dies); otherwise nothing happens. */
    method PlayerCollision(other: Body)
      requires Valid() && player != null && Holds(other)
      modifies this, player
      ensures Valid() && player == old(player)
      ensures hudAttached == old(hudAttached) && contactsEnabled == old(contactsEnabled) && collisions == old(collisions)
      ensures missedRings == old(missedRings)
      ensures var r := ReactionTo(old(player.state), old(objects), other);
        && (r.Ignored? ==> objects == old(objects) && touchedRings == old(touchedRings)
                           && state == old(state) && hud == old(hud) && unchanged(player))
        && (r.FlewThrough? ==> objects == old(objects)[r.ring := HitObject(old(objects)[r.ring])]
                               && touchedRings == old(touchedRings) + 1 && state == old(state)
                               && hud == Send(old(hud), hudAttached, [Rings(touchedRings)]) && unchanged(player))
        && (r.HitHandicap? ==> objects == old(objects)[r.handicap := HitObject(old(objects)[r.handicap])]
                               && touchedRings == old(touchedRings) && state == Loose
                               && hud == Send(old(hud), hudAttached, [Message(GameOver, RestartInformation)])
                               && player.state == GameObjects.Died && player.hidden && player.actions == {}
                               && player.upDownDirection == old(player.upDownDirection)
                               && player.leftRightDirection == old(player.leftRightDirection)
                               && player.cameraX == old(player.cameraX))
    {
      if player.state != GameObjects.Alive {
        return;
      }
      if other.Item? {
        var o := objects[other.index];
        if o.kind.Ring? {
          if o.state != GameObjects.Alive {
            return;
          }
          FlyTrough(o);
          objects := objects[other.index := HitObject(o)];
        } else if o.kind.Handicap? {
          TouchedHandicap(o);
          objects := objects[other.index := HitObject(o)];
          player.Die();
        }
      }
    }

    /** `physicsWorld(_:didBegin:)`: when both ends are game objects, A's `collision` runs with B,
        then B's with A. Only the player's hook does anything; contacts after `stop` are dropped. */
    method Contact(a: Body, b: Body)
      requires Valid() && Holds(a) && Holds(b) && !(a == PlayerBody && b == PlayerBody)
      modifies this, player
      ensures Valid() && player == old(player)
      ensures collisions == old(collisions) + (if old(contactsEnabled) then Dispatch(a, b) else [])
      ensures hudAttached == old(hudAttached) && contactsEnabled == old(contactsEnabled) && missedRings == old(missedRings)
      ensures var delivered := old(contactsEnabled) && a != Scenery && b != Scenery;
              var other := if a == PlayerBody then b else a;
              var r := if delivered && (a == PlayerBody || b == PlayerBody)
                       then ReactionTo(old(player.state), old(objects), other) else Ignored;
        && (r.Ignored? ==> objects == old(objects) && touchedRings == old(touchedRings)
                           && state == old(state) && hud == old(hud) && (player != null ==> unchanged(player)))
        && (r.FlewThrough? ==> objects == old(objects)[r.ring := HitObject(old(objects)[r.ring])]
                               && touchedRings == old(touchedRings) + 1 && state == old(state)
                               && hud == Send(old(hud), hudAttached, [Rings(touchedRings)])
                               && unchanged(player))
        && (r.HitHandicap? ==> objects == old(objects)[r.handicap := HitObject(old(objects)[r.handicap])]
                               && touchedRings == old(touchedRings) && state == Loose
                               && hud == Send(old(hud), hudAttached, [Message(GameOver, RestartInformation)])
                               && player.state == GameObjects.Died && player.hidden && player.actions == {}
                               && player.upDownDirection == old(player.upDownDirection)
                               && player.leftRightDirection == old(player.leftRightDirection)
                               && player.cameraX == old(player.cameraX))
    {
      if contactsEnabled && a != Scenery && b != Scenery {
        collisions := collisions + [Collision(a, b)];
        if a == PlayerBody {
          PlayerCollision(b);
        }
        collisions := collisions + [Collision(b, a)];
        if b == PlayerBody {
          PlayerCollision(a);
        }
      }
    }

    /** `stop`: every game object is stopped, the HUD is detached, contacts are no longer
        delivered and the level is `stopped`, whatever its state. */
    method Stop()
      requires Valid()
      modifies this, player
      ensures Valid()
      ensures state == Stopped && !hudAttached && !contactsEnabled
      ensures |objects| == |old(objects)|
      ensures forall i :: 0 <= i < |objects| ==> objects[i] == StopObject(old(objects)[i])
      ensures player == old(player)
      ensures player != null ==>
                && player.state == GameObjects.Stopped && player.actions == {} && player.cameraX == 0.0
                && player.hidden == old(player.hidden)
                && player.upDownDirection == old(player.upDownDirection)
                && player.leftRightDirection == old(player.leftRightDirection)
      ensures hud == old(hud) && collisions == old(collisions)
      ensures touchedRings == old(touchedRings) && missedRings == old(missedRings)
    {
      var stopped := objects;
      var i := 0;
      while i < |stopped|
        invariant 0 <= i <= |stopped| && |stopped| == |objects|
        invariant forall j :: 0 <= j < i ==> stopped[j] == StopObject(objects[j])
        invariant forall j :: i <= j < |stopped| ==> stopped[j] == objects[j]
      {
        stopped := stopped[i := StopObject(stopped[i])];
        i := i + 1;
      }
      objects := stopped;
      if player != null {
        player.Stop();
      }
      contactsEnabled := false;
      hudAttached := false;
      state := Stopped;
    }

    /** `start`: from `ready` the round is in play, the HUD is reset and only the player is
        started; in any other state nothing happens. */
    method Start()
      requires Valid()
      modifies this, player
      ensures Valid()
      ensures objects == old(objects) && player == old(player)
      ensures touchedRings == old(touchedRings) && missedRings == old(missedRings)
      ensures hudAttached == old(hudAttached) && contactsEnabled == old(contactsEnabled) && collisions == old(collisions)
      ensures old(state) == Ready ==>
        && state == Play && hud == Send(old(hud), hudAttached, [Reset])
        && player != null && player.actions == old(player.actions) + {FlyKey} && player.state == old(player.state)
        && player.cameraX == old(player.cameraX) && player.hidden == old(player.hidden)
        && player.upDownDirection == old(player.upDownDirection)
        && player.leftRightDirection == old(player.leftRightDirection)
      ensures old(state) != Ready ==> state == old(state) && hud == old(hud)
      ensures old(state) != Ready && player != null ==> unchanged(player)
    {
      if state == Ready {
        state := Play;
        if hudAttached {
          hud := hud + [Reset];
        }
        player.Start();
      }
    }

    /** `addRings`: rings 1 to `numberOfRings`, each alive, each drawing an id. */
    method AddRings(counter: GameObjects.IdCounter)
      requires counter.Valid() && numberOfRings >= 1
      modifies this, counter
      ensures counter.Valid() && counter.count == old(counter.count) + numberOfRings
      ensures |objects| == |old(objects)| + numberOfRings && objects[..|old(objects)|] == old(objects)
      ensures RingsAt(objects, |old(objects)|, numberOfRings, 0)
      ensures Rest() == old(Rest())
    {
      var i := 1;
      while i <= numberOfRings
        invariant 1 <= i <= numberOfRings + 1
        invariant counter.Valid() && counter.count == old(counter.count) + i - 1
        invariant |objects| == |old(objects)| + i - 1 && objects[..|old(objects)|] == old(objects)
        invariant RingsAt(objects, |old(objects)|, i - 1, 0)
        invariant Rest() == old(Rest())
      {
        var id := counter.Next();
        objects := objects + [Obj(id, Ring(i), GameObjects.Alive, 0)];
        i := i + 1;
      }
    }

    /** `addHandicap`: one alive handicap. */
    method AddHandicap(counter: GameObjects.IdCounter)
      requires counter.Valid()
      modifies this, counter
      ensures counter.Valid() && counter.count == old(counter.count) + 1
      ensures objects == old(objects) + [Obj(counter.count, Handicap, GameObjects.Alive, 0)]
      ensures Rest() == old(Rest())
    {
      var id := counter.Next();
      objects := objects + [Obj(id, Handicap, GameObjects.Alive, 0)];
    }

    /** `addHandicaps`: three handicaps for a gap whose roll is 1 or 3, else one. */
    method AddHandicaps(counter: GameObjects.IdCounter, rolls: seq<int>)
      requires counter.Valid() && numberOfRings >= 2 && |rolls| == numberOfRings - 1
      modifies this, counter
      ensures counter.Valid() && counter.count == old(counter.count) + HandicapCount(rolls)
      ensures |objects| == |old(objects)| + HandicapCount(rolls) && objects[..|old(objects)|] == old(objects)
      ensures HandicapsAt(objects, |old(objects)|, HandicapCount(rolls), 0)
      ensures Rest() == old(Rest())
    {
      var i := 1;
      while i <= numberOfRings - 1
        invariant 1 <= i <= numberOfRings
        invariant counter.Valid() && counter.count == old(counter.count) + HandicapCount(rolls[..i - 1])
        invariant |objects| == |old(objects)| + HandicapCount(rolls[..i - 1]) && objects[..|old(objects)|] == old(objects)
        invariant HandicapsAt(objects, |old(objects)|, HandicapCount(rolls[..i - 1]), 0)
        invariant Rest() == old(Rest())
      {
        assert rolls[..i][..i - 1] == rolls[..i - 1];
        var rnd := rolls[i - 1];
        if rnd == 1 {
          AddHandicap(counter);
          AddHandicap(counter);
        } else if rnd == 3 {
          AddHandicap(counter);
          AddHandicap(counter);
        }
        AddHandicap(counter);
        i := i + 1;
      }
      assert rolls[..numberOfRings - 1] == rolls;
    }

    /** `addPlayer`: a new player, set alive, becomes the last game object. */
    method AddPlayer(counter: GameObjects.IdCounter, limits: Movement.Bounds)
      requires Valid() && counter.Valid()
      modifies this, counter
      ensures Valid() && counter.Valid() && counter.count == old(counter.count) + 1
      ensures player != null && fresh(player) && player.id == counter.count
      ensures player.state == GameObjects.Alive && player.bounds == limits && player.actions == {}
      ensures objects == old(objects) && state == old(state)
      ensures touchedRings == old(touchedRings) && missedRings == old(missedRings)
      ensures hud == old(hud) && hudAttached == old(hudAttached)
      ensures contactsEnabled == old(contactsEnabled) && collisions == old(collisions)
    {
      player := new Player(counter, limits);
      player.state := GameObjects.Alive;
    }

    /** `create`: rings, then handicaps, then the alive player last; the level is `ready`. */
    method Create(counter: GameObjects.IdCounter, rolls: seq<int>, limits: Movement.Bounds)
      requires Valid() && counter.Valid() && player == null
      requires numberOfRings >= 2 && |rolls| == numberOfRings - 1
      modifies this, counter
      ensures Valid() && counter.Valid()
      ensures state == Ready && player != null && fresh(player)
      ensures player.id == counter.count && player.state == GameObjects.Alive
      ensures player.bounds == limits && player.actions == {}
      ensures var base := |old(objects)|;
              var handicaps := HandicapCount(rolls);
              && |objects| == base + numberOfRings + handicaps
              && objects[..base] == old(objects)
              && RingsAt(objects, base, numberOfRings, 0)
              && HandicapsAt(objects, base + numberOfRings, handicaps, 0)
              && counter.count == old(counter.count) + numberOfRings + handicaps + 1
      ensures touchedRings == old(touchedRings) && missedRings == old(missedRings)
      ensures hud == old(hud) && hudAttached == old(hudAttached)
      ensures contactsEnabled == old(contactsEnabled) && collisions == old(collisions)
    {
      AddRings(counter);
      ghost var afterRings := objects;
      AddHandicaps(counter, rolls);
      assert objects[..|afterRings|] == afterRings;
      assert objects[..|old(objects)|] == afterRings[..|old(objects)|];
      AddPlayer(counter, limits);
      state := Ready;
    }
  }
}
