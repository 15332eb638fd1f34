// The level controller of part VI (partVI/GameLevel.swift): the round state machine,
// the per-tick miss count and win test, the bullet pool, the scoring callbacks,
// start/stop, level creation and the symmetric collision dispatch.
//
// The level's `gameObjects` list is `objects` (rings, handicaps and enemies, held as
// values in insertion order) followed by `player`, which `create` appends last.
// Positions are not modelled as state: each tick receives the depth of every object
// and the player's position as integers.

module LevelSix {
  import GameObjects
  import Movement
  import opened Rounds
  import opened Planes

  /** `GameState` of parts V and VI. */
  datatype GameState = Initialized | Ready | Play | Win | Loose | Stopped

  datatype Vector = Vector(x: int, y: int, z: int)

  /** The last `fire` a bullet received, if any. */
  datatype Shot = Unfired | Shot(direction: Movement.Direction, sideDistance: real, fallDistance: real, speed: real)

  /** A bullet of the pool: its side, state, visibility, position and last shot. */
  datatype Bullet = Bullet(enemy: bool, state: GameObjects.ObjectState, hidden: bool, position: Vector, shot: Shot)

  const BulletSpeed: real := 3.0

  /** The direction a new shot flies: down for an enemy bullet, up for one of the player. */
  function ShotDirection(enemy: bool): Movement.Direction
  {
    if enemy then Movement.Down else Movement.Up
  }

  /** A bullet that may be fired again for side `enemy`: it has died and belongs to that side. */
  predicate Reusable(b: Bullet, enemy: bool)
  {
    b.state == GameObjects.Died && b.enemy == enemy
  }

  datatype Free = Free(index: nat) | NoneFree

  /** The first reusable bullet at or after `from`, in list order. */
  function FirstReusable(bs: seq<Bullet>, enemy: bool, from: nat): (r: Free)
    requires from <= |bs|
    ensures r.Free? ==> from <= r.index < |bs| && Reusable(bs[r.index], enemy)
    ensures r.Free? ==> forall j :: from <= j < r.index ==> !Reusable(bs[j], enemy)
    ensures r.NoneFree? <==> forall j :: from <= j < |bs| ==> !Reusable(bs[j], enemy)
    decreases |bs| - from
  {
    if from == |bs| then NoneFree
    else if Reusable(bs[from], enemy) then Free(from)
    else FirstReusable(bs, enemy, from + 1)
  }

  /** A bullet fired from `position`: visible, `initialized`, with the given shot. */
  function Fired(b: Bullet, position: Vector, shot: Shot): Bullet
  {
    b.(hidden := false, state := GameObjects.Initialized, position := position, shot := shot)
  }

  /** The pool after `fireBullet`: the first reusable bullet is fired again in place;
      without one, a single new bullet is appended and fired. */
  function AfterFire(bs: seq<Bullet>, enemy: bool, position: Vector, shot: Shot): seq<Bullet>
  {
    match FirstReusable(bs, enemy, 0)
    case Free(i) => bs[i := Fired(bs[i], position, shot)]
    case NoneFree => bs + [Bullet(enemy, GameObjects.Initialized, false, position, shot)]
  }

  /** The position of the bullet `fireBullet` hands back. */
  function FiredIndex(bs: seq<Bullet>, enemy: bool): nat
  {
    match FirstReusable(bs, enemy, 0)
    case Free(i) => i
    case NoneFree => |bs|
  }

  /** The pool grows by one bullet exactly when no bullet of that side can be reused;
      the fired bullet is visible, `initialized`, of the requested side and at the position;
      every other bullet is left as it was. */
  lemma FirePoolReuse(bs: seq<Bullet>, enemy: bool, position: Vector, shot: Shot)
    ensures |AfterFire(bs, enemy, position, shot)| == |bs| + 1 <==> forall j :: 0 <= j < |bs| ==> !Reusable(bs[j], enemy)
    ensures |AfterFire(bs, enemy, position, shot)| == |bs| <==> exists j :: 0 <= j < |bs| && Reusable(bs[j], enemy)
    ensures FiredIndex(bs, enemy) < |AfterFire(bs, enemy, position, shot)|
    ensures var b := AfterFire(bs, enemy, position, shot)[FiredIndex(bs, enemy)];
            b.enemy == enemy && b.state == GameObjects.Initialized && !b.hidden && b.position == position && b.shot == shot
    ensures forall j :: 0 <= j < |bs| && j != FiredIndex(bs, enemy) ==> AfterFire(bs, enemy, position, shot)[j] == bs[j]
  {
  }

  /** While some bullet of a side has died, firing for that side reuses the first such bullet. */
  lemma FirePicksFirstDiedBullet(bs: seq<Bullet>, enemy: bool, i: nat)
    requires i < |bs| && Reusable(bs[i], enemy)
    ensures FiredIndex(bs, enemy) <= i && Reusable(bs[FiredIndex(bs, enemy)], enemy)
    ensures forall j :: 0 <= j < FiredIndex(bs, enemy) ==> !Reusable(bs[j], enemy)
  {
  }

  class GameLevel {
    /** `Game.Level.numberOfRings` and `Game.Level.numberOfEnemies`. */
    const numberOfRings: int
    const numberOfEnemies: int
    var objects: seq<Obj>
    var bullets: seq<Bullet>
    var touchedRings: int
    var missedRings: int
    var state: GameState
    var player: Plane?
    /** What was sent to the HUD, and whether a HUD is attached. */
    var hud: seq<HudEvent>
    var hudAttached: bool
    /** Whether the level is still the physics world's contact delegate. */
    var contactsEnabled: bool
    /** The collision calls made so far, in order. */
    var collisions: seq<Collision>

    /** A level that is ready or in play has its player. */
    ghost predicate Valid()
      reads this, player
    {
      (player != null ==> player.Valid()) &&
      (state == Ready || state == Play ==> player != null)
    }

    /** Everything the level holds except its object list. */
    ghost function Rest(): (seq<Bullet>, Plane?, GameState, int, int, seq<HudEvent>, bool, bool, seq<Collision>)
      reads this
    {
      (bullets, player, state, touchedRings, missedRings, hud, hudAttached, contactsEnabled, collisions)
    }

    constructor (rings: int, enemies: int)
      ensures Valid()
      ensures numberOfRings == rings && numberOfEnemies == enemies
      ensures objects == [] && bullets == [] && player == null
      ensures touchedRings == 0 && missedRings == 0 && state == Initialized
      ensures hud == [] && !hudAttached && contactsEnabled && collisions == []
    {
      numberOfRings, numberOfEnemies := rings, enemies;
      objects, bullets, player := [], [], null;
      touchedRings, missedRings := 0, 0;
      state := Initialized;
      hud, hudAttached, contactsEnabled, collisions := [], false, true, [];
    }

    /** Setting the `hud` property. */
    method AttachHud()
      requires Valid()
      modifies this
      ensures Valid()
      ensures hudAttached && hud == old(hud)
      ensures objects == old(objects) && bullets == old(bullets) && player == old(player) && state == old(state)
      ensures touchedRings == old(touchedRings) && missedRings == old(missedRings)
      ensures contactsEnabled == old(contactsEnabled) && collisions == old(collisions)
    {
      hudAttached := true;
    }

    /** `fireBullet`: reuses the first died bullet of the same side, else appends one new
        bullet; either way the bullet is fired from `position` at speed 3.0, and the
        returned position names it. The list of game objects is not touched. */
    method FireBullet(enemy: bool, position: Vector, sideDistance: real, fallDistance: real) returns (index: nat)
      modifies this
      ensures var shot := Shot(ShotDirection(enemy), sideDistance, fallDistance, BulletSpeed);
              bullets == AfterFire(old(bullets), enemy, position, shot)
      ensures index == FiredIndex(old(bullets), enemy) && index < |bullets|
      ensures objects == old(objects) && player == old(player) && state == old(state)
      ensures touchedRings == old(touchedRings) && missedRings == old(missedRings)
      ensures hud == old(hud) && hudAttached == old(hudAttached)
      ensures contactsEnabled == old(contactsEnabled) && collisions == old(collisions)
    {
      var direction := if enemy then Movement.Down else Movement.Up;
      var shot := Shot(direction, sideDistance, fallDistance, BulletSpeed);
      var i := 0;
      while i < |bullets|
        invariant 0 <= i <= |bullets| && bullets == old(bullets)
        invariant forall j :: 0 <= j < i ==> !Reusable(bullets[j], enemy)
      {
        var bullet := bullets[i];
        if bullet.state == GameObjects.Died && bullet.enemy == enemy {
          bullets := bullets[i := Fired(bullet, position, shot)];
          return i;
        }
        i := i + 1;
      }
      index := |bullets|;
      bullets := bullets + [Bullet(enemy, GameObjects.Initialized, false, position, shot)];
    }

    /** `flyTrough`: exactly one more ring touched; the HUD gets the new count and the ring's points. */
    method FlyTrough(ring: Obj)
      requires Valid() && ring.kind.Ring?
      modifies this
      ensures Valid()
      ensures touchedRings == old(touchedRings) + 1
      ensures hud == Send(old(hud), hudAttached, [Rings(touchedRings), Points(ring.points)])
      ensures objects == old(objects) && bullets == old(bullets) && player == old(player) && state == old(state)
      ensures missedRings == old(missedRings) && hudAttached == old(hudAttached)
      ensures contactsEnabled == old(contactsEnabled) && collisions == old(collisions)
    {
      touchedRings := touchedRings + 1;
      if hudAttached {
        hud := hud + [Rings(touchedRings)];
        hud := hud + [Points(ring.points)];
      }
    }

    /** `touchedHandicap`: the round is lost. */
    method TouchedHandicap(handicap: Obj)
      requires Valid() && handicap.kind.Handicap?
      modifies this
      ensures Valid()
      ensures state == Loose
      ensures hud == Send(old(hud), hudAttached, [Message(GameOver, RestartInformation)])
      ensures objects == old(objects) && bullets == old(bullets) && player == old(player)
      ensures touchedRings == old(touchedRings) && missedRings == old(missedRings) && hudAttached == old(hudAttached)
      ensures contactsEnabled == old(contactsEnabled) && collisions == old(collisions)
    {
      if hudAttached {
        hud := hud + [Message(GameOver, RestartInformation)];
      }
      state := Loose;
    }

    /** `crashed`: the round is lost. */
    method Crashed()
      requires Valid()
      modifies this
      ensures Valid()
      ensures state == Loose
      ensures hud == Send(old(hud), hudAttached, [Message(GameOver, RestartInformation)])
      ensures objects == old(objects) && bullets == old(bullets) && player == old(player)
      ensures touchedRings == old(touchedRings) && missedRings == old(missedRings) && hudAttached == old(hudAttached)
      ensures contactsEnabled == old(contactsEnabled) && collisions == old(collisions)
    {
      if hudAttached {
        hud := hud + [Message(GameOver, RestartInformation)];
      }
      state := Loose;
    }

    /** `update`: outside `play` nothing happens. In play, the rings behind the player that are
        still alive are counted, the player runs its bound check, the stored miss count is raised
        to a larger count, and the round is won (and the player stopped) when this tick's count
        plus the touched rings is the number of rings. `zs[i]` is the depth of `objects[i]`. */
    method Update(zs: seq<int>, playerX: int, playerY: int, playerZ: int)
      requires Valid() && |zs| == |objects|
      modifies this, player
      ensures Valid()
      ensures objects == old(objects) && bullets == old(bullets) && player == old(player)
      ensures touchedRings == old(touchedRings) && hudAttached == old(hudAttached)
      ensures contactsEnabled == old(contactsEnabled) && collisions == old(collisions)
      ensures old(state) != Play ==> state == old(state) && missedRings == old(missedRings) && hud == old(hud)
      ensures old(state) != Play && player != null ==> unchanged(player)
      ensures old(state) == Play ==>
        var missed := MissedBehind(objects, zs, playerZ);
        var won := missed + touchedRings == numberOfRings;
        && missedRings == RaisedMissed(old(missedRings), missed)
        && hud == Send(old(hud), hudAttached, TickEvents(old(missedRings), missed, touchedRings, numberOfRings))
        && state == (if won then Win else Play)
        && player != null
        && player.upDownDirection == Movement.VerticalAfterTick(old(player.upDownDirection), playerY, player.bounds)
        && player.leftRightDirection == Movement.HorizontalAfterTick(old(player.leftRightDirection), playerX, player.bounds)
        && player.hidden == old(player.hidden) && player.flip == old(player.flip)
        && player.speedDistance == old(player.speedDistance) && player.flySpeed == old(player.flySpeed)
        && (won ==> player.state == GameObjects.Stopped && player.actions == {})
        && (!won ==>
              && player.state == old(player.state)
              && player.actions == old(player.actions)
                   - (if player.upDownDirection != old(player.upDownDirection) then {UpDownKey} else {})
                   - (if player.leftRightDirection != old(player.leftRightDirection) then {LeftRightKey} else {}))
    {
      if state != Play {
        return;
      }
      var missed := CountMissed(objects, zs, playerZ);
      // the player is the last game object, so its own update runs last in the loop
      player.Update(playerX, playerY);
      EndTick(missed);
    }

    /** The end of a tick in play that counted `missed`: the stored count is raised, and the
        round is won, with the player stopped, when `missed` completes the number of rings. */
    method EndTick(missed: nat)
      requires Valid() && state == Play
      modifies this, player
      ensures Valid()
      ensures objects == old(objects) && bullets == old(bullets) && player == old(player)
      ensures touchedRings == old(touchedRings) && hudAttached == old(hudAttached)
      ensures contactsEnabled == old(contactsEnabled) && collisions == old(collisions)
      ensures missedRings == RaisedMissed(old(missedRings), missed)
      ensures hud == Send(old(hud), hudAttached, TickEvents(old(missedRings), missed, touchedRings, numberOfRings))
      ensures player.upDownDirection == old(player.upDownDirection)
      ensures player.leftRightDirection == old(player.leftRightDirection)
      ensures missed + touchedRings == numberOfRings ==>
                state == Win && player.state == GameObjects.Stopped && player.actions == {}
                && player.hidden == old(player.hidden) && player.flip == old(player.flip)
                && player.speedDistance == old(player.speedDistance) && player.flySpeed == old(player.flySpeed)
      ensures missed + touchedRings != numberOfRings ==> state == Play && unchanged(player)
    {
      if missed > missedRings {
        missedRings := missed;
        if hudAttached {
          hud := hud + [MissedRings(missed)];
        }
      }
      if missed + touchedRings == numberOfRings {
        if hudAttached {
          hud := hud + [Message(EndTitle(missed), RestartInformation)];
        }
        state := Win;
        player.Stop();
      }
    }

    /** `stop`: every game object is stopped, the HUD is detached, contacts are no longer
        delivered and the level is `stopped`, whatever its state. Bullets are not game objects
        and keep running. */
    method Stop()
      requires Valid()
      modifies this, player
      ensures Valid()
      ensures state == Stopped && !hudAttached && !contactsEnabled
      ensures |objects| == |old(objects)|
      ensures forall i :: 0 <= i < |objects| ==> objects[i] == StopObject(old(objects)[i])
      ensures player == old(player)
      ensures player != null ==>
                && player.state == GameObjects.Stopped && player.actions == {}
                && player.hidden == old(player.hidden)
                && player.upDownDirection == old(player.upDownDirection)
                && player.leftRightDirection == old(player.leftRightDirection)
                && player.flip == old(player.flip) && player.speedDistance == old(player.speedDistance)
                && player.flySpeed == old(player.flySpeed)
      ensures bullets == old(bullets) && hud == old(hud) && collisions == old(collisions)
      ensures touchedRings == old(touchedRings) && missedRings == old(missedRings)
    {
      var stopped := objects;
      var i := 0;
      while i < |stopped|
        invariant 0 <= i <= |stopped| && |stopped| == |objects|
        invariant forall j :: 0 <= j < i ==> stopped[j] == StopObject(objects[j])
        invariant forall j :: i <= j < |stopped| ==> stopped[j] == objects[j]
      {
        stopped := stopped[i := StopObject(stopped[i])];
        i := i + 1;
      }
      objects := stopped;
      if player != null {
        player.Stop();
      }
      contactsEnabled := false;
      hudAttached := false;
      state := Stopped;
    }

    /** `start`: from `ready` the round is in play, the HUD is reset and the player flies
        off with its current speed; in any other state nothing happens. */
    method Start()
      requires Valid()
      modifies this, player
      ensures Valid()
      ensures objects == old(objects) && bullets == old(bullets) && player == old(player)
      ensures touchedRings == old(touchedRings) && missedRings == old(missedRings)
      ensures hudAttached == old(hudAttached) && contactsEnabled == old(contactsEnabled) && collisions == old(collisions)
      ensures old(state) == Ready ==>
        && state == Play && hud == Send(old(hud), hudAttached, [Reset])
        && player != null && player.actions == old(player.actions) + {FlyKey}
        && player.flySpeed == player.speedDistance && player.state == old(player.state)
        && player.speedDistance == old(player.speedDistance) && player.flip == old(player.flip)
        && player.hidden == old(player.hidden)
        && player.upDownDirection == old(player.upDownDirection)
        && player.leftRightDirection == old(player.leftRightDirection)
      ensures old(state) != Ready ==> state == old(state) && hud == old(hud)
      ensures old(state) != Ready && player != null ==> unchanged(player)
    {
      if state == Ready {
        state := Play;
        if hudAttached {
          hud := hud + [Reset];
        }
        player.Start();
      }
    }

    /** `physicsWorld(_:didBegin:)`: when both ends are game objects, A is told about B and then
        B about A; contacts after `stop` are not delivered. */
    method Contact(a: Body, b: Body)
      requires Valid()
      modifies this
      ensures Valid()
      ensures collisions == old(collisions) + (if old(contactsEnabled) then Dispatch(a, b) else [])
      ensures objects == old(objects) && bullets == old(bullets) && player == old(player) && state == old(state)
      ensures touchedRings == old(touchedRings) && missedRings == old(missedRings)
      ensures hud == old(hud) && hudAttached == old(hudAttached) && contactsEnabled == old(contactsEnabled)
    {
      if contactsEnabled && a != Scenery && b != Scenery {
        collisions := collisions + [Collision(a, b)];
        collisions := collisions + [Collision(b, a)];
      }
    }

    /** `addRings`: rings 1 to `numberOfRings`, each alive and worth `ringPoints`, each drawing an id. */
    method AddRings(counter: GameObjects.IdCounter, ringPoints: int)
      requires counter.Valid() && numberOfRings >= 1
      modifies this, counter
      ensures counter.Valid() && counter.count == old(counter.count) + numberOfRings
      ensures |objects| == |old(objects)| + numberOfRings && objects[..|old(objects)|] == old(objects)
      ensures RingsAt(objects, |old(objects)|, numberOfRings, ringPoints)
      ensures forall k :: |old(objects)| <= k < |objects| ==>
                objects[k].id == old(counter.count) + (k - |old(objects)|) + 1
      ensures Rest() == old(Rest())
    {
      var i := 1;
      while i <= numberOfRings
        invariant 1 <= i <= numberOfRings + 1
        invariant counter.Valid() && counter.count == old(counter.count) + i - 1
        invariant |objects| == |old(objects)| + i - 1 && objects[..|old(objects)|] == old(objects)
        invariant RingsAt(objects, |old(objects)|, i - 1, ringPoints)
        invariant forall k :: |old(objects)| <= k < |objects| ==>
                    objects[k].id == old(counter.count) + (k - |old(objects)|) + 1
        invariant Rest() == old(Rest())
      {
        var id := counter.Next();
        objects := objects + [Obj(id, Ring(i), GameObjects.Alive, ringPoints)];
        i := i + 1;
      }
    }

    /** `addHandicap`: one alive handicap worth `handicapPoints`. */
    method AddHandicap(counter: GameObjects.IdCounter, handicapPoints: int)
      requires counter.Valid()
      modifies this, counter
      ensures counter.Valid() && counter.count == old(counter.count) + 1
      ensures objects == old(objects) + [Obj(counter.count, Handicap, GameObjects.Alive, handicapPoints)]
      ensures Rest() == old(Rest())
    {
      var id := counter.Next();
      objects := objects + [Obj(id, Handicap, GameObjects.Alive, handicapPoints)];
    }

    /** `addHandicaps`: for each of the `numberOfRings - 1` gaps between rings, three handicaps on a
        roll of 1 or 3, else one. `rolls[i]` is the random roll of gap `i + 1`. */
    method AddHandicaps(counter: GameObjects.IdCounter, rolls: seq<int>, handicapPoints: int)
      requires counter.Valid() && numberOfRings >= 2 && |rolls| == numberOfRings - 1
      modifies this, counter
      ensures counter.Valid() && counter.count == old(counter.count) + HandicapCount(rolls)
      ensures |objects| == |old(objects)| + HandicapCount(rolls) && objects[..|old(objects)|] == old(objects)
      ensures HandicapsAt(objects, |old(objects)|, HandicapCount(rolls), handicapPoints)
      ensures Rest() == old(Rest())
    {
      var i := 1;
      while i <= numberOfRings - 1
        invariant 1 <= i <= numberOfRings
        invariant counter.Valid() && counter.count == old(counter.count) + HandicapCount(rolls[..i - 1])
        invariant |objects| == |old(objects)| + HandicapCount(rolls[..i - 1]) && objects[..|old(objects)|] == old(objects)
        invariant HandicapsAt(objects, |old(objects)|, HandicapCount(rolls[..i - 1]), handicapPoints)
        invariant Rest() == old(Rest())
      {
        assert rolls[..i][..i - 1] == rolls[..i - 1];
        var rnd := rolls[i - 1];
        if rnd == 1 {
          AddHandicap(counter, handicapPoints);
          AddHandicap(counter, handicapPoints);
        } else if rnd == 3 {
          AddHandicap(counter, handicapPoints);
          AddHandicap(counter, handicapPoints);
        }
        AddHandicap(counter, handicapPoints);
        i := i + 1;
      }
      assert rolls[..numberOfRings - 1] == rolls;
    }

    /** `addEnemies`: `numberOfEnemies` enemies, each drawing an id. */
    method AddEnemies(counter: GameObjects.IdCounter)
      requires counter.Valid() && numberOfEnemies >= 1
      modifies this, counter
      ensures counter.Valid() && counter.count == old(counter.count) + numberOfEnemies
      ensures |objects| == |old(objects)| + numberOfEnemies && objects[..|old(objects)|] == old(objects)
      ensures EnemiesAt(objects, |old(objects)|, numberOfEnemies)
      ensures Rest() == old(Rest())
    {
      var i := 1;
      while i <= numberOfEnemies
        invariant 1 <= i <= numberOfEnemies + 1
        invariant counter.Valid() && counter.count == old(counter.count) + i - 1
        invariant |objects| == |old(objects)| + i - 1 && objects[..|old(objects)|] == old(objects)
        invariant EnemiesAt(objects, |old(objects)|, i - 1)
        invariant Rest() == old(Rest())
      {
        var id := counter.Next();
        objects := objects + [Obj(id, Enemy, GameObjects.Initialized, 0)];
        i := i + 1;
      }
    }

    /** `create`: rings, then handicaps, then enemies, then the player last; the level is `ready`.
        The new player keeps the state of a new plane (part VI does not set it alive). */
    method Create(counter: GameObjects.IdCounter, rolls: seq<int>, ringPoints: int, handicapPoints: int,
                  limits: Movement.Bounds, speed: real)
      requires Valid() && counter.Valid() && player == null
      requires numberOfRings >= 2 && numberOfEnemies >= 1 && |rolls| == numberOfRings - 1
      modifies this, counter
      ensures Valid() && counter.Valid()
      ensures state == Ready && player != null && fresh(player)
      ensures player.id == counter.count && player.state == GameObjects.Initialized
      ensures player.bounds == limits && player.baseSpeed == speed && player.actions == {}
      ensures var base := |old(objects)|;
              var handicaps := HandicapCount(rolls);
              && |objects| == base + numberOfRings + handicaps + numberOfEnemies
              && objects[..base] == old(objects)
              && RingsAt(objects, base, numberOfRings, ringPoints)
              && HandicapsAt(objects, base + numberOfRings, handicaps, handicapPoints)
              && EnemiesAt(objects, base + numberOfRings + handicaps, numberOfEnemies)
              && counter.count == old(counter.count) + numberOfRings + handicaps + numberOfEnemies + 1
      ensures bullets == old(bullets) && touchedRings == old(touchedRings) && missedRings == old(missedRings)
      ensures hud == old(hud) && hudAttached == old(hudAttached)
      ensures contactsEnabled == old(contactsEnabled) && collisions == old(collisions)
    {
      AddRings(counter, ringPoints);
      ghost var afterRings := objects;
      AddHandicaps(counter, rolls, handicapPoints);
      ghost var afterHandicaps := objects;
      assert objects[..|afterRings|] == afterRings;
      AddEnemies(counter);
      assert objects[..|afterHandicaps|] == afterHandicaps;
      assert objects[..|old(objects)|] == afterRings[..|old(objects)|];
      player := new Plane(counter, limits, speed);
      state := Ready;
    }
  }
}
