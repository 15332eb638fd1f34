// The plane base class of part VI (partVI/Plane.swift): the same two toggled axes
// as the part V player (without the chase camera), a forward speed whose sign
// is set by `flip`, `start`, the per-tick bound check and `die`.

module Planes {
  import opened GameObjects
  import opened Movement

  const UpDownKey := "upDownDirection"
  const LeftRightKey := "leftRightDirection"
  const FlyKey := "fly"

  /** The forward speed for a flip setting: `Game.Plane.speedDistance`, negated when flipped. */
  function SpeedFor(flip: bool, base: real): real
  {
    if flip then -1.0 * base else base
  }

  class Plane {
    const id: nat
    const bounds: Bounds
    /** `Game.Plane.speedDistance`. */
    const baseSpeed: real
    var state: ObjectState
    var upDownDirection: Direction
    var leftRightDirection: Direction
    var flip: bool
    var speedDistance: real
    /** The keys of the actions running on the plane's node. */
    var actions: set<string>
    /** The distance per step of the running "fly" action, once started. */
    var flySpeed: real
    var hidden: bool

    /** Each axis stays on its own values, no move action runs on an axis at rest,
        and the speed always has the sign of the last flip. */
    ghost predicate Valid()
      reads this
    {
      Vertical(upDownDirection) && Horizontal(leftRightDirection) &&
      (UpDownKey in actions ==> upDownDirection != None) &&
      (LeftRightKey in actions ==> leftRightDirection != None) &&
      speedDistance == SpeedFor(flip, baseSpeed)
    }

    constructor (counter: IdCounter, limits: Bounds, speed: real)
      requires counter.Valid()
      modifies counter
      ensures Valid() && counter.Valid()
      ensures id == old(counter.count) + 1 && counter.count == id
      ensures id !in old(counter.issued) && counter.issued == old(counter.issued) + {id}
      ensures bounds == limits && baseSpeed == speed && state == Initialized
      ensures upDownDirection == None && leftRightDirection == None
      ensures !flip && speedDistance == speed && actions == {} && !hidden
    {
      var next := counter.Next();
      id := next;
      bounds := limits;
      baseSpeed := speed;
      state := Initialized;
      upDownDirection, leftRightDirection := None, None;
      flip := false;
      speedDistance := speed;
      actions := {};
      flySpeed := 0.0;
      hidden := false;
    }

    /** Setting `flip`: the speed becomes the negated base speed when true, the base speed when false. */
    method SetFlip(value: bool)
      requires Valid()
      modifies this
      ensures Valid()
      ensures flip == value && speedDistance == SpeedFor(value, baseSpeed)
      ensures state == old(state) && actions == old(actions) && flySpeed == old(flySpeed) && hidden == old(hidden)
      ensures upDownDirection == old(upDownDirection) && leftRightDirection == old(leftRightDirection)
    {
      flip := value;
      if flip {
        speedDistance := -1.0 * baseSpeed;
      } else {
        speedDistance := baseSpeed;
      }
    }

    method MoveUp()
      requires Valid()
      modifies this
      ensures Valid()
      ensures upDownDirection == Movement.MoveUp(old(upDownDirection))
      ensures actions == if old(upDownDirection) == None then old(actions) + {UpDownKey}
                         else if old(upDownDirection) == Down then old(actions) - {UpDownKey}
                         else old(actions)
      ensures leftRightDirection == old(leftRightDirection) && state == old(state) && hidden == old(hidden)
      ensures flip == old(flip) && speedDistance == old(speedDistance) && flySpeed == old(flySpeed)
    {
      if upDownDirection == None {
        actions := actions + {UpDownKey};
        upDownDirection := Up;
      } else if upDownDirection == Down {
        actions := actions - {UpDownKey};
        upDownDirection := None;
      }
    }

    method MoveDown()
      requires Valid()
      modifies this
      ensures Valid()
      ensures upDownDirection == Movement.MoveDown(old(upDownDirection))
      ensures actions == if old(upDownDirection) == None then old(actions) + {UpDownKey}
                         else if old(upDownDirection) == Up then old(actions) - {UpDownKey}
                         else old(actions)
      ensures leftRightDirection == old(leftRightDirection) && state == old(state) && hidden == old(hidden)
      ensures flip == old(flip) && speedDistance == old(speedDistance) && flySpeed == old(flySpeed)
    {
      if upDownDirection == None {
        actions := actions + {UpDownKey};
        upDownDirection := Down;
      } else if upDownDirection == Up {
        actions := actions - {UpDownKey};
        upDownDirection := None;
      }
    }

    method StopMovingUpDown()
      requires Valid()
      modifies this
      ensures Valid()
      ensures upDownDirection == None && actions == old(actions) - {UpDownKey}
      ensures leftRightDirection == old(leftRightDirection) && state == old(state) && hidden == old(hidden)
      ensures flip == old(flip) && speedDistance == old(speedDistance) && flySpeed == old(flySpeed)
    {
      actions := actions - {UpDownKey};
      upDownDirection := None;
    }

    method MoveLeft()
      requires Valid()
      modifies this
      ensures Valid()
      ensures leftRightDirection == Movement.MoveLeft(old(leftRightDirection))
      ensures actions == if old(leftRightDirection) == None then old(actions) + {LeftRightKey}
                         else if old(leftRightDirection) == Right then old(actions) - {LeftRightKey}
                         else old(actions)
      ensures upDownDirection == old(upDownDirection) && state == old(state) && hidden == old(hidden)
      ensures flip == old(flip) && speedDistance == old(speedDistance) && flySpeed == old(flySpeed)
    {
      if leftRightDirection == None {
        actions := actions + {LeftRightKey};
        leftRightDirection := Left;
      } else if leftRightDirection == Right {
        actions := actions - {LeftRightKey};
        leftRightDirection := None;
      }
    }

    method MoveRight()
      requires Valid()
      modifies this
      ensures Valid()
      ensures leftRightDirection == Movement.MoveRight(old(leftRightDirection))
      ensures actions == if old(leftRightDirection) == None then old(actions) + {LeftRightKey}
                         else if old(leftRightDirection) == Left then old(actions) - {LeftRightKey}
                         else old(actions)
      ensures upDownDirection == old(upDownDirection) && state == old(state) && hidden == old(hidden)
      ensures flip == old(flip) && speedDistance == old(speedDistance) && flySpeed == old(flySpeed)
    {
      if leftRightDirection == None {
        actions := actions + {LeftRightKey};
        leftRightDirection := Right;
      } else if leftRightDirection == Left {
        actions := actions - {LeftRightKey};
        leftRightDirection := None;
      }
    }

    method StopMovingLeftRight()
      requires Valid()
      modifies this
      ensures Valid()
      ensures leftRightDirection == None && actions == old(actions) - {LeftRightKey}
      ensures upDownDirection == old(upDownDirection) && state == old(state) && hidden == old(hidden)
      ensures flip == old(flip) && speedDistance == old(speedDistance) && flySpeed == old(flySpeed)
    {
      actions := actions - {LeftRightKey};
      leftRightDirection := None;
    }

    /** `start`: the plane flies forward with its current speed. */
    method Start()
      requires Valid()
      modifies this
      ensures Valid()
      ensures actions == old(actions) + {FlyKey} && flySpeed == speedDistance
      ensures speedDistance == old(speedDistance) && flip == old(flip)
      ensures state == old(state) && hidden == old(hidden)
      ensures upDownDirection == old(upDownDirection) && leftRightDirection == old(leftRightDirection)
    {
      actions := actions + {FlyKey};
      flySpeed := speedDistance;
    }

    /** `update` at position (x, y): an axis that has reached its limit is stopped. */
    method Update(x: int, y: int)
      requires Valid()
      modifies this
      ensures Valid()
      ensures upDownDirection == VerticalAfterTick(old(upDownDirection), y, bounds)
      ensures leftRightDirection == HorizontalAfterTick(old(leftRightDirection), x, bounds)
      ensures actions == old(actions)
        - (if upDownDirection != old(upDownDirection) then {UpDownKey} else {})
        - (if leftRightDirection != old(leftRightDirection) then {LeftRightKey} else {})
      ensures state == old(state) && hidden == old(hidden)
      ensures flip == old(flip) && speedDistance == old(speedDistance) && flySpeed == old(flySpeed)
    {
      if upDownDirection == Down {
        if y <= bounds.minimumHeight {
          StopMovingUpDown();
        }
      } else if upDownDirection == Up {
        if y >= bounds.maximumHeight {
          StopMovingUpDown();
        }
      }
      if leftRightDirection == Left {
        if x >= bounds.maximumLeft {
          StopMovingLeftRight();
        }
      } else if leftRightDirection == Right {
        if x <= bounds.maximumRight {
          StopMovingLeftRight();
        }
      }
    }

    /** The plane's own `collision` hook does nothing. */
    method Collision()
      ensures unchanged(this)
    {
    }

    /** `die`: an alive plane dies, is hidden and loses every action; otherwise nothing happens. */
    method Die()
      requires Valid()
      modifies this
      ensures Valid()
      ensures state == HitState(old(state))
      ensures old(state) == Alive ==> hidden && actions == {}
      ensures old(state) != Alive ==> hidden == old(hidden) && actions == old(actions)
      ensures upDownDirection == old(upDownDirection) && leftRightDirection == old(leftRightDirection)
      ensures flip == old(flip) && speedDistance == old(speedDistance) && flySpeed == old(flySpeed)
    {
      if state != Alive {
        return;
      }
      state := Died;
      hidden := true;
      actions := {};
    }

    /** The inherited `stop`: `stopped`, with no action left on the plane. */
    method Stop()
      requires Valid()
      modifies this
      ensures Valid()
      ensures state == Stopped && actions == {} && hidden == old(hidden)
      ensures upDownDirection == old(upDownDirection) && leftRightDirection == old(leftRightDirection)
      ensures flip == old(flip) && speedDistance == old(speedDistance) && flySpeed == old(flySpeed)
    {
      state := Stopped;
      actions := {};
    }
  }

  /** Only the last flip decides the direction of travel of a plane started afterwards. */
  method FlipTwiceThenStart(p: Plane, first: bool, second: bool)
    requires p.Valid() && p.baseSpeed > 0.0
    modifies p
    ensures p.Valid()
    ensures p.flySpeed == SpeedFor(second, p.baseSpeed)
    ensures p.flySpeed < 0.0 <==> second
  {
    p.SetFlip(first);
    p.SetFlip(second);
    p.Start();
  }
}
