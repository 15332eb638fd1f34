// The player of part V (partV/Player.swift): a game object with a vertical and a
// horizontal direction, each started and stopped by three-way toggles, a
// per-tick bound check, `die`, and a chase camera whose sideways offset follows
// the horizontal direction. The keyed repeat-forever actions running on the
// player are kept as the set of their keys.

module Players {
  import opened GameObjects
  import opened Movement

  const UpDownKey := "upDownDirection"
  const LeftRightKey := "leftRightDirection"
  const FlyKey := "fly"

  /** `adjustCamera`: the camera's x for the horizontal direction; any other value leaves it. */
  function CameraX(side: Direction, current: real): real
  {
    if side == Left then 1.0
    else if side == Right then -1.0
    else if side == None then 0.1
    else current
  }

  /** The camera leans to the side the player flies to, and sits almost centred when it flies straight. */
  lemma CameraFollowsSide(side: Direction, current: real)
    requires Horizontal(side)
    ensures CameraX(side, current) > 0.0 <==> side != Right
    ensures CameraX(side, current) == 1.0 <==> side == Left
    ensures CameraX(side, current) == -1.0 <==> side == Right
    ensures CameraX(side, current) == 0.1 <==> side == None
  {
  }

  class Player {
    const id: nat
    const bounds: Bounds
    var state: ObjectState
    var upDownDirection: Direction
    var leftRightDirection: Direction
    /** The keys of the actions running on the player's node. */
    var actions: set<string>
    var hidden: bool
    var cameraX: real

    /** Each axis stays on its own values, and no move action runs on an axis at rest. */
    ghost predicate Valid()
      reads this
    {
      Vertical(upDownDirection) && Horizontal(leftRightDirection) &&
      (UpDownKey in actions ==> upDownDirection != None) &&
      (LeftRightKey in actions ==> leftRightDirection != None)
    }

    constructor (counter: IdCounter, limits: Bounds)
      requires counter.Valid()
      modifies counter
      ensures Valid() && counter.Valid()
      ensures id == old(counter.count) + 1 && counter.count == id
      ensures id !in old(counter.issued) && counter.issued == old(counter.issued) + {id}
      ensures bounds == limits && state == Initialized
      ensures upDownDirection == None && leftRightDirection == None
      ensures actions == {} && !hidden && cameraX == 0.0
    {
      var next := counter.Next();
      id := next;
      bounds := limits;
      state := Initialized;
      upDownDirection, leftRightDirection := None, None;
      actions := {};
      hidden := false;
      cameraX := 0.0;
    }

    method AdjustCamera()
      modifies this
      ensures cameraX == CameraX(leftRightDirection, old(cameraX))
      ensures state == old(state) && upDownDirection == old(upDownDirection)
      ensures leftRightDirection == old(leftRightDirection) && actions == old(actions) && hidden == old(hidden)
    {
      if leftRightDirection == Left {
        cameraX := 1.0;
      } else if leftRightDirection == Right {
        cameraX := -1.0;
      } else if leftRightDirection == None {
        cameraX := 0.1;
      }
    }

    /** `moveUp`: none starts climbing, down stops, up stays; the camera moves only on a change. */
    method MoveUp()
      requires Valid()
      modifies this
      ensures Valid()
      ensures upDownDirection == Movement.MoveUp(old(upDownDirection))
      ensures leftRightDirection == old(leftRightDirection) && state == old(state) && hidden == old(hidden)
      ensures actions == if old(upDownDirection) == None then old(actions) + {UpDownKey}
                         else if old(upDownDirection) == Down then old(actions) - {UpDownKey}
                         else old(actions)
      ensures cameraX == if upDownDirection != old(upDownDirection)
                         then CameraX(leftRightDirection, old(cameraX)) else old(cameraX)
    {
      var oldDirection := upDownDirection;
      if upDownDirection == None {
        actions := actions + {UpDownKey};
        upDownDirection := Up;
      } else if upDownDirection == Down {
        actions := actions - {UpDownKey};
        upDownDirection := None;
      }
      if oldDirection != upDownDirection {
        AdjustCamera();
      }
    }

    /** `moveDown`: none starts descending, up stops, down stays. */
    method MoveDown()
      requires Valid()
      modifies this
      ensures Valid()
      ensures upDownDirection == Movement.MoveDown(old(upDownDirection))
      ensures leftRightDirection == old(leftRightDirection) && state == old(state) && hidden == old(hidden)
      ensures actions == if old(upDownDirection) == None then old(actions) + {UpDownKey}
                         else if old(upDownDirection) == Up then old(actions) - {UpDownKey}
                         else old(actions)
      ensures cameraX == if upDownDirection != old(upDownDirection)
                         then CameraX(leftRightDirection, old(cameraX)) else old(cameraX)
    {
      var oldDirection := upDownDirection;
      if upDownDirection == None {
        actions := actions + {UpDownKey};
        upDownDirection := Down;
      } else if upDownDirection == Up {
        actions := actions - {UpDownKey};
        upDownDirection := None;
      }
      if oldDirection != upDownDirection {
        AdjustCamera();
      }
    }

    /** `stopMovingUpDown`: the vertical axis is at rest afterwards, whatever it was. */
    method StopMovingUpDown()
      requires Valid()
      modifies this
      ensures Valid()
      ensures upDownDirection == None && actions == old(actions) - {UpDownKey}
      ensures leftRightDirection == old(leftRightDirection) && state == old(state) && hidden == old(hidden)
      ensures cameraX == if old(upDownDirection) != None
                         then CameraX(leftRightDirection, old(cameraX)) else old(cameraX)
    {
      var oldDirection := upDownDirection;
      actions := actions - {UpDownKey};
      upDownDirection := None;
      if oldDirection != upDownDirection {
        AdjustCamera();
      }
    }

    /** `moveLeft`: none starts moving left, right stops, left stays. */
    method MoveLeft()
      requires Valid()
      modifies this
      ensures Valid()
      ensures leftRightDirection == Movement.MoveLeft(old(leftRightDirection))
      ensures upDownDirection == old(upDownDirection) && state == old(state) && hidden == old(hidden)
      ensures actions == if old(leftRightDirection) == None then old(actions) + {LeftRightKey}
                         else if old(leftRightDirection) == Right then old(actions) - {LeftRightKey}
                         else old(actions)
      ensures cameraX == if leftRightDirection != old(leftRightDirection)
                         then CameraX(leftRightDirection, old(cameraX)) else old(cameraX)
    {
      var oldDirection := leftRightDirection;
      if leftRightDirection == None {
        actions := actions + {LeftRightKey};
        leftRightDirection := Left;
      } else if leftRightDirection == Right {
        actions := actions - {LeftRightKey};
        leftRightDirection := None;
      }
      if oldDirection != leftRightDirection {
        AdjustCamera();
      }
    }

    /** `moveRight`: none starts moving right, left stops, right stays. */
    method MoveRight()
      requires Valid()
      modifies this
      ensures Valid()
      ensures leftRightDirection == Movement.MoveRight(old(leftRightDirection))
      ensures upDownDirection == old(upDownDirection) && state == old(state) && hidden == old(hidden)
      ensures actions == if old(leftRightDirection) == None then old(actions) + {LeftRightKey}
                         else if old(leftRightDirection) == Left then old(actions) - {LeftRightKey}
                         else old(actions)
      ensures cameraX == if leftRightDirection != old(leftRightDirection)
                         then CameraX(leftRightDirection, old(cameraX)) else old(cameraX)
    {
      var oldDirection := leftRightDirection;
      if leftRightDirection == None {
        actions := actions + {LeftRightKey};
        leftRightDirection := Right;
      } else if leftRightDirection == Left {
        actions := actions - {LeftRightKey};
        leftRightDirection := None;
      }
      if oldDirection != leftRightDirection {
        AdjustCamera();
      }
    }

    /** `stopMovingLeftRight`: the horizontal axis is at rest afterwards, whatever it was. */
    method StopMovingLeftRight()
      requires Valid()
      modifies this
      ensures Valid()
      ensures leftRightDirection == None && actions == old(actions) - {LeftRightKey}
      ensures upDownDirection == old(upDownDirection) && state == old(state) && hidden == old(hidden)
      ensures cameraX == if old(leftRightDirection) != None then 0.1 else old(cameraX)
    {
      var oldDirection := leftRightDirection;
      actions := actions - {LeftRightKey};
      leftRightDirection := None;
      if oldDirection != leftRightDirection {
        AdjustCamera();
      }
    }

    /** `update` at position (x, y): an axis that has reached its limit is stopped. */
    method Update(x: int, y: int)
      requires Valid()
      modifies this
      ensures Valid()
      ensures upDownDirection == VerticalAfterTick(old(upDownDirection), y, bounds)
      ensures leftRightDirection == HorizontalAfterTick(old(leftRightDirection), x, bounds)
      ensures actions == old(actions)
        - (if upDownDirection != old(upDownDirection) then {UpDownKey} else {})
        - (if leftRightDirection != old(leftRightDirection) then {LeftRightKey} else {})
      ensures state == old(state) && hidden == old(hidden)
      ensures cameraX == if leftRightDirection != old(leftRightDirection) then 0.1
                         else if upDownDirection != old(upDownDirection) then CameraX(leftRightDirection, old(cameraX))
                         else old(cameraX)
    {
      if upDownDirection == Down {
        if y <= bounds.minimumHeight {
          StopMovingUpDown();
        }
      } else if upDownDirection == Up {
        if y >= bounds.maximumHeight {
          StopMovingUpDown();
        }
      }
      if leftRightDirection == Left {
        if x >= bounds.maximumLeft {
          StopMovingLeftRight();
        }
      } else if leftRightDirection == Right {
        if x <= bounds.maximumRight {
          StopMovingLeftRight();
        }
      }
    }

    /** `die`: an alive player dies, is hidden and loses every action; otherwise nothing happens. */
    method Die()
      requires Valid()
      modifies this
      ensures Valid()
      ensures state == HitState(old(state))
      ensures old(state) == Alive ==> hidden && actions == {}
      ensures old(state) != Alive ==> hidden == old(hidden) && actions == old(actions)
      ensures upDownDirection == old(upDownDirection) && leftRightDirection == old(leftRightDirection)
      ensures cameraX == old(cameraX)
    {
      if state != Alive {
        return;
      }
      state := Died;
      hidden := true;
      actions := {};
    }

    /** `start`: the player begins to fly forward. */
    method Start()
      requires Valid()
      modifies this
      ensures Valid()
      ensures actions == old(actions) + {FlyKey}
      ensures state == old(state) && hidden == old(hidden) && cameraX == old(cameraX)
      ensures upDownDirection == old(upDownDirection) && leftRightDirection == old(leftRightDirection)
    {
      actions := actions + {FlyKey};
    }

    /** `stop`: the base class stop (stopped, no action left), then the camera is centred. */
    method Stop()
      requires Valid()
      modifies this
      ensures Valid()
      ensures state == Stopped && actions == {} && cameraX == 0.0 && hidden == old(hidden)
      ensures upDownDirection == old(upDownDirection) && leftRightDirection == old(leftRightDirection)
    {
      state := Stopped;
      actions := {};
      cameraX := 0.0;
    }
  }
}
