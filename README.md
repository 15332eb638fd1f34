# SceneKit flight-game tutorial: rounds, game objects and the log filter, in Dafny

This project models the game logic of a SceneKit tutorial game. In the game a plane flies
along a level. It scores by flying through rings and loses the round when it touches a
handicap. The model covers:

- **Level controllers** (`GameLevel`), one per tutorial part:
  - **Part III**: scores a ring the first time the player's node touches it. It places ten
    rings at even spacing.
  - **Part IV** introduces the round state machine:
    - states `initialized`, `play`, `win`, `lose`, `stopped`;
    - the per-tick count of rings missed behind the player;
    - a stored miss count that only rises;
    - the win test and the message it shows;
    - `stop`;
    - symmetric collision dispatch, A then B.
  - **Part V** adds the `ready` state and `start`. Winning stops the player, and the
    player's own collision reaction drives the scoring.
  - **Part VI** adds points, enemies, `crashed` and the bullet pool. `fireBullet` reuses the
    first died bullet of the same side, otherwise it appends exactly one new bullet.
- **Game-object base class** (part IV):
  - ids drawn from a process-wide counter;
  - a four-valued state;
  - `stop` with its recursive `stopAllActions` over the node tree;
  - hooks that do nothing by default.
- **Steerable objects**: the part V `Player` and the part VI `Plane`.
  - Each has two independent three-valued direction axes with toggling moves.
  - A per-tick check stops an axis at its bound.
  - `die` acts only on an alive object.
  - The part V player has a chase camera that follows the sideways direction.
  - The part VI plane has a `flip` setting that fixes the sign of its forward speed.
- **Handicaps** (parts IV and VI): they start alive, and `hit` acts only on an alive
  handicap.
- **`RBLog`**: a message is written iff its severity's raw value reaches the threshold. The
  line is the severity's marker, one space, then the message.

Modules:

| module | contents |
|---|---|
| `RBLog` (log.dfy) | the severity filter and the line format |
| `Decimal` (decimal.dfy) | decimal text of an id, for descriptions |
| `GameObjects` (game_object.dfy) | the id counter, the game-object base class and scene-node trees |
| `Handicaps` (handicap.dfy) | the handicap |
| `Movement` (movement.dfy) | direction toggles and the per-tick bound check, shared by player and plane |
| `Players` (player.dfy) | the part V player |
| `Planes` (plane.dfy) | the part VI plane |
| `Rounds` (rounds.dfy) | what the part IV–VI levels share: level objects as values, the miss count, the stored miss count, end titles, HUD events, handicap layout and contact dispatch |
| `LevelThree`, `LevelFour`, `LevelFive`, `LevelSix` | the four level controllers |

How the model represents the program:

- **Classes.**
  - Levels, the player, the plane, game objects, handicaps and the logger are classes.
    Their methods update fields in place.
  - The static object counter is an `IdCounter` object. It is passed to every constructor.
- **Level objects as values.**
  - A level's non-player objects (rings, handicaps, enemies) are values `Obj` in a sequence
    `objects`, in insertion order.
  - The level's `gameObjects` list is `objects` followed by the player, which `create`
    appends last.
  - Part VI bullets are values in `bullets`.
- **Positions.** They are not state. Each tick receives integer depths for the objects and
  the player's position.
- **Actions.** Running SceneKit actions are kept as the set of their keys.
- **The HUD** is a log of the events sent to it. Nothing is sent while no HUD is attached.
- **Contacts.** A contact between two nodes is given by what each node's parent is.

## Model

| member | source | states |
|---|---|---|
| RBLog.RawValuesOrdered | shared/RBLog.swift:11-17 | raw values are strictly ordered debug < info < warning < error < none, and distinct severities have distinct raw values |
| RBLog.NoneSuppressesAll | shared/RBLog.swift:11-17 | with threshold `none`, no level is written |
| RBLog.DebugEmitsAll | shared/RBLog.swift:22 | with the default threshold `debug`, every level is written |
| RBLog.RaisingThresholdOnlySuppresses | shared/RBLog.swift:26-48 | a higher threshold never lets through a message that a lower one suppressed |
| RBLog.Prefix | shared/RBLog.swift:28 | every level has a non-empty marker |
| RBLog.Line | shared/RBLog.swift:52-54 | the written line is the marker, one space, then the message: its length and each of its three parts |
| RBLog.ParseLine | shared/RBLog.swift:52-54 | whatever it reads back is exactly what `log` writes for that level and message |
| RBLog.LineRoundTrip | shared/RBLog.swift:52-54 | the level and the message can be read back from every written line |
| RBLog.Logger.constructor | shared/RBLog.swift:22 | a new logger has threshold `debug` and has written nothing |
| RBLog.Logger.SetSeverity | shared/RBLog.swift:22 | the threshold is replaced and nothing is written |
| RBLog.Logger.Write | shared/RBLog.swift:56-58 | exactly one line is written: the message |
| RBLog.Logger.Log | shared/RBLog.swift:52-54 | exactly one line is written: the formatted one |
| RBLog.Logger.Error | shared/RBLog.swift:26-30 | the line is written iff error reaches the threshold; otherwise nothing is written |
| RBLog.Logger.Warning | shared/RBLog.swift:32-36 | the line is written iff warning reaches the threshold; otherwise nothing is written |
| RBLog.Logger.Info | shared/RBLog.swift:38-42 | the line is written iff info reaches the threshold; otherwise nothing is written |
| RBLog.Logger.Debug | shared/RBLog.swift:44-48 | the line is written iff debug reaches the threshold; otherwise nothing is written |
| Decimal.DigitChar | partIV/GameObject.swift:33 | a digit value gives a digit character |
| Decimal.DigitValue | partIV/GameObject.swift:33 | a digit character gives a value below 10 that maps back to the character |
| Decimal.Show | partIV/GameObject.swift:33 | an id is written as non-empty decimal digits with no leading zero |
| Decimal.ParseShow | partIV/GameObject.swift:33 | reading the decimal text of an id back gives the id |
| Decimal.ShowInjective | partIV/GameObject.swift:33 | different ids have different texts |
| GameObjects.HitStateGuarded | partIV/Handicap.swift:32-37 | a guarded hit or die kills an alive object, leaves any other state alone, and a second one changes nothing |
| GameObjects.IdCounter.constructor | partIV/GameObject.swift:23 | the counter starts at 0 with no id handed out |
| GameObjects.IdCounter.Next | partIV/GameObject.swift:83-84 | the new id is the old count plus one, the counter holds it, it was never handed out before, and it is larger than every earlier id |
| GameObjects.StopAllActionsStopsEveryNode | partIV/GameObject.swift:67-76 | stopping a tree leaves no action on any node and neither adds nor loses a node |
| GameObjects.StopChildrenStopsEveryNode | partIV/GameObject.swift:72-75 | the same, for the children of a node |
| GameObjects.StopAllActionsOfIdle | partIV/GameObject.swift:67-76 | stopping a tree on which nothing runs leaves it as it was |
| GameObjects.StopChildrenOfIdle | partIV/GameObject.swift:72-75 | the same, for the children of a node |
| GameObjects.GameObject.constructor | partIV/GameObject.swift:80-85 | a new object takes the next id from the counter and starts `initialized` with tag 0 |
| GameObjects.GameObject.Stop | partIV/GameObject.swift:51-55 | from any state the object is `stopped`; its node tree is the stopped tree, idle everywhere and the same shape |
| GameObjects.GameObject.Hit | partIV/GameObject.swift:49 | the default `hit` changes nothing |
| GameObjects.GameObject.Update | partIV/GameObject.swift:59 | the default `update` changes nothing |
| GameObjects.GameObject.Collision | partIV/GameObject.swift:63 | the default `collision` changes neither object |
| GameObjects.SuccessiveIdsIncrease | partIV/GameObject.swift:37-39 | two objects created one after the other have consecutive ids and different descriptions |
| Handicaps.DescriptionNamesTheHandicap | partIV/Handicap.swift:22-26 | a description starts with "handicap ", and two descriptions are equal iff the ids are |
| Handicaps.Handicap.constructor | partVI/Handicap.swift:81-82 | a new handicap takes the next id, is `alive` and is worth the handicap points |
| Handicaps.Handicap.Hit | partVI/Handicap.swift:29-34 | an alive handicap dies; in any other state nothing happens |
| Handicaps.HitTwice | partIV/Handicap.swift:33-35 | hitting twice leaves the state that one hit leaves, and it is no longer alive |
| Movement.VerticalToggle | partV/Player.swift:148-186 | `moveUp`: none to up, down to none, up stays; `moveDown` mirrors it; each keeps the axis vertical, and opposite moves cancel |
| Movement.HorizontalToggle | partV/Player.swift:199-237 | `moveLeft`: none to left, right to none, left stays; `moveRight` mirrors it; each keeps the axis horizontal, and opposite moves cancel |
| Movement.TickOnlyStops | partV/Player.swift:46-75 | the bound check only stops an axis; no motion survives past its limit (down at or below the minimum height, up at or above the maximum, left at or beyond the left limit, right at or beyond the right limit) |
| Movement.RunStaysOnAxes | partV/Player.swift:148-248 | after any run of move and stop commands, each axis holds only its own three values |
| Movement.RunAxesIndependent | partV/Player.swift:148-248 | after any run of commands, each axis is where its own commands alone would put it |
| Movement.RunIgnoresOtherAxis | partVI/Plane.swift:134-198 | commands of one axis leave the other axis unchanged, and their effect on their own axis depends only on that axis |
| Players.CameraFollowsSide | partV/Player.swift:124-136 | the camera x is 1.0 iff the player flies left, -1.0 iff right, and 0.1 iff straight |
| Players.Player.constructor | partV/Player.swift:28-29 | a new player takes the next id, is `initialized`, both axes are at rest and no action runs |
| Players.Player.AdjustCamera | partV/Player.swift:124-136 | the camera x follows the sideways direction; nothing else changes |
| Players.Player.MoveUp | partV/Player.swift:148-166 | the vertical axis follows `moveUp`; the move action is started or removed; the camera is adjusted only if the direction changed; the other axis is unchanged |
| Players.Player.MoveDown | partV/Player.swift:168-186 | the mirror image of `MoveUp` |
| Players.Player.StopMovingUpDown | partV/Player.swift:188-197 | the vertical axis is `none` and its action removed; the camera is adjusted only if it moved |
| Players.Player.MoveLeft | partV/Player.swift:199-217 | the sideways axis follows `moveLeft`; the action is started or removed; the camera follows only on a change; the vertical axis is unchanged |
| Players.Player.MoveRight | partV/Player.swift:219-237 | the mirror image of `MoveLeft` |
| Players.Player.StopMovingLeftRight | partV/Player.swift:239-248 | the sideways axis is `none` and its action removed; the camera is adjusted only if it moved |
| Players.Player.Update | partV/Player.swift:46-75 | each axis is the result of the bound check at the given position; only the action of a stopped axis is removed |
| Players.Player.Die | partV/Player.swift:110-120 | an alive player dies, is hidden and loses every action; in any other state nothing happens |
| Players.Player.Start | partV/Player.swift:250-254 | the fly action is added |
| Players.Player.Stop | partV/Player.swift:256-268 | the player is `stopped`, no action runs and the camera is centred |
| Planes.Plane.constructor | partVI/Plane.swift:22-34 | a new plane takes the next id, flies unflipped at the base speed, both axes at rest |
| Planes.Plane.SetFlip | partVI/Plane.swift:39-50 | the speed is the negated base speed iff `flip` is set to true |
| Planes.Plane.MoveUp | partVI/Plane.swift:134-146 | the vertical axis follows `moveUp`; the move action is started or removed; the other axis is unchanged |
| Planes.Plane.MoveDown | partVI/Plane.swift:148-160 | the mirror image of `MoveUp` |
| Planes.Plane.StopMovingUpDown | partVI/Plane.swift:162-165 | the vertical axis is `none` unconditionally and its action removed |
| Planes.Plane.MoveLeft | partVI/Plane.swift:167-179 | the sideways axis follows `moveLeft`; the action is started or removed; the vertical axis is unchanged |
| Planes.Plane.MoveRight | partVI/Plane.swift:181-193 | the mirror image of `MoveLeft` |
| Planes.Plane.StopMovingLeftRight | partVI/Plane.swift:195-198 | the sideways axis is `none` unconditionally and its action removed |
| Planes.Plane.Start | partVI/Plane.swift:200-204 | the fly action runs at the current speed |
| Planes.Plane.Update | partVI/Plane.swift:60-99 | each axis is the result of the bound check at the given position; speed and flip are kept |
| Planes.Plane.Collision | partVI/Plane.swift:111-112 | the plane's `collision` changes nothing |
| Planes.Plane.Die | partVI/Plane.swift:116-125 | an alive plane dies, is hidden and loses every action; in any other state nothing happens |
| Planes.Plane.Stop | partIV/GameObject.swift:51-55 | the plane is `stopped` and no action runs |
| Planes.FlipTwiceThenStart | partVI/Plane.swift:39-50 | only the last flip decides the speed a started plane flies at, and the plane flies backwards iff that flip was true |
| Rounds.EndTitleByMisses | partVI/GameLevel.swift:177-182 | a won round shows "YOU WIN" iff fewer than 3 rings were missed, otherwise "TRY TO IMPROVE", never "GAME OVER" |
| Rounds.MissedBehindCountsMissedRings | partVI/GameLevel.swift:157-168 | the tick's miss count is exactly the number of alive rings more than 5 behind the player |
| Rounds.MissedAtMostAliveRings | partVI/GameLevel.swift:161-165 | a tick never counts more misses than there are alive rings |
| Rounds.MissedGrowsWithPlayerDepth | partVI/GameLevel.swift:162 | with the rings where they are, a player further ahead counts at least as many misses |
| Rounds.CountMissed | partVI/GameLevel.swift:155-168 | the counting loop of `update` (the same in partIV/GameLevel.swift:80-93 and partV/GameLevel.swift:106-119) yields the number of alive rings more than 5 behind the player, and at most the number of alive rings |
| Rounds.RaisedMissed | partVI/GameLevel.swift:170-173 | the stored miss count is replaced only by a strictly larger tick count; it never decreases |
| Rounds.StoredAfterIsLargestCount | partIV/GameLevel.swift:95-98 | across any run of ticks the stored count never decreases, and it ends as the largest count seen (or its start value) |
| Rounds.TickEventsReport | partVI/GameLevel.swift:170-186 | the HUD gets a miss update iff the count rose, and the end message iff the tick completes the number of rings |
| Rounds.StopObject | partIV/GameObject.swift:51-55 | a stopped level object is `stopped` and is otherwise the same object |
| Rounds.HitObject | partVI/Handicap.swift:29-34 | a hit level object is in its guarded-hit state, no longer alive, and otherwise the same |
| Rounds.HandicapCountBounds | partVI/GameLevel.swift:257-280 | each gap between rings gets one to three handicaps, and exactly one in every gap iff no roll is 1 or 3 |
| Rounds.Dispatch | partVI/GameLevel.swift:191-197 | a contact between two game objects makes two collision calls, A's then B's; a contact with anything else makes none |
| Rounds.DispatchIsSymmetric | partIV/GameLevel.swift:115-121 | each side is told about the other once, and swapping the ends only swaps the order of the calls |
| LevelSix.FirstReusable | partVI/GameLevel.swift:103-104 | the found bullet is reusable and no earlier one is; nothing is found iff no bullet is reusable |
| LevelSix.FirePoolReuse | partVI/GameLevel.swift:99-126 | the pool grows by one iff no bullet of that side has died; the fired bullet is visible, `initialized`, of that side and at the position; every other bullet is unchanged |
| LevelSix.FirePicksFirstDiedBullet | partVI/GameLevel.swift:102-114 | while a bullet of the side has died, the first such bullet in list order is the one reused |
| LevelSix.GameLevel.constructor | partVI/GameLevel.swift:358-362 | a new level is `initialized`, empty, with contacts delivered |
| LevelSix.GameLevel.AttachHud | partVI/GameLevel.swift:35 | a HUD is attached; nothing else changes and the level stays valid |
| LevelSix.GameLevel.FireBullet | partVI/GameLevel.swift:99-126 | the pool is the reference pool after firing (reuse or append one), the bullet flies down iff it is an enemy's at speed 3.0, the returned index names it, and the object list is not touched |
| LevelSix.GameLevel.FlyTrough | partVI/GameLevel.swift:128-133 | exactly one more ring is touched; the HUD gets the new count and the ring's points |
| LevelSix.GameLevel.TouchedHandicap | partVI/GameLevel.swift:135-139 | the round is `loose` and the HUD shows "GAME OVER" |
| LevelSix.GameLevel.Crashed | partVI/GameLevel.swift:141-145 | the round is `loose` and the HUD shows "GAME OVER" |
| LevelSix.GameLevel.Update | partVI/GameLevel.swift:149-187 | outside `play` nothing changes; in play the stored count is raised and the HUD gets the tick's events; the round is won iff this tick's count plus the touched rings is the number of rings; on a win the player is stopped with no action left, otherwise each axis goes through the bound check and only the action of a stopped axis is removed; the player's visibility, flip and speeds are kept |
| LevelSix.GameLevel.EndTick | partVI/GameLevel.swift:170-186 | the stored count is raised; iff the count completes the number of rings the round is won and the player stopped (visibility, flip and speeds kept), otherwise the player is unchanged |
| LevelSix.GameLevel.Stop | partVI/GameLevel.swift:315-324 | from any state every game object is stopped, the level keeps its player and stops it (no action left, directions, flip and speeds kept), the HUD is detached, contacts stop, the level is `stopped`, and bullets are untouched |
| LevelSix.GameLevel.Start | partVI/GameLevel.swift:326-335 | from `ready` the round is in play, the HUD is reset and the player flies at its current speed, with its flip, speed, directions and visibility kept; in any other state nothing changes |
| LevelSix.GameLevel.Contact | partVI/GameLevel.swift:191-197 | while contacts are delivered, the dispatch calls are made A then B; nothing else changes |
| LevelSix.GameLevel.AddRings | partVI/GameLevel.swift:201-224 | rings 1 to the number of rings are appended, alive, worth the ring points, each drawing one id: the k-th new ring has the counter's old value plus k |
| LevelSix.GameLevel.AddHandicap | partVI/GameLevel.swift:249-255 | one alive handicap worth the handicap points is appended with the next id |
| LevelSix.GameLevel.AddHandicaps | partVI/GameLevel.swift:257-280 | for each of the gaps between rings, three handicaps on a roll of 1 or 3, else one |
| LevelSix.GameLevel.AddEnemies | partVI/GameLevel.swift:226-247 | the configured number of enemies is appended, each `initialized` |
| LevelSix.GameLevel.Create | partVI/GameLevel.swift:339-356 | rings, then handicaps, then enemies are appended in that order; a new player is added last; the level is `ready` |
| LevelFive.ReactionTo | partV/Player.swift:87-106 | an alive player flies through a ring iff it is alive, hits a handicap in any state, and ignores everything else; a player that is not alive ignores everything |
| LevelFive.RingScoresOnce | partV/Player.swift:92-98 | a ring flown through and hit is ignored at every later touch |
| LevelFive.HandicapEndsThePlayer | partV/Player.swift:100-105 | after a handicap kills the player, every later contact is ignored |
| LevelFive.GameLevel.constructor | partV/GameLevel.swift:35 | a new level is `initialized` and empty |
| LevelFive.GameLevel.AttachHud | partV/GameLevel.swift:33 | a HUD is attached; nothing else changes |
| LevelFive.GameLevel.FlyTrough | partV/GameLevel.swift:87-90 | exactly one more ring is touched and the HUD gets the count; no points |
| LevelFive.GameLevel.TouchedHandicap | partV/GameLevel.swift:92-96 | the round is `loose` and the HUD shows "GAME OVER" |
| LevelFive.GameLevel.Update | partV/GameLevel.swift:100-138 | outside `play` nothing changes; in play the stored count is raised and the HUD gets the tick's events; the round is won iff this tick's count plus the touched rings is the number of rings; on a win the player is stopped with no action left and the camera centred, otherwise each axis goes through the bound check, only a stopped axis's action is removed and the camera follows the change; the player's visibility is kept |
| LevelFive.GameLevel.EndTick | partV/GameLevel.swift:121-137 | the stored count is raised; the round is won and the player stopped iff the count completes the number of rings |
| LevelFive.GameLevel.PlayerCollision | partV/Player.swift:87-106 | the reaction: an alive ring is flown through and hit; a handicap loses the round, is hit, and the player dies, keeping its directions and camera; anything else changes nothing |
| LevelFive.GameLevel.Contact | partV/GameLevel.swift:142-148 | while contacts are delivered, A's then B's collision runs; the player's reaction to the other end is applied: a ring flown through leaves the player as it was, and on a handicap the player dies keeping its directions and camera |
| LevelFive.GameLevel.Stop | partV/GameLevel.swift:244-253 | from any state every game object is stopped, the level keeps its player and stops it (no action left, camera centred, directions kept), the HUD is detached, contacts stop, the level is `stopped` |
| LevelFive.GameLevel.Start | partV/GameLevel.swift:255-262 | from `ready` the round is in play, the HUD is reset and only the player starts: the fly action is added and its directions, camera and visibility are kept; otherwise nothing changes |
| LevelFive.GameLevel.AddRings | partV/GameLevel.swift:152-175 | rings 1 to the number of rings are appended, alive |
| LevelFive.GameLevel.AddHandicap | partV/GameLevel.swift:177-183 | one alive handicap is appended with the next id |
| LevelFive.GameLevel.AddHandicaps | partV/GameLevel.swift:185-208 | for each gap, three handicaps on a roll of 1 or 3, else one |
| LevelFive.GameLevel.AddPlayer | partV/GameLevel.swift:210-218 | a new player, set `alive`, becomes the level's player |
| LevelFive.GameLevel.Create | partV/GameLevel.swift:266-282 | rings, then handicaps, then the alive player last; the level is `ready` |
| LevelFour.GameLevel.constructor | partIV/GameLevel.swift:43 | a new level is `initialized` and empty |
| LevelFour.GameLevel.AttachHud | partIV/GameLevel.swift:41 | a HUD is attached; nothing else changes |
| LevelFour.GameLevel.FlyTrough | partIV/GameLevel.swift:61-64 | exactly one more ring is touched and the HUD gets the count |
| LevelFour.GameLevel.TouchedHandicap | partIV/GameLevel.swift:66-70 | the round is `lose` and the HUD shows "GAME OVER" |
| LevelFour.GameLevel.Update | partIV/GameLevel.swift:74-111 | outside `play` nothing changes; in play the stored count is raised and the round is won iff this tick's count plus the touched rings is 10; the player is not stopped |
| LevelFour.GameLevel.Contact | partIV/GameLevel.swift:115-121 | while contacts are delivered, the dispatch calls are made A then B |
| LevelFour.GameLevel.Stop | partIV/GameLevel.swift:210-219 | every object is stopped; the level keeps its player, which is `stopped` with its whole node tree idle and the same shape; the HUD is detached, contacts stop, the level is `stopped` |
| LevelFour.GameLevel.AddRings | partIV/GameLevel.swift:125-146 | ten alive rings are appended, each drawing one id |
| LevelFour.GameLevel.AddHandicap | partIV/GameLevel.swift:148-154 | one alive handicap is appended with the next id |
| LevelFour.GameLevel.AddHandicaps | partIV/GameLevel.swift:156-179 | for each of the nine gaps, three handicaps on a roll of 1 or 3, else one |
| LevelFour.GameLevel.AddPlayer | partIV/GameLevel.swift:181-192 | a new player, `alive` and moving along the level, becomes the level's player |
| LevelFour.GameLevel.Create | partIV/GameLevel.swift:223-233 | ten rings, the handicaps, then the player; the level goes straight to `play` |
| LevelThree.RingsInsideLevel | partIII/GameLevel.swift:67-83 | ring i lies at i times the integer-divided spacing: strictly inside the level and strictly behind every later ring |
| LevelThree.HiddenRings | partIII/GameLevel.swift:44-50 | never more hidden rings than rings |
| LevelThree.HideOneRing | partIII/GameLevel.swift:50-53 | hiding a visible ring raises the hidden count by exactly one |
| LevelThree.AppendVisibleRing | partIII/GameLevel.swift:72-84 | adding a visible ring keeps the hidden count |
| LevelThree.GameLevel.constructor | partIII/GameLevel.swift:23-24 | a new level has no ring and no touched ring |
| LevelThree.GameLevel.AttachHud | partIII/GameLevel.swift:28 | a HUD is attached; nothing else changes |
| LevelThree.GameLevel.Collision | partIII/GameLevel.swift:42-56 | a hidden ring changes nothing; otherwise it is hidden, one more ring is touched, and the HUD points equal the touched rings; the touched count is always the number of hidden rings |
| LevelThree.GameLevel.Contact | partIII/GameLevel.swift:58-63 | only a contact whose second node belongs to a ring can score: a visible ring is hidden, one more ring is touched and the HUD shows the new count; a hidden ring changes nothing |
| LevelThree.GameLevel.AddRings | partIII/GameLevel.swift:67-86 | ten visible rings at height 3: ring i at depth i × 58, in the lane its roll picks |

## Left out

- Rendering: scene construction, lights, cameras, constraints, materials, particle systems,
  terrain, skybox and fog. Euler angles and camera animations, except the part V camera's
  x offset.
- `SCNAction` motion. Running actions are the set of their keys. Positions are integers
  passed in per tick: the depth of each level object and the player's x, y and z.
  Floating-point positions are not modelled.
- Randomness (`RBRandom`) is an input:
  - ring lanes in part III and the handicap rolls are a sequence of rolls;
  - sizes and shapes of handicaps, and the placement of rings, handicaps and enemies in
    parts IV–VI, are not modelled.
- The HUD's labels, animations and deferred points ticker. The HUD is a log of the events
  sent to it.
- The debug logging that the game code sends through `rbDebug` is not modelled: the
  `state` observers of game objects and levels (partIV/GameObject.swift:41-45,
  partVI/GameLevel.swift:37-41, and their part IV and V counterparts), the `numberOfBullets`
  observer (partVI/Plane.swift:52-56) and "Reuse bullet" in `fireBullet`
  (partVI/GameLevel.swift:112). The `RBLog` model covers the filter and the written line;
  the levels and objects do not carry a logger.
- `print` in `RBLog.write`, and `String(format:)` in the short log functions. `Write`
  appends the line to `written`.
- Classes that are not shown (`Ring`, `Enemy`, `Bullet`, the part VI `Player`, the part
  III/IV player, the `Game` constants):
  - ring, handicap and bullet points and the flight bounds are parameters;
  - a `Ring.hit` is taken to kill an alive ring, like a handicap's hit;
  - new rings are alive, enemies start `initialized`, a new bullet is `initialized` and
    visible;
  - the `update` and `start` hooks of rings, handicaps, enemies and bullets (for example
    enemies firing) are not modelled, so `update` and `start` leave level objects as they
    were;
  - the part VI player is modelled as its `Plane` base class, so its `fire` and
    `numberOfBullets` are not modelled;
  - `Bullet.fire` is taken to record its direction, distances and speed (the bullet's
    `shot`) and to leave the state, visibility and position that `fireBullet` set just
    before it; its flight and its own `update` are not modelled.
- Aliasing: level objects and bullets are values, so the model does not capture a level
  object being shared or changed through another reference.
- The motion and swipe handlers of the levels only forward to the player's move methods.
  They are not modelled separately.
- `fire` and `addPoints` (part VI) only forward to the player and the HUD.
- Part III: `player.roll()` (an animation), `addPlayer`, `create` (scene set-up and
  `addRings`) and the swipe handlers are not modelled.
- LevelThree.GameLevel.AddRings: the lane offset is an integer parameter; the source
  converts `Player.moveOffset` through `Int(x)`.
- LevelFour.GameLevel.AddRings: part IV rings carry no number (`Ring(0)`).
- LevelSix.GameLevel.Create, LevelFive.GameLevel.Create, LevelFour.GameLevel.Create:
  these require that no player exists yet. A second `create` in the source would append a
  second player to `gameObjects`, which the one `player` field cannot hold.
- LevelSix.GameLevel.Create, LevelSix.GameLevel.AddHandicaps: these require at least two
  rings, and `Create` at least one enemy. The ranges `1...n-1` and `1...n` trap in Swift
  below that.
- LevelFive.GameLevel.Contact: requires that the two ends are not both the player. A node
  cannot touch itself.
- Where the code and the usual description of the game differ, the model follows the code:
  - `moveUp` twice stays up; it does not toggle back.
  - New bullets are not added to `gameObjects`, and `stop` does not stop bullets.
  - Part VI `addPlayer` does not set the player alive.
  - `touchedRings + missedRings <= numberOfRings` is not an invariant.
  - The win test uses the current tick's miss count, not the stored one.
