// The two directional axes of the player (partV/Player.swift) and of the plane
// (partVI/Plane.swift). Both use one five-valued direction type for the vertical
// and the horizontal axis; each move is a three-way toggle from `none`.
// The repeat-forever move actions are represented by the direction itself.

module Movement {

  /** `PlayerDirection` / `PlaneDirection`. */
  datatype Direction = None | Down | Left | Up | Right

  predicate Vertical(d: Direction)
  {
    d == None || d == Up || d == Down
  }

  predicate Horizontal(d: Direction)
  {
    d == None || d == Left || d == Right
  }

  /** `moveUp`: from `none` start climbing, from `down` stop; when already climbing nothing changes. */
  function MoveUp(d: Direction): Direction
  {
    if d == None then Up else if d == Down then None else d
  }

  function MoveDown(d: Direction): Direction
  {
    if d == None then Down else if d == Up then None else d
  }

  function MoveLeft(d: Direction): Direction
  {
    if d == None then Left else if d == Right then None else d
  }

  function MoveRight(d: Direction): Direction
  {
    if d == None then Right else if d == Left then None else d
  }

  /** The per-tick limits of the flight area (`Game.Player.*` / `Game.Plane.*`). */
  datatype Bounds = Bounds(minimumHeight: int, maximumHeight: int, maximumLeft: int, maximumRight: int)

  /** The vertical direction after the tick's bound check at height `y`. */
  function VerticalAfterTick(d: Direction, y: int, b: Bounds): Direction
  {
    if d == Down && y <= b.minimumHeight then None
    else if d == Up && y >= b.maximumHeight then None
    else d
  }

  /** The horizontal direction after the tick's bound check at `x`; moving left increases x. */
  function HorizontalAfterTick(d: Direction, x: int, b: Bounds): Direction
  {
    if d == Left && x >= b.maximumLeft then None
    else if d == Right && x <= b.maximumRight then None
    else d
  }

  /** Each vertical move keeps the axis on its three values and follows the three-way rule. */
  lemma VerticalToggle(d: Direction)
    requires Vertical(d)
    ensures Vertical(MoveUp(d)) && Vertical(MoveDown(d))
    ensures MoveUp(None) == Up && MoveUp(Down) == None && MoveUp(Up) == Up
    ensures MoveDown(None) == Down && MoveDown(Up) == None && MoveDown(Down) == Down
    ensures MoveDown(MoveUp(None)) == None && MoveUp(MoveDown(None)) == None
  {
  }

  /** Each horizontal move keeps the axis on its three values and follows the three-way rule. */
  lemma HorizontalToggle(d: Direction)
    requires Horizontal(d)
    ensures Horizontal(MoveLeft(d)) && Horizontal(MoveRight(d))
    ensures MoveLeft(None) == Left && MoveLeft(Right) == None && MoveLeft(Left) == Left
    ensures MoveRight(None) == Right && MoveRight(Left) == None && MoveRight(Right) == Right
    ensures MoveRight(MoveLeft(None)) == None && MoveLeft(MoveRight(None)) == None
  {
  }

  /** The bound check only ever stops an axis, and no motion survives it past its limit. */
  lemma TickOnlyStops(up: Direction, side: Direction, x: int, y: int, b: Bounds)
    ensures VerticalAfterTick(up, y, b) in {up, None}
    ensures HorizontalAfterTick(side, x, b) in {side, None}
    ensures VerticalAfterTick(up, y, b) == Down ==> y > b.minimumHeight
    ensures VerticalAfterTick(up, y, b) == Up ==> y < b.maximumHeight
    ensures HorizontalAfterTick(side, x, b) == Left ==> x < b.maximumLeft
    ensures HorizontalAfterTick(side, x, b) == Right ==> x > b.maximumRight
  {
  }

  /** The input commands forwarded to the player or the plane. */
  datatype Command = CmdUp | CmdDown | CmdStopUpDown | CmdLeft | CmdRight | CmdStopLeftRight

  predicate IsVerticalCommand(c: Command)
  {
    c == CmdUp || c == CmdDown || c == CmdStopUpDown
  }

  /** The two axes of a player or a plane. */
  datatype Motion = Motion(upDown: Direction, leftRight: Direction)

  predicate OnAxes(m: Motion)
  {
    Vertical(m.upDown) && Horizontal(m.leftRight)
  }

  /** What one command does to the axes. */
  function Apply(m: Motion, c: Command): Motion
  {
    match c
    case CmdUp => m.(upDown := MoveUp(m.upDown))
    case CmdDown => m.(upDown := MoveDown(m.upDown))
    case CmdStopUpDown => m.(upDown := None)
    case CmdLeft => m.(leftRight := MoveLeft(m.leftRight))
    case CmdRight => m.(leftRight := MoveRight(m.leftRight))
    case CmdStopLeftRight => m.(leftRight := None)
  }

  /** The axes after a run of commands, applied in order. */
  function Run(m: Motion, cs: seq<Command>): Motion
    decreases |cs|
  {
    if cs == [] then m else Run(Apply(m, cs[0]), cs[1..])
  }

  function VerticalCommands(cs: seq<Command>): (r: seq<Command>)
    ensures forall i :: 0 <= i < |r| ==> IsVerticalCommand(r[i])
  {
    if cs == [] then []
    else if IsVerticalCommand(cs[0]) then [cs[0]] + VerticalCommands(cs[1..])
    else VerticalCommands(cs[1..])
  }

  function HorizontalCommands(cs: seq<Command>): (r: seq<Command>)
    ensures forall i :: 0 <= i < |r| ==> !IsVerticalCommand(r[i])
  {
    if cs == [] then []
    else if !IsVerticalCommand(cs[0]) then [cs[0]] + HorizontalCommands(cs[1..])
    else HorizontalCommands(cs[1..])
  }

  /** However the commands come, each axis stays on its own three values. */
  lemma {:induction false} RunStaysOnAxes(m: Motion, cs: seq<Command>)
    requires OnAxes(m)
    ensures OnAxes(Run(m, cs))
    decreases |cs|
  {
    if cs != [] {
      RunStaysOnAxes(Apply(m, cs[0]), cs[1..]);
    }
  }

  /** The axes are independent: each ends where its own commands alone would take it. */
  lemma {:induction false} RunAxesIndependent(m: Motion, cs: seq<Command>)
    ensures Run(m, cs).upDown == Run(m, VerticalCommands(cs)).upDown
    ensures Run(m, cs).leftRight == Run(m, HorizontalCommands(cs)).leftRight
    decreases |cs|
  {
    if cs != [] {
      var m' := Apply(m, cs[0]);
      RunAxesIndependent(m', cs[1..]);
      if IsVerticalCommand(cs[0]) {
        assert VerticalCommands(cs) == [cs[0]] + VerticalCommands(cs[1..]);
        RunIgnoresOtherAxis(m, m', HorizontalCommands(cs[1..]), false);
      } else {
        assert HorizontalCommands(cs) == [cs[0]] + HorizontalCommands(cs[1..]);
        RunIgnoresOtherAxis(m, m', VerticalCommands(cs[1..]), true);
      }
    }
  }

  /** Commands of one axis carry the other axis through unchanged. */
  lemma {:induction false} RunIgnoresOtherAxis(m: Motion, m': Motion, cs: seq<Command>, vertical: bool)
    requires forall i :: 0 <= i < |cs| ==> IsVerticalCommand(cs[i]) == vertical
    requires vertical ==> m.upDown == m'.upDown
    requires !vertical ==> m.leftRight == m'.leftRight
    ensures vertical ==> Run(m, cs).upDown == Run(m', cs).upDown
    ensures !vertical ==> Run(m, cs).leftRight == Run(m', cs).leftRight
    ensures vertical ==> Run(m, cs).leftRight == m.leftRight
    ensures !vertical ==> Run(m, cs).upDown == m.upDown
    decreases |cs|
  {
    if cs != [] {
      RunIgnoresOtherAxis(Apply(m, cs[0]), Apply(m', cs[0]), cs[1..], vertical);
    }
  }
}
