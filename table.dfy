/**
 * The robot on its 5x5 table as a state machine: one function per command,
 * from the state before the command to the state after it and the
 * `{success, message}` result the command returns. The class in robot.dfy
 * runs these transitions on mutable fields.
 *
 * Coordinates grow eastwards (x) and northwards (y).
 */
module Table {
  import opened Text
  import opened Wrappers
  import opened Directions

  /** `grid_size`: the table has cells 0..GridSize-1 on each axis. */
  const GridSize := 5

  /** The `{success, message}` record every command returns. */
  datatype Result = Result(success: bool, message: string)

  /**
   * The robot record. Before the first successful PLACE, `isplaced` is false
   * and `x`, `y` and `facing` carry no meaning.
   */
  datatype RobotState = RobotState(x: int, y: int, facing: Facing, isplaced: bool)

  /** The state before any PLACE: not placed, the other fields don't-care values. */
  const Unplaced := RobotState(0, 0, North, false)

  const NotPlaced := "Robot not placed yet"
  const InvalidPosition := "Invalid position"
  const InvalidDirection := "Invalid direction"
  const OffTable := "Move would fall off the table"

  /** `isValidPosition`: the cell is on the table. */
  predicate IsValidPosition(x: int, y: int) {
    0 <= x < GridSize && 0 <= y < GridSize
  }

  /** A placed robot stands on the table. */
  ghost predicate Valid(s: RobotState) {
    s.isplaced ==> IsValidPosition(s.x, s.y)
  }

  /**
   * `place(x, y, facing)`: the position is checked first, then the direction
   * name; a command that passes both replaces the whole state.
   */
  function Place(s: RobotState, x: int, y: int, name: string): (r: (RobotState, Result))
    ensures r.1.success <==> IsValidPosition(x, y) && name in DirFacing
    ensures !r.1.success ==> r.0 == s
    ensures !IsValidPosition(x, y) ==> r.1.message == InvalidPosition
    ensures IsValidPosition(x, y) && name !in DirFacing ==> r.1.message == InvalidDirection
    ensures r.1.success ==> r.0.isplaced && r.0.x == x && r.0.y == y && Name(r.0.facing) == name
    ensures r.1.success ==> Valid(r.0)
  {
    if !IsValidPosition(x, y) then (s, Result(false, InvalidPosition))
    else match FromName(name)
      case None => (s, Result(false, InvalidDirection))
      case Some(f) => (RobotState(x, y, f, true), Result(true, "Robot placed successfully"))
  }

  /** The cell one step ahead: NORTH is y+1, SOUTH y-1, EAST x+1, WEST x-1. */
  function Ahead(x: int, y: int, f: Facing): (c: (int, int))
    ensures (c.0 - x) * (c.0 - x) + (c.1 - y) * (c.1 - y) == 1
    ensures f == North ==> c.1 > y
    ensures f == South ==> c.1 < y
    ensures f == East ==> c.0 > x
    ensures f == West ==> c.0 < x
  {
    match f
    case North => (x, y + 1)
    case South => (x, y - 1)
    case East => (x + 1, y)
    case West => (x - 1, y)
  }

  /**
   * `move()`: a placed robot steps one cell ahead unless that cell is off the
   * table; only the position changes.
   */
  function Move(s: RobotState): (r: (RobotState, Result))
    ensures r.1.success <==> s.isplaced && IsValidPosition(Ahead(s.x, s.y, s.facing).0, Ahead(s.x, s.y, s.facing).1)
    ensures !r.1.success ==> r.0 == s
    ensures !s.isplaced ==> r.1.message == NotPlaced
    ensures s.isplaced && !r.1.success ==> r.1.message == OffTable
    ensures r.1.success ==> (r.0.x, r.0.y) == Ahead(s.x, s.y, s.facing) && Valid(r.0)
    ensures r.0.facing == s.facing && r.0.isplaced == s.isplaced
  {
    if !s.isplaced then (s, Result(false, NotPlaced))
    else
      var (nx, ny) := Ahead(s.x, s.y, s.facing);
      if !IsValidPosition(nx, ny) then (s, Result(false, OffTable))
      else (s.(x := nx, y := ny), Result(true, "Robot moved successfully"))
  }

  /** `left()`: a placed robot turns a quarter anticlockwise on the spot. */
  function Left(s: RobotState): (r: (RobotState, Result))
    ensures r.1.success <==> s.isplaced
    ensures !s.isplaced ==> r == (s, Result(false, NotPlaced))
    ensures s.isplaced ==> r.0.facing == TurnLeft(s.facing)
    ensures r.0.x == s.x && r.0.y == s.y && r.0.isplaced == s.isplaced
  {
    if !s.isplaced then (s, Result(false, NotPlaced))
    else (s.(facing := TurnLeft(s.facing)), Result(true, "Robot turned left"))
  }

  /** `right()`: a placed robot turns a quarter clockwise on the spot. */
  function Right(s: RobotState): (r: (RobotState, Result))
    ensures r.1.success <==> s.isplaced
    ensures !s.isplaced ==> r == (s, Result(false, NotPlaced))
    ensures s.isplaced ==> r.0.facing == TurnRight(s.facing)
    ensures r.0.x == s.x && r.0.y == s.y && r.0.isplaced == s.isplaced
  {
    if !s.isplaced then (s, Result(false, NotPlaced))
    else (s.(facing := TurnRight(s.facing)), Result(true, "Robot turned right"))
  }

  /** The text `x, y, FACING` that REPORT prints. */
  function ReportText(x: int, y: int, f: Facing): string {
    IntDecimal(x) + ", " + IntDecimal(y) + ", " + Name(f)
  }

  /** `report()`: never changes the state; a placed robot reports where it is. */
  function Report(s: RobotState): (r: (RobotState, Result))
    ensures r.0 == s
    ensures r.1.success <==> s.isplaced
    ensures !s.isplaced ==> r.1.message == NotPlaced
  {
    if !s.isplaced then (s, Result(false, NotPlaced))
    else (s, Result(true, ReportText(s.x, s.y, s.facing)))
  }

  // ------------------------------------------------------------ properties

  /** Every command keeps a placed robot on the table, and a placed robot stays placed. */
  lemma CommandsPreserveValid(s: RobotState, x: int, y: int, name: string)
    requires Valid(s)
    ensures Valid(Place(s, x, y, name).0) && Valid(Move(s).0) && Valid(Left(s).0)
    ensures Valid(Right(s).0) && Valid(Report(s).0)
    ensures s.isplaced ==> Place(s, x, y, name).0.isplaced && Move(s).0.isplaced
  {
  }

  /** Before the first PLACE, MOVE, LEFT, RIGHT and REPORT all fail with the same message and change nothing. */
  lemma UnplacedRefusesAll(s: RobotState)
    requires !s.isplaced
    ensures Move(s) == Left(s) == Right(s) == Report(s) == (s, Result(false, NotPlaced))
  {
  }

  /** A placed robot on the table falls off exactly when it stands on an edge facing outwards. */
  lemma OffTableExactlyAtOutwardEdge(s: RobotState)
    requires Valid(s) && s.isplaced
    ensures !Move(s).1.success <==>
      (s.facing == North && s.y == GridSize - 1) || (s.facing == South && s.y == 0) ||
      (s.facing == East && s.x == GridSize - 1) || (s.facing == West && s.x == 0)
  {
  }

  /** LEFT after RIGHT, and RIGHT after LEFT, give back the state they started from. */
  lemma TurnsUndoEachOther(s: RobotState)
    ensures Left(Right(s).0).0 == s
    ensures Right(Left(s).0).0 == s
  {
    TurnsAreInverse(s.facing);
  }

  /** Four RIGHTs, or four LEFTs, give back the state they started from. */
  lemma FourTurnsRestoreState(s: RobotState)
    ensures Right(Right(Right(Right(s).0).0).0).0 == s
    ensures Left(Left(Left(Left(s).0).0).0).0 == s
  {
    FourTurnsIdentity(s.facing);
  }

  /** After a PLACE on the table in any direction, REPORT succeeds with exactly `x, y, FACING`. */
  lemma PlaceThenReport(s: RobotState, x: nat, y: nat, f: Facing)
    requires IsValidPosition(x, y)
    ensures Report(Place(s, x, y, Name(f)).0).1 == Result(true, Decimal(x) + ", " + Decimal(y) + ", " + Name(f))
  {
    NameRoundTrip(f);
  }

  // ------------------------------------------------------------ scenarios

  /** PLACE 0,0 NORTH, then MOVE, then REPORT: the robot reports `0, 1, NORTH`. */
  lemma ScenarioMoveNorth()
    ensures Report(Move(Place(Unplaced, 0, 0, "NORTH").0).0).1 == Result(true, "0, 1, NORTH")
  {
  }

  /** PLACE 1,2 EAST, then LEFT, then REPORT: the robot reports `1, 2, NORTH`. */
  lemma ScenarioTurnLeft()
    ensures Report(Left(Place(Unplaced, 1, 2, "EAST").0).0).1 == Result(true, "1, 2, NORTH")
  {
  }

  /** PLACE 4,4 NORTH, then MOVE fails at the edge and REPORT still says `4, 4, NORTH`. */
  lemma ScenarioNorthEdge()
    ensures Move(Place(Unplaced, 4, 4, "NORTH").0).1 == Result(false, OffTable)
    ensures Report(Move(Place(Unplaced, 4, 4, "NORTH").0).0).1 == Result(true, "4, 4, NORTH")
  {
  }
}
