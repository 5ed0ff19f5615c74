/**
 * The robot itself: one object whose fields the commands update in place.
 * Each method does what the JavaScript function of the same name does, step
 * by step, and its contract ties the new fields and the returned result to
 * the transition function of the same name in module Table.
 */
module Robot {
  import opened Wrappers
  import opened Text
  import opened Directions
  import opened Table
  import opened Command

  class Robot {
    var x: int
    var y: int
    var facing: Facing
    var isplaced: bool

    /** The record the fields make up. */
    function State(): RobotState
      reads this
    {
      RobotState(x, y, facing, isplaced)
    }

    /** A placed robot stands on the table. */
    ghost predicate Valid()
      reads this
    {
      Table.Valid(State())
    }

    /** The initial record: not placed. */
    constructor ()
      ensures State() == Unplaced && Valid()
    {
      x, y, facing, isplaced := 0, 0, North, false;
    }

    /** `place(x, y, facing)`: checks the position, then the name, then sets the whole record. */
    method Place(px: int, py: int, name: string) returns (res: Result)
      requires Valid()
      modifies this
      ensures Valid()
      ensures (State(), res) == Table.Place(old(State()), px, py, name)
    {
      if !IsValidPosition(px, py) {
        return Result(false, InvalidPosition);
      }
      var f := FromName(name);
      if f.None? {
        return Result(false, InvalidDirection);
      }
      x, y, facing, isplaced := px, py, f.value, true;
      return Result(true, "Robot placed successfully");
    }

    /** `move()`: works out the cell ahead in `newX`, `newY` and steps there if it is on the table. */
    method Move() returns (res: Result)
      requires Valid()
      modifies this
      ensures Valid()
      ensures (State(), res) == Table.Move(old(State()))
    {
      if !isplaced {
        return Result(false, NotPlaced);
      }
      var newX, newY := x, y;
      if facing == North { newY := newY + 1; }
      if facing == South { newY := newY - 1; }
      if facing == East { newX := newX + 1; }
      if facing == West { newX := newX - 1; }
      assert (newX, newY) == Ahead(x, y, facing);
      if !IsValidPosition(newX, newY) {
        return Result(false, OffTable);
      }
      x := newX;
      y := newY;
      return Result(true, "Robot moved successfully");
    }

    /** `left()`: three steps forward in the direction list, wrapping around. */
    method Left() returns (res: Result)
      requires Valid()
      modifies this
      ensures Valid()
      ensures (State(), res) == Table.Left(old(State()))
    {
      if !isplaced {
        return Result(false, NotPlaced);
      }
      var currentIndex := Index(facing);
      var newIndex := (currentIndex + 3) % |DirFacing|;
      facing := FromIndex(newIndex);
      return Result(true, "Robot turned left");
    }

    /** `right()`: one step forward in the direction list, wrapping around. */
    method Right() returns (res: Result)
      requires Valid()
      modifies this
      ensures Valid()
      ensures (State(), res) == Table.Right(old(State()))
    {
      if !isplaced {
        return Result(false, NotPlaced);
      }
      var currentIndex := Index(facing);
      var newIndex := (currentIndex + 1) % |DirFacing|;
      facing := FromIndex(newIndex);
      return Result(true, "Robot turned right");
    }

    /** `report()`: reads the fields and changes none of them. */
    method Report() returns (res: Result)
      ensures res == Table.Report(State()).1
      ensures res.success <==> isplaced
      ensures isplaced ==> res.message == ReportText(x, y, facing)
    {
      if !isplaced {
        return Result(false, NotPlaced);
      }
      return Result(true, IntDecimal(x) + ", " + IntDecimal(y) + ", " + Name(facing));
    }

    /** `getRobot()`: a copy of the record, which a valid robot keeps on the table. */
    method GetRobot() returns (r: RobotState)
      requires Valid()
      ensures r == State()
      ensures r.isplaced ==> 0 <= r.x < GridSize && 0 <= r.y < GridSize
    {
      r := State();
    }

    /**
     * `executeCommand(raw)`: trims the line, upper-cases it, tries the PLACE
     * grammar, then the keywords, and runs the command it finds on the fields.
     */
    method ExecuteCommand(raw: string) returns (res: Result)
      requires Valid()
      modifies this
      ensures Valid()
      ensures (State(), res) == Execute(old(State()), raw)
    {
      var input := Trim(raw);
      if input == [] {
        return Result(false, "Empty command");
      }
      var cmd := Upper(input);
      assert Parse(raw) == Recognise(cmd, input);
      var m := ParsePlace(cmd);
      if m.Some? {
        res := Place(m.value.x, m.value.y, m.value.facing);
        return;
      }
      if cmd == "MOVE" || cmd == "MOVE()" {
        res := Move();
      } else if cmd == "LEFT" || cmd == "LEFT()" {
        res := Left();
      } else if cmd == "RIGHT" || cmd == "RIGHT()" {
        res := Right();
      } else if cmd == "REPORT" || cmd == "REPORT()" {
        res := Report();
      } else {
        res := Result(false, "Unknown command: " + input);
      }
    }
  }
}
