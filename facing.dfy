/**
 * The four directions the robot can face, in the order of `dir_facing`
 * (NORTH, EAST, SOUTH, WEST), and turning as index arithmetic on that order.
 */
module Directions {
  import opened Wrappers

  datatype Facing = North | East | South | West

  /** `dir_facing`: the direction names in clockwise order. */
  const DirFacing: seq<string> := ["NORTH", "EAST", "SOUTH", "WEST"]

  /** The stored name of a direction. */
  function Name(f: Facing): (n: string)
    ensures n in DirFacing
  {
    match f
    case North => "NORTH"
    case East => "EAST"
    case South => "SOUTH"
    case West => "WEST"
  }

  /** `dir_facing.includes(name)`, giving the direction it names. */
  function FromName(name: string): (r: Option<Facing>)
    ensures r.Some? <==> name in DirFacing
    ensures r.Some? ==> Name(r.value) == name
  {
    if name == "NORTH" then Some(North)
    else if name == "EAST" then Some(East)
    else if name == "SOUTH" then Some(South)
    else if name == "WEST" then Some(West)
    else None
  }

  /** Every direction's name is recognised and names that direction. */
  lemma NameRoundTrip(f: Facing)
    ensures FromName(Name(f)) == Some(f)
  {
  }

  /** `dir_facing.indexOf(name)` for a stored direction. */
  function Index(f: Facing): (i: nat)
    ensures i < |DirFacing| && DirFacing[i] == Name(f)
  {
    match f
    case North => 0
    case East => 1
    case South => 2
    case West => 3
  }

  /** `dir_facing[i]`. */
  function FromIndex(i: nat): (f: Facing)
    requires i < |DirFacing|
    ensures Index(f) == i
  {
    if i == 0 then North else if i == 1 then East else if i == 2 then South else West
  }

  /** Turning right: one step forward in `dir_facing`, wrapping around. */
  function TurnRight(f: Facing): Facing {
    FromIndex((Index(f) + 1) % |DirFacing|)
  }

  /** Turning left: three steps forward in `dir_facing`, which is one step back. */
  function TurnLeft(f: Facing): Facing {
    FromIndex((Index(f) + 3) % |DirFacing|)
  }

  /** Right turns go round NORTH, EAST, SOUTH, WEST and back to NORTH. */
  lemma RightCycle()
    ensures TurnRight(North) == East && TurnRight(East) == South
    ensures TurnRight(South) == West && TurnRight(West) == North
  {
  }

  /** A left turn goes one step back in the clockwise order. */
  lemma LeftStepsBack(f: Facing)
    ensures Index(TurnLeft(f)) == (Index(f) + |DirFacing| - 1) % |DirFacing|
  {
  }

  /** A left turn undoes a right turn, and a right turn undoes a left turn. */
  lemma TurnsAreInverse(f: Facing)
    ensures TurnLeft(TurnRight(f)) == f
    ensures TurnRight(TurnLeft(f)) == f
  {
  }

  /** Four right turns, or four left turns, restore the original direction. */
  lemma FourTurnsIdentity(f: Facing)
    ensures TurnRight(TurnRight(TurnRight(TurnRight(f)))) == f
    ensures TurnLeft(TurnLeft(TurnLeft(TurnLeft(f)))) == f
  {
    RightCycle();
    assert TurnLeft(North) == West && TurnLeft(West) == South;
    assert TurnLeft(South) == East && TurnLeft(East) == North;
  }
}
