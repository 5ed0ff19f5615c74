/**
 * The batch driver of the user interface (`src/App.jsx`): the typed lines
 * are trimmed and the empty ones dropped, then each remaining line is run in
 * order with one `executeCommand`, collecting one result per line.
 */
module Batch {
  import opened Text
  import opened Table
  import opened Command
  import opened Robot

  /** `lines.map(trim).filter(Boolean)`: each line trimmed, the empty ones dropped, in order. */
  function KeepCommands(lines: seq<string>): (r: seq<string>)
    ensures |r| <= |lines|
    ensures forall i :: 0 <= i < |r| ==> r[i] != [] && Trim(r[i]) == r[i]
    decreases |lines|
  {
    if lines == [] then []
    else
      var t := Trim(lines[0]);
      TrimIdempotent(lines[0]);
      var rest := KeepCommands(lines[1..]);
      (if t == [] then [] else [t]) + rest
  }

  /** One typed line is dropped when blank and kept trimmed otherwise. */
  lemma KeepCommandsOne(line: string)
    ensures KeepCommands([line]) == if AllSpace(line) then [] else [Trim(line)]
  {
    assert [line][1..] == [];
  }

  /** Keeping the commands of two batches one after the other is keeping those of the joined batch: order and repetitions survive. */
  lemma {:induction false} KeepCommandsAppend(a: seq<string>, b: seq<string>)
    ensures KeepCommands(a + b) == KeepCommands(a) + KeepCommands(b)
    decreases |a|
  {
    if a == [] {
      assert a + b == b;
    } else {
      assert (a + b)[0] == a[0] && (a + b)[1..] == a[1..] + b;
      KeepCommandsAppend(a[1..], b);
      var t := Trim(a[0]);
      var head: seq<string> := if t == [] then [] else [t];
      assert KeepCommands(a + b) == head + KeepCommands(a[1..] + b);
      assert KeepCommands(a) == head + KeepCommands(a[1..]);
      AppendAssoc(head, KeepCommands(a[1..]), KeepCommands(b));
    }
  }

  /** Every kept line is the trimmed form of a typed line that is not blank. */
  lemma {:induction false} KeepCommandsSound(lines: seq<string>, k: nat)
    requires k < |KeepCommands(lines)|
    ensures exists j :: 0 <= j < |lines| && !AllSpace(lines[j]) && KeepCommands(lines)[k] == Trim(lines[j])
    decreases |lines|
  {
    var t := Trim(lines[0]);
    var rest := KeepCommands(lines[1..]);
    assert KeepCommands(lines) == (if t == [] then [] else [t]) + rest;
    if t != [] && k == 0 {
      assert KeepCommands(lines)[0] == Trim(lines[0]);
    } else {
      var k' := if t == [] then k else k - 1;
      assert KeepCommands(lines)[k] == rest[k'];
      KeepCommandsSound(lines[1..], k');
      var j :| 0 <= j < |lines[1..]| && !AllSpace(lines[1..][j]) && rest[k'] == Trim(lines[1..][j]);
      assert lines[1..][j] == lines[j + 1];
    }
  }

  /** Every line that is not blank has its trimmed form kept. */
  lemma {:induction false} KeepCommandsKeepsAll(lines: seq<string>, i: nat)
    requires i < |lines| && !AllSpace(lines[i])
    ensures Trim(lines[i]) in KeepCommands(lines)
    decreases i
  {
    var t := Trim(lines[0]);
    var rest := KeepCommands(lines[1..]);
    assert KeepCommands(lines) == (if t == [] then [] else [t]) + rest;
    if i > 0 {
      assert lines[i] == lines[1..][i - 1];
      KeepCommandsKeepsAll(lines[1..], i - 1);
    }
  }

  /** No line of a batch is blank once the empty lines are dropped. */
  lemma KeptLinesAreNotBlank(lines: seq<string>, i: nat)
    requires i < |KeepCommands(lines)|
    ensures Parse(KeepCommands(lines)[i]) != Blank
  {
    var line := KeepCommands(lines)[i];
    assert Trim(line) == line && line != [];
  }

  /** Runs the lines one after another from state `s`, collecting one result per line. */
  function Run(s: RobotState, lines: seq<string>): (r: (RobotState, seq<Result>))
    ensures |r.1| == |lines|
    decreases |lines|
  {
    if lines == [] then (s, [])
    else
      var first := Execute(s, lines[0]);
      var rest := Run(first.0, lines[1..]);
      (rest.0, [first.1] + rest.1)
  }

  /** A batch of lines keeps a robot on the table and a placed robot placed. */
  lemma {:induction false} RunPreservesValid(s: RobotState, lines: seq<string>)
    requires Valid(s)
    ensures Valid(Run(s, lines).0)
    ensures s.isplaced ==> Run(s, lines).0.isplaced
    decreases |lines|
  {
    if lines != [] {
      ExecutePreservesValid(s, lines[0]);
      RunPreservesValid(Execute(s, lines[0]).0, lines[1..]);
    }
  }

  /** The button's handler: keeps the commands of the typed lines and runs them on the robot. */
  method RunLines(robot: Robot, typed: seq<string>) returns (results: seq<Result>)
    requires robot.Valid()
    modifies robot
    ensures robot.Valid()
    ensures (robot.State(), results) == Run(old(robot.State()), KeepCommands(typed))
  {
    var lines := KeepCommands(typed);
    results := RunEach(robot, lines);
  }

  /** Runs the lines in order, one `executeCommand` each, and collects the results. */
  method RunEach(robot: Robot, lines: seq<string>) returns (results: seq<Result>)
    requires robot.Valid()
    modifies robot
    ensures robot.Valid()
    ensures (robot.State(), results) == Run(old(robot.State()), lines)
  {
    results := [];
    var i := 0;
    assert lines[i..] == lines;
    assert results + Run(robot.State(), lines).1 == Run(robot.State(), lines).1;
    while i < |lines|
      invariant 0 <= i <= |lines| && robot.Valid()
      invariant Run(old(robot.State()), lines) == (Run(robot.State(), lines[i..]).0, results + Run(robot.State(), lines[i..]).1)
      decreases |lines| - i
    {
      ghost var before := robot.State();
      var res := robot.ExecuteCommand(lines[i]);
      assert lines[i..][0] == lines[i] && lines[i..][1..] == lines[i + 1..];
      ghost var after := Run(robot.State(), lines[i + 1..]);
      assert Run(before, lines[i..]) == (after.0, [res] + after.1);
      AppendAssoc(results, [res], after.1);
      results := results + [res];
      i := i + 1;
    }
    assert lines[i..] == [];
    assert results + [] == results;
  }

  lemma AppendAssoc<T>(a: seq<T>, b: seq<T>, c: seq<T>)
    ensures a + (b + c) == a + b + c
  {
  }
}
