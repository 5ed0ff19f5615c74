/**
 * `executeCommand`: one raw line of text is trimmed, upper-cased, recognised
 * as one of the commands, and run against the robot state. Recognising the
 * line (`Parse`) is kept apart from running it (`Execute`).
 */
module Command {
  import opened Text
  import opened Wrappers
  import opened Pattern
  import opened Directions
  import opened Table

  /**
   * The PLACE grammar `^PLACE\s*\(\s*(\d+)\s*,\s*(\d+)\s*,\s*["']?([A-Z]+)["']?\s*\)\s*$`,
   * one segment per element; the three capture groups are segments 4, 8 and 13.
   */
  const PlacePattern: Pat := [
    Word("PLACE"), Star(Spaces), Word("("),
    Star(Spaces), Plus(Digits), Star(Spaces), Word(","),
    Star(Spaces), Plus(Digits), Star(Spaces), Word(","),
    Star(Spaces), Opt(Quotes), Plus(Letters), Opt(Quotes),
    Star(Spaces), Word(")"), Star(Spaces)]

  /** The PLACE grammar passes the determinism test from the gap after the first number on. */
  lemma PlaceMiddleDeterministic()
    ensures DeterministicFrom(PlacePattern, 5)
  {
  }

  /** The greedy matcher is complete for the PLACE grammar. */
  lemma PlacePatternDeterministic()
    ensures Deterministic(PlacePattern)
  {
    var p := PlacePattern;
    PlaceMiddleDeterministic();
    assert DeterministicFrom(p, 0);
    DeterministicFromSound(p, 0);
  }

  /** The values `place` is called with: the two numbers and the direction name. */
  datatype PlaceArgs = PlaceArgs(x: nat, y: nat, facing: string)

  /** `parseInt` of the two digit groups, and the letter group as it stands. */
  function Captures(pieces: seq<string>): (a: PlaceArgs)
    requires Fits(PlacePattern, pieces)
    ensures a.facing != [] && forall i :: 0 <= i < |a.facing| ==> IsUpperLetter(a.facing[i])
  {
    assert FitsSegment(PlacePattern[4], pieces[4]);
    assert FitsSegment(PlacePattern[8], pieces[8]);
    assert FitsSegment(PlacePattern[13], pieces[13]);
    PlaceArgs(DigitsValue(pieces[4]), DigitsValue(pieces[8]), pieces[13])
  }

  /**
   * `cmd.match(...)` with the PLACE grammar, followed by `parseInt` of the
   * two numbers: the values of the groups of the match, if there is one.
   */
  function ParsePlace(cmd: string): (r: Option<PlaceArgs>)
    ensures r.Some? ==> |cmd| >= 5 && cmd[..5] == "PLACE"
  {
    match Match(PlacePattern, cmd)
    case None => None
    case Some(pieces) =>
      assert FitsSegment(PlacePattern[0], pieces[0]);
      assert cmd == pieces[0] + Concat(pieces[1..]);
      Some(Captures(pieces))
  }

  /** The parse succeeds exactly on the lines the regular expression matches. */
  lemma ParsePlaceIffMatches(cmd: string)
    ensures ParsePlace(cmd).Some? <==> Matches(PlacePattern, cmd)
  {
    PlacePatternDeterministic();
    MatchIffMatches(PlacePattern, cmd);
  }

  /** Every match of the PLACE grammar is parsed, with the groups of that match. */
  lemma ParsePlaceComplete(pieces: seq<string>)
    requires Fits(PlacePattern, pieces)
    ensures ParsePlace(Concat(pieces)) == Some(Captures(pieces))
  {
    PlacePatternDeterministic();
    MatchComplete(PlacePattern, pieces);
  }

  /** What one line of input asks for. */
  datatype Command =
    | Blank
    | PlaceCmd(args: PlaceArgs)
    | MoveCmd
    | LeftCmd
    | RightCmd
    | ReportCmd
    | Unknown(input: string)

  /**
   * Recognising a trimmed, non-empty line from its upper-cased form `cmd`:
   * the PLACE grammar first, then the bare and `()` forms of the other four
   * commands. A line that fits none is unknown and keeps its original case.
   */
  function Recognise(cmd: string, input: string): (c: Command)
    ensures c.Unknown? ==> c.input == input
  {
    match ParsePlace(cmd)
    case Some(args) => PlaceCmd(args)
    case None =>
      if cmd == "MOVE" || cmd == "MOVE()" then MoveCmd
      else if cmd == "LEFT" || cmd == "LEFT()" then LeftCmd
      else if cmd == "RIGHT" || cmd == "RIGHT()" then RightCmd
      else if cmd == "REPORT" || cmd == "REPORT()" then ReportCmd
      else Unknown(input)
  }

  /** Recognising a line: after trimming, an empty line is blank; otherwise it is recognised in upper case. */
  function Parse(raw: string): (c: Command)
    ensures c == Blank <==> AllSpace(raw)
    ensures c.Unknown? ==> c.input == Trim(raw) && c.input != []
  {
    var input := Trim(raw);
    if input == [] then Blank else Recognise(Upper(input), input)
  }

  /** `executeCommand(raw)` against state `s`: the new state and the result. */
  function Execute(s: RobotState, raw: string): (r: (RobotState, Result))
  {
    Dispatch(s, Parse(raw))
  }

  /** Running a recognised command: each one goes to its transition, a blank or unknown line only fails. */
  function Dispatch(s: RobotState, c: Command): (r: (RobotState, Result))
    ensures c.Blank? || c.Unknown? ==> r.0 == s && !r.1.success
    ensures c.Unknown? ==> r.1.message == "Unknown command: " + c.input
  {
    match c
    case Blank => (s, Result(false, "Empty command"))
    case PlaceCmd(a) => Place(s, a.x, a.y, a.facing)
    case MoveCmd => Move(s)
    case LeftCmd => Left(s)
    case RightCmd => Right(s)
    case ReportCmd => Report(s)
    case Unknown(input) => (s, Result(false, "Unknown command: " + input))
  }

  // ------------------------------------------------------------ properties

  /** An empty or all-white-space line fails with "Empty command" and changes nothing. */
  lemma BlankLine(s: RobotState, raw: string)
    ensures AllSpace(raw) <==> Execute(s, raw) == (s, Result(false, "Empty command"))
  {
  }

  /** The four argument-less commands are recognised exactly in their bare and `()` forms, in any case. */
  lemma KeywordForms(raw: string)
    ensures Parse(raw) == MoveCmd <==> Upper(Trim(raw)) in {"MOVE", "MOVE()"}
    ensures Parse(raw) == LeftCmd <==> Upper(Trim(raw)) in {"LEFT", "LEFT()"}
    ensures Parse(raw) == RightCmd <==> Upper(Trim(raw)) in {"RIGHT", "RIGHT()"}
    ensures Parse(raw) == ReportCmd <==> Upper(Trim(raw)) in {"REPORT", "REPORT()"}
  {
    var cmd := Upper(Trim(raw));
    if ParsePlace(cmd).Some? {
      assert cmd[..5] == "PLACE";
      assert cmd !in {"MOVE", "MOVE()", "LEFT", "LEFT()", "RIGHT", "RIGHT()", "REPORT", "REPORT()"};
    }
  }

  /** A line is a PLACE command exactly when it is not blank and its trimmed upper-case form matches the PLACE grammar. */
  lemma PlaceLinesExactly(raw: string)
    ensures Parse(raw).PlaceCmd? <==> !AllSpace(raw) && Matches(PlacePattern, Upper(Trim(raw)))
  {
    ParsePlaceIffMatches(Upper(Trim(raw)));
  }

  /** A line is unknown exactly when it is not blank, not a PLACE match and not one of the eight keyword forms. */
  lemma UnknownLinesExactly(raw: string)
    ensures Parse(raw).Unknown? <==>
      !AllSpace(raw) && !Matches(PlacePattern, Upper(Trim(raw))) &&
      Upper(Trim(raw)) !in {"MOVE", "MOVE()", "LEFT", "LEFT()", "RIGHT", "RIGHT()", "REPORT", "REPORT()"}
  {
    PlaceLinesExactly(raw);
    KeywordForms(raw);
  }

  /**
   * Case does not matter to recognition: upper-casing the line first gives
   * the same command, except that an unknown line then carries the
   * upper-cased text.
   */
  lemma ParseIgnoresCase(raw: string)
    ensures Parse(Upper(raw)) == if Parse(raw).Unknown? then Unknown(Upper(Trim(raw))) else Parse(raw)
  {
    var input := Trim(raw);
    TrimUpperCommute(raw);
    UpperIdempotent(input);
    assert Trim(Upper(raw)) == Upper(input) && |Upper(input)| == |input|;
    if input != [] {
      assert Parse(Upper(raw)) == Recognise(Upper(input), Upper(input));
      RecogniseEchoOnly(Upper(input), input, Upper(input));
    }
  }

  /** The original line matters to recognition only as the echo of an unknown command. */
  lemma RecogniseEchoOnly(cmd: string, a: string, b: string)
    ensures Recognise(cmd, b) == if Recognise(cmd, a).Unknown? then Unknown(b) else Recognise(cmd, a)
  {
  }

  /** Commands run the same whatever their case; only an unknown line's echo changes. */
  lemma ExecuteIgnoresCase(s: RobotState, raw: string)
    requires !Parse(raw).Unknown?
    ensures Execute(s, Upper(raw)) == Execute(s, raw)
  {
    ParseIgnoresCase(raw);
    assert Parse(Upper(raw)) == Parse(raw);
  }

  /** An unrecognised line fails with "Unknown command: " and the trimmed line in its original case. */
  lemma UnknownEchoesInput(s: RobotState, raw: string)
    requires Parse(raw).Unknown?
    ensures Execute(s, raw) == (s, Result(false, "Unknown command: " + Trim(raw)))
  {
  }

  /** No command that fails changes the state. */
  lemma FailureLeavesStateUnchanged(s: RobotState, raw: string)
    ensures !Execute(s, raw).1.success ==> Execute(s, raw).0 == s
  {
  }

  /** Whatever line is run, a robot on the table stays on it and a placed robot stays placed. */
  lemma ExecutePreservesValid(s: RobotState, raw: string)
    requires Valid(s)
    ensures Valid(Execute(s, raw).0)
    ensures s.isplaced ==> Execute(s, raw).0.isplaced
  {
    match Parse(raw)
    case PlaceCmd(a) => CommandsPreserveValid(s, a.x, a.y, a.facing);
    case _ => CommandsPreserveValid(s, 0, 0, "");
  }

  // ---------------------------------------------------- PLACE lines

  /** The line `PLACE(dx,<gap>dy,<gap>name)`. */
  function PlaceText(dx: string, dy: string, n: string, gap: string): string {
    "PLACE(" + dx + "," + gap + dy + "," + gap + n + ")"
  }

  /** The line `PLACE(x,<gap>y,<gap>FACING)`. */
  function PlaceLine(x: nat, y: nat, f: Facing, gap: string): string {
    PlaceText(Decimal(x), Decimal(y), Name(f), gap)
  }

  lemma ConcatFrom(pieces: seq<string>, k: nat)
    requires k < |pieces|
    ensures Concat(pieces[k..]) == pieces[k] + Concat(pieces[k + 1..])
  {
    assert pieces[k..][1..] == pieces[k + 1..];
  }

  /** The last nine pieces of a PLACE line's cut make up its text from the second comma on. */
  lemma PlaceCutTail(dx: string, dy: string, n: string, gap: string)
    ensures Concat(PlaceLineCut(dx, dy, n, gap)[9..]) == "," + (gap + (n + ")"))
  {
    var pieces := PlaceLineCut(dx, dy, n, gap);
    assert Concat(pieces[18..]) == [];
    ConcatFrom(pieces, 17); assert Concat(pieces[17..]) == "";
    ConcatFrom(pieces, 16); assert Concat(pieces[16..]) == ")";
    ConcatFrom(pieces, 15); assert Concat(pieces[15..]) == ")";
    ConcatFrom(pieces, 14); assert Concat(pieces[14..]) == ")";
    ConcatFrom(pieces, 13); assert Concat(pieces[13..]) == n + ")";
    ConcatFrom(pieces, 12); assert Concat(pieces[12..]) == n + ")";
    ConcatFrom(pieces, 11); assert Concat(pieces[11..]) == gap + (n + ")");
    ConcatFrom(pieces, 10); assert Concat(pieces[10..]) == "," + (gap + (n + ")"));
    ConcatFrom(pieces, 9); assert Concat(pieces[9..]) == "," + (gap + (n + ")"));
  }

  /** From the first number on, the pieces make up the rest of the PLACE line. */
  lemma PlaceCutMiddle(dx: string, dy: string, n: string, gap: string)
    ensures Concat(PlaceLineCut(dx, dy, n, gap)[4..]) == dx + ("," + (gap + (dy + ("," + (gap + (n + ")"))))))
  {
    var pieces := PlaceLineCut(dx, dy, n, gap);
    PlaceCutTail(dx, dy, n, gap);
    ConcatFrom(pieces, 8); assert Concat(pieces[8..]) == dy + ("," + (gap + (n + ")")));
    ConcatFrom(pieces, 7); assert Concat(pieces[7..]) == gap + (dy + ("," + (gap + (n + ")"))));
    ConcatFrom(pieces, 6); assert Concat(pieces[6..]) == "," + (gap + (dy + ("," + (gap + (n + ")")))));
    ConcatFrom(pieces, 5); assert Concat(pieces[5..]) == "," + (gap + (dy + ("," + (gap + (n + ")")))));
    ConcatFrom(pieces, 4); assert Concat(pieces[4..]) == dx + ("," + (gap + (dy + ("," + (gap + (n + ")"))))));
  }

  lemma PlaceLinePieces(dx: string, dy: string, n: string, gap: string)
    ensures Concat(PlaceLineCut(dx, dy, n, gap)) == "PLACE" + ("(" + (dx + ("," + (gap + (dy + ("," + (gap + (n + ")"))))))))
  {
    var pieces := PlaceLineCut(dx, dy, n, gap);
    PlaceCutMiddle(dx, dy, n, gap);
    ConcatFrom(pieces, 3); assert Concat(pieces[3..]) == dx + ("," + (gap + (dy + ("," + (gap + (n + ")"))))));
    ConcatFrom(pieces, 2); assert Concat(pieces[2..]) == "(" + (dx + ("," + (gap + (dy + ("," + (gap + (n + ")")))))));
    ConcatFrom(pieces, 1); assert Concat(pieces[1..]) == "(" + (dx + ("," + (gap + (dy + ("," + (gap + (n + ")")))))));
    ConcatFrom(pieces, 0); assert Concat(pieces[0..]) == "PLACE" + ("(" + (dx + ("," + (gap + (dy + ("," + (gap + (n + ")"))))))));
    assert pieces[0..] == pieces;
  }

  /** The pieces of a PLACE line, one per segment of the PLACE grammar. */
  function PlaceLineCut(dx: string, dy: string, n: string, gap: string): seq<string> {
    ["PLACE", "", "(", "", dx, "", ",", gap, dy, "", ",", gap, "", n, "", "", ")", ""]
  }

  /** The cut of a PLACE line fits the grammar when the numbers are digits, the name letters and the gap white space. */
  lemma PlaceTextCutFits(dx: string, dy: string, n: string, gap: string)
    requires dx != [] && AllIn(dx, Digits) && dy != [] && AllIn(dy, Digits)
    requires n != [] && AllIn(n, Letters) && AllIn(gap, Spaces)
    ensures Fits(PlacePattern, PlaceLineCut(dx, dy, n, gap))
  {
  }

  lemma PlaceLineCutFits(x: nat, y: nat, f: Facing, gap: string)
    requires AllSpace(gap)
    ensures Fits(PlacePattern, PlaceLineCut(Decimal(x), Decimal(y), Name(f), gap))
  {
    var n := Name(f);
    assert AllIn(n, Letters) by {
      match f
      case North =>
      case East =>
      case South =>
      case West =>
    }
    PlaceTextCutFits(Decimal(x), Decimal(y), n, gap);
  }

  /** A PLACE line is its cut put together. */
  lemma PlaceTextCut(dx: string, dy: string, n: string, gap: string)
    ensures PlaceText(dx, dy, n, gap) == Concat(PlaceLineCut(dx, dy, n, gap))
  {
    var line := PlaceText(dx, dy, n, gap);
    assert line == "PLACE" + ("(" + (dx + ("," + (gap + (dy + ("," + (gap + (n + ")"))))))));
    PlaceLinePieces(dx, dy, n, gap);
  }

  /** A PLACE line without lower-case letters is already trimmed and upper-case. */
  lemma PlaceTextNormal(dx: string, dy: string, n: string, gap: string)
    requires NoLowerLetter(dx) && NoLowerLetter(dy) && NoLowerLetter(n) && NoLowerLetter(gap)
    ensures Trim(PlaceText(dx, dy, n, gap)) == PlaceText(dx, dy, n, gap)
    ensures Upper(PlaceText(dx, dy, n, gap)) == PlaceText(dx, dy, n, gap)
  {
    PlaceTextTrimmed(dx, dy, n, gap);
    PlaceTextUpper(dx, dy, n, gap);
  }

  lemma PlaceTextTrimmed(dx: string, dy: string, n: string, gap: string)
    ensures Trim(PlaceText(dx, dy, n, gap)) == PlaceText(dx, dy, n, gap)
  {
    var line := PlaceText(dx, dy, n, gap);
    assert line[0] == 'P' && line[|line| - 1] == ')';
    TrimUnpadded(line);
  }

  lemma PlaceTextUpper(dx: string, dy: string, n: string, gap: string)
    requires NoLowerLetter(dx) && NoLowerLetter(dy) && NoLowerLetter(n) && NoLowerLetter(gap)
    ensures Upper(PlaceText(dx, dy, n, gap)) == PlaceText(dx, dy, n, gap)
  {
    var line := PlaceText(dx, dy, n, gap);
    var t0 := "PLACE(" + dx;
    var t1 := t0 + "," + gap;
    var t2 := t1 + dy;
    var t3 := t2 + "," + gap;
    var t4 := t3 + n;
    assert NoLowerLetter("PLACE(") && NoLowerLetter(",") && NoLowerLetter(")");
    NoLowerLetterAppend("PLACE(", dx);
    NoLowerLetterAppend(t0, ",");
    NoLowerLetterAppend(t0 + ",", gap);
    NoLowerLetterAppend(t1, dy);
    NoLowerLetterAppend(t2, ",");
    NoLowerLetterAppend(t2 + ",", gap);
    NoLowerLetterAppend(t3, n);
    NoLowerLetterAppend(t4, ")");
    UpperUnchanged(line);
  }

  /** The PLACE grammar reads back the values a PLACE line was written with. */
  lemma PlaceLineMatches(x: nat, y: nat, f: Facing, gap: string)
    requires AllSpace(gap)
    ensures ParsePlace(PlaceLine(x, y, f, gap)) == Some(PlaceArgs(x, y, Name(f)))
  {
    var pieces := PlaceLineCut(Decimal(x), Decimal(y), Name(f), gap);
    assert ParsePlace(PlaceLine(x, y, f, gap)) == Some(Captures(pieces)) by {
      PlaceLineCutFits(x, y, f, gap);
      PlaceTextCut(Decimal(x), Decimal(y), Name(f), gap);
      ParsePlaceComplete(pieces);
    }
    assert Captures(pieces) == PlaceArgs(x, y, Name(f)) by {
      assert pieces[4] == Decimal(x) && pieces[8] == Decimal(y) && pieces[13] == Name(f);
      DecimalRoundTrip(x);
      DecimalRoundTrip(y);
    }
  }

  /** `PLACE(x,<gap>y,<gap>FACING)` with a white-space gap is a PLACE of exactly those values. */
  lemma PlaceLineParses(x: nat, y: nat, f: Facing, gap: string)
    requires AllSpace(gap)
    ensures Parse(PlaceLine(x, y, f, gap)) == PlaceCmd(PlaceArgs(x, y, Name(f)))
  {
    var line := PlaceLine(x, y, f, gap);
    assert Trim(line) == line && Upper(line) == line by {
      assert NoLowerLetter(Decimal(x)) && NoLowerLetter(Decimal(y)) && NoLowerLetter(Name(f)) && NoLowerLetter(gap);
      PlaceTextNormal(Decimal(x), Decimal(y), Name(f), gap);
    }
    PlaceLineMatches(x, y, f, gap);
    assert Parse(line) == Recognise(line, line);
  }

  /**
   * What REPORT prints, wrapped in `PLACE(`...`)`, places the robot exactly
   * where it was reported, whatever the state it is run against.
   */
  lemma ReportFeedsPlace(s: RobotState, t: RobotState)
    requires Valid(s) && s.isplaced
    ensures Execute(t, "PLACE(" + Report(s).1.message + ")") == (s, Result(true, "Robot placed successfully"))
  {
    var x, y: nat := s.x, s.y;
    var line := "PLACE(" + Report(s).1.message + ")";
    assert line == PlaceLine(x, y, s.facing, " ");
    PlaceLineParses(x, y, s.facing, " ");
    NameRoundTrip(s.facing);
  }
}
