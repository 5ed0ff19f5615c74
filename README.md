# Toy robot command interpreter, in Dafny

This project models the command interpreter of a toy robot on a 5x5 table
(`src/logic/robot.js`). The robot has one record of state:

- its position `x`, `y`;
- the direction it faces, one of NORTH, EAST, SOUTH, WEST;
- whether it has been placed yet.

Five commands change this state or read it: `place`, `move`, `left`,
`right` and `report`. Each returns a `{success, message}` result. The
dispatcher `executeCommand` takes one raw line of text and returns the result
of the command it names. To do so it:

1. trims the line, and fails with "Empty command" if nothing is left;
2. upper-cases it;
3. tries the PLACE grammar `PLACE(x,y,FACING)`;
4. tries the bare and `()` forms of the four other keywords;
5. otherwise fails with the unknown line echoed in its original case.

The model is split into these files:

- `text.dfy` (module `Text`): the string helpers the interpreter relies on.
  - ASCII trimming and upper-casing.
  - Decimal numerals, both reading them (`parseInt(d, 10)`) and printing them (a number in a template literal).
- `pattern.dfy` (module `Pattern`): the part of regular-expression matching that the PLACE grammar needs.
  - A regular expression is a sequence of segments: literal words, `\s*`, `\d+`, `[A-Z]+` and `["']?`.
  - `Matches` is what the expression means: some cut of the string fits it.
  - `Match` is a greedy matcher without backtracking. It is proved sound for every pattern.
  - Where no repeated segment can swallow the first character of what follows it, `Match` is proved complete and the cut it finds is unique.
- `facing.dfy` (module `Directions`): the `dir_facing` list and turning as index arithmetic on it.
- `table.dfy` (module `Table`): the five commands as pure transition functions, from the old state to the new state and the result.
- `command.dfy` (module `Command`): the parse step of `executeCommand`, then the dispatch as a transition function (`Execute`).
- `robot.dfy` (module `Robot`): class `Robot` holds the state in mutable fields.
  - Each method does what the JavaScript function does, step by step.
  - Each method is proved to produce exactly the new state and result of its transition function.
- `batch.dfy` (module `Batch`): the batch runner of the user interface (`src/App.jsx`), which trims the typed lines, drops the empty ones and runs the rest on the robot in order.

The robot's `null` coordinates before the first PLACE are modelled as
don't-care values with `isplaced = false`. The facing is a datatype, so the
stored facing is always one of the four names, and `indexOf` always finds it.

The PLACE grammar reads numerals of any length, and leading zeros are
accepted (`007` reads as 7). Any numeral above 4 fails with "Invalid
position". JavaScript's `parseInt` rounds numerals beyond 2^53, but such
values are off the table either way, so exact integers give the same
results.

## Model

| member | source | states |
|---|---|---|
| `Text.IsSpace` | src/logic/robot.js:136 | the white space `trim` removes and `\s` matches: tab, line feed, vertical tab, form feed, carriage return and space |
| `Text.LeadingSpaces` | src/logic/robot.js:136 | the count of leading characters `trim` removes: all of them are white space, and the next character is not |
| `Text.TrailingSpaces` | src/logic/robot.js:136 | the count of trailing characters `trim` removes: all of them are white space, and the character before them is not |
| `Text.Trim` | src/logic/robot.js:136 | the trimmed line is no longer than the raw line and has no white space left at either end; it is empty exactly when the line is all white space |
| `Text.TrimIsInfix` | src/logic/robot.js:136 | the trimmed line is a contiguous part of the raw line, and only white space is cut off on either side |
| `Text.TrimIdempotent` | src/logic/robot.js:136 | trimming a trimmed line changes nothing |
| `Text.TrimUnpadded` | src/logic/robot.js:136 | a line with no white space at either end is its own trimmed form |
| `Text.UpperChar` | src/logic/robot.js:139 | a lower-case letter becomes its upper-case letter (32 code points lower); every other character stays as it is |
| `Text.Upper` | src/logic/robot.js:139 | `toUpperCase` keeps the length and upper-cases each character in place |
| `Text.UpperSlice` | src/logic/robot.js:139 | upper-casing a slice gives the same slice of the upper-cased string |
| `Text.LeadingSpacesUpper` | src/logic/robot.js:136-139 | an upper-cased line starts with as much white space as the line itself |
| `Text.TrailingSpacesUpper` | src/logic/robot.js:136-139 | an upper-cased line ends with as much white space as the line itself |
| `Text.DropLeadingUpper` | src/logic/robot.js:136-139 | dropping leading white space commutes with upper-casing |
| `Text.DropTrailingUpper` | src/logic/robot.js:136-139 | dropping trailing white space commutes with upper-casing |
| `Text.TrimUpperCommute` | src/logic/robot.js:136-139 | trimming then upper-casing gives the same string as upper-casing then trimming |
| `Text.UpperUnchanged` | src/logic/robot.js:139 | a string with no lower-case letter is unchanged by upper-casing |
| `Text.UpperIdempotent` | src/logic/robot.js:139 | upper-casing twice is upper-casing once |
| `Text.DigitChar` | src/logic/robot.js:128 | the digit printed for a value below 10 is a digit that reads back as that value |
| `Text.Decimal` | src/logic/robot.js:128 | a natural number prints as a non-empty run of digits without a leading zero |
| `Text.IntDecimal` | src/logic/robot.js:128 | a non-negative integer prints as a run of digits that reads back as the integer; a negative one prints as `-` followed by a run of digits that reads back as its magnitude |
| `Text.DigitsValue` | src/logic/robot.js:146-147 | `parseInt(d, 10)` of a run of digits: each digit adds its value to ten times the value of the digits before it |
| `Text.DecimalRoundTrip` | src/logic/robot.js:146-147 | `parseInt` of a printed natural number gives the number back |
| `Text.LeadingZero` | src/logic/robot.js:146-147 | a leading zero does not change the value `parseInt` reads |
| `Pattern.Matches` | src/logic/robot.js:142-144 | what an anchored regular expression of segments means: some cut of the whole string fits it segment by segment |
| `Pattern.Span` | src/logic/robot.js:143 | a greedy run: every character counted is in the class, and the next character is not |
| `Pattern.Take` | src/logic/robot.js:143 | what one segment consumes fits that segment and stays within the input |
| `Pattern.Match` | src/logic/robot.js:142-144 | soundness: a cut the matcher returns fits the pattern segment by segment, and its pieces concatenate to the input |
| `Pattern.ClassesDisjoint` | src/logic/robot.js:143 | `\s`, `\d`, `[A-Z]` and the quotes share no character |
| `Pattern.ExcludesFromSound` | src/logic/robot.js:143 | the segment-by-index exclusion test implies exclusion for the rest of the pattern |
| `Pattern.DeterministicFromSound` | src/logic/robot.js:143 | the segment-by-segment determinism test from an index on implies that every later repeated or optional segment excludes what follows it |
| `Pattern.FitsFromSound` | src/logic/robot.js:143 | the segment-by-segment test of a cut implies that every later piece fits its segment |
| `Pattern.DeterministicTail` | src/logic/robot.js:143 | dropping the first segment keeps a pattern deterministic |
| `Pattern.ExcludesSound` | src/logic/robot.js:143 | a class a pattern excludes contains no character the pattern can start with |
| `Pattern.FitsTail` | src/logic/robot.js:143 | a cut fitting a pattern fits its first segment, and the remaining pieces fit the remaining segments |
| `Pattern.FirstCharCanStart` | src/logic/robot.js:143 | the first character of any non-empty string fitting a pattern is one the pattern can start with |
| `Pattern.SpanExact` | src/logic/robot.js:143 | a run of a class followed by something outside it is exactly the span the matcher measures |
| `Pattern.MatchComplete` | src/logic/robot.js:142-144 | completeness: for a deterministic pattern the matcher finds every cut that fits, so the cut is unique |
| `Pattern.MatchIffMatches` | src/logic/robot.js:142-144 | for a deterministic pattern the matcher succeeds exactly on the strings the regular expression matches |
| `Directions.Name` | src/logic/robot.js:5 | each direction's name is an entry of `dir_facing` |
| `Directions.FromName` | src/logic/robot.js:30 | a name is recognised exactly when it is in `dir_facing`, and it is recognised as the direction of that name |
| `Directions.NameRoundTrip` | src/logic/robot.js:5 | every direction's name is recognised as that direction |
| `Directions.Index` | src/logic/robot.js:84 | `indexOf` of a stored direction is a valid index of `dir_facing` that holds its name |
| `Directions.FromIndex` | src/logic/robot.js:90 | `dir_facing[i]` is the direction whose index is `i` |
| `Directions.TurnRight` | src/logic/robot.js:105-111 | one step forward in `dir_facing`, wrapping around |
| `Directions.TurnLeft` | src/logic/robot.js:84-90 | three steps forward in `dir_facing`, wrapping around |
| `Directions.RightCycle` | src/logic/robot.js:105-111 | right turns go NORTH, EAST, SOUTH, WEST and back to NORTH |
| `Directions.LeftStepsBack` | src/logic/robot.js:84-90 | adding 3 modulo 4 is one step back in the clockwise order |
| `Directions.TurnsAreInverse` | src/logic/robot.js:84-111 | a left turn undoes a right turn, and a right turn undoes a left turn |
| `Directions.FourTurnsIdentity` | src/logic/robot.js:84-111 | four right turns, or four left turns, restore the direction |
| `Table.IsValidPosition` | src/logic/robot.js:18-21 | a cell is on the table exactly when both coordinates are in 0..4 |
| `Table.Valid` | src/logic/robot.js:8-14 | the state invariant: a placed robot stands on the table |
| `Table.Place` | src/logic/robot.js:25-42 | succeeds exactly when the cell is on the table and the name is a direction; the position check comes first ("Invalid position", then "Invalid direction"); failure leaves the state unchanged; success sets exactly that position and facing and marks the robot placed |
| `Table.Ahead` | src/logic/robot.js:53-60 | the candidate cell is one step away: NORTH raises y, SOUTH lowers y, EAST raises x, WEST lowers x |
| `Table.Move` | src/logic/robot.js:46-72 | succeeds exactly when the robot is placed and the cell ahead is on the table; otherwise "Robot not placed yet" or "Move would fall off the table" and no change; success moves to the cell ahead and keeps the facing |
| `Table.Left` | src/logic/robot.js:77-93 | succeeds exactly when placed; unplaced, "Robot not placed yet" and no change; placed, the facing turns left and the position stays |
| `Table.Right` | src/logic/robot.js:98-114 | succeeds exactly when placed; unplaced, "Robot not placed yet" and no change; placed, the facing turns right and the position stays |
| `Table.ReportText` | src/logic/robot.js:128 | the text `x, y, FACING`; its two numerals mean `x` and `y` by `Text.IntDecimal` |
| `Table.Report` | src/logic/robot.js:119-130 | never changes the state; succeeds exactly when placed; unplaced, "Robot not placed yet" |
| `Table.CommandsPreserveValid` | src/logic/robot.js:25-130 | every command keeps a placed robot on the table, and PLACE and MOVE keep a placed robot placed |
| `Table.UnplacedRefusesAll` | src/logic/robot.js:46-130 | before the first PLACE, MOVE, LEFT, RIGHT and REPORT all fail with "Robot not placed yet" and change nothing |
| `Table.OffTableExactlyAtOutwardEdge` | src/logic/robot.js:53-65 | a placed robot's MOVE fails exactly when it stands on an edge facing outwards |
| `Table.TurnsUndoEachOther` | src/logic/robot.js:77-114 | LEFT after RIGHT, and RIGHT after LEFT, restore the whole state |
| `Table.FourTurnsRestoreState` | src/logic/robot.js:77-114 | four RIGHTs, or four LEFTs, restore the whole state |
| `Table.PlaceThenReport` | src/logic/robot.js:34-41 | after a PLACE on any cell of the table in any direction, REPORT succeeds with exactly `x, y, FACING` |
| `Table.ScenarioMoveNorth` | src/logic/robot.js:46-72 | PLACE 0,0 NORTH, MOVE, REPORT gives `0, 1, NORTH` |
| `Table.ScenarioTurnLeft` | src/logic/robot.js:77-93 | PLACE 1,2 EAST, LEFT, REPORT gives `1, 2, NORTH` |
| `Table.ScenarioNorthEdge` | src/logic/robot.js:63-65 | PLACE 4,4 NORTH, then MOVE fails with "Move would fall off the table", and REPORT still gives `4, 4, NORTH` |
| `Command.PlacePattern` | src/logic/robot.js:143 | the PLACE regular expression, one segment per element, with the capture groups at segments 4, 8 and 13 |
| `Command.PlaceMiddleDeterministic` | src/logic/robot.js:143 | the PLACE grammar passes the determinism test from the gap after its first number on |
| `Command.PlacePatternDeterministic` | src/logic/robot.js:143 | in the PLACE grammar no repeated or optional segment can swallow what follows it, so greedy matching is exact |
| `Command.Captures` | src/logic/robot.js:145-148 | the facing group of a PLACE match is a non-empty run of upper-case letters |
| `Command.ParsePlace` | src/logic/robot.js:142-148 | a line the PLACE grammar accepts starts with `PLACE` |
| `Command.ParsePlaceIffMatches` | src/logic/robot.js:142-145 | the PLACE parse succeeds exactly on the lines the regular expression matches |
| `Command.ParsePlaceComplete` | src/logic/robot.js:142-148 | every match of the PLACE grammar is parsed with the groups of that match |
| `Command.Recognise` | src/logic/robot.js:145-157 | an unknown line keeps the original, not upper-cased, text |
| `Command.Parse` | src/logic/robot.js:136-157 | a line is blank exactly when it is all white space; an unknown line carries the trimmed original text, which is non-empty |
| `Command.Execute` | src/logic/robot.js:135-158 | `executeCommand` against a state: recognise the line, then run what it asks for |
| `Command.Dispatch` | src/logic/robot.js:145-157 | a blank or unknown line fails and changes nothing, and an unknown one fails with "Unknown command: " and its text |
| `Command.PlaceLinesExactly` | src/logic/robot.js:136-149 | a line is a PLACE command exactly when it is not blank and its trimmed upper-case form matches the PLACE regular expression |
| `Command.UnknownLinesExactly` | src/logic/robot.js:136-157 | a line is unknown exactly when it is not blank, does not match the PLACE regular expression and is none of the eight keyword forms |
| `Command.BlankLine` | src/logic/robot.js:136-137 | a line gives "Empty command" with no change exactly when it is empty or all white space |
| `Command.KeywordForms` | src/logic/robot.js:152-155 | a line runs MOVE, LEFT, RIGHT or REPORT exactly when its trimmed upper-case form is the bare or `()` form of that keyword |
| `Command.ParseIgnoresCase` | src/logic/robot.js:139-157 | upper-casing a line first gives the same command; only an unknown line then echoes the upper-cased text |
| `Command.RecogniseEchoOnly` | src/logic/robot.js:157 | the original-case text matters to recognition only as the echo of an unknown command |
| `Command.ExecuteIgnoresCase` | src/logic/robot.js:139-155 | any recognised command, in any case, does the same as its upper-case form |
| `Command.UnknownEchoesInput` | src/logic/robot.js:157 | an unrecognised line fails with "Unknown command: " and the trimmed line in its original case, and changes nothing |
| `Command.FailureLeavesStateUnchanged` | src/logic/robot.js:135-158 | no line that fails changes the state |
| `Command.ExecutePreservesValid` | src/logic/robot.js:135-158 | whatever line is run, a robot on the table stays on it and a placed robot stays placed |
| `Command.PlaceTextCutFits` | src/logic/robot.js:143 | a PLACE line cut into non-empty digit runs, a non-empty letter run and white-space gaps fits the PLACE grammar segment by segment |
| `Command.PlaceLineCutFits` | src/logic/robot.js:143 | the pieces of a PLACE line written from two naturals and a direction fit the PLACE grammar segment by segment |
| `Command.ConcatFrom` | src/logic/robot.js:143 | the pieces from index `k` on put together are piece `k` followed by the pieces after it |
| `Command.PlaceCutTail` | src/logic/robot.js:143 | the last nine pieces of a PLACE line make up its text from the second comma on |
| `Command.PlaceCutMiddle` | src/logic/robot.js:143 | the pieces from the first number on make up the PLACE line from that number on |
| `Command.PlaceLinePieces` | src/logic/robot.js:143 | all the pieces of a PLACE line put together make up the whole line |
| `Command.PlaceTextCut` | src/logic/robot.js:143 | a written PLACE line is its pieces put together |
| `Command.PlaceTextNormal` | src/logic/robot.js:136-139 | a PLACE line with no lower-case letters is unchanged by trimming and by upper-casing |
| `Command.PlaceTextTrimmed` | src/logic/robot.js:136 | a PLACE line is unchanged by trimming |
| `Command.PlaceTextUpper` | src/logic/robot.js:139 | a PLACE line with no lower-case letters is unchanged by upper-casing |
| `Command.PlaceLineMatches` | src/logic/robot.js:142-148 | the PLACE grammar reads back the numbers and the direction name a PLACE line was written with |
| `Command.PlaceLineParses` | src/logic/robot.js:142-149 | `PLACE(x,<gap>y,<gap>FACING)` with any white-space gap is a PLACE of exactly those values |
| `Command.ReportFeedsPlace` | src/logic/robot.js:126-149 | REPORT's text wrapped in `PLACE(`...`)` places the robot exactly where it was reported, whatever the state it is run against |
| `Batch.KeepCommands` | src/App.jsx:53-56 | the lines kept from a batch are at most as many as were typed, each trimmed and non-empty |
| `Batch.KeepCommandsOne` | src/App.jsx:55-56 | a single typed line is dropped when it is blank and kept in trimmed form otherwise |
| `Batch.KeepCommandsAppend` | src/App.jsx:53-56 | keeping the commands of a joined batch is keeping those of each part, one after the other; with `Batch.KeepCommandsOne` this fixes the order and the repetitions of the kept lines |
| `Batch.KeepCommandsSound` | src/App.jsx:53-56 | every kept line is the trimmed form of some typed line that is not blank |
| `Batch.KeepCommandsKeepsAll` | src/App.jsx:53-56 | every typed line that is not blank is kept in its trimmed form |
| `Batch.KeptLinesAreNotBlank` | src/App.jsx:53-62 | no kept line reaches `executeCommand` as an empty command |
| `Batch.Run` | src/App.jsx:60-63 | a batch gives one result per line |
| `Batch.RunPreservesValid` | src/App.jsx:60-63 | a batch keeps a robot on the table and a placed robot placed |
| `Robot.Robot.constructor` | src/logic/robot.js:8-14 | the robot starts unplaced |
| `Robot.Robot.Place` | src/logic/robot.js:25-42 | the new fields and the result are those of `Table.Place` on the old fields |
| `Robot.Robot.Move` | src/logic/robot.js:46-72 | computing the candidate cell in `newX`, `newY` and then assigning it gives the fields and result of `Table.Move` |
| `Robot.Robot.Left` | src/logic/robot.js:77-93 | turning by `(indexOf + 3) % 4` gives the fields and result of `Table.Left` |
| `Robot.Robot.Right` | src/logic/robot.js:98-114 | turning by `(indexOf + 1) % 4` gives the fields and result of `Table.Right` |
| `Robot.Robot.Report` | src/logic/robot.js:119-130 | changes no field; succeeds exactly when placed, with `x, y, FACING` |
| `Robot.Robot.GetRobot` | src/logic/robot.js:163-165 | returns a copy of the record, which for a placed robot lies on the table |
| `Robot.Robot.ExecuteCommand` | src/logic/robot.js:135-158 | trimming, upper-casing, the PLACE grammar and the keyword tests, run on the fields, give exactly the state and result of `Command.Execute` |
| `Batch.RunLines` | src/App.jsx:53-63 | trimming the typed lines, dropping the empty ones and running the rest gives the state and results of `Batch.Run` on the kept lines |
| `Batch.RunEach` | src/App.jsx:60-63 | running the lines one `executeCommand` at a time gives the state and results of `Batch.Run` |

## Left out

- `Text.Trim`, `Text.Upper`: handle ASCII only. Unicode white space, such as the no-break space, is not trimmed. Unicode case mapping, such as `ß` becoming `SS`, is not modelled. The input is taken to be ASCII text.
- `Pattern.Span`: `\s` is the same ASCII white space as in trimming, not the Unicode set of JavaScript regular expressions.
- Pattern matching: the JavaScript regular-expression engine is replaced by the segment matcher of `pattern.dfy`. That matcher is proved to agree with what the expression means, but not with the engine itself.
- `String(raw || "")`: the coercion of a non-string argument is not modelled. The raw line is always a string.
- Unplaced state: the `null` coordinates and facing are modelled as don't-care values behind `isplaced = false`.
- `parseInt` gives an inexact value for numerals beyond 2^53, or `Infinity`; the model reads exact naturals instead. Both fail the position check, so no result differs.
- Non-integer and non-number arguments to `place`: `x` and `y` are integers. Calls from `executeCommand` only ever pass integers.
- `getRobot`: the model returns a value. Copy semantics and aliasing of the returned object are not modelled.
- The robot state is a module-level global in the source. It is modelled as one `Robot` object, and calls are taken to come one at a time.
- Concrete `executeCommand` lines such as `"foo"` or `"MOVE"` have no scenario lemma. The scenario lemmas run the transition functions directly. That a line is recognised is stated in general by `Command.KeywordForms`, `Command.UnknownEchoesInput` and `Command.PlaceLineParses`.
- `src/App.jsx`: the user interface is not part of this model. Left out are the grid rendering, the image rotation, the React state hooks, the text box, the button, splitting the text on line breaks, and the `line => OK/FAIL: message` output. The batch driver (`Batch.RunLines`) starts from the already-split lines, and returns the results rather than the printed status lines.
