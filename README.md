# Mars rover state machine, in Dafny

This project models the core of the MarsRover program: a rover that holds an
integer heading in degrees and a position in the plane. It has a table from
call-sign characters to bound commands, and it executes a string of call
signs one character at a time. Turns go through `setDirection`, which refuses
negative values and stores the value modulo 360. Moves go through
`setPosition`. Both setters fire a property-change event. A builder collects
the initial heading, the initial position and the call-sign bindings. The
`DirectionEnum` table names the four cardinal headings.

Files:

- `java_int.dfy` (module `JavaInt`): the Java `int` behaviour the rover relies
  on. That is 32-bit wrap-around on `+`, the truncating `%` (`Rem360`), and the
  decimal text of a non-negative `int` in string concatenation.
- `directions.dfy` (module `Directions`): `DirectionEnum` as a datatype with
  `Degrees`, `Name` and the looping `ToString`.
- `rover_model.dfy` (module `RoverModel`): the rover on values. It holds the
  state (`RobotState`: heading, position, event log, diagnostics log), the
  commands, the factories, and the functions `SetDirection`, `SetPosition`,
  `Execute`, `Step` and `Run`. The lemmas about them are here too.
- `mars_robot.dfy` (module `MarsRobots`): the classes `MarsRobot` and
  `MarsRobotBuilder`. Their fields are updated in place. Each method's
  postcondition ties the new state to the matching `RoverModel` function of
  the old state.

How the source is represented:

- Commands are closures over the robot in the source. Here they are the
  datatype `Command` (`TurnRight`, `TurnLeft`, `MoveForward`), which
  `MarsRobot.Execute` interprets. `turn` picks its lambda by the sign of the
  argument, so `Turn` returns a right or a left turn.
- A `CommandFactory` is a lambda `robot -> robot.turn(n)` or
  `robot -> robot.moveForward(n)` in the source. Here it is the datatype
  `CommandFactory`, and the builder holds a `map<char, CommandFactory>`.
- `PropertyChangeSupport` is an append-only log of `Event`s. It is the
  sequence of changes a listener would receive. For the `int` property
  "direction", `java.beans` delivers nothing when the old and new values are
  equal, so from a heading in [0, 360) a turn by 360 fires no event. From an
  unnormalised builder heading such as 450, `turn(360)` stores 90 and fires one. For "position", the old value is a
  freshly made copy, and `Position` does not override `equals`. So that event
  is always delivered.
- An `IllegalArgumentException` is the `Threw` outcome, or `thrown == true` on
  a method. It carries the state left at the point of the throw. A throwing
  command ends `executeCommands`. The effects of earlier characters remain.
- A null command string is `None` of `Option<string>`.

Behaviour of the code that its comments or a reader might not expect, and that the model follows:

- The heading is not always in [0, 360). The builder copies its heading
  without validation, so a robot can start at a negative heading or at 360 or
  more. From a negative heading, a small left turn makes `setDirection` throw
  (`LeftTurnFromNegativeThrows`).
- A left turn adds with 32-bit wrap-around before `setDirection` sees the sum.
  So `turn(Integer.MAX_VALUE)` from NORTH throws
  (`LeftTurnOverflowThrows`). Left turns are only proved safe when the sum
  fits (`LeftTurnStores`, `RunKeepsHeadingInRange`).
- A builder that is only constructed has no commands. The robot answers to L,
  R and F only after `addDefaultCommands` (`BuildDefaultRobot`).
- A direction event is not fired when the stored heading equals the old one.
- The comment on `moveForward` says a non-cardinal heading resets to NORTH.
  The code does not do that, and neither does the model.

## Model

| member | source | states |
|---|---|---|
| `JavaInt.Add` | src/model/MarsRobot.java:95 | Java `int` addition: the result is a 32-bit value congruent to the true sum modulo 2^32, and equal to it when the sum fits |
| `JavaInt.Rem360` | src/model/MarsRobot.java:87 | Java `% 360` truncates: the remainder lies in (-360, 360), is congruent to the dividend, and takes the dividend's sign |
| `JavaInt.RemVersusEuclidean` | src/model/MarsRobot.java:87-90 | the truncated remainder equals the Euclidean one, except for a negative dividend that is not a multiple of 360, where it is 360 lower; this is why the right turn adds 360 |
| `JavaInt.NatString` | src/model/DirectionEnum.java:31 | the decimal text of a non-negative `int` is non-empty, all digits, and has no leading zero |
| `JavaInt.ParseNatString` | src/model/DirectionEnum.java:31 | the decimal text of a number reads back as that number |
| `Directions.Direction.Degrees` | src/model/DirectionEnum.java:11-24 | `getDegrees` returns the declared value: EAST 0, NORTH 90, SOUTH 270, WEST 180; each lies in [0, 360) and is a multiple of 90 |
| `Directions.ValuesEnumerateAll` | src/model/DirectionEnum.java:11-14 | `values()` holds every constant, each exactly once |
| `Directions.DegreesDistinct` | src/model/DirectionEnum.java:11-14 | two constants have the same degrees if and only if they are the same constant |
| `Directions.NamesDistinct` | src/model/DirectionEnum.java:11-14 | two constants have the same name if and only if they are the same constant |
| `Directions.EntryLayout` | src/model/DirectionEnum.java:31 | one entry (`Entry`) is the constant's name and " (", then a non-empty run of decimal digits, with no leading zero, that reads back as its degrees, then " degrees) " |
| `Directions.Direction.ToString` | src/model/DirectionEnum.java:27-35 | the loop returns the listing of all constants in declaration order, whichever constant it is called on |
| `Directions.ListingSnoc` | src/model/DirectionEnum.java:30-32 | one more loop iteration appends exactly that constant's entry |
| `Directions.DegreesText` | src/model/DirectionEnum.java:11-14 | the degrees of the constants print as "0", "90", "270" and "180" |
| `Directions.EntryText` | src/model/DirectionEnum.java:31 | each constant's entry is its name, its degrees in parentheses and the word "degrees" |
| `Directions.ListingOfValues` | src/model/DirectionEnum.java:30-32 | the loop over `values()` produces the entries of EAST, NORTH, SOUTH and WEST, in that order |
| `Directions.ListingText` | src/model/DirectionEnum.java:27-35 | `toString` returns "EAST (0 degrees) NORTH (90 degrees) SOUTH (270 degrees) WEST (180 degrees) " |
| `RoverModel.Resolve` | src/model/MarsRobot.java:32-34 | the robot's command table has exactly the builder's call signs, each bound to its factory's command |
| `RoverModel.Turn` | src/model/MarsRobot.java:83-97 | `turn(degrees)` yields a right turn exactly when degrees < 0 and a left turn otherwise, carrying the degrees unchanged |
| `RoverModel.GetCommand` | src/model/MarsRobot.java:224-226 | a factory yields a move exactly when it is a move factory, with the same units; a turn factory yields a turn by its degrees, a right turn exactly when they are negative |
| `RoverModel.WithDefaultFactories` | src/model/MarsRobot.java:223-231 | the factory table gains L, R and F: L a turn by 90, R a turn by -90, F a move by 1; every other call sign keeps its factory |
| `RoverModel.UnknownMessage` | src/model/MarsRobot.java:55 | the diagnostic is "Unknown command: " followed by the character, 18 characters in all |
| `RoverModel.UnknownMessages` | src/model/MarsRobot.java:50-57 | one diagnostic per character, the i-th for the i-th character |
| `RoverModel.FireDirection` | src/model/MarsRobot.java:113 | the event log keeps its prefix and gains one event exactly when old and new differ; that event is (old, new) |
| `RoverModel.SetDirection` | src/model/MarsRobot.java:105-114 | a negative value throws and changes nothing, with no event; otherwise the stored heading is in [0, 360) and congruent to the argument, and one change event (old, new) is appended unless old equals new |
| `RoverModel.SetPosition` | src/model/MarsRobot.java:120-124 | the position is replaced, the heading kept, and exactly one event with the previous position as old value and the new one as new value is appended |
| `RoverModel.RightTurnTarget` | src/model/MarsRobot.java:86-91 | the value a right turn passes to `setDirection` is always in [0, 360), and congruent to heading plus degrees when that sum fits in an `int` |
| `RoverModel.Moved` | src/model/MarsRobot.java:70-71 | a move by 0 stays put; otherwise the displacement is units times (cos, sin) of the heading |
| `RoverModel.MovesCompose` | src/model/MarsRobot.java:68-76 | over the model's real positions, moving u units and then v units along one heading is moving u + v units |
| `RoverModel.Execute` | src/model/MarsRobot.java:69-95 | a command throws exactly when it is a left turn whose wrapped sum is negative, and then changes nothing; diagnostics are untouched; at most one event is appended; a move keeps the heading, a turn keeps the position, a right turn leaves a heading in [0, 360) |
| `RoverModel.Step` | src/model/MarsRobot.java:51-56 | an unknown character never throws and changes nothing but the diagnostics, which gain exactly its "Unknown command: c" message; a bound one throws only by its command, leaving the state as it was; logs only grow, by one entry at most |
| `RoverModel.Run` | src/model/MarsRobot.java:50-57 | event and diagnostic logs only grow, by at most one entry per character in all; a string of bound characters adds no diagnostic |
| `RoverModel.RunSnoc` | src/model/MarsRobot.java:50-57 | unless the run has thrown, one more character is one more step from where it stopped |
| `RoverModel.RightTurnNeverThrows` | src/model/MarsRobot.java:84-92 | a right-turn command never throws, from any heading, and leaves a heading in [0, 360) |
| `RoverModel.RightTurnStores` | src/model/MarsRobot.java:86-91 | the heading a right turn leaves is the value it computes for `setDirection` |
| `RoverModel.RightTurnFromEast` | src/model/MarsRobot.java:84-92 | `turn(-90)` from EAST (0) faces SOUTH (270) |
| `RoverModel.LeftTurnStores` | src/model/MarsRobot.java:93-96 | from a non-negative heading, a left turn whose sum fits in an `int` does not throw and stores (heading + degrees) % 360 |
| `RoverModel.LeftTurnOverflowThrows` | src/model/MarsRobot.java:95 | `turn(Integer.MAX_VALUE)` from NORTH overflows and throws, leaving the state as it was |
| `RoverModel.LeftTurnFromNegativeThrows` | src/model/MarsRobot.java:95 | from the unvalidated builder heading -90, `turn(10)` throws |
| `RoverModel.RightUndoesLeft` | src/model/MarsRobot.java:86-95 | for a heading a in [0, 360) and d > 0 with a + d <= `Integer.MAX_VALUE`: the value a right turn by d computes from the left turn's stored `(a + d) % 360` is a again |
| `RoverModel.LeftUndoesRight` | src/model/MarsRobot.java:86-95 | for a heading a in [0, 360) and d > 0 with the right turn's target plus d <= `Integer.MAX_VALUE`: the left turn's `% 360` of that sum is a again |
| `RoverModel.TurnLeftThenRight` | src/model/MarsRobot.java:83-97 | from a heading h in [0, 360) and d >= 0 with h + d <= `Integer.MAX_VALUE`, `turn(d)` then `turn(-d)` returns to h without throwing; for larger d the left turn throws (`LeftTurnOverflowAlwaysThrows`) |
| `RoverModel.TurnRightThenLeft` | src/model/MarsRobot.java:83-97 | from a heading h in [0, 360) and d >= 0 such that the heading after `turn(-d)` plus d <= `Integer.MAX_VALUE`, `turn(-d)` then `turn(d)` returns to h without throwing; otherwise the left turn throws (`LeftTurnOverflowAlwaysThrows`) |
| `RoverModel.LeftTurnOverflowAlwaysThrows` | src/model/MarsRobot.java:95 | from a non-negative heading, a left turn by d >= 0 whose sum exceeds `Integer.MAX_VALUE` wraps negative and throws, changing nothing |
| `RoverModel.MoveChangesOnlyPosition` | src/model/MarsRobot.java:68-76 | a move never throws, keeps the heading, moves from the current position along the current heading, and appends exactly one position event |
| `RoverModel.RunThrewIsFinal` | src/model/MarsRobot.java:50-57 | once a command throws, the characters after it are never executed |
| `RoverModel.RunCons` | src/model/MarsRobot.java:50-57 | a string runs its first character, then the rest from the resulting state, in input order |
| `RoverModel.RunAppend` | src/model/MarsRobot.java:50-57 | running `a + b` equals running `a` and then `b` from where `a` left off |
| `RoverModel.UnknownDoesNotAbort` | src/model/MarsRobot.java:51-56 | an unregistered character adds one diagnostic, changes nothing else, and the rest of the string still runs |
| `RoverModel.RunUnknownOnly` | src/model/MarsRobot.java:50-57 | a string of unregistered characters leaves heading, position and events unchanged and logs one "Unknown command: c" per character, in order |
| `RoverModel.RunKeepsHeadingInRange` | src/model/MarsRobot.java:83-113 | with only right turns, moves and non-overflowing left turns bound, a run from a heading in [0, 360) never throws, keeps the heading in [0, 360), and only appends events |
| `RoverModel.DefaultTable` | src/model/MarsRobot.java:223-231 | after `addDefaultCommands` the table has the old call signs plus L, R, F; L is a left turn by 90, R a right turn by 90, F a move by 1; other bindings are kept |
| `RoverModel.DefaultForwardTwice` | src/model/MarsRobot.java:50-76 | with the default commands, "FF" keeps the heading and, over the model's real positions, moves two units along it |
| `RoverModel.FFRFFScenario` | src/model/MarsRobot.java:50-96 | with the default commands, "FFRFF" from NORTH at the origin ends facing EAST at (2, 2), given exact trigonometry at 0 and 90 degrees |
| `RoverModel.FXFScenario` | src/model/MarsRobot.java:50-57 | with the default commands, "FXF" executes both moves (two events) and logs exactly one "Unknown command: X" |
| `MarsRobots.MarsRobot.constructor` | src/model/MarsRobot.java:27-35 | the builder's heading and position are copied unnormalised, no event is fired, and the command table is the resolution of the builder's factories |
| `MarsRobots.MarsRobot.SetDirection` | src/model/MarsRobot.java:105-114 | the new state and the thrown flag are those of `RoverModel.SetDirection` on the old state |
| `MarsRobots.MarsRobot.SetPosition` | src/model/MarsRobot.java:120-124 | the new state is `RoverModel.SetPosition` of the old state |
| `MarsRobots.MarsRobot.Execute` | src/model/MarsRobot.java:68-97 | executing a bound command updates the fields as `RoverModel.Execute` says |
| `MarsRobots.MarsRobot.ExecuteCommands` | src/model/MarsRobot.java:45-58 | a null string throws with no state change; otherwise the final state and the thrown flag are those of `RoverModel.Run` on the old state |
| `MarsRobots.MarsRobotBuilder.constructor` | src/model/MarsRobot.java:183-187 | a new builder has heading NORTH (90), position (0, 0) and no commands |
| `MarsRobots.MarsRobotBuilder.InitialDirection` | src/model/MarsRobot.java:194-197 | records the heading without validation, changes nothing else, returns the builder |
| `MarsRobots.MarsRobotBuilder.InitialPosition` | src/model/MarsRobot.java:205-208 | records the position, changes nothing else, returns the builder |
| `MarsRobots.MarsRobotBuilder.AddCommand` | src/model/MarsRobot.java:217-221 | binds the call sign to the factory, replacing an earlier binding, and returns the builder |
| `MarsRobots.MarsRobotBuilder.AddDefaultCommands` | src/model/MarsRobot.java:223-232 | binds L, R and F to the default factories over whatever was there, and returns the builder |
| `MarsRobots.MarsRobotBuilder.Build` | src/model/MarsRobot.java:240-242 | returns a new robot with the builder's heading and position, no events, and the resolved command table |
| `MarsRobots.BuildDefaultRobot` | src/controller/ViewController.java:79-81 | a default builder with the default commands yields a robot in state (90, (0, 0), no events, no diagnostics) whose table is exactly L, R and F |
| `MarsRobots.ExecuteWithoutFailure` | src/model/MarsRobot.java:45-113 | a robot with only safe commands and a heading in [0, 360) runs any string without throwing (`thrown` is false), ends in the state `RoverModel.Run` gives, keeps its heading in [0, 360) and only appends events |

## Left out

- RoverModel.MoveChangesOnlyPosition: the displacement `cos`/`sin` of the heading in radians is computed by `StrictMath` on `double`s. Floating point is not modelled. `Trig` is an arbitrary fixed function of the heading, so only what does not depend on its values is proved.
- RoverModel.FFRFFScenario: assumes `Trig` is exactly (1, 0) at 0 degrees and (0, 1) at 90 degrees. In `double` arithmetic the result is only approximately (2, 2).
- RoverModel.MovesCompose: holds for the model's exact real positions. In the source the coordinates are `double` sums, which round. From x = 2^53 at heading 0, two unit moves leave x at 2^53, while one move by 2 reaches 2^53 + 2.
- RoverModel.DefaultForwardTwice: "FF" equals one move by 2 only over the model's real positions, for the same `double` rounding reason.
- Positions are immutable values here. In the source `Position` is a mutable object with `setX`/`setY`, and the builder and the robot share the same object. Aliasing through those setters is not captured. Neither is `Position.toString`, which formats `double`s.
- `addPropertyChangeListener` and listener dispatch are left out. The event log records what every listener would receive, in order.
- Printing to standard error is recorded as a log of message strings, not written anywhere.
- `getDirection` and `getPosition` only return fields. The classes' fields are read directly.
- A null `Integer` passed to `setDirection` causes a `NullPointerException` at once and is not modelled. A null `Position` is not modelled either. In the source, `setPosition(null)` copies the old position, stores null and fires a position event whose new value is null. `builder.position(null)` is accepted as well. The exception comes only at the next move or the next `setPosition`.
- Factories are limited to the two shapes the source writes, `turn(n)` and `moveForward(n)`. Arbitrary Java lambdas are not modelled.
- Java iterates a string by UTF-16 code units. Here a string is a sequence of Unicode characters, so a character outside the Basic Multilingual Plane gives one diagnostic here and two in the source.
- `Robot` and `CommandFactory` are interfaces without logic.
- The JavaFX controller and application start-up are presentation code. The only part used is the default-robot set-up, in `BuildDefaultRobot`.
