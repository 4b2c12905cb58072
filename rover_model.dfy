/** The rover's behaviour on values: the state a `MarsRobot` holds, the
    commands bound to its call signs, and what setting the heading, setting
    the position, executing one command and executing a command string do to
    that state. The class in `MarsRobots` is proved to follow these functions. */
module RoverModel {
  import opened JavaInt
  import Directions

  /** A point of the plane. The source holds `double`s; here they are reals. */
  datatype Position = Position(x: real, y: real)

  /** `(cos t, sin t)` for a heading of t degrees, which the source computes
      in floating point with `StrictMath`. Floating point is not modelled: this
      is some fixed function, and nothing is assumed about its values. */
  const Trig: int -> (real, real)

  /** A command bound to a rover. `turn` picks one of two lambdas by the sign
      of its argument, so a bound turn is already a right or a left turn. */
  datatype Command =
    | TurnRight(degrees: Int32)
    | TurnLeft(degrees: Int32)
    | MoveForward(units: Int32)

  /** What a builder records for a call sign before the rover exists: the two
      shapes of `CommandFactory` lambda the source writes. */
  datatype CommandFactory =
    | TurnFactory(degrees: Int32)
    | MoveForwardFactory(units: Int32)

  /** A property change as a listener receives it: the property, its old value
      and its new value. */
  datatype Event =
    | DirectionChange(oldDirection: Int32, newDirection: Int32)
    | PositionChange(oldPosition: Position, newPosition: Position)

  /** Everything a command can change: the heading in degrees, the position,
      the change events fired so far and the diagnostics written to standard
      error so far. */
  datatype RobotState = RobotState(
    direction: Int32,
    position: Position,
    events: seq<Event>,
    diagnostics: seq<string>)

  /** How an operation ended, with the state it left behind: `Threw` is an
      `IllegalArgumentException`. */
  datatype Outcome = Returned(after: RobotState) | Threw(after: RobotState)

  function OutcomeOf(thrown: bool, s: RobotState): Outcome
  {
    if thrown then Threw(s) else Returned(s)
  }

  // ---------------------------------------------------------------------
  // Commands and their resolution

  /** `turn(degrees)`: negative turns right (clockwise), otherwise left. */
  function Turn(degrees: Int32): (c: Command)
    ensures c.TurnRight? <==> degrees < 0
    ensures c.TurnLeft? <==> 0 <= degrees
    ensures c.degrees == degrees
  {
    if degrees < 0 then TurnRight(degrees) else TurnLeft(degrees)
  }

  /** `factory.getCommand(robot)` for the two factory shapes. */
  function GetCommand(f: CommandFactory): (c: Command)
    ensures c.MoveForward? <==> f.MoveForwardFactory?
    ensures f.MoveForwardFactory? ==> c.units == f.units
    ensures f.TurnFactory? ==> c.degrees == f.degrees && (c.TurnRight? <==> f.degrees < 0)
  {
    match f
    case TurnFactory(degrees) => Turn(degrees)
    case MoveForwardFactory(units) => MoveForward(units)
  }

  /** The command table a rover gets from a builder's factory table. */
  function Resolve(factories: map<char, CommandFactory>): (table: map<char, Command>)
    ensures table.Keys == factories.Keys
    ensures forall sign :: sign in table ==> table[sign] == GetCommand(factories[sign])
  {
    map sign | sign in factories :: GetCommand(factories[sign])
  }

  /** `addDefaultCommands` on a factory table. */
  function WithDefaultFactories(factories: map<char, CommandFactory>): (r: map<char, CommandFactory>)
    ensures r.Keys == factories.Keys + {'L', 'R', 'F'}
    ensures r['L'] == TurnFactory(90) && r['R'] == TurnFactory(-90) && r['F'] == MoveForwardFactory(1)
    ensures forall sign :: sign in factories && sign !in {'L', 'R', 'F'} ==> r[sign] == factories[sign]
  {
    factories['L' := TurnFactory(90)]['R' := TurnFactory(-90)]['F' := MoveForwardFactory(1)]
  }

  /** The diagnostic written for a character with no bound command. */
  function UnknownMessage(c: char): (m: string)
    ensures |m| == 18 && m[..17] == "Unknown command: " && m[17] == c
  {
    "Unknown command: " + [c]
  }

  // ---------------------------------------------------------------------
  // State transitions

  /** `firePropertyChange` for an `int` property: nothing is delivered when
      the old and the new value are equal. */
  function FireDirection(events: seq<Event>, oldValue: Int32, newValue: Int32): (r: seq<Event>)
    ensures events <= r && |r| <= |events| + 1
    ensures |r| == |events| + 1 <==> oldValue != newValue
    ensures |r| == |events| + 1 ==> r[|events|] == DirectionChange(oldValue, newValue)
  {
    if oldValue == newValue then events else events + [DirectionChange(oldValue, newValue)]
  }

  /** `setDirection(d)`: a negative value is refused before anything changes;
      otherwise `d % 360` is stored and a "direction" change is fired. */
  function SetDirection(s: RobotState, d: Int32): (r: Outcome)
    ensures r.Threw? <==> d < 0
    ensures r.Threw? ==> r.after == s
    ensures r.Returned? ==> 0 <= r.after.direction < 360 && (d - r.after.direction) % 360 == 0
    ensures r.Returned? ==>
      r.after.events == s.events + (if s.direction == r.after.direction then []
                                    else [DirectionChange(s.direction, r.after.direction)])
    ensures r.after.position == s.position && r.after.diagnostics == s.diagnostics
  {
    if d < 0 then Threw(s)
    else
      var stored := Rem360(d);
      Returned(s.(direction := stored, events := FireDirection(s.events, s.direction, stored)))
  }

  /** `setPosition(p)`: the position is replaced and a "position" change is
      fired whose old value is a copy of the previous position. The copy is a
      new object that `Position` does not compare equal to anything else, so
      the event is never suppressed. */
  function SetPosition(s: RobotState, p: Position): (t: RobotState)
    ensures t.position == p && t.direction == s.direction && t.diagnostics == s.diagnostics
    ensures t.events == s.events + [PositionChange(s.position, p)]
  {
    s.(position := p, events := s.events + [PositionChange(s.position, p)])
  }

  /** The heading a right-turn command hands to `setDirection`: the Java sum
      and remainder, moved up by 360 when the remainder is negative. */
  function RightTurnTarget(direction: Int32, degrees: Int32): (r: Int32)
    ensures 0 <= r < 360
    ensures MinInt <= direction + degrees <= MaxInt ==> (r - (direction + degrees)) % 360 == 0
  {
    var newDirection := Rem360(Add(direction, degrees));
    if newDirection < 0 then 360 + newDirection else newDirection
  }

  /** The position a move of `units` reaches from `p` facing `direction`. */
  function Moved(p: Position, direction: Int32, units: Int32): (q: Position)
    ensures units == 0 ==> q == p
    ensures q.x - p.x == units as real * Trig(direction).0
    ensures q.y - p.y == units as real * Trig(direction).1
  {
    Position(p.x + Trig(direction).0 * units as real, p.y + Trig(direction).1 * units as real)
  }

  /** `command.execute()`, reading the heading and position current at
      execution time. */
  function Execute(s: RobotState, c: Command): (r: Outcome)
    ensures r.Threw? <==> c.TurnLeft? && Add(s.direction, c.degrees) < 0
    ensures r.Threw? ==> r.after == s
    ensures r.after.diagnostics == s.diagnostics
    ensures s.events <= r.after.events && |r.after.events| <= |s.events| + 1
    ensures c.MoveForward? ==> r.after.direction == s.direction
    ensures !c.MoveForward? ==> r.after.position == s.position
    ensures c.TurnRight? ==> 0 <= r.after.direction < 360
  {
    match c
    case TurnRight(degrees) => SetDirection(s, RightTurnTarget(s.direction, degrees))
    case TurnLeft(degrees) => SetDirection(s, Add(s.direction, degrees))
    case MoveForward(units) => Returned(SetPosition(s, Moved(s.position, s.direction, units)))
  }

  /** One character of `executeCommands`: the bound command, or a diagnostic. */
  function Step(s: RobotState, table: map<char, Command>, c: char): (r: Outcome)
    ensures r.Threw? ==> c in table && r.after == s
    ensures c !in table ==> r.Returned? && r.after.(diagnostics := s.diagnostics) == s
    ensures c !in table ==> r.after.diagnostics == s.diagnostics + [UnknownMessage(c)]
    ensures s.events <= r.after.events && s.diagnostics <= r.after.diagnostics
    ensures |r.after.events| + |r.after.diagnostics| <= |s.events| + |s.diagnostics| + 1
  {
    if c in table then Execute(s, table[c])
    else Returned(s.(diagnostics := s.diagnostics + [UnknownMessage(c)]))
  }

  /** `executeCommands(text)` on a non-null string: the characters in order;
      an exception from a command ends the run with the state it left. */
  function Run(s: RobotState, table: map<char, Command>, text: string): (r: Outcome)
    ensures s.events <= r.after.events && s.diagnostics <= r.after.diagnostics
    ensures |r.after.events| + |r.after.diagnostics| <= |s.events| + |s.diagnostics| + |text|
    ensures (forall i :: 0 <= i < |text| ==> text[i] in table) ==> r.after.diagnostics == s.diagnostics
    decreases |text|
  {
    if text == [] then Returned(s)
    else
      match Run(s, table, text[..|text| - 1])
      case Threw(t) => Threw(t)
      case Returned(t) => Step(t, table, text[|text| - 1])
  }

  // ---------------------------------------------------------------------
  // Turns

  /** A right turn always hands `setDirection` a value in [0, 360), so it
      never throws, whatever the heading was. */
  lemma RightTurnNeverThrows(s: RobotState, degrees: Int32)
    requires degrees < 0
    ensures Execute(s, Turn(degrees)).Returned?
    ensures 0 <= Execute(s, Turn(degrees)).after.direction < 360
    ensures MinInt <= s.direction + degrees <= MaxInt ==>
      (Execute(s, Turn(degrees)).after.direction - (s.direction + degrees)) % 360 == 0
  {
  }

  /** The heading a right turn leaves is exactly the value it hands
      `setDirection`. */
  lemma RightTurnStores(s: RobotState, degrees: Int32)
    requires degrees < 0
    ensures Execute(s, Turn(degrees)).after.direction == RightTurnTarget(s.direction, degrees)
  {
  }

  /** `turn(-90)` from EAST faces SOUTH (270), not -90. */
  lemma RightTurnFromEast(s: RobotState)
    requires s.direction == Directions.Direction.EAST.Degrees()
    ensures Execute(s, Turn(-90)).after.direction == Directions.Direction.SOUTH.Degrees()
  {
  }

  /** A left turn stores `(direction + degrees) % 360` and does not throw as
      long as the heading is not negative and the sum fits in an `int`. */
  lemma LeftTurnStores(s: RobotState, degrees: Int32)
    requires 0 <= degrees && 0 <= s.direction && s.direction + degrees <= MaxInt
    ensures Execute(s, Turn(degrees)).Returned?
    ensures Execute(s, Turn(degrees)).after.direction == (s.direction + degrees) % 360
  {
  }

  /** The left turn adds without a range check: `turn(Integer.MAX_VALUE)`
      from NORTH wraps to a negative sum, which `setDirection` refuses. */
  lemma LeftTurnOverflowThrows(s: RobotState)
    requires s.direction == Directions.Direction.NORTH.Degrees()
    ensures Execute(s, Turn(MaxInt as Int32)) == Threw(s)
  {
  }

  /** The builder does not validate its heading: a left turn from a negative
      initial heading can hand `setDirection` a negative value. */
  lemma LeftTurnFromNegativeThrows(s: RobotState)
    requires s.direction == -90
    ensures Execute(s, Turn(10)) == Threw(s)
  {
  }

  /** On headings: the right turn by d undoes the left turn by d, whenever
      the left turn's sum fits in an `int`. */
  lemma RightUndoesLeft(a: Int32, d: Int32)
    requires 0 <= a < 360 && 0 < d && a + d <= MaxInt
    ensures RightTurnTarget(((a + d) % 360) as Int32, -d) == a
  {
  }

  /** On headings: the left turn by d undoes the right turn by d, whenever
      the left turn's sum fits in an `int`. */
  lemma LeftUndoesRight(a: Int32, d: Int32)
    requires 0 <= a < 360 && 0 < d && RightTurnTarget(a, -d) + d <= MaxInt
    ensures Rem360(RightTurnTarget(a, -d) + d) == a
  {
  }

  /** Turning left by d and then right by d restores a heading in [0, 360),
      for every d whose left-turn sum fits in an `int` (for the others the
      left turn throws, see `LeftTurnOverflowThrows`). */
  lemma TurnLeftThenRight(s: RobotState, d: Int32)
    requires 0 <= s.direction < 360 && 0 <= d && s.direction + d <= MaxInt
    ensures Execute(s, Turn(d)).Returned?
    ensures Execute(Execute(s, Turn(d)).after, Turn(-d)).Returned?
    ensures Execute(Execute(s, Turn(d)).after, Turn(-d)).after.direction == s.direction
  {
    LeftTurnStores(s, d);
    if d > 0 {
      var t := Execute(s, Turn(d)).after;
      RightTurnStores(t, -d);
      RightUndoesLeft(s.direction, d);
    }
  }

  /** Turning right by d and then left by d restores a heading in [0, 360),
      for every d for which the left turn's sum fits in an `int` (for the
      others the left turn throws). */
  lemma TurnRightThenLeft(s: RobotState, d: Int32)
    requires 0 <= s.direction < 360 && 0 <= d
    requires Execute(s, Turn(-d)).after.direction + d <= MaxInt
    ensures Execute(s, Turn(-d)).Returned?
    ensures Execute(Execute(s, Turn(-d)).after, Turn(d)).Returned?
    ensures Execute(Execute(s, Turn(-d)).after, Turn(d)).after.direction == s.direction
  {
    if d > 0 {
      RightTurnStores(s, -d);
      var t := Execute(s, Turn(-d)).after;
      LeftTurnStores(t, d);
      LeftUndoesRight(s.direction, d);
    }
  }

  /** The bound in the two lemmas above is exact: when the left turn's sum
      does not fit, the left turn throws. */
  lemma LeftTurnOverflowAlwaysThrows(s: RobotState, d: Int32)
    requires 0 <= s.direction && 0 <= d && s.direction + d > MaxInt
    ensures Execute(s, Turn(d)) == Threw(s)
  {
  }

  // ---------------------------------------------------------------------
  // Moves

  /** A move changes only the position, from the current position along the
      current heading, and fires exactly one "position" event. */
  lemma MoveChangesOnlyPosition(s: RobotState, units: Int32)
    ensures Execute(s, MoveForward(units)).Returned?
    ensures Execute(s, MoveForward(units)).after == s.(
      position := Moved(s.position, s.direction, units),
      events := s.events + [PositionChange(s.position, Moved(s.position, s.direction, units))])
  {
  }

  /** Two moves along the same heading are one move by the sum of the units,
      as long as the sum is an `int`. */
  lemma MovesCompose(p: Position, direction: Int32, u: Int32, v: Int32)
    requires MinInt <= u + v <= MaxInt
    ensures Moved(Moved(p, direction, u), direction, v) == Moved(p, direction, (u + v) as Int32)
  {
    var (cos, sin) := Trig(direction);
    var q := Moved(p, direction, u);
    assert q == Position(p.x + cos * u as real, p.y + sin * u as real);
    assert Moved(q, direction, v) == Position(q.x + cos * v as real, q.y + sin * v as real);
    assert ((u + v) as Int32) as real == u as real + v as real;
    assert cos * (u as real + v as real) == cos * u as real + cos * v as real;
    assert sin * (u as real + v as real) == sin * u as real + sin * v as real;
  }

  // ---------------------------------------------------------------------
  // Command strings

  /** A thrown exception ends the run: later characters are not looked at. */
  lemma {:induction false} RunThrewIsFinal(s: RobotState, table: map<char, Command>, a: string, b: string)
    requires Run(s, table, a).Threw?
    ensures Run(s, table, a + b) == Run(s, table, a)
    decreases |b|
  {
    if b != [] {
      var b' := b[..|b| - 1];
      assert (a + b)[..|a + b| - 1] == a + b';
      RunThrewIsFinal(s, table, a, b');
    } else {
      assert a + b == a;
    }
  }

  /** Running a string is running its first character and then the rest. */
  lemma {:induction false} RunCons(s: RobotState, table: map<char, Command>, c: char, rest: string)
    ensures Run(s, table, [c] + rest) ==
      match Step(s, table, c)
      case Threw(t) => Threw(t)
      case Returned(t) => Run(t, table, rest)
    decreases |rest|
  {
    if rest == [] {
      assert ([c] + rest)[..0] == [];
    } else {
      var rest' := rest[..|rest| - 1];
      assert ([c] + rest)[..|[c] + rest| - 1] == [c] + rest';
      RunCons(s, table, c, rest');
    }
  }

  /** Executing one string after another is executing their concatenation. */
  lemma {:induction false} RunAppend(s: RobotState, table: map<char, Command>, a: string, b: string)
    requires Run(s, table, a).Returned?
    ensures Run(s, table, a + b) == Run(Run(s, table, a).after, table, b)
    decreases |b|
  {
    if b == [] {
      assert a + b == a;
    } else {
      var b' := b[..|b| - 1];
      assert (a + b)[..|a + b| - 1] == a + b';
      RunAppend(s, table, a, b');
    }
  }

  /** An unknown character is reported and skipped, and the rest of the
      string still runs, from an unchanged heading, position and event log. */
  lemma UnknownDoesNotAbort(s: RobotState, table: map<char, Command>, c: char, rest: string)
    requires c !in table
    ensures Run(s, table, [c] + rest) ==
      Run(s.(diagnostics := s.diagnostics + [UnknownMessage(c)]), table, rest)
  {
    RunCons(s, table, c, rest);
  }

  /** The diagnostics for a string of unknown characters, one per character. */
  function UnknownMessages(text: string): (ms: seq<string>)
    ensures |ms| == |text|
    ensures forall i :: 0 <= i < |text| ==> ms[i] == UnknownMessage(text[i])
  {
    if text == [] then [] else UnknownMessages(text[..|text| - 1]) + [UnknownMessage(text[|text| - 1])]
  }

  /** A string of unregistered characters changes nothing but the
      diagnostics, which gain one message per character, in order. */
  lemma {:induction false} RunUnknownOnly(s: RobotState, table: map<char, Command>, text: string)
    requires forall i :: 0 <= i < |text| ==> text[i] !in table
    ensures Run(s, table, text) ==
      Returned(s.(diagnostics := s.diagnostics + UnknownMessages(text)))
    decreases |text|
  {
    if text != [] {
      var text' := text[..|text| - 1];
      RunUnknownOnly(s, table, text');
      assert s.diagnostics + UnknownMessages(text') + [UnknownMessage(text[|text| - 1])]
          == s.diagnostics + UnknownMessages(text);
    }
  }

  /** Commands that cannot make `setDirection` throw from a heading in
      [0, 360): right turns, moves, and left turns small enough not to
      overflow. */
  predicate SafeCommand(c: Command)
  {
    c.TurnLeft? ==> 0 <= c.degrees <= MaxInt - 359
  }

  /** Over a table of safe commands, from a heading in [0, 360), a string
      never throws and the heading stays in [0, 360); the event log only
      grows. */
  lemma {:induction false} RunKeepsHeadingInRange(s: RobotState, table: map<char, Command>, text: string)
    requires 0 <= s.direction < 360
    requires forall sign :: sign in table ==> SafeCommand(table[sign])
    ensures Run(s, table, text).Returned?
    ensures 0 <= Run(s, table, text).after.direction < 360
    ensures s.events <= Run(s, table, text).after.events
    decreases |text|
  {
    if text != [] {
      RunKeepsHeadingInRange(s, table, text[..|text| - 1]);
    }
  }

  /** The default bindings, resolved: L turns left by 90, R right by 90 and
      F moves one unit; they are all safe, and other call signs keep their
      commands. */
  lemma DefaultTable(factories: map<char, CommandFactory>)
    ensures Resolve(WithDefaultFactories(factories)).Keys == factories.Keys + {'L', 'R', 'F'}
    ensures Resolve(WithDefaultFactories(factories))['L'] == TurnLeft(90)
    ensures Resolve(WithDefaultFactories(factories))['R'] == TurnRight(-90)
    ensures Resolve(WithDefaultFactories(factories))['F'] == MoveForward(1)
    ensures forall sign :: sign in factories && sign !in {'L', 'R', 'F'} ==>
      Resolve(WithDefaultFactories(factories))[sign] == GetCommand(factories[sign])
  {
  }

  /** The table of a builder that only called `addDefaultCommands`. */
  function DefaultCommands(): map<char, Command>
  {
    Resolve(WithDefaultFactories(map[]))
  }

  /** Running one more character is one more step from where the run left
      off. */
  lemma RunSnoc(s: RobotState, table: map<char, Command>, text: string, c: char)
    requires Run(s, table, text).Returned?
    ensures Run(s, table, text + [c]) == Step(Run(s, table, text).after, table, c)
  {
    assert (text + [c])[..|text|] == text;
  }

  /** "FF" with the default commands moves two units along the heading. */
  lemma DefaultForwardTwice(s: RobotState)
    ensures Run(s, DefaultCommands(), "FF").Returned?
    ensures Run(s, DefaultCommands(), "FF").after.direction == s.direction
    ensures Run(s, DefaultCommands(), "FF").after.position == Moved(s.position, s.direction, 2)
  {
    var table := DefaultCommands();
    DefaultTable(map[]);
    var s1 := Execute(s, MoveForward(1)).after;
    MoveChangesOnlyPosition(s, 1);
    RunSnoc(s, table, "", 'F');
    assert Run(s, table, "F") == Returned(s1) by { assert "" + ['F'] == "F"; }
    MoveChangesOnlyPosition(s1, 1);
    RunSnoc(s, table, "F", 'F');
    assert "F" + ['F'] == "FF";
    MovesCompose(s.position, s.direction, 1, 1);
  }

  /** "FFRFF" from NORTH at the origin: two steps north, a right turn to EAST
      and two steps east, when the trigonometry is exact at 0 and 90 degrees. */
  lemma FFRFFScenario(s: RobotState)
    requires Trig(0) == (1.0, 0.0) && Trig(90) == (0.0, 1.0)
    requires s.direction == Directions.Direction.NORTH.Degrees() && s.position == Position(0.0, 0.0)
    ensures Run(s, DefaultCommands(), "FFRFF").Returned?
    ensures Run(s, DefaultCommands(), "FFRFF").after.direction == Directions.Direction.EAST.Degrees()
    ensures Run(s, DefaultCommands(), "FFRFF").after.position == Position(2.0, 2.0)
  {
    var table := DefaultCommands();
    DefaultTable(map[]);
    DefaultForwardTwice(s);
    var s2 := Run(s, table, "FF").after;
    assert s2.position == Position(0.0, 2.0) && s2.direction == 90;
    assert Step(s2, table, 'R') == Execute(s2, TurnRight(-90));
    RightTurnStores(s2, -90);
    var s3 := Step(s2, table, 'R').after;
    assert s3.direction == 0 && s3.position == s2.position;
    DefaultForwardTwice(s3);
    RunCons(s2, table, 'R', "FF");
    RunAppend(s, table, "FF", ['R'] + "FF");
    assert "FF" + (['R'] + "FF") == "FFRFF";
  }

  /** "FXF" runs both F commands and reports X once. */
  lemma FXFScenario(s: RobotState)
    ensures Run(s, DefaultCommands(), "FXF").Returned?
    ensures Run(s, DefaultCommands(), "FXF").after.diagnostics == s.diagnostics + ["Unknown command: X"]
    ensures |Run(s, DefaultCommands(), "FXF").after.events| == |s.events| + 2
  {
    var table := DefaultCommands();
    DefaultTable(map[]);
    assert 'X' !in table;
    assert UnknownMessage('X') == "Unknown command: X";
    assert "FXF"[..2] == "FX" && "FX"[..1] == "F" && "F"[..0] == [];
  }
}
