/** The rover object and its builder. `MarsRobot` keeps its heading and
    position in fields that its setters and commands update in place; the
    change events its `PropertyChangeSupport` delivers and the diagnostics it
    prints are kept as logs. Each method is proved to do what the matching
    function of `RoverModel` says. */
module MarsRobots {
  import opened JavaInt
  import opened RoverModel
  import Directions

  /** A reference that may be null. */
  datatype Option<T> = None | Some(value: T)

  class MarsRobot {
    var direction: Int32
    var position: Position
    /** Property changes fired so far, oldest first. */
    var events: seq<Event>
    /** Lines written to standard error so far. */
    var diagnostics: seq<string>
    /** Call sign to bound command; filled once, by the constructor. */
    const commands: map<char, Command>

    /** The robot's state as a value. */
    function State(): RobotState
      reads this
    {
      RobotState(direction, position, events, diagnostics)
    }

    /** The builder's heading and position are taken as they are: no
        normalisation, no event. Every factory is resolved against the new
        robot. */
    constructor (builder: MarsRobotBuilder)
      ensures State() == RobotState(builder.direction, builder.position, [], [])
      ensures commands == Resolve(builder.commandFactories)
    {
      direction := builder.direction;
      position := builder.position;
      events := [];
      diagnostics := [];
      var factories := builder.commandFactories;
      var table: map<char, Command> := map[];
      var pending := factories.Keys;
      while pending != {}
        invariant pending <= factories.Keys
        invariant table.Keys == factories.Keys - pending
        invariant forall sign :: sign in table ==> table[sign] == GetCommand(factories[sign])
        decreases pending
      {
        var sign :| sign in pending;
        table := table[sign := GetCommand(factories[sign])];
        pending := pending - {sign};
      }
      commands := table;
    }

    /** `setDirection`: refuses a negative value and changes nothing;
        otherwise stores it modulo 360 and fires a "direction" change. */
    method SetDirection(d: Int32) returns (thrown: bool)
      modifies this
      ensures OutcomeOf(thrown, State()) == RoverModel.SetDirection(old(State()), d)
    {
      if d < 0 {
        return true;
      }
      var oldValue := direction;
      direction := Rem360(d);
      var newValue := direction;
      events := FireDirection(events, oldValue, newValue);
      thrown := false;
    }

    /** `setPosition`: replaces the position and fires a "position" change
        from a copy of the old one. */
    method SetPosition(p: Position)
      modifies this
      ensures State() == RoverModel.SetPosition(old(State()), p)
    {
      var oldValue := position;
      position := p;
      events := events + [PositionChange(oldValue, position)];
    }

    /** `execute()` of a command bound to this robot. */
    method Execute(c: Command) returns (thrown: bool)
      modifies this
      ensures OutcomeOf(thrown, State()) == RoverModel.Execute(old(State()), c)
    {
      match c
      case TurnRight(degrees) =>
        var newDirection := Rem360(Add(direction, degrees));
        if newDirection < 0 {
          newDirection := 360 + newDirection;
        }
        thrown := SetDirection(newDirection);
      case TurnLeft(degrees) =>
        thrown := SetDirection(Add(direction, degrees));
      case MoveForward(units) =>
        SetPosition(Moved(position, direction, units));
        thrown := false;
    }

    /** `executeCommands`: a null string is refused before anything changes;
        otherwise each character runs its bound command, in order, or is
        reported as unknown and skipped. An exception from a command
        propagates and ends the loop. */
    method ExecuteCommands(input: Option<string>) returns (thrown: bool)
      modifies this
      ensures input.None? ==> thrown && State() == old(State())
      ensures input.Some? ==>
        OutcomeOf(thrown, State()) == Run(old(State()), commands, input.value)
    {
      if input.None? {
        return true;
      }
      var text := input.value;
      thrown := false;
      var i := 0;
      while i < |text| && !thrown
        invariant 0 <= i <= |text|
        invariant OutcomeOf(thrown, State()) == Run(old(State()), commands, text[..i])
      {
        var c := text[i];
        assert text[..i + 1][..i] == text[..i];
        if c in commands {
          thrown := Execute(commands[c]);
        } else {
          diagnostics := diagnostics + [UnknownMessage(c)];
        }
        i := i + 1;
      }
      if thrown {
        RunThrewIsFinal(old(State()), commands, text[..i], text[i..]);
        assert text[..i] + text[i..] == text;
      } else {
        assert text[..i] == text;
      }
    }
  }

  class MarsRobotBuilder {
    var direction: Int32
    var position: Position
    var commandFactories: map<char, CommandFactory>

    /** Heading NORTH (90), position (0, 0), no commands. */
    constructor ()
      ensures direction == Directions.Direction.NORTH.Degrees()
      ensures position == Position(0.0, 0.0)
      ensures commandFactories == map[]
    {
      direction := Directions.Direction.NORTH.Degrees();
      position := Position(0.0, 0.0);
      commandFactories := map[];
    }

    /** `direction(initialDirection)`: recorded without validation. */
    method InitialDirection(initialDirection: Int32) returns (self: MarsRobotBuilder)
      modifies this
      ensures self == this
      ensures direction == initialDirection
      ensures position == old(position) && commandFactories == old(commandFactories)
    {
      direction := initialDirection;
      self := this;
    }

    /** `position(initialPosition)`. */
    method InitialPosition(initialPosition: Position) returns (self: MarsRobotBuilder)
      modifies this
      ensures self == this
      ensures position == initialPosition
      ensures direction == old(direction) && commandFactories == old(commandFactories)
    {
      position := initialPosition;
      self := this;
    }

    /** `addCommand`: binds the call sign, replacing any earlier binding. */
    method AddCommand(commandCallSign: char, factory: CommandFactory) returns (self: MarsRobotBuilder)
      modifies this
      ensures self == this
      ensures commandFactories == old(commandFactories)[commandCallSign := factory]
      ensures direction == old(direction) && position == old(position)
    {
      commandFactories := commandFactories[commandCallSign := factory];
      self := this;
    }

    /** `addDefaultCommands`: L turns left by 90, R right by 90, F moves
        forward by 1, replacing earlier bindings of those call signs. */
    method AddDefaultCommands() returns (self: MarsRobotBuilder)
      modifies this
      ensures self == this
      ensures commandFactories == WithDefaultFactories(old(commandFactories))
      ensures direction == old(direction) && position == old(position)
    {
      commandFactories := commandFactories['L' := TurnFactory(90)];
      commandFactories := commandFactories['R' := TurnFactory(-90)];
      commandFactories := commandFactories['F' := MoveForwardFactory(1)];
      self := this;
    }

    /** `build()`: a new robot with this builder's settings. */
    method Build() returns (robot: MarsRobot)
      ensures fresh(robot)
      ensures robot.State() == RobotState(direction, position, [], [])
      ensures robot.commands == Resolve(commandFactories)
    {
      robot := new MarsRobot(this);
    }
  }

  /** The way the user interface sets up its rover: default builder, default
      commands. The robot faces NORTH at the origin, has fired nothing and
      answers exactly to L, R and F. */
  method BuildDefaultRobot() returns (robot: MarsRobot)
    ensures fresh(robot)
    ensures robot.State() == RobotState(90, Position(0.0, 0.0), [], [])
    ensures robot.commands == map['L' := TurnLeft(90), 'R' := TurnRight(-90), 'F' := MoveForward(1)]
  {
    var builder := new MarsRobotBuilder();
    var _ := builder.AddDefaultCommands();
    robot := builder.Build();
    DefaultTable(map[]);
  }

  /** A robot whose table holds only safe commands (right turns, moves and
      small left turns), started from a heading in [0, 360), never throws on
      any string, and its heading stays in [0, 360). */
  method ExecuteWithoutFailure(robot: MarsRobot, text: string) returns (thrown: bool)
    requires 0 <= robot.direction < 360
    requires forall sign :: sign in robot.commands ==> SafeCommand(robot.commands[sign])
    modifies robot
    ensures !thrown
    ensures Returned(robot.State()) == Run(old(robot.State()), robot.commands, text)
    ensures 0 <= robot.direction < 360
    ensures old(robot.events) <= robot.events
  {
    RunKeepsHeadingInRange(robot.State(), robot.commands, text);
    thrown := robot.ExecuteCommands(Some(text));
  }
}
