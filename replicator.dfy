/** The Replicator interface shared by the facade and the four stream engines
    (socket, RDB snapshot, AOF command log, mixed RDB preamble plus AOF).
    The engines belong to the replicator library, whose code is not part of this
    model: an engine is an object with an abstract state and an abstract
    `behaviour` that says, for every call, what state and reply follow. */
module Replicator {
  import opened Wrappers
  import opened Io

  // Values the library defines and this model never looks inside.
  type RawByteListener
  type CommandName
  type CommandParser
  type ModuleParser
  type RdbVisitor
  type EventListener
  type CloseListener
  type ExceptionListener
  type Status
  type Configuration
  type EngineState
  type ForeignError

  newtype int32 = x: int | -0x8000_0000 <= x < 0x8000_0000

  /** The exceptions the model distinguishes. */
  datatype Throwable =
    | NullPointer                       // from Objects.requireNonNull
    | UnsupportedOperation(message: string)
    | Runtime(cause: Throwable)         // a RuntimeException wrapping its cause
    | Foreign(error: ForeignError)      // raised by library code (URISyntaxException, IOException, ...)

  /** One constructor per operation of the Replicator interface, with its arguments. */
  datatype Call =
    | AddRawByteListener(rawByteListener: RawByteListener)
    | RemoveRawByteListener(rawByteListener: RawByteListener)
    | BuiltInCommandParserRegister
    | GetCommandParser(command: CommandName)
    | AddCommandParser(command: CommandName, commandParser: CommandParser)
    | RemoveCommandParser(command: CommandName)
    | GetModuleParser(moduleName: string, moduleVersion: int32)
    | AddModuleParser(moduleName: string, moduleVersion: int32, moduleParser: ModuleParser)
    | RemoveModuleParser(moduleName: string, moduleVersion: int32)
    | SetRdbVisitor(rdbVisitor: RdbVisitor)
    | GetRdbVisitor
    | AddEventListener(eventListener: EventListener)
    | RemoveEventListener(eventListener: EventListener)
    | AddCloseListener(closeListener: CloseListener)
    | RemoveCloseListener(closeListener: CloseListener)
    | AddExceptionListener(exceptionListener: ExceptionListener)
    | RemoveExceptionListener(exceptionListener: ExceptionListener)
    | Verbose
    | GetStatus
    | GetConfiguration
    | Open
    | Close

  /** What an operation returns when it completes normally (None stands for null). */
  datatype Value =
    | Nothing
    | Flag(flag: bool)
    | CommandParserOrNull(commandParser: Option<CommandParser>)
    | ModuleParserOrNull(moduleParser: Option<ModuleParser>)
    | RdbVisitorOrNull(rdbVisitor: Option<RdbVisitor>)
    | StatusIs(status: Status)
    | ConfigurationIs(configuration: Configuration)

  /** How a call ends: with a value, or by throwing. */
  datatype Reply = Returned(value: Value) | Threw(failure: Throwable)

  datatype Reaction = Reaction(next: EngineState, reply: Reply)

  /** The code of an engine class: the state and reply that follow each call. */
  type Behaviour = (EngineState, Call) -> Reaction

  /** Which of the four engine classes backs a facade. */
  datatype EngineKind = Socket | Rdb | Aof | Mix

  datatype Address = Address(host: string, port: int32)

  /** An engine as a value: what it was built from, its code and its current state. */
  datatype EngineValue = EngineValue(
    kind: EngineKind,
    address: Option<Address>,
    input: PeekableInputStream?,
    configuration: Configuration,
    behaviour: Behaviour,
    state: EngineState)

  /** One call on an engine: its new value and its reply. */
  function Apply(e: EngineValue, call: Call): (EngineValue, Reply)
  {
    var reaction := e.behaviour(e.state, call);
    (e.(state := reaction.next), reaction.reply)
  }

  datatype Session = Session(engine: EngineValue, replies: seq<Reply>)

  /** A sequence of calls made on an engine directly, one after another. */
  function Drive(e: EngineValue, calls: seq<Call>): Session
    decreases |calls|
  {
    if calls == [] then Session(e, [])
    else
      var (next, reply) := Apply(e, calls[0]);
      var rest := Drive(next, calls[1..]);
      Session(rest.engine, [reply] + rest.replies)
  }

  /** However long a session, the engine keeps its kind, its input, its configuration
      and its code; only its state moves on, and every call gets exactly one reply. */
  lemma {:induction false} DriveChangesOnlyState(e: EngineValue, calls: seq<Call>)
    ensures Drive(e, calls).engine == e.(state := Drive(e, calls).engine.state)
    ensures |Drive(e, calls).replies| == |calls|
    decreases |calls|
  {
    if calls != [] {
      DriveChangesOnlyState(Apply(e, calls[0]).0, calls[1..]);
    }
  }

  /** One of RedisSocketReplicator, RedisRdbReplicator, RedisAofReplicator and
      RedisMixReplicator, as built by the facade. */
  class Engine {
    const kind: EngineKind
    const address: Option<Address>
    const input: PeekableInputStream?
    const configuration: Configuration
    const behaviour: Behaviour
    var state: EngineState

    /** Building an engine does not read from its input stream. */
    constructor (kind: EngineKind, address: Option<Address>, input: PeekableInputStream?,
                 configuration: Configuration, behaviour: Behaviour, initial: EngineState)
      ensures Value() == EngineValue(kind, address, input, configuration, behaviour, initial)
    {
      this.kind := kind;
      this.address := address;
      this.input := input;
      this.configuration := configuration;
      this.behaviour := behaviour;
      this.state := initial;
    }

    ghost function Value(): EngineValue
      reads this
    {
      EngineValue(kind, address, input, configuration, behaviour, state)
    }

    /** Runs one operation of the interface as the engine's own code does. */
    method Invoke(call: Call) returns (reply: Reply)
      modifies this
      ensures (Value(), reply) == Apply(old(Value()), call)
    {
      var reaction := behaviour(state, call);
      state := reaction.next;
      reply := reaction.reply;
    }
  }
}
