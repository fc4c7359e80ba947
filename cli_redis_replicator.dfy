/** CliRedisReplicator: the facade the CLI tools use. It builds one engine, chosen by
    the dispatch table, stores it in its only field, and forwards every operation of
    the Replicator interface to it unchanged. */
module CliReplicator {
  import opened Wrappers
  import opened Io
  import opened Replicator
  import opened Dispatch

  /** The facade as a value: the engine it holds. */
  datatype FacadeValue = FacadeValue(replicator: EngineValue)

  /** One forwarded call: the held engine answers it, and the facade passes its reply on. */
  function Forward(f: FacadeValue, call: Call): (FacadeValue, Reply)
  {
    var (engine, reply) := Apply(f.replicator, call);
    (FacadeValue(engine), reply)
  }

  datatype FacadeSession = FacadeSession(facade: FacadeValue, replies: seq<Reply>)

  /** A sequence of calls made on the facade, one after another. */
  function DriveFacade(f: FacadeValue, calls: seq<Call>): FacadeSession
    decreases |calls|
  {
    if calls == [] then FacadeSession(f, [])
    else
      var (next, reply) := Forward(f, calls[0]);
      var rest := DriveFacade(next, calls[1..]);
      FacadeSession(rest.facade, [reply] + rest.replies)
  }

  /** The facade cannot be told apart from the engine it holds: any session on the
      facade gets the same replies as the same session on the engine directly, and
      leaves the facade holding that engine in the state the session leaves it in. */
  lemma {:induction false} FacadeIsTransparent(f: FacadeValue, calls: seq<Call>)
    ensures DriveFacade(f, calls)
         == FacadeSession(FacadeValue(Drive(f.replicator, calls).engine), Drive(f.replicator, calls).replies)
    decreases |calls|
  {
    if calls != [] {
      FacadeIsTransparent(Forward(f, calls[0]).0, calls[1..]);
    }
  }

  /** Whatever calls are made on the facade, it keeps the engine initialize chose, with
      that engine's kind, input, configuration and code; only the engine's state moves
      on, and each call gets one reply. */
  lemma FacadeKeepsEngine(f: FacadeValue, calls: seq<Call>)
    ensures DriveFacade(f, calls).facade.replicator
         == f.replicator.(state := DriveFacade(f, calls).facade.replicator.state)
    ensures |DriveFacade(f, calls).replies| == |calls|
  {
    FacadeIsTransparent(f, calls);
    DriveChangesOnlyState(f.replicator, calls);
  }

  /** How the static close(Replicator) reports the reply of close(): a failure comes
      back wrapped in a RuntimeException, a normal return completes normally. */
  function Rethrown(reply: Reply): (o: Outcome<Throwable>)
    ensures o.Pass? <==> reply.Returned?
    ensures o.Fail? ==> o.error.Runtime? && o.error.cause == reply.failure
  {
    match reply
    case Returned(_) => Pass
    case Threw(t) => Fail(Runtime(t))
  }

  class CliRedisReplicator {
    /** The engine, assigned once by Initialize. */
    var replicator: Engine?

    /** A facade a constructor has returned holds an engine. */
    ghost predicate Valid()
      reads this
    {
      replicator != null
    }

    ghost function Value(): FacadeValue
      reads this, replicator
      requires Valid()
    {
      FacadeValue(replicator.Value())
    }

    /** The facade is in the state initialize leaves it in according to `s`: without
        an engine if initialize threw, otherwise holding the engine `s` describes, whose
        input is the very stream that was opened (and peeked, for AOF), not yet read,
        and whose starting state is built from its address or from every opened byte. */
    ghost predicate Realizes(s: Setup, lib: Library)
      reads this, replicator, if replicator != null && replicator.input != null then {replicator.input} else {}
    {
      match s.outcome
      case Failure(_) => replicator == null
      case Success(b) =>
        && replicator != null
        && replicator.Value()
           == EngineValue(b.kind, b.address, replicator.input, b.configuration,
                          lib.behaviour(b.kind), lib.construct(b.kind, b.address, EngineInput(s), b.configuration))
        && (b.address.None? <==> replicator.input != null)
        && (replicator.input != null ==>
              && s.stream == Some(replicator.input.pending)
              && replicator.input.peeks == (if s.peeked then 1 else 0))
    }

    /** The object as allocated, before initialize has run. */
    constructor Unset()
      ensures replicator == null
    {
      replicator := null;
    }

    /** initialize(uri, configure). */
    method Initialize(uri: Option<RedisUri>, configure: Option<Configure>, lib: Library)
      returns (outcome: Outcome<Throwable>)
      requires replicator == null
      modifies this
      ensures var s := Initialization(uri, configure, lib);
        && outcome == (if s.outcome.Success? then Pass else Fail(s.outcome.error))
        && Realizes(s, lib)
      ensures replicator != null ==>
        fresh(replicator) && (replicator.input != null ==> fresh(replicator.input))
    {
      if uri.None? || configure.None? {
        return Fail(NullPointer);
      }
      var u := uri.value;
      var configuration := lib.valueOf(u);
      configuration := lib.merge(configure.value, configuration);
      if u.fileType.Some? {
        var resource := lib.openStream(u);
        if resource.Failure? {
          return Fail(resource.error);
        }
        var stream := new PeekableInputStream(resource.value);
        match u.fileType.value
        case AOF =>
          var head := stream.Peek();
          if head == RdbMagicLead {
            replicator := new Engine(Mix, None, stream, configuration, lib.behaviour(Mix), lib.construct(Mix, None, stream.pending, configuration));
          } else {
            replicator := new Engine(Aof, None, stream, configuration, lib.behaviour(Aof), lib.construct(Aof, None, stream.pending, configuration));
          }
        case RDB =>
          replicator := new Engine(Rdb, None, stream, configuration, lib.behaviour(Rdb), lib.construct(Rdb, None, stream.pending, configuration));
        case MIXED =>
          replicator := new Engine(Mix, None, stream, configuration, lib.behaviour(Mix), lib.construct(Mix, None, stream.pending, configuration));
        case Unlisted(_) =>
          return Fail(UnsupportedOperation(u.fileType.value.Name()));
      } else {
        replicator := new Engine(Socket, Some(Address(u.host, u.port)), null, configuration,
                                 lib.behaviour(Socket), lib.construct(Socket, Some(Address(u.host, u.port)), [], configuration));
      }
      outcome := Pass;
    }

    /** new CliRedisReplicator(RedisURI uri, Configure configure). */
    static method FromUri(uri: Option<RedisUri>, configure: Option<Configure>, lib: Library)
      returns (r: Result<CliRedisReplicator, Throwable>)
      ensures var s := Initialization(uri, configure, lib);
        && (r.Success? <==> s.outcome.Success?)
        && (r.Failure? ==> r.error == s.outcome.error)
        && (r.Success? ==>
              && fresh(r.value) && r.value.Valid() && r.value.Realizes(s, lib)
              && fresh(r.value.replicator)
              && (r.value.replicator.input != null ==> fresh(r.value.replicator.input)))
    {
      var facade := new CliRedisReplicator.Unset();
      var outcome := facade.Initialize(uri, configure, lib);
      if outcome.Fail? {
        return Failure(outcome.error);
      }
      return Success(facade);
    }

    /** new CliRedisReplicator(String uri, Configure configure): a null or unparsable
        string fails before the configure argument is looked at. */
    static method FromText(uri: Option<string>, configure: Option<Configure>, lib: Library)
      returns (r: Result<CliRedisReplicator, Throwable>)
      ensures uri.None? ==> r == Failure(NullPointer)
      ensures uri.Some? && lib.parse(uri.value).Failure? ==> r == Failure(lib.parse(uri.value).error)
      ensures uri.Some? && lib.parse(uri.value).Success? ==>
        var s := Initialization(Some(lib.parse(uri.value).value), configure, lib);
        && (r.Success? <==> s.outcome.Success?)
        && (r.Failure? ==> r.error == s.outcome.error)
        && (r.Success? ==>
              && fresh(r.value) && r.value.Valid() && r.value.Realizes(s, lib)
              && fresh(r.value.replicator)
              && (r.value.replicator.input != null ==> fresh(r.value.replicator.input)))
    {
      if uri.None? {
        return Failure(NullPointer);
      }
      var parsed := lib.parse(uri.value);
      if parsed.Failure? {
        return Failure(parsed.error);
      }
      r := FromUri(Some(parsed.value), configure, lib);
    }

    // The operations of the Replicator interface. Each one hands its call to the held
    // engine and returns the engine's reply, normal or exceptional, unchanged.

    method AddRawByteListener(listener: RawByteListener) returns (reply: Reply)
      requires Valid()
      modifies replicator
      ensures (Value(), reply) == Forward(old(Value()), Call.AddRawByteListener(listener))
    {
      reply := replicator.Invoke(Call.AddRawByteListener(listener));
    }

    method RemoveRawByteListener(listener: RawByteListener) returns (reply: Reply)
      requires Valid()
      modifies replicator
      ensures (Value(), reply) == Forward(old(Value()), Call.RemoveRawByteListener(listener))
    {
      reply := replicator.Invoke(Call.RemoveRawByteListener(listener));
    }

    method BuiltInCommandParserRegister() returns (reply: Reply)
      requires Valid()
      modifies replicator
      ensures (Value(), reply) == Forward(old(Value()), Call.BuiltInCommandParserRegister)
    {
      reply := replicator.Invoke(Call.BuiltInCommandParserRegister);
    }

    method GetCommandParser(command: CommandName) returns (reply: Reply)
      requires Valid()
      modifies replicator
      ensures (Value(), reply) == Forward(old(Value()), Call.GetCommandParser(command))
    {
      reply := replicator.Invoke(Call.GetCommandParser(command));
    }

    method AddCommandParser(command: CommandName, parser: CommandParser) returns (reply: Reply)
      requires Valid()
      modifies replicator
      ensures (Value(), reply) == Forward(old(Value()), Call.AddCommandParser(command, parser))
    {
      reply := replicator.Invoke(Call.AddCommandParser(command, parser));
    }

    method RemoveCommandParser(command: CommandName) returns (reply: Reply)
      requires Valid()
      modifies replicator
      ensures (Value(), reply) == Forward(old(Value()), Call.RemoveCommandParser(command))
    {
      reply := replicator.Invoke(Call.RemoveCommandParser(command));
    }

    method GetModuleParser(moduleName: string, moduleVersion: int32) returns (reply: Reply)
      requires Valid()
      modifies replicator
      ensures (Value(), reply) == Forward(old(Value()), Call.GetModuleParser(moduleName, moduleVersion))
    {
      reply := replicator.Invoke(Call.GetModuleParser(moduleName, moduleVersion));
    }

    method AddModuleParser(moduleName: string, moduleVersion: int32, parser: ModuleParser) returns (reply: Reply)
      requires Valid()
      modifies replicator
      ensures (Value(), reply) == Forward(old(Value()), Call.AddModuleParser(moduleName, moduleVersion, parser))
    {
      reply := replicator.Invoke(Call.AddModuleParser(moduleName, moduleVersion, parser));
    }

    method RemoveModuleParser(moduleName: string, moduleVersion: int32) returns (reply: Reply)
      requires Valid()
      modifies replicator
      ensures (Value(), reply) == Forward(old(Value()), Call.RemoveModuleParser(moduleName, moduleVersion))
    {
      reply := replicator.Invoke(Call.RemoveModuleParser(moduleName, moduleVersion));
    }

    method SetRdbVisitor(rdbVisitor: RdbVisitor) returns (reply: Reply)
      requires Valid()
      modifies replicator
      ensures (Value(), reply) == Forward(old(Value()), Call.SetRdbVisitor(rdbVisitor))
    {
      reply := replicator.Invoke(Call.SetRdbVisitor(rdbVisitor));
    }

    method GetRdbVisitor() returns (reply: Reply)
      requires Valid()
      modifies replicator
      ensures (Value(), reply) == Forward(old(Value()), Call.GetRdbVisitor)
    {
      reply := replicator.Invoke(Call.GetRdbVisitor);
    }

    method AddEventListener(listener: EventListener) returns (reply: Reply)
      requires Valid()
      modifies replicator
      ensures (Value(), reply) == Forward(old(Value()), Call.AddEventListener(listener))
    {
      reply := replicator.Invoke(Call.AddEventListener(listener));
    }

    method RemoveEventListener(listener: EventListener) returns (reply: Reply)
      requires Valid()
      modifies replicator
      ensures (Value(), reply) == Forward(old(Value()), Call.RemoveEventListener(listener))
    {
      reply := replicator.Invoke(Call.RemoveEventListener(listener));
    }

    method AddCloseListener(listener: CloseListener) returns (reply: Reply)
      requires Valid()
      modifies replicator
      ensures (Value(), reply) == Forward(old(Value()), Call.AddCloseListener(listener))
    {
      reply := replicator.Invoke(Call.AddCloseListener(listener));
    }

    method RemoveCloseListener(listener: CloseListener) returns (reply: Reply)
      requires Valid()
      modifies replicator
      ensures (Value(), reply) == Forward(old(Value()), Call.RemoveCloseListener(listener))
    {
      reply := replicator.Invoke(Call.RemoveCloseListener(listener));
    }

    method AddExceptionListener(listener: ExceptionListener) returns (reply: Reply)
      requires Valid()
      modifies replicator
      ensures (Value(), reply) == Forward(old(Value()), Call.AddExceptionListener(listener))
    {
      reply := replicator.Invoke(Call.AddExceptionListener(listener));
    }

    method RemoveExceptionListener(listener: ExceptionListener) returns (reply: Reply)
      requires Valid()
      modifies replicator
      ensures (Value(), reply) == Forward(old(Value()), Call.RemoveExceptionListener(listener))
    {
      reply := replicator.Invoke(Call.RemoveExceptionListener(listener));
    }

    method Verbose() returns (reply: Reply)
      requires Valid()
      modifies replicator
      ensures (Value(), reply) == Forward(old(Value()), Call.Verbose)
    {
      reply := replicator.Invoke(Call.Verbose);
    }

    method GetStatus() returns (reply: Reply)
      requires Valid()
      modifies replicator
      ensures (Value(), reply) == Forward(old(Value()), Call.GetStatus)
    {
      reply := replicator.Invoke(Call.GetStatus);
    }

    method GetConfiguration() returns (reply: Reply)
      requires Valid()
      modifies replicator
      ensures (Value(), reply) == Forward(old(Value()), Call.GetConfiguration)
    {
      reply := replicator.Invoke(Call.GetConfiguration);
    }

    method Open() returns (reply: Reply)
      requires Valid()
      modifies replicator
      ensures (Value(), reply) == Forward(old(Value()), Call.Open)
    {
      reply := replicator.Invoke(Call.Open);
    }

    method Close() returns (reply: Reply)
      requires Valid()
      modifies replicator
      ensures (Value(), reply) == Forward(old(Value()), Call.Close)
    {
      reply := replicator.Invoke(Call.Close);
    }

    /** The static close(Replicator): nothing for null; otherwise closes, and a
        failure of close comes back wrapped in a RuntimeException. */
    static method CloseOrThrow(r: CliRedisReplicator?) returns (outcome: Outcome<Throwable>)
      requires r != null ==> r.Valid()
      modifies if r != null then {r.replicator} else {}
      ensures r == null ==> outcome == Pass
      ensures r != null ==>
        var (after, reply) := Forward(old(r.Value()), Call.Close);
        r.Value() == after && outcome == Rethrown(reply)
    {
      if r == null {
        return Pass;
      }
      var reply := r.Close();
      outcome := Rethrown(reply);
    }

    /** The static closeQuietly(Replicator): nothing for null; otherwise closes, and
        any failure of close is discarded. */
    static method CloseQuietly(r: CliRedisReplicator?) returns (outcome: Outcome<Throwable>)
      requires r != null ==> r.Valid()
      modifies if r != null then {r.replicator} else {}
      ensures outcome == Pass
      ensures r != null ==> r.Value() == Forward(old(r.Value()), Call.Close).0
    {
      if r == null {
        return Pass;
      }
      var _ := r.Close();
      outcome := Pass;
    }
  }
}
