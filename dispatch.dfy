/** How CliRedisReplicator.initialize picks the engine that backs the facade:
    a URI without a file type is a live server reached over a socket; a file URI is
    opened as a stream, and its declared type, together with a one-byte peek for
    AOF files only, decides between the RDB, AOF and mixed engines. */
module Dispatch {
  import opened Wrappers
  import opened Io
  import opened Replicator

  /** The file type a RedisURI may declare. The three named constants are the ones
      the switch handles; `Unlisted` stands for any other constant, which the switch's
      default branch rejects. */
  datatype FileType = RDB | AOF | MIXED | Unlisted(name: string)
  {
    /** The enum constant's name, as toString() gives it. */
    function Name(): string
    {
      match this
      case RDB => "RDB"
      case AOF => "AOF"
      case MIXED => "MIXED"
      case Unlisted(n) => n
    }
  }

  /** What the dispatcher reads from a parsed RedisURI. */
  datatype RedisUri = RedisUri(text: string, fileType: Option<FileType>, host: string, port: int32)

  /** The first byte of the RDB magic "REDIS": an AOF file starting with it carries
      an RDB preamble. */
  const RdbMagicLead: int := 'R' as int

  /** Code of the replicator library and of the CLI's Configure that the facade calls. */
  datatype Library = Library(
    parse: string -> Result<RedisUri, Throwable>,                    // new RedisURI(String)
    valueOf: RedisUri -> Configuration,                              // Configuration.valueOf(RedisURI)
    merge: (Configure, Configuration) -> Configuration,              // Configure.merge(Configuration)
    openStream: RedisUri -> Result<seq<byte>, Throwable>,            // uri.toURL().openStream(): the bytes, or a failure
    behaviour: EngineKind -> Behaviour,                              // the code of each engine class
    construct: (EngineKind, Option<Address>, seq<byte>, Configuration) -> EngineState)
                                                                     // the state a new engine starts in, from its
                                                                     // address or the bytes of its stream

  /** The CLI's configuration overlay. */
  type Configure

  /** Only an AOF file is peeked at. */
  predicate NeedsPeek(fileType: Option<FileType>)
  {
    fileType == Some(AOF)
  }

  /** The dispatch table: the engine for a declared file type (None: a live server)
      and the first byte of the stream (-1 at end of stream). */
  function Select(fileType: Option<FileType>, peek: int): (r: Result<EngineKind, Throwable>)
    ensures r == Success(Socket) <==> fileType.None?
    ensures r == Success(Rdb) <==> fileType == Some(RDB)
    ensures r == Success(Aof) <==> fileType == Some(AOF) && peek != RdbMagicLead
    ensures r == Success(Mix) <==> fileType == Some(MIXED) || (fileType == Some(AOF) && peek == RdbMagicLead)
    ensures r.Failure? <==> fileType.Some? && fileType.value.Unlisted?
    ensures r.Failure? ==> r.error == UnsupportedOperation(fileType.value.Name())
  {
    match fileType
    case None => Success(Socket)
    case Some(RDB) => Success(Rdb)
    case Some(MIXED) => Success(Mix)
    case Some(AOF) => if peek == RdbMagicLead then Success(Mix) else Success(Aof)
    case Some(Unlisted(_)) => Failure(UnsupportedOperation(fileType.value.Name()))
  }

  /** The peeked byte matters only for AOF: for every other declared type any two
      peek results select alike. */
  lemma PeekMattersOnlyForAof(fileType: Option<FileType>, peek: int, other: int)
    requires !NeedsPeek(fileType)
    ensures Select(fileType, peek) == Select(fileType, other)
  {
  }

  /** An engine that initialize builds: its kind, its socket address (None: it reads
      the stream initialize opened) and its configuration. */
  datatype Build = Build(kind: EngineKind, address: Option<Address>, configuration: Configuration)

  /** What one run of initialize does: the bytes of the stream it opened, if it opened
      one; whether it peeked at that stream; and the engine it built or what it threw. */
  datatype Setup = Setup(stream: Option<seq<byte>>, peeked: bool, outcome: Result<Build, Throwable>)

  /** The bytes a new engine reads, the peeked one included: all of the opened stream,
      or none for the socket engine. */
  function EngineInput(s: Setup): seq<byte>
  {
    if s.stream.Some? then s.stream.value else []
  }

  /** The configuration every engine receives: the one derived from the URI, with the
      caller's overlay merged in. */
  function Merged(uri: RedisUri, configure: Configure, lib: Library): Configuration
  {
    lib.merge(configure, lib.valueOf(uri))
  }

  /** The specification of initialize(uri, configure); None stands for null. */
  function Initialization(uri: Option<RedisUri>, configure: Option<Configure>, lib: Library): (s: Setup)
    // a null argument is rejected before anything is opened or built
    ensures uri.None? || configure.None? ==> s == Setup(None, false, Failure(NullPointer))
    // every engine built gets the merged configuration
    ensures s.outcome.Success? ==>
      uri.Some? && configure.Some? && s.outcome.value.configuration == Merged(uri.value, configure.value, lib)
    // a stream is opened exactly for a URI with a file type, and it is the URI's resource
    ensures s.stream.Some? <==>
      uri.Some? && configure.Some? && uri.value.fileType.Some? && lib.openStream(uri.value).Success?
    ensures s.stream.Some? ==> lib.openStream(uri.value) == Success(s.stream.value)
    // a URI without a file type gets a socket engine on the URI's host and port
    ensures uri.Some? && configure.Some? && uri.value.fileType.None? ==>
      s.outcome == Success(Build(Socket, Some(Address(uri.value.host, uri.value.port)), Merged(uri.value, configure.value, lib)))
    // a stream that cannot be opened fails initialize, whatever the declared type
    ensures uri.Some? && configure.Some? && uri.value.fileType.Some? && lib.openStream(uri.value).Failure? ==>
      s.outcome == Failure(lib.openStream(uri.value).error)
    // the stream is peeked exactly when the declared type is AOF
    ensures s.peeked <==> s.stream.Some? && NeedsPeek(uri.value.fileType)
    // once the stream is open, the dispatch table decides, on the stream's own first byte
    ensures s.stream.Some? ==>
      match Select(uri.value.fileType, PeekOf(s.stream.value))
      case Success(kind) => s.outcome == Success(Build(kind, None, Merged(uri.value, configure.value, lib)))
      case Failure(e) => s.outcome == Failure(e)
  {
    if uri.None? || configure.None? then Setup(None, false, Failure(NullPointer))
    else
      var u := uri.value;
      var configuration := Merged(u, configure.value, lib);
      if u.fileType.None? then
        Setup(None, false, Success(Build(Socket, Some(Address(u.host, u.port)), configuration)))
      else
        match lib.openStream(u)
        case Failure(e) => Setup(None, false, Failure(e))
        case Success(bytes) =>
          var selected := Select(u.fileType, PeekOf(bytes));
          Setup(Some(bytes), NeedsPeek(u.fileType),
                if selected.Success? then Success(Build(selected.value, None, configuration))
                else Failure(selected.error))
  }

  /** An unsupported file type is reported only after its stream was opened: the
      UnsupportedOperationException with the type's name comes with the stream open,
      and a stream that cannot be opened is reported instead. */
  lemma UnsupportedAfterOpen(uri: RedisUri, configure: Configure, lib: Library)
    requires uri.fileType.Some? && uri.fileType.value.Unlisted?
    ensures lib.openStream(uri).Success? ==>
      Initialization(Some(uri), Some(configure), lib)
      == Setup(Some(lib.openStream(uri).value), false, Failure(UnsupportedOperation(uri.fileType.value.name)))
    ensures lib.openStream(uri).Failure? ==>
      Initialization(Some(uri), Some(configure), lib) == Setup(None, false, Failure(lib.openStream(uri).error))
  {
  }
}
