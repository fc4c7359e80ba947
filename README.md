# CliRedisReplicator in Dafny

This project models `CliRedisReplicator`, the facade that the redis-cli-tool commands use to read a
Redis dataset. A `RedisURI` names either a live server or a file. The facade picks one of four stream
engines of the replicator library to back it:

- a URI without a file type gets the socket engine (`RedisSocketReplicator`), built on the URI's host
  and port;
- a file URI is opened as a `PeekableInputStream`. The declared type then decides: RDB gives the RDB
  engine and MIXED gives the mixed engine. AOF gives the mixed engine when the first byte is `'R'` (the
  first byte of the RDB magic `REDIS`) and the AOF engine otherwise, end of stream (-1) included. Any
  other type throws `UnsupportedOperationException` carrying the type's name.

Every engine gets the configuration derived from the URI with the caller's `Configure` merged in. The
facade keeps the engine in its one field, `replicator`, and forwards each of the 22 operations of the
`Replicator` interface to it unchanged. Two static helpers close a replicator. `close` rethrows a
failure wrapped in a `RuntimeException`. `closeQuietly` discards it. Both do nothing for null.

Modules:

- `Wrappers` (wrappers.dfy): `Option` (a Java reference that may be null), `Result`, `Outcome`.
- `Io` (io.dfy): bytes, the peek rule `PeekOf`, and the `PeekableInputStream` class. Its `pending`
  field holds the bytes the next reader gets. A ghost counter records the peeks.
- `Replicator` (replicator.dfy): the interface. Listeners, parsers, status, configuration and engine
  state are opaque types. `Call` has one constructor per interface operation. `Reply` says whether a call
  returned a value or threw. The class `Engine` stands for the four engine classes: it has a `kind`, its
  input (an address or a stream), its configuration, an abstract `behaviour` (the engine class's code:
  the state and reply that follow each call) and its current state. `Drive` runs a sequence of calls on
  an engine.
- `Dispatch` (dispatch.dfy): `FileType`, the parsed `RedisUri`, and the dispatch table `Select`. It
  also holds `Library`, the foreign code the facade calls, passed in as function values: URI parsing,
  `Configuration.valueOf`, `Configure.merge`, opening the URI's resource, and each engine class's code
  and initial state. `Initialization` is the specification of `initialize`, as a value. It records the
  stream opened, whether it was peeked, and the engine built or the exception thrown.
- `CliReplicator` (cli_redis_replicator.dfy): the class `CliRedisReplicator` and its two Java
  constructors as static factories (`FromText`, `FromUri`). It holds `Initialize`, the forwarding
  methods, and the static `CloseOrThrow` (Java's static `close`) and `CloseQuietly`. A pure `Forward` /
  `DriveFacade` pair describes the facade as a value, and the lemma `FacadeIsTransparent` connects it to
  `Drive`.

Java's exceptions are errors in the model. The constructors become factories that return `Result`,
`initialize` returns an `Outcome`, and each forwarded call returns a `Reply`. A null argument is `None`.

## Model

| member | source | states |
|---|---|---|
| `Dispatch.Select` | src/main/java/com/moilioncircle/redis/cli/tool/ext/CliRedisReplicator.java:49-69 | Every result, in both directions: socket exactly when there is no file type; RDB exactly for RDB; AOF exactly for AOF with a first byte other than `'R'`; mixed exactly for MIXED or for AOF starting with `'R'`; failure exactly for any other type, with an `UnsupportedOperationException` carrying the type's name |
| `Dispatch.PeekMattersOnlyForAof` | src/main/java/com/moilioncircle/redis/cli/tool/ext/CliRedisReplicator.java:51-64 | For every declared type except AOF, the choice does not depend on the peeked byte |
| `Dispatch.Initialization` | src/main/java/com/moilioncircle/redis/cli/tool/ext/CliRedisReplicator.java:44-71 | A null uri or configure throws `NullPointerException` before anything is opened or built. Every engine built gets `merge(configure, valueOf(uri))`. A stream is opened exactly for a URI with a file type, and it is that URI's resource. No file type gives a socket engine on the URI's host and port. An open failure is what is thrown, whatever the type. The stream is peeked exactly for AOF. Once the stream is open, `Select` on its own first byte decides the engine or the exception |
| `Dispatch.UnsupportedAfterOpen` | src/main/java/com/moilioncircle/redis/cli/tool/ext/CliRedisReplicator.java:50-66 | For an unsupported file type: if its stream opens, the `UnsupportedOperationException` with the type's name comes after the opening and without a peek; if it does not open, the open failure is thrown instead |
| `Io.PeekOf` | src/main/java/com/moilioncircle/redis/cli/tool/ext/CliRedisReplicator.java:53 | The peek answer is in -1..255. It is -1 exactly at end of stream, and otherwise the next byte |
| `Io.PeekableInputStream.constructor` | src/main/java/com/moilioncircle/redis/cli/tool/ext/CliRedisReplicator.java:50 | Wrapping the opened stream keeps all of its bytes for the next reader |
| `Io.PeekableInputStream.Peek` | src/main/java/com/moilioncircle/redis/cli/tool/ext/CliRedisReplicator.java:53 | Returns `PeekOf` of the unread bytes and leaves them all unread |
| `Replicator.Engine.constructor` | src/main/java/com/moilioncircle/redis/cli/tool/ext/CliRedisReplicator.java:54-69 | An engine is built from its kind, its address or stream, its configuration, its class's code and the starting state that code derives from those. Building it does not touch its stream |
| `Replicator.Engine.Invoke` | src/main/java/com/moilioncircle/redis/cli/tool/ext/CliRedisReplicator.java:75 | An engine call does what the engine class's code says, and nothing else changes |
| `Replicator.DriveChangesOnlyState` | src/main/java/com/moilioncircle/redis/cli/tool/ext/CliRedisReplicator.java:73-181 | Over any sequence of calls, the engine keeps its kind, input, configuration and code. Only its state moves on, and each call gets exactly one reply |
| `CliReplicator.FacadeIsTransparent` | src/main/java/com/moilioncircle/redis/cli/tool/ext/CliRedisReplicator.java:73-181 | Any sequence of calls on the facade gets the same replies as the same calls on its engine directly. It leaves the facade holding that engine in the state those calls leave it in |
| `CliReplicator.FacadeKeepsEngine` | src/main/java/com/moilioncircle/redis/cli/tool/ext/CliRedisReplicator.java:33 | After any sequence of calls on the facade, it still holds the engine that initialize chose, with the same kind, input, configuration and code. Only that engine's state has moved on, and each call got one reply |
| `CliReplicator.Rethrown` | src/main/java/com/moilioncircle/redis/cli/tool/ext/CliRedisReplicator.java:185-189 | The static close completes normally exactly when `close()` returned. A failure comes back as a `RuntimeException` whose cause is the original failure |
| `CliReplicator.CliRedisReplicator.Unset` | src/main/java/com/moilioncircle/redis/cli/tool/ext/CliRedisReplicator.java:33 | Before initialize runs, the facade holds no engine |
| `CliReplicator.CliRedisReplicator.Initialize` | src/main/java/com/moilioncircle/redis/cli/tool/ext/CliRedisReplicator.java:44-71 | Implements `Initialization`. It throws what that throws, or else holds a new engine of the chosen kind, with the merged configuration and that kind's code. The engine's starting state is built from the socket address, or from every byte of the opened stream, the peeked one included. A file engine's input is the very stream object that was opened, with every byte still unread. It was peeked once for AOF and not at all otherwise |
| `CliReplicator.CliRedisReplicator.FromUri` | src/main/java/com/moilioncircle/redis/cli/tool/ext/CliRedisReplicator.java:40-42 | The RedisURI constructor succeeds exactly when `Initialization` does. On success it yields a new facade in the state `Initialization` describes |
| `CliReplicator.CliRedisReplicator.FromText` | src/main/java/com/moilioncircle/redis/cli/tool/ext/CliRedisReplicator.java:35-38 | The String constructor throws `NullPointerException` for null and the parse failure for a string that does not parse. Both happen before configure is looked at. Otherwise it behaves as the RedisURI constructor on the parsed URI |
| `CliReplicator.CliRedisReplicator.AddRawByteListener` | src/main/java/com/moilioncircle/redis/cli/tool/ext/CliRedisReplicator.java:73-76 | Returns the held engine's reply to the same call. Only the engine's state changes, as the engine's code says |
| `CliReplicator.CliRedisReplicator.RemoveRawByteListener` | src/main/java/com/moilioncircle/redis/cli/tool/ext/CliRedisReplicator.java:78-81 | Forwards to the held engine: the engine's reply, and only the engine's state changes |
| `CliReplicator.CliRedisReplicator.BuiltInCommandParserRegister` | src/main/java/com/moilioncircle/redis/cli/tool/ext/CliRedisReplicator.java:83-86 | Forwards to the held engine: the engine's reply, and only the engine's state changes |
| `CliReplicator.CliRedisReplicator.GetCommandParser` | src/main/java/com/moilioncircle/redis/cli/tool/ext/CliRedisReplicator.java:88-91 | Forwards to the held engine: the engine's reply, and only the engine's state changes |
| `CliReplicator.CliRedisReplicator.AddCommandParser` | src/main/java/com/moilioncircle/redis/cli/tool/ext/CliRedisReplicator.java:93-96 | Forwards to the held engine: the engine's reply, and only the engine's state changes |
| `CliReplicator.CliRedisReplicator.RemoveCommandParser` | src/main/java/com/moilioncircle/redis/cli/tool/ext/CliRedisReplicator.java:98-101 | Forwards to the held engine: the engine's reply, and only the engine's state changes |
| `CliReplicator.CliRedisReplicator.GetModuleParser` | src/main/java/com/moilioncircle/redis/cli/tool/ext/CliRedisReplicator.java:103-106 | Forwards to the held engine: the engine's reply, and only the engine's state changes |
| `CliReplicator.CliRedisReplicator.AddModuleParser` | src/main/java/com/moilioncircle/redis/cli/tool/ext/CliRedisReplicator.java:108-111 | Forwards to the held engine: the engine's reply, and only the engine's state changes |
| `CliReplicator.CliRedisReplicator.RemoveModuleParser` | src/main/java/com/moilioncircle/redis/cli/tool/ext/CliRedisReplicator.java:113-116 | Forwards to the held engine: the engine's reply, and only the engine's state changes |
| `CliReplicator.CliRedisReplicator.SetRdbVisitor` | src/main/java/com/moilioncircle/redis/cli/tool/ext/CliRedisReplicator.java:118-121 | Forwards to the held engine: the engine's reply, and only the engine's state changes |
| `CliReplicator.CliRedisReplicator.GetRdbVisitor` | src/main/java/com/moilioncircle/redis/cli/tool/ext/CliRedisReplicator.java:123-126 | Forwards to the held engine: the engine's reply, and only the engine's state changes |
| `CliReplicator.CliRedisReplicator.AddEventListener` | src/main/java/com/moilioncircle/redis/cli/tool/ext/CliRedisReplicator.java:128-131 | Forwards to the held engine: the engine's reply, and only the engine's state changes |
| `CliReplicator.CliRedisReplicator.RemoveEventListener` | src/main/java/com/moilioncircle/redis/cli/tool/ext/CliRedisReplicator.java:133-136 | Forwards to the held engine: the engine's reply, and only the engine's state changes |
| `CliReplicator.CliRedisReplicator.AddCloseListener` | src/main/java/com/moilioncircle/redis/cli/tool/ext/CliRedisReplicator.java:138-141 | Forwards to the held engine: the engine's reply, and only the engine's state changes |
| `CliReplicator.CliRedisReplicator.RemoveCloseListener` | src/main/java/com/moilioncircle/redis/cli/tool/ext/CliRedisReplicator.java:143-146 | Forwards to the held engine: the engine's reply, and only the engine's state changes |
| `CliReplicator.CliRedisReplicator.AddExceptionListener` | src/main/java/com/moilioncircle/redis/cli/tool/ext/CliRedisReplicator.java:148-151 | Forwards to the held engine: the engine's reply, and only the engine's state changes |
| `CliReplicator.CliRedisReplicator.RemoveExceptionListener` | src/main/java/com/moilioncircle/redis/cli/tool/ext/CliRedisReplicator.java:153-156 | Forwards to the held engine: the engine's reply, and only the engine's state changes |
| `CliReplicator.CliRedisReplicator.Verbose` | src/main/java/com/moilioncircle/redis/cli/tool/ext/CliRedisReplicator.java:158-161 | Forwards to the held engine: the engine's reply, and only the engine's state changes |
| `CliReplicator.CliRedisReplicator.GetStatus` | src/main/java/com/moilioncircle/redis/cli/tool/ext/CliRedisReplicator.java:163-166 | Forwards to the held engine: the engine's reply, and only the engine's state changes |
| `CliReplicator.CliRedisReplicator.GetConfiguration` | src/main/java/com/moilioncircle/redis/cli/tool/ext/CliRedisReplicator.java:168-171 | Forwards to the held engine: the engine's reply, and only the engine's state changes |
| `CliReplicator.CliRedisReplicator.Open` | src/main/java/com/moilioncircle/redis/cli/tool/ext/CliRedisReplicator.java:173-176 | Forwards to the held engine: the engine's reply, an exception included, and only the engine's state changes |
| `CliReplicator.CliRedisReplicator.Close` | src/main/java/com/moilioncircle/redis/cli/tool/ext/CliRedisReplicator.java:178-181 | Forwards to the held engine: the engine's reply, an exception included, and only the engine's state changes |
| `CliReplicator.CliRedisReplicator.CloseOrThrow` | src/main/java/com/moilioncircle/redis/cli/tool/ext/CliRedisReplicator.java:183-190 | For null it does nothing and completes normally. Otherwise it closes the facade, and its outcome is `Rethrown` of the close reply |
| `CliReplicator.CliRedisReplicator.CloseQuietly` | src/main/java/com/moilioncircle/redis/cli/tool/ext/CliRedisReplicator.java:192-198 | Always completes normally. For null it does nothing. Otherwise it closes the facade exactly as `close()` does, discarding any failure |

## Left out

- The four engines' code is not part of this model: RDB, AOF and mixed decoding, the PSYNC handshake,
  listener calls, status changes, close idempotence, and the rule against opening twice. Each engine is
  an `Engine` with an abstract state and an abstract `behaviour`.
- `RedisURI` parsing, `Configuration.valueOf`, `Configure.merge` and `uri.toURL().openStream()` are
  foreign code. They enter as the function values in `Dispatch.Library`. Opening gives either the
  resource's bytes or the exception it throws.
- `FileType` is declared in the replicator library, which is not part of this model. The switch handles
  three constants and has a default branch. The model adds `Unlisted(name)` to stand for any other
  constant and the branch that rejects it, with the constant's name as the message.
- `Io.PeekableInputStream.Peek`: an I/O failure during the peek is not modelled. The stream's contents
  are fixed once it is opened.
- The engine's later reads from the stream (during `open()`) are not modelled as reads of the stream
  object. The engine's starting state is built from all the stream's bytes, the peeked one included, and
  its code works from that state. `pending` records the bytes as handed to the engine, not the engine's
  read position.
- `Configuration.valueOf`, `Configure.merge` and the four engine constructors (lines 47, 48 and 54-69)
  are taken to return normally. Unlike URI parsing and opening the stream, they are total functions
  here, so `Initialization` promises success for every socket URI with a non-null configure.
- A stream opened for an unsupported file type is never closed in the source. The model only records,
  in `Setup.stream`, that it was opened.
- Forwarded results are the generic `Reply` (a value or a throwable), not the Java method's own result
  type. Nothing ties the shape of the returned value to the call: an engine's code may answer `Verbose`
  with a status, which Java's types rule out. Arguments have no null: what an engine does with a null
  listener or parser is the engine's own affair.
- `CliReplicator.CliRedisReplicator.CloseOrThrow` and `CloseQuietly` accept any `Replicator` in Java.
  The model has a single facade class and no `Replicator` interface type, so the helpers take the
  facade. By `FacadeIsTransparent`, closing the facade is closing its engine.
- `open()` blocking, background read threads and listener ordering across threads are concurrency and
  I/O, and are not modelled.
