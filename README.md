# ThreadLogger in Dafny

This is a Dafny model of the core of ThreadLogger, a Qt logging library in which every
thread owns one logger. The model covers three parts:

- **The registry** (`LogHolder`). It maps thread ids to loggers. It answers whether a
  thread is registered. It inserts a logger only when the thread has none. A lookup
  falls back to the first registered logger, and to a fresh invalid logger when the
  registry is empty.
- **The per-thread logger state** (`LogPrivate`). It holds a validity flag, a display
  (thread) name, the log file and two severity thresholds, one for the file and one for
  the console. It hands out message builders.
- **The per-message builder** (`LogInstancePrivate`). When it is built, it decides once
  whether each sink is enabled. As fragments arrive, it writes a line prefix at most
  once per line. `std::endl` ends a line. Finalisation writes a line break on every
  sink whose line has started.

The `Log` and `LogInstance` handles are thin classes around a reference to their state
block. Copying or assigning a handle shares that block, which the model represents by
Dafny reference aliasing.

Layout:

- `levels.dfy` (module `LogLevels`): the `LogLevel` enum, its ordinals and names, and
  the threshold test.
- `prefixes.dfy` (module `Prefixes`): the common, file, console and "still owed" line
  prefixes, as string functions. The clock reading is a string parameter.
- `lines.dfy` (module `Lines`): the line protocol of one sink, stated on values. A
  `Channel` is one sink as a builder sees it: whether it is enabled, whether its line
  has started, and the text it holds. `Step` is what one append or `endl` does to a
  channel, `Close` is finalisation, and `Run` applies a sequence of operations. The
  lemmas about whole messages are proved here.
- `decimal.dfy` (module `Decimal`): the decimal text the `int` and `unsigned int`
  overloads write.
- `registry.dfy` (module `Registry`): the registry's contents as a sequence of
  `(thread id, logger)` entries, with first-match search and fallback lookup.
- `threadlogger.dfy` (module `ThreadLogger`): the classes `Sink`, `LogPrivate`,
  `LogInstancePrivate`, `LogHolder`, `Log` and `LogInstance`. Each method that changes
  a builder's sinks is proved to change them exactly as `Lines.Step` or `Lines.Close`
  says. The file ends with client methods that combine several calls.

Sinks are `Sink` objects that hold the text written to them. A logger owns its log-file
sink, and every builder it creates writes into that same object. The console sink is
standard error for an `ERROR` message and standard output otherwise, as in the
builder's constructor. Both console sinks are passed in by the caller.

## Model

| member | source | states |
|---|---|---|
| `LogLevels.ToString` | threadlogger.cpp:33-55 | Every level name is a non-empty word of upper-case letters. `NameRecovered` adds that the names can be read back. |
| `LogLevels.ToInt` | threadlogger.cpp:61-64 | Ordinals run from 0 to 5. Ordinal 5 belongs to PLAINTEXT and to no other level. |
| `LogLevels.OrdinalRoundTrip` | threadlogger.h:17-24 | Ordinals identify levels. `FromInt` undoes `ToInt` and is defined exactly on 0..5. |
| `LogLevels.NameRecovered` | threadlogger.cpp:33-55 | Every level name is non-empty. The level can be read back from any text that starts with its name, so the six names are distinct and none is a prefix of another. |
| `LogLevels.Passes` | threadlogger.cpp:340-343 | A sink is enabled iff the message ordinal is at least the threshold ordinal. PLAINTEXT always passes, so the explicit PLAINTEXT disjunct is redundant. |
| `LogLevels.PassesMonotone` | threadlogger.h:17-24 | Raising the message level, or lowering a threshold, never disables a sink that was enabled. |
| `Prefixes.CommonPrefix` | threadlogger.cpp:434-444 | The common prefix is longer than the timestamp, by at least a space and the level name. `CommonPrefixShape` gives its layout. |
| `Prefixes.LogFilePrefix` | threadlogger.cpp:428-431 | The file prefix is longer than the timestamp plus two characters, and it ends with `": "`. |
| `Prefixes.CommonPrefixShape` | threadlogger.cpp:434-444 | The common prefix starts with the timestamp and a space, and the level can be read back right after it. It ends with `" " + caller` when the caller differs from the thread name. When they are equal, it is exactly timestamp, space and level name. |
| `Prefixes.CoutPrefix` | threadlogger.cpp:418-425 | The console prefix is the file prefix, preceded by `thread + ": "` exactly when the captured thread name is non-empty. |
| `Prefixes.DynamicPrefix` | threadlogger.cpp:401-415 | The owed prefix is empty iff the line has started or the level is PLAINTEXT. Otherwise it is the sink's full prefix. |
| `Prefixes.LevelInFilePrefix` | threadlogger.cpp:428-431 | The message level can be read back from the file prefix, just after the timestamp. |
| `Lines.Step` | threadlogger.cpp:367-398 | One append or `endl` never turns a sink on or off, and leaves a disabled sink exactly as it was. On an enabled sink it only adds text after what is there. The line counts as started after an append and not after `endl`. After `endl` the text ends in a line break. |
| `Lines.Close` | threadlogger.cpp:354-364 | Finalisation changes a sink iff it is enabled and its line has started. In that case it adds exactly one character and the text ends in a line break. It never changes the flags, and it only adds to the text. |
| `Lines.DisabledUntouched` | threadlogger.cpp:367-398 | Any sequence of appends and `endl`, and finalisation too, leaves a disabled sink exactly as it was. |
| `Lines.RunConcat` | threadlogger.cpp:367-398 | Applying two batches of operations one after the other is the same as applying their concatenation. |
| `Lines.StartedLineTakesFragments` | threadlogger.cpp:367-381 | On a started line, fragments are written as they are, in order, with no prefix. |
| `Lines.OnePrefixPerLine` | threadlogger.cpp:367-381 | Fragments f1..fn appended to a fresh enabled sink leave it holding exactly one prefix, formatted at the first fragment (none for PLAINTEXT), followed by f1+…+fn. Finalisation then adds exactly one line break. |
| `Lines.FragmentsThenEndLine` | threadlogger.cpp:384-398 | `endl` after fragments writes a line break and no second prefix. It clears the started flag, and finalisation afterwards writes nothing. |
| `Lines.EmptyLineKeepsPrefix` | threadlogger.cpp:384-398 | `endl` with no fragment before it still writes the prefix and then the line break. |
| `Lines.EnabledFrozen` | threadlogger.cpp:340-346 | No operation turns a sink on or off. |
| `Lines.EveryMessageTerminated` | threadlogger.cpp:354-364 | After any message is finalised, each sink either received nothing or holds text that ends in a line break. |
| `Decimal.NatText` | threadlogger.cpp:485-489 | The text of a natural number is non-empty, made only of digits, and starts with `0` only for zero. |
| `Decimal.NatTextRoundTrip` | threadlogger.cpp:485-489 | Parsing the decimal text of a natural number gives the number back. |
| `Decimal.IntText` | threadlogger.cpp:478-482 | The text of an int is well formed (an optional minus sign, then digits), and it starts with `-` iff the number is negative. |
| `Decimal.IntTextRoundTrip` | threadlogger.cpp:478-482 | The decimal text of any integer, negatives included, is well formed, and parsing it gives the integer back. |
| `Registry.Find` | threadlogger.cpp:229-232 | The search fails iff no entry has the id. Otherwise it returns the first position whose entry has the id. |
| `Registry.Lookup` | threadlogger.cpp:226-236 | The lookup is empty iff the registry is empty. A registered id yields the logger of one of its own entries. An unregistered id yields the first entry's logger. |
| `Registry.FindAppend` | threadlogger.cpp:214-224 | Appending an entry does not move an id's first match. The new entry is found only for an id that was absent. |
| `Registry.LookupUnique` | threadlogger.cpp:226-236 | When ids are unique, looking up a registered id returns that id's own logger. |
| `Registry.LookupAfterInsert` | threadlogger.cpp:242-257 | After a new id is registered, looking it up returns the new logger. Unless the registry was empty, every other id's lookup is unchanged. Uniqueness of ids is preserved. |
| `ThreadLogger.LogPrivate.Invalid` | threadlogger.cpp:298-302 | A default logger state is invalid and has an empty name. |
| `ThreadLogger.LogPrivate.constructor` | threadlogger.cpp:305-311 | A named logger state is valid and keeps the given name. Its thresholds stay unset. |
| `ThreadLogger.LogPrivate.Init` | threadlogger.cpp:281-282 | Sets the file and console thresholds to the given levels and changes nothing else. |
| `ThreadLogger.LogPrivate.Instance` | threadlogger.cpp:286-292 | An invalid logger yields an inert builder. A valid one yields a builder configured from its name, its file and its thresholds. |
| `ThreadLogger.LogPrivate.AddLog` | threadlogger.cpp:242-250 | Succeeds iff the thread was not registered. On success exactly one entry is appended. Otherwise the registry is unchanged. |
| `ThreadLogger.LogPrivate.CurrentLog` | threadlogger.cpp:253-257 | Returns the registry's lookup for the thread, or a fresh invalid logger when the registry is empty. |
| `ThreadLogger.LogInstancePrivate.Invalid` | threadlogger.cpp:324-329 | A default builder is inert: invalid, both sinks disabled and detached, nothing started. |
| `ThreadLogger.LogInstancePrivate.constructor` | threadlogger.cpp:332-351 | The file and console enablement are computed once from the thresholds. The thread name is kept only when the file sink is enabled. The file stream is attached only then. The console is standard error for ERROR and standard output otherwise. |
| `ThreadLogger.LogInstancePrivate.Finish` | threadlogger.cpp:354-364 | Each sink moves exactly as `Lines.Close` says: one line break, only if the sink is enabled and its line has started. |
| `ThreadLogger.LogInstancePrivate.Append` | threadlogger.cpp:367-381 | Each sink moves exactly as `Lines.Step` with a fragment says, using its own clock reading. The builder's configuration is unchanged. |
| `ThreadLogger.LogInstancePrivate.EndLine` | threadlogger.cpp:384-398 | Each sink moves exactly as `Lines.Step` with `endl` says, using its own clock reading. The builder's configuration is unchanged. |
| `ThreadLogger.LogHolder.constructor` | threadlogger.cpp:88-92 | The registry starts empty, so its ids are trivially unique. |
| `ThreadLogger.LogHolder.Contains` | threadlogger.cpp:204-212 | Returns true iff some entry has the id. |
| `ThreadLogger.LogHolder.Insert` | threadlogger.cpp:214-224 | Returns false and leaves storage unchanged when the id is present. Otherwise it returns true and appends exactly one entry for the id, with earlier entries unchanged. Ids stay unique. |
| `ThreadLogger.LogHolder.Value` | threadlogger.cpp:226-236 | Returns the first exact match, else the first entry, else a fresh invalid logger. |
| `ThreadLogger.Log.Invalid` | threadlogger.h:88-91 | A default-constructed Log refers to a fresh, invalid state block. |
| `ThreadLogger.Log.Named` | threadlogger.cpp:549-550 | A Log created with a thread name refers to a fresh, valid block that holds that name. |
| `ThreadLogger.Log.Copy` | threadlogger.cpp:534-535 | A copy shares the original's state block. |
| `ThreadLogger.Log.Share` | threadlogger.cpp:229-234 | The handle returned for a stored logger shares the stored state block. |
| `ThreadLogger.Log.Assign` | threadlogger.cpp:542-546 | After assignment the handle shares the other handle's state block. |
| `ThreadLogger.Log.Init` | threadlogger.cpp:553-556 | Sets the thresholds of the shared state block. |
| `ThreadLogger.Log.Instance` | threadlogger.cpp:518-521 | Same contract as `LogPrivate.Instance`, applied to the handle's state block. |
| `ThreadLogger.Log.AddLog` | threadlogger.cpp:509-515 | The result is valid iff the thread was not registered. A valid result carries the name and is the one entry appended. An invalid result leaves the registry unchanged. |
| `ThreadLogger.Log.AddUnnamedLog` | threadlogger.cpp:503-506 | Same as `AddLog` with an empty thread name. |
| `ThreadLogger.Log.Current` | threadlogger.cpp:524-527 | Returns a handle on the registry's lookup for the thread, or on a fresh invalid block when the registry is empty. |
| `ThreadLogger.LogInstance.Invalid` | threadlogger.h:29-33 | A default LogInstance refers to an inert builder, so nothing can be logged through it. |
| `ThreadLogger.LogInstance.constructor` | threadlogger.cpp:456-461 | Refers to a fresh builder configured as `LogInstancePrivate.constructor` states. |
| `ThreadLogger.LogInstance.Copy` | threadlogger.cpp:452 | A copy shares the original's builder. |
| `ThreadLogger.LogInstance.Assign` | threadlogger.cpp:464-468 | After assignment the handle shares the other handle's builder. |
| `ThreadLogger.LogInstance.Write` | threadlogger.cpp:471-475 | A text fragment moves both sinks as `Lines.Step` says, each with its own clock reading. |
| `ThreadLogger.LogInstance.WriteInt` | threadlogger.cpp:478-482 | An int is written exactly as the fragment holding its decimal text would be. |
| `ThreadLogger.LogInstance.WriteUnsigned` | threadlogger.cpp:485-489 | An unsigned int is written exactly as the fragment holding its decimal text would be. |
| `ThreadLogger.LogInstance.WriteValue` | threadlogger.h:70-77 | Any other value is first converted to text, then written exactly as that text fragment would be. |
| `ThreadLogger.LogInstance.EndLine` | threadlogger.cpp:492-496 | `endl` moves both sinks as `Lines.Step` says, each with its own clock reading. |
| `ThreadLogger.LevelInstance` | threadlogger.cpp:563-632 | A builder at the given level from the thread's looked-up logger. It is inert when that logger is invalid or the registry is empty, and configured from the logger otherwise. |
| `ThreadLogger.PlaintextInstance` | threadlogger.cpp:638-641 | The builder is inert when the registry is empty or the looked-up logger is invalid. Otherwise it is configured from that logger at level PLAINTEXT with an empty caller name. Both of its sinks are then enabled, whatever the thresholds. Because its format has level PLAINTEXT, `Prefixes.DynamicPrefix` never owes it a prefix. |
| `ThreadLogger.CopiesShareBuilder` | threadlogger.h:49-51 | Output written through a copy of a LogInstance moves the original's sinks, as `Lines.Step` says. |
| `ThreadLogger.RegisterTwice` | threadlogger.h:107-126 | After a first registration, a lookup from the same thread returns that logger. A second registration returns an invalid Log and leaves the registry unchanged. |
| `ThreadLogger.BorrowFirst` | threadlogger.cpp:233-234 | A thread that never registered gets the first registered logger's state block. |
| `ThreadLogger.WorkerPrefix` | threadlogger.cpp:428-444 | For an INFO message from caller "mod" on thread "W1", the file prefix is the timestamp followed by ` INFO mod: `. |
| `ThreadLogger.WorkerLine` | threadlogger.cpp:367-381 | One such fragment, then finalisation, gives the file exactly that prefix, the fragment and a line break. |
| `ThreadLogger.WorkerMessage` | threadlogger.cpp:336-351 | A logger named "W1" with file threshold DEBUG and console threshold ERROR gives an INFO builder for caller "mod" that writes to its own log file only. Its console sink is standard output, and the file channel starts empty and unstarted. |
| `ThreadLogger.IndependentSinks` | threadlogger.cpp:340-350 | With file threshold DEBUG and console threshold ERROR, an INFO message goes to the file with the caller in its prefix. The console receives nothing. |
| `ThreadLogger.InvalidLogWritesNothing` | threadlogger.cpp:286-292 | An append, an `endl` and finalisation through an invalid Log write nothing to the file, standard output or standard error. |

## Left out

- `ThreadLogger.LogPrivate.Init`: does not model folder creation, opening the file or the diagnostic printed when opening fails (threadlogger.cpp:263-278). These are filesystem I/O. Only the threshold assignment, which happens either way, is modelled.
- A `Sink` records everything written to its stream. Whether the file was opened, and so whether the text persists, is not modelled. Buffering inside `QTextStream` is not modelled either: writes land immediately and in call order. A sink holds characters, not the bytes on disk. The text-mode line-ending translation of `QIODevice::Text` (threadlogger.cpp:276) and the character encoding `QTextStream` applies are not modelled.
- The clock and the `dd.MM.yyyy hh:mm:ss` formatting are not modelled. Each append and `endl` takes two clock readings as uninterpreted strings, one for the file sink and one for the console sink. This matches the source, which reads the clock each time it formats a prefix.
- `QReadWriteLock` and the race between `contains` and `insert` are left out. These are concurrency. Every registry method is one atomic step, and calls are sequential.
- `std::this_thread::get_id` is replaced by a thread-id parameter.
- The registry stores each thread id next to its logger in the entry. The source writes the id into the logger's shared state (`m_threadId`). The two differ only if one state block were inserted under two ids, which `addLog` never does, because it always inserts a fresh logger.
- Reference counting and the closing of the file in `~LogPrivate` are replaced by Dafny aliasing. Finalisation (`LogInstancePrivate.Finish`) is a method the client calls. The model does not tie it to the release of the last handle, and it does not stop a second call.
- The `std::stringstream` conversion in the generic `operator<<` is the caller-supplied function `toText`. The `QTextStream` integer formatting is `Decimal.IntText` / `Decimal.NatText`.
- Builders take the console sinks as parameters and require that neither is the logger's own file sink. In the program these are always distinct devices.
- Thresholds that are read before `init` has run are unspecified in the model. The C++ fields are uninitialised there. The same holds for the message level of a default builder.
- The final `return 0` of `toString` is unreachable, because `LogLevel` is a closed enumeration.
- The argument-less `lDebug()`, `lVerbose()`, `lInfo()`, `lMandatory()` and `lError()` are `ThreadLogger.LevelInstance` with an empty caller name. They are not separate members.
- `loggable.h` is an interface with no behaviour. The globals at threadlogger.cpp:294-296 and `DuplicateLogError` (threadlogger.cpp:97-98) are unused.
