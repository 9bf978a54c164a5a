/**
 * The objects of the thread logger (threadlogger.cpp, threadlogger.h): the
 * sinks, the per-thread logger state (LogPrivate), the per-message builder
 * (LogInstancePrivate), the thread registry (LogHolder) and the two handle
 * classes (Log, LogInstance). A handle is a reference to a shared state
 * block; copying a handle shares that block, which Dafny models by aliasing
 * the reference.
 */
module ThreadLogger {
  import opened Options
  import opened LogLevels
  import opened Prefixes
  import opened Lines
  import opened Decimal
  import opened Registry

  /** A text destination: a log file, standard output or standard error. */
  class Sink {
    var text: string

    constructor ()
      ensures text == ""
    {
      text := "";
    }
  }

  /** The state block behind a Log handle. */
  class LogPrivate {
    var valid: bool
    var threadName: string
    var logFile: Sink
    var logMsgLevel: LogLevel   // minimum level for the log file
    var coutMsgLevel: LogLevel  // minimum level for the console

    /** The state of a default-constructed, permanently invalid Log. */
    constructor Invalid()
      ensures !valid && threadName == ""
      ensures fresh(logFile) && logFile.text == ""
    {
      valid := false;
      threadName := "";
      logFile := new Sink();
    }

    /** The state of a valid Log; both thresholds stay unset until Init. */
    constructor (threadName: string)
      ensures valid && this.threadName == threadName
      ensures fresh(logFile) && logFile.text == ""
    {
      valid := true;
      this.threadName := threadName;
      logFile := new Sink();
    }

    /** Sets both thresholds, whether or not the log file could be opened. */
    method Init(coutLevel: LogLevel, logFileLevel: LogLevel)
      modifies this`logMsgLevel, this`coutMsgLevel
      ensures logMsgLevel == logFileLevel && coutMsgLevel == coutLevel
    {
      logMsgLevel := logFileLevel;
      coutMsgLevel := coutLevel;
    }

    /**
     * A builder for one message: an inert one when this logger is invalid,
     * otherwise one configured from this logger's name, file and thresholds.
     */
    method Instance(callerName: string, verbosity: LogLevel, stdout: Sink, stderr: Sink)
      returns (r: LogInstance)
      requires stdout != logFile && stderr != logFile
      ensures fresh(r) && fresh(r.d) && r.d.Valid()
      ensures !valid ==> r.d.Inert()
      ensures valid ==> r.d.Configured(callerName, verbosity, threadName, logFile,
                                       logMsgLevel, coutMsgLevel, stdout, stderr)
    {
      if !valid {
        r := new LogInstance.Invalid();
      } else {
        r := new LogInstance(callerName, verbosity, threadName, logFile,
                             logMsgLevel, coutMsgLevel, stdout, stderr);
      }
    }

    /** Registers `log` for thread `tid` unless that thread has one. */
    static method AddLog(dict: LogHolder, tid: ThreadId, log: LogPrivate) returns (ok: bool)
      requires dict.Valid()
      modifies dict
      ensures dict.Valid()
      ensures ok <==> !Registered(old(dict.storage), tid)
      ensures dict.storage == if ok then old(dict.storage) + [Entry(tid, log)] else old(dict.storage)
    {
      var present := dict.Contains(tid);
      if !present {
        var inserted := dict.Insert(tid, log);
        ok := true;
      } else {
        ok := false;
      }
    }

    /** The logger the registry gives thread `tid`. */
    static method CurrentLog(dict: LogHolder, tid: ThreadId) returns (r: LogPrivate)
      ensures Lookup(dict.storage, tid).Some? ==> r == Lookup(dict.storage, tid).value
      ensures Lookup(dict.storage, tid).None? ==> fresh(r) && fresh(r.logFile) && !r.valid
    {
      r := dict.Value(tid);
    }
  }

  /** The state block behind a LogInstance handle: one message being written. */
  class LogInstancePrivate {
    var valid: bool
    var startedLogFile: bool
    var startedCout: bool
    var outputFile: bool
    var outputCout: bool
    var callerName: string
    var verbosity: LogLevel
    var threadName: string
    var logFile: Sink?  // null: the file stream has no device
    var cout: Sink?     // null: the console stream has no device

    ghost predicate Valid()
      reads this
    {
      && (outputFile ==> logFile != null)
      && (outputCout ==> cout != null)
      && (logFile != null && cout != null ==> logFile != cout)
      && (!valid ==> !outputFile && !outputCout)
    }

    /** An inert builder: both sinks disabled and detached, nothing started. */
    ghost predicate Inert()
      reads this
    {
      && !valid && !outputFile && !outputCout && !startedLogFile && !startedCout
      && logFile == null && cout == null
    }

    /**
     * A fresh valid builder for a message at `verbosity`: enablement decided
     * once from the thresholds, the thread name kept only when the file sink
     * is enabled, the file stream attached only then, the console stream on
     * standard error for ERROR and on standard output otherwise.
     */
    ghost predicate Configured(callerName: string, verbosity: LogLevel, threadName: string,
                               logFile: Sink, logFileLevel: LogLevel, coutLevel: LogLevel,
                               stdout: Sink, stderr: Sink)
      reads this
    {
      && valid
      && outputFile == Passes(verbosity, logFileLevel)
      && outputCout == Passes(verbosity, coutLevel)
      && this.callerName == callerName
      && this.verbosity == verbosity
      && this.threadName == (if outputFile then threadName else "")
      && this.logFile == (if outputFile then logFile else null)
      && cout == (if verbosity == ERROR then stderr else stdout)
      && !startedLogFile && !startedCout
    }

    function Format(): Fmt
      reads this
    {
      Fmt(verbosity, threadName, callerName)
    }

    ghost function FileChannel(): Channel
      reads this, logFile
    {
      Channel(outputFile, startedLogFile, if logFile == null then "" else logFile.text)
    }

    ghost function CoutChannel(): Channel
      reads this, cout
    {
      Channel(outputCout, startedCout, if cout == null then "" else cout.text)
    }

    constructor Invalid()
      ensures Valid() && Inert()
    {
      valid := false;
      startedLogFile := false;
      startedCout := false;
      outputFile := false;
      outputCout := false;
      callerName := "";
      threadName := "";
      logFile := null;
      cout := null;
    }

    constructor (callerName: string, verbosity: LogLevel, threadName: string, logFile: Sink,
                 logFileLevel: LogLevel, coutLevel: LogLevel, stdout: Sink, stderr: Sink)
      requires stdout != logFile && stderr != logFile
      ensures Valid()
      ensures Configured(callerName, verbosity, threadName, logFile, logFileLevel, coutLevel,
                         stdout, stderr)
    {
      valid := true;
      startedLogFile := false;
      startedCout := false;
      var toFile := Passes(verbosity, logFileLevel);
      outputFile := toFile;
      outputCout := Passes(verbosity, coutLevel);
      this.callerName := callerName;
      this.verbosity := verbosity;
      this.threadName := if toFile then threadName else "";
      cout := if verbosity == ERROR then stderr else stdout;
      this.logFile := if toFile then logFile else null;
    }

    /** Finalisation (the destructor): closes each started line on an enabled sink. */
    method Finish()
      requires Valid()
      modifies logFile, cout
      ensures FileChannel() == Close(old(FileChannel()))
      ensures CoutChannel() == Close(old(CoutChannel()))
    {
      if valid {
        if startedLogFile && outputFile {
          logFile.text := logFile.text + "\n";
        }
        if startedCout && outputCout {
          cout.text := cout.text + "\n";
        }
      }
    }

    /**
     * Streams a fragment, preceded on each enabled sink by the prefix it still
     * owes. Each sink formats its prefix from its own clock reading.
     */
    method Append(t: string, tsFile: string, tsCout: string)
      requires Valid()
      modifies this`startedLogFile, this`startedCout, logFile, cout
      ensures Valid()
      ensures FileChannel() == Step(LogFile, Format(), old(FileChannel()), Put(t, tsFile))
      ensures CoutChannel() == Step(Console, Format(), old(CoutChannel()), Put(t, tsCout))
    {
      if valid {
        if outputFile {
          logFile.text := logFile.text + DynamicPrefix(LogFile, Format(), startedLogFile, tsFile) + t;
          startedLogFile := true;
        }
        if outputCout {
          cout.text := cout.text + DynamicPrefix(Console, Format(), startedCout, tsCout) + t;
          startedCout := true;
        }
      }
    }

    /**
     * Streams std::endl: the prefix still owed, a line break, and the line
     * restarts. Each sink formats its prefix from its own clock reading.
     */
    method EndLine(tsFile: string, tsCout: string)
      requires Valid()
      modifies this`startedLogFile, this`startedCout, logFile, cout
      ensures Valid()
      ensures FileChannel() == Step(LogFile, Format(), old(FileChannel()), Lines.EndLine(tsFile))
      ensures CoutChannel() == Step(Console, Format(), old(CoutChannel()), Lines.EndLine(tsCout))
    {
      if valid {
        if outputFile {
          logFile.text := logFile.text + DynamicPrefix(LogFile, Format(), startedLogFile, tsFile) + "\n";
          startedLogFile := false;
        }
        if outputCout {
          cout.text := cout.text + DynamicPrefix(Console, Format(), startedCout, tsCout) + "\n";
          startedCout := false;
        }
      }
    }
  }

  /** The process-wide registry of loggers, one per thread. */
  class LogHolder {
    var storage: seq<Entry<LogPrivate>>

    ghost predicate Valid()
      reads this
    {
      Unique(storage)
    }

    constructor ()
      ensures Valid() && storage == []
    {
      storage := [];
    }

    method Contains(id: ThreadId) returns (b: bool)
      ensures b <==> Registered(storage, id)
    {
      var i := 0;
      while i < |storage|
        invariant 0 <= i <= |storage|
        invariant forall j :: 0 <= j < i ==> storage[j].id != id
      {
        if storage[i].id == id {
          return true;
        }
        i := i + 1;
      }
      return false;
    }

    /** Appends an entry for `id` only when the registry has none. */
    method Insert(id: ThreadId, log: LogPrivate) returns (ok: bool)
      requires Valid()
      modifies this
      ensures Valid()
      ensures ok <==> !Registered(old(storage), id)
      ensures storage == if ok then old(storage) + [Entry(id, log)] else old(storage)
    {
      var present := Contains(id);
      if !present {
        storage := storage + [Entry(id, log)];
        ok := true;
      } else {
        ok := false;
      }
    }

    /**
     * The logger of the first entry for `id`, else the first registered
     * logger, else a fresh invalid one.
     */
    method Value(id: ThreadId) returns (r: LogPrivate)
      ensures Lookup(storage, id).Some? ==> r == Lookup(storage, id).value
      ensures Lookup(storage, id).None? ==> fresh(r) && fresh(r.logFile) && !r.valid
    {
      var i := 0;
      while i < |storage|
        invariant 0 <= i <= |storage|
        invariant forall j :: 0 <= j < i ==> storage[j].id != id
      {
        if storage[i].id == id {
          assert Find(storage, id) == Some(i);
          return storage[i].log;
        }
        i := i + 1;
      }
      if storage != [] {
        return storage[0].log;
      }
      r := new LogPrivate.Invalid();
    }
  }

  /** A handle on a logger's state block; copies share the block. */
  class Log {
    var d: LogPrivate

    /** A default-constructed Log is invalid. */
    constructor Invalid()
      ensures fresh(d) && fresh(d.logFile) && d.logFile.text == "" && !d.valid && d.threadName == ""
    {
      d := new LogPrivate.Invalid();
    }

    /** A valid Log with a thread name. */
    constructor Named(threadName: string)
      ensures fresh(d) && fresh(d.logFile) && d.logFile.text == "" && d.valid && d.threadName == threadName
    {
      d := new LogPrivate(threadName);
    }

    /** The copy constructor: the new handle shares the state block. */
    constructor Copy(other: Log)
      ensures d == other.d
    {
      d := other.d;
    }

    /** A handle on a block already held elsewhere, as a copy of a stored Log gives. */
    constructor Share(d: LogPrivate)
      ensures this.d == d
    {
      this.d := d;
    }

    /** Assignment: this handle now shares the other's state block. */
    method Assign(other: Log)
      modifies this
      ensures d == other.d
    {
      d := other.d;
    }

    method Init(coutLevel: LogLevel, logFileLevel: LogLevel)
      modifies d`logMsgLevel, d`coutMsgLevel
      ensures d.logMsgLevel == logFileLevel && d.coutMsgLevel == coutLevel
    {
      d.Init(coutLevel, logFileLevel);
    }

    method Instance(callerName: string, verbosity: LogLevel, stdout: Sink, stderr: Sink)
      returns (r: LogInstance)
      requires stdout != d.logFile && stderr != d.logFile
      ensures fresh(r) && fresh(r.d) && r.d.Valid()
      ensures !d.valid ==> r.d.Inert()
      ensures d.valid ==> r.d.Configured(callerName, verbosity, d.threadName, d.logFile,
                                         d.logMsgLevel, d.coutMsgLevel, stdout, stderr)
    {
      r := d.Instance(callerName, verbosity, stdout, stderr);
    }

    /**
     * Creates the logger of thread `tid`; when that thread already has one,
     * the registry is left alone and the result is an invalid Log.
     */
    static method AddLog(dict: LogHolder, tid: ThreadId, threadName: string) returns (r: Log)
      requires dict.Valid()
      modifies dict
      ensures dict.Valid() && fresh(r) && fresh(r.d) && fresh(r.d.logFile) && r.d.logFile.text == ""
      ensures r.d.valid <==> !Registered(old(dict.storage), tid)
      ensures r.d.valid ==>
        r.d.threadName == threadName && dict.storage == old(dict.storage) + [Entry(tid, r.d)]
      ensures !r.d.valid ==> dict.storage == old(dict.storage)
    {
      var log := new Log.Named(threadName);
      var ok := LogPrivate.AddLog(dict, tid, log.d);
      if !ok {
        r := new Log.Invalid();
      } else {
        r := log;
      }
    }

    /** Log::addLog() without arguments: an empty thread name. */
    static method AddUnnamedLog(dict: LogHolder, tid: ThreadId) returns (r: Log)
      requires dict.Valid()
      modifies dict
      ensures dict.Valid() && fresh(r) && fresh(r.d) && fresh(r.d.logFile) && r.d.logFile.text == ""
      ensures r.d.valid <==> !Registered(old(dict.storage), tid)
      ensures r.d.valid ==>
        r.d.threadName == "" && dict.storage == old(dict.storage) + [Entry(tid, r.d)]
      ensures !r.d.valid ==> dict.storage == old(dict.storage)
    {
      r := AddLog(dict, tid, "");
    }

    /** Log::log: a handle on the logger the registry gives thread `tid`. */
    static method Current(dict: LogHolder, tid: ThreadId) returns (r: Log)
      ensures fresh(r)
      ensures Lookup(dict.storage, tid).Some? ==> r.d == Lookup(dict.storage, tid).value
      ensures Lookup(dict.storage, tid).None? ==> fresh(r.d) && fresh(r.d.logFile) && !r.d.valid
    {
      var state := LogPrivate.CurrentLog(dict, tid);
      r := new Log.Share(state);
    }
  }

  /** A handle on a message builder; copies share the builder. */
  class LogInstance {
    var d: LogInstancePrivate

    /** A default-constructed LogInstance: nothing can be logged through it. */
    constructor Invalid()
      ensures fresh(d) && d.Valid() && d.Inert()
    {
      d := new LogInstancePrivate.Invalid();
    }

    constructor (callerName: string, verbosity: LogLevel, threadName: string, logFile: Sink,
                 logFileLevel: LogLevel, coutLevel: LogLevel, stdout: Sink, stderr: Sink)
      requires stdout != logFile && stderr != logFile
      ensures fresh(d) && d.Valid()
      ensures d.Configured(callerName, verbosity, threadName, logFile, logFileLevel, coutLevel,
                           stdout, stderr)
    {
      d := new LogInstancePrivate(callerName, verbosity, threadName, logFile,
                                  logFileLevel, coutLevel, stdout, stderr);
    }

    constructor Copy(other: LogInstance)
      ensures d == other.d
    {
      d := other.d;
    }

    method Assign(other: LogInstance)
      modifies this
      ensures d == other.d
    {
      d := other.d;
    }

    /** operator<<(QString). */
    method Write(t: string, tsFile: string, tsCout: string)
      requires d.Valid()
      modifies d`startedLogFile, d`startedCout, d.logFile, d.cout
      ensures d.Valid()
      ensures d.FileChannel() == Step(LogFile, d.Format(), old(d.FileChannel()), Put(t, tsFile))
      ensures d.CoutChannel() == Step(Console, d.Format(), old(d.CoutChannel()), Put(t, tsCout))
    {
      d.Append(t, tsFile, tsCout);
    }

    /** operator<<(int): the number's decimal text, like any other fragment. */
    method WriteInt(n: int32, tsFile: string, tsCout: string)
      requires d.Valid()
      modifies d`startedLogFile, d`startedCout, d.logFile, d.cout
      ensures d.Valid()
      ensures d.FileChannel() == Step(LogFile, d.Format(), old(d.FileChannel()), Put(IntText(n as int), tsFile))
      ensures d.CoutChannel() == Step(Console, d.Format(), old(d.CoutChannel()), Put(IntText(n as int), tsCout))
    {
      d.Append(IntText(n as int), tsFile, tsCout);
    }

    /** operator<<(unsigned int). */
    method WriteUnsigned(n: uint32, tsFile: string, tsCout: string)
      requires d.Valid()
      modifies d`startedLogFile, d`startedCout, d.logFile, d.cout
      ensures d.Valid()
      ensures d.FileChannel() == Step(LogFile, d.Format(), old(d.FileChannel()), Put(NatText(n as nat), tsFile))
      ensures d.CoutChannel() == Step(Console, d.Format(), old(d.CoutChannel()), Put(NatText(n as nat), tsCout))
    {
      d.Append(NatText(n as nat), tsFile, tsCout);
    }

    /**
     * The generic operator<<: the value is first turned into text by
     * `toText` (the stream conversion), then written like a string.
     */
    method WriteValue<T>(x: T, toText: T -> string, tsFile: string, tsCout: string)
      requires d.Valid()
      modifies d`startedLogFile, d`startedCout, d.logFile, d.cout
      ensures d.Valid()
      ensures d.FileChannel() == Step(LogFile, d.Format(), old(d.FileChannel()), Put(toText(x), tsFile))
      ensures d.CoutChannel() == Step(Console, d.Format(), old(d.CoutChannel()), Put(toText(x), tsCout))
    {
      Write(toText(x), tsFile, tsCout);
    }

    /** operator<<(std::endl). */
    method EndLine(tsFile: string, tsCout: string)
      requires d.Valid()
      modifies d`startedLogFile, d`startedCout, d.logFile, d.cout
      ensures d.Valid()
      ensures d.FileChannel() == Step(LogFile, d.Format(), old(d.FileChannel()), Lines.EndLine(tsFile))
      ensures d.CoutChannel() == Step(Console, d.Format(), old(d.CoutChannel()), Lines.EndLine(tsCout))
    {
      d.EndLine(tsFile, tsCout);
    }
  }

  /**
   * lDebug(callerName) and its siblings: a builder at `level` from the logger
   * the registry gives thread `tid`.
   */
  method LevelInstance(dict: LogHolder, tid: ThreadId, callerName: string, level: LogLevel,
                       stdout: Sink, stderr: Sink) returns (r: LogInstance)
    requires forall k :: 0 <= k < |dict.storage| ==>
      dict.storage[k].log.logFile != stdout && dict.storage[k].log.logFile != stderr
    ensures fresh(r) && fresh(r.d) && r.d.Valid()
    ensures Lookup(dict.storage, tid).None? ==> r.d.Inert()
    ensures Lookup(dict.storage, tid).Some? ==>
      var log := Lookup(dict.storage, tid).value;
      && (!log.valid ==> r.d.Inert())
      && (log.valid ==> r.d.Configured(callerName, level, log.threadName, log.logFile,
                                       log.logMsgLevel, log.coutMsgLevel, stdout, stderr))
  {
    var log := Log.Current(dict, tid);
    r := log.Instance(callerName, level, stdout, stderr);
  }

  /** lPlaintext: a PLAINTEXT builder with an empty caller name. */
  method PlaintextInstance(dict: LogHolder, tid: ThreadId, stdout: Sink, stderr: Sink)
    returns (r: LogInstance)
    requires forall k :: 0 <= k < |dict.storage| ==>
      dict.storage[k].log.logFile != stdout && dict.storage[k].log.logFile != stderr
    ensures fresh(r) && fresh(r.d) && r.d.Valid()
    ensures Lookup(dict.storage, tid).None? ==> r.d.Inert()
    ensures Lookup(dict.storage, tid).Some? ==>
      var log := Lookup(dict.storage, tid).value;
      && (!log.valid ==> r.d.Inert())
      && (log.valid ==> r.d.Configured("", PLAINTEXT, log.threadName, log.logFile,
                                       log.logMsgLevel, log.coutMsgLevel, stdout, stderr))
      && (log.valid ==> r.d.outputFile && r.d.outputCout && r.d.Format().level == PLAINTEXT)
  {
    r := LevelInstance(dict, tid, "", PLAINTEXT, stdout, stderr);
  }

  /** Writing through one copy of a LogInstance is seen through the other. */
  method CopiesShareBuilder(h: LogInstance, t: string, tsFile: string, tsCout: string) returns (copy: LogInstance)
    requires h.d.Valid()
    modifies h.d`startedLogFile, h.d`startedCout, h.d.logFile, h.d.cout
    ensures fresh(copy) && copy.d == h.d
    ensures h.d.FileChannel() == Step(LogFile, h.d.Format(), old(h.d.FileChannel()), Put(t, tsFile))
    ensures h.d.CoutChannel() == Step(Console, h.d.Format(), old(h.d.CoutChannel()), Put(t, tsCout))
  {
    copy := new LogInstance.Copy(h);
    copy.Write(t, tsFile, tsCout);
  }

  /**
   * One logger per thread: after a first registration, looking up from the
   * same thread gives that logger, and a second registration yields an
   * invalid Log and leaves the registry as it was.
   */
  method RegisterTwice(dict: LogHolder, tid: ThreadId, name: string, otherName: string)
    returns (first: Log, second: Log, current: Log)
    requires dict.Valid() && !Registered(dict.storage, tid)
    modifies dict
    ensures first.d.valid && first.d.threadName == name && !second.d.valid
    ensures dict.storage == old(dict.storage) + [Entry(tid, first.d)]
    ensures current.d == first.d
  {
    first := Log.AddLog(dict, tid, name);
    second := Log.AddLog(dict, tid, otherName);
    current := Log.Current(dict, tid);
    LookupAfterInsert(old(dict.storage), tid, first.d, tid);
  }

  /** A thread that never registered borrows the first registered logger. */
  method BorrowFirst(dict: LogHolder, a: ThreadId, b: ThreadId, name: string)
    returns (added: Log, borrowed: Log)
    requires dict.Valid() && dict.storage == [] && a != b
    modifies dict
    ensures added.d.valid && borrowed.d == added.d
  {
    added := Log.AddLog(dict, a, name);
    borrowed := Log.Current(dict, b);
  }

  /** The file prefix of an INFO message from caller "mod" on thread "W1". */
  lemma WorkerPrefix(ts: string)
    ensures DynamicPrefix(LogFile, Fmt(INFO, "W1", "mod"), false, ts) == ts + " INFO mod: "
  {
    var common := ts + " " + ToString(INFO) + " " + "mod";
    assert CommonPrefix(ts, Fmt(INFO, "W1", "mod")) == common;
    assert common + ": " == ts + " INFO mod: ";
  }

  /** The file line of an INFO fragment from caller "mod" on thread "W1". */
  lemma WorkerLine(t: string, ts: string)
    ensures Close(Step(LogFile, Fmt(INFO, "W1", "mod"), Channel(true, false, ""), Put(t, ts)))
         == Channel(true, true, ts + " INFO mod: " + t + "\n")
  {
    WorkerPrefix(ts);
    var p := ts + " INFO mod: ";
    assert "" + p + t == p + t;
  }

  /**
   * Worker "W1" with file threshold DEBUG and console threshold ERROR opens
   * an INFO message for caller "mod": only the file sink is enabled.
   */
  method WorkerMessage(stdout: Sink, stderr: Sink) returns (log: Log, b: LogInstancePrivate)
    ensures fresh(log.d.logFile) && fresh(b)
    ensures b.Valid() && b.outputFile && !b.outputCout
    ensures b.logFile == log.d.logFile && b.cout == stdout
    ensures b.Format() == Fmt(INFO, "W1", "mod")
    ensures b.FileChannel() == Channel(true, false, "")
  {
    log := new Log.Named("W1");
    log.Init(ERROR, DEBUG);
    var msg := log.Instance("mod", INFO, stdout, stderr);
    b := msg.d;
  }

  /**
   * Worker "W1" writes one INFO fragment with caller "mod", file threshold
   * DEBUG and console threshold ERROR: the file gets one prefixed line that
   * names the caller, the console gets nothing.
   */
  method IndependentSinks(stdout: Sink, stderr: Sink, t: string, ts: string) returns (log: Log)
    modifies stdout, stderr
    ensures log.d.logFile.text == ts + " INFO mod: " + t + "\n"
    ensures stdout.text == old(stdout.text) && stderr.text == old(stderr.text)
  {
    var b;
    log, b := WorkerMessage(stdout, stderr);
    WorkerLine(t, ts);
    b.Append(t, ts, ts);
    b.Finish();
  }

  /** Nothing written through an invalid Log reaches any sink. */
  method InvalidLogWritesNothing(stdout: Sink, stderr: Sink, level: LogLevel, t: string, ts: string)
    returns (log: Log)
    modifies stdout, stderr
    ensures !log.d.valid && log.d.logFile.text == ""
    ensures stdout.text == old(stdout.text) && stderr.text == old(stderr.text)
  {
    log := new Log.Invalid();
    var msg := log.Instance("", level, stdout, stderr);
    msg.Write(t, ts, ts);
    msg.EndLine(ts, ts);
    msg.d.Finish();
  }
}
