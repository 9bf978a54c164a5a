/**
 * The line prefixes a message builder writes (LogInstancePrivate::commonPrefix,
 * logFilePrefix, coutPrefix and the two dynamic*Prefix members). The clock
 * reading is the string `ts`, taken by the caller at the moment the prefix is
 * formatted.
 */
module Prefixes {
  import opened Options
  import opened LogLevels

  /** The two destinations of a message. */
  datatype SinkKind = LogFile | Console

  /**
   * What a builder knows when it formats a prefix: the message level, the
   * thread name it captured and the caller name it was given.
   */
  datatype Fmt = Fmt(level: LogLevel, threadName: string, callerName: string)

  predicate EndsWith(s: string, suffix: string)
  {
    |suffix| <= |s| && s[|s| - |suffix|..] == suffix
  }

  /**
   * `<timestamp> <LEVEL>`, followed by ` <caller>` only when the caller name
   * differs from the captured thread name.
   */
  function CommonPrefix(ts: string, f: Fmt): (r: string)
    ensures |r| > |ts|
    ensures |r| >= |ts| + 1 + |ToString(f.level)|
  {
    ts + " " + ToString(f.level) + (if f.threadName != f.callerName then " " + f.callerName else "")
  }

  /**
   * The common prefix starts with the timestamp and a space, then names the
   * level in a form that can be read back; it ends with the caller name
   * exactly when that differs from the thread name.
   */
  lemma CommonPrefixShape(ts: string, f: Fmt)
    ensures var r := CommonPrefix(ts, f);
      && r[..|ts| + 1] == ts + " "
      && NameAtHead(r[|ts| + 1..]) == Some(f.level)
      && (f.threadName != f.callerName ==> EndsWith(r, " " + f.callerName))
      && (f.threadName == f.callerName ==> |r| == |ts| + 1 + |ToString(f.level)|)
  {
    var caller := if f.threadName != f.callerName then " " + f.callerName else "";
    var r := CommonPrefix(ts, f);
    assert r == ts + " " + ToString(f.level) + caller;
    assert r[|ts| + 1..] == ToString(f.level) + caller;
    NameRecovered(f.level, caller);
  }

  /** The file prefix: the common part and `": "`. */
  function LogFilePrefix(ts: string, f: Fmt): (r: string)
    ensures |r| > |ts| + 2
    ensures r[|r| - 2] == ':' && r[|r| - 1] == ' '
  {
    CommonPrefix(ts, f) + ": "
  }

  /**
   * The console prefix: the file prefix, preceded by `<thread>: ` when the
   * captured thread name is not empty.
   */
  function CoutPrefix(ts: string, f: Fmt): (r: string)
    ensures f.threadName == "" ==> r == LogFilePrefix(ts, f)
    ensures f.threadName != "" ==> r == f.threadName + ": " + LogFilePrefix(ts, f)
  {
    var prefix := if f.threadName != "" then f.threadName + ": " else "";
    prefix + CommonPrefix(ts, f) + ": "
  }

  function SinkPrefix(kind: SinkKind, ts: string, f: Fmt): string
  {
    match kind
    case LogFile => LogFilePrefix(ts, f)
    case Console => CoutPrefix(ts, f)
  }

  /**
   * The prefix still owed on a sink: nothing once the line has started or for
   * a PLAINTEXT message, the sink's full prefix otherwise.
   */
  function DynamicPrefix(kind: SinkKind, f: Fmt, started: bool, ts: string): (r: string)
    ensures r == "" <==> started || f.level == PLAINTEXT
    ensures r != "" ==> r == SinkPrefix(kind, ts, f)
  {
    if started || f.level == PLAINTEXT then "" else SinkPrefix(kind, ts, f)
  }

  /** The level of a message can be read back from its file prefix. */
  lemma LevelInFilePrefix(ts: string, f: Fmt)
    ensures NameAtHead(LogFilePrefix(ts, f)[|ts| + 1..]) == Some(f.level)
  {
    var c := CommonPrefix(ts, f);
    CommonPrefixShape(ts, f);
    var tail := c[|ts| + 1..];
    assert LogFilePrefix(ts, f)[|ts| + 1..] == tail + ": ";
    match NameAtHead(tail)
    case Some(level) =>
      assert level == f.level;
      NameRecovered(level, tail[|ToString(level)|..] + ": ");
      assert tail[..|ToString(level)|] == ToString(level) by {
        NameHeadMeans(tail);
      }
      assert tail + ": " == ToString(level) + (tail[|ToString(level)|..] + ": ");
  }

  /** What NameAtHead finding a level means: that level's name heads the string. */
  lemma NameHeadMeans(s: string)
    requires NameAtHead(s).Some?
    ensures HasHead(s, ToString(NameAtHead(s).value))
  {
  }
}
