/**
 * Severity levels of a log message (threadlogger.h, enum class LogLevel),
 * their ordinals and their names as written into line prefixes.
 */
module LogLevels {
  import opened Options

  /** Declared in ascending order; PLAINTEXT is last and passes every threshold. */
  datatype LogLevel = DEBUG | VERBOSE | INFO | MANDATORY | ERROR | PLAINTEXT

  /** The ordinal of a level, `static_cast<int>` of the enum value. */
  function ToInt(level: LogLevel): (r: int)
    ensures 0 <= r <= 5
    ensures r == 5 <==> level == PLAINTEXT
  {
    match level
    case DEBUG => 0
    case VERBOSE => 1
    case INFO => 2
    case MANDATORY => 3
    case ERROR => 4
    case PLAINTEXT => 5
  }

  /** The level with a given ordinal, if any: the inverse of ToInt. */
  function FromInt(i: int): (r: Option<LogLevel>)
  {
    if i == 0 then Some(DEBUG)
    else if i == 1 then Some(VERBOSE)
    else if i == 2 then Some(INFO)
    else if i == 3 then Some(MANDATORY)
    else if i == 4 then Some(ERROR)
    else if i == 5 then Some(PLAINTEXT)
    else None
  }

  /** Ordinals identify levels: ToInt is injective and FromInt undoes it. */
  lemma OrdinalRoundTrip(level: LogLevel, i: int)
    ensures FromInt(ToInt(level)) == Some(level)
    ensures FromInt(i).Some? <==> 0 <= i <= 5
    ensures FromInt(i).Some? ==> ToInt(FromInt(i).value) == i
  {
  }

  /** The level's name, as written into a line prefix. */
  function ToString(level: LogLevel): (r: string)
    ensures |r| > 0
    ensures forall i :: 0 <= i < |r| ==> 'A' <= r[i] <= 'Z'
  {
    match level
    case DEBUG => "DEBUG"
    case VERBOSE => "VERBOSE"
    case INFO => "INFO"
    case MANDATORY => "MANDATORY"
    case ERROR => "ERROR"
    case PLAINTEXT => "PLAINTEXT"
  }

  predicate HasHead(s: string, head: string)
  {
    |head| <= |s| && s[..|head|] == head
  }

  /** Reads back the level whose name stands at the head of `s`. */
  function NameAtHead(s: string): Option<LogLevel>
  {
    if HasHead(s, "DEBUG") then Some(DEBUG)
    else if HasHead(s, "VERBOSE") then Some(VERBOSE)
    else if HasHead(s, "INFO") then Some(INFO)
    else if HasHead(s, "MANDATORY") then Some(MANDATORY)
    else if HasHead(s, "ERROR") then Some(ERROR)
    else if HasHead(s, "PLAINTEXT") then Some(PLAINTEXT)
    else None
  }

  /**
   * A level's name followed by anything still names that level: the six names
   * are distinct and none is a prefix of another.
   */
  lemma NameRecovered(level: LogLevel, rest: string)
    ensures |ToString(level)| > 0
    ensures NameAtHead(ToString(level) + rest) == Some(level)
  {
    var s := ToString(level) + rest;
    assert s[..|ToString(level)|] == ToString(level);
    assert s[0] == ToString(level)[0];
  }

  /**
   * Whether a message at `level` goes to a sink whose threshold is `threshold`
   * (the initialisers of m_outputFile and m_outputCout). The explicit PLAINTEXT
   * disjunct is redundant: PLAINTEXT has the largest ordinal.
   */
  predicate Passes(level: LogLevel, threshold: LogLevel): (r: bool)
    ensures r <==> ToInt(level) >= ToInt(threshold)
    ensures level == PLAINTEXT ==> r
  {
    ToInt(level) >= ToInt(threshold) || level == PLAINTEXT
  }

  /** Raising the message level, or lowering the threshold, never turns a sink off. */
  lemma PassesMonotone(level: LogLevel, higher: LogLevel, threshold: LogLevel, lower: LogLevel)
    requires Passes(level, threshold)
    requires ToInt(level) <= ToInt(higher) && ToInt(lower) <= ToInt(threshold)
    ensures Passes(higher, threshold) && Passes(level, lower)
  {
  }
}
