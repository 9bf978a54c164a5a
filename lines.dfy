/**
 * The line protocol one sink follows inside a message builder
 * (LogInstancePrivate's two operator<< and its destructor), stated on values:
 * a Channel is one sink as the builder sees it, Step is what one operation
 * does to it and Close is finalisation. The builder's methods are proved to
 * move their sinks exactly as these functions say.
 */
module Lines {
  import opened LogLevels
  import opened Prefixes

  /** A streamed fragment or std::endl, each with the clock reading at that call. */
  datatype Op = Put(text: string, ts: string) | EndLine(ts: string)

  /**
   * One sink of a builder: whether the message goes to it (frozen at
   * construction), whether the current line has started, and the text the
   * sink holds.
   */
  datatype Channel = Channel(enabled: bool, started: bool, out: string)

  function Step(kind: SinkKind, f: Fmt, c: Channel, op: Op): (r: Channel)
    ensures r.enabled == c.enabled
    ensures !c.enabled ==> r == c
    ensures c.enabled ==> c.out <= r.out && r.started == op.Put?
    ensures c.enabled && op.EndLine? ==> EndsWithNewline(r.out)
  {
    if !c.enabled then c
    else match op
      case Put(t, ts) => Channel(true, true, c.out + DynamicPrefix(kind, f, c.started, ts) + t)
      case EndLine(ts) => Channel(true, false, c.out + DynamicPrefix(kind, f, c.started, ts) + "\n")
  }

  /** Finalisation: a bare line break, only on an enabled sink whose line has started. */
  function Close(c: Channel): (r: Channel)
    ensures r.enabled == c.enabled && r.started == c.started && c.out <= r.out
    ensures r != c <==> c.enabled && c.started
    ensures r != c ==> EndsWithNewline(r.out) && |r.out| == |c.out| + 1
  {
    if c.enabled && c.started then c.(out := c.out + "\n") else c
  }

  function Run(kind: SinkKind, f: Fmt, c: Channel, ops: seq<Op>): Channel
    decreases |ops|
  {
    if ops == [] then c else Run(kind, f, Step(kind, f, c, ops[0]), ops[1..])
  }

  predicate AllPuts(ops: seq<Op>)
  {
    forall i :: 0 <= i < |ops| ==> ops[i].Put?
  }

  /** The fragments of `ops`, concatenated. */
  function Texts(ops: seq<Op>): string
    decreases |ops|
  {
    if ops == [] then "" else (if ops[0].Put? then ops[0].text else "") + Texts(ops[1..])
  }

  predicate EndsWithNewline(s: string)
  {
    |s| > 0 && s[|s| - 1] == '\n'
  }

  /** A disabled sink is never written, by any operation or by finalisation. */
  lemma {:induction false} DisabledUntouched(kind: SinkKind, f: Fmt, c: Channel, ops: seq<Op>)
    requires !c.enabled
    ensures Run(kind, f, c, ops) == c && Close(c) == c
    decreases |ops|
  {
    if ops != [] {
      DisabledUntouched(kind, f, Step(kind, f, c, ops[0]), ops[1..]);
    }
  }

  /** Running two batches of operations is running their concatenation. */
  lemma {:induction false} RunConcat(kind: SinkKind, f: Fmt, c: Channel, a: seq<Op>, b: seq<Op>)
    ensures Run(kind, f, c, a + b) == Run(kind, f, Run(kind, f, c, a), b)
    decreases |a|
  {
    if a == [] {
      assert a + b == b;
    } else {
      assert (a + b)[0] == a[0];
      assert (a + b)[1..] == a[1..] + b;
      RunConcat(kind, f, Step(kind, f, c, a[0]), a[1..], b);
    }
  }

  /** Once a line has started, fragments are written as they are, with no prefix. */
  lemma {:induction false} StartedLineTakesFragments(kind: SinkKind, f: Fmt, c: Channel, ops: seq<Op>)
    requires c.enabled && c.started && AllPuts(ops)
    ensures Run(kind, f, c, ops) == c.(out := c.out + Texts(ops))
    decreases |ops|
  {
    if ops != [] {
      var next := Step(kind, f, c, ops[0]);
      assert next == c.(out := c.out + ops[0].text);
      StartedLineTakesFragments(kind, f, next, ops[1..]);
      assert c.out + ops[0].text + Texts(ops[1..]) == c.out + Texts(ops);
    }
  }

  /**
   * Fragments appended to a fresh line on an enabled sink: the sink receives
   * exactly one prefix (none for PLAINTEXT), formatted at the first fragment,
   * then the fragments in order; finalisation then adds one line break.
   */
  lemma OnePrefixPerLine(kind: SinkKind, f: Fmt, c: Channel, ops: seq<Op>)
    requires c.enabled && !c.started && AllPuts(ops) && ops != []
    ensures Run(kind, f, c, ops)
         == Channel(true, true, c.out + DynamicPrefix(kind, f, false, ops[0].ts) + Texts(ops))
    ensures Close(Run(kind, f, c, ops)).out
         == c.out + DynamicPrefix(kind, f, false, ops[0].ts) + Texts(ops) + "\n"
  {
    var first := Step(kind, f, c, ops[0]);
    StartedLineTakesFragments(kind, f, first, ops[1..]);
    assert Texts(ops) == ops[0].text + Texts(ops[1..]);
  }

  /**
   * std::endl after fragments ends the line with no second prefix, leaves the
   * line not started, and finalisation then writes nothing more.
   */
  lemma FragmentsThenEndLine(kind: SinkKind, f: Fmt, c: Channel, ops: seq<Op>, ts: string)
    requires c.enabled && !c.started && AllPuts(ops) && ops != []
    ensures var r := Run(kind, f, c, ops + [EndLine(ts)]);
      && r == Channel(true, false, c.out + DynamicPrefix(kind, f, false, ops[0].ts) + Texts(ops) + "\n")
      && Close(r) == r
  {
    RunConcat(kind, f, c, ops, [EndLine(ts)]);
    OnePrefixPerLine(kind, f, c, ops);
  }

  /** std::endl on a line with no fragment still writes the prefix, then the line break. */
  lemma EmptyLineKeepsPrefix(kind: SinkKind, f: Fmt, c: Channel, ts: string)
    requires c.enabled && !c.started
    ensures Run(kind, f, c, [EndLine(ts)]).out == c.out + DynamicPrefix(kind, f, false, ts) + "\n"
    ensures f.level != PLAINTEXT ==> Run(kind, f, c, [EndLine(ts)]).out == c.out + SinkPrefix(kind, ts, f) + "\n"
  {
    assert [EndLine(ts)][1..] == [];
  }

  /** Operations never switch a sink on or off. */
  lemma {:induction false} EnabledFrozen(kind: SinkKind, f: Fmt, c: Channel, ops: seq<Op>)
    ensures Run(kind, f, c, ops).enabled == c.enabled
    decreases |ops|
  {
    if ops != [] {
      EnabledFrozen(kind, f, Step(kind, f, c, ops[0]), ops[1..]);
    }
  }

  /**
   * Between operations, a sink whose line is not started holds either exactly
   * what it held before the message or text ending in a line break.
   */
  lemma {:induction false} LineSettled(kind: SinkKind, f: Fmt, c: Channel, ops: seq<Op>, before: string)
    requires c.started || c.out == before || EndsWithNewline(c.out)
    ensures var r := Run(kind, f, c, ops);
      r.started || r.out == before || EndsWithNewline(r.out)
    decreases |ops|
  {
    if ops != [] {
      var next := Step(kind, f, c, ops[0]);
      assert next.started || next.out == before || EndsWithNewline(next.out);
      LineSettled(kind, f, next, ops[1..], before);
    }
  }

  /**
   * Any message, finalised: each sink either received nothing, or what it
   * received ends in a line break.
   */
  lemma EveryMessageTerminated(kind: SinkKind, f: Fmt, c: Channel, ops: seq<Op>)
    requires !c.started
    ensures var r := Close(Run(kind, f, c, ops));
      r.out == c.out || EndsWithNewline(r.out)
  {
    LineSettled(kind, f, c, ops, c.out);
    EnabledFrozen(kind, f, c, ops);
    if !c.enabled {
      DisabledUntouched(kind, f, c, ops);
    }
  }
}
