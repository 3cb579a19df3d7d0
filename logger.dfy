/** Loggers: the `Logger::Level` order, `BasicLogger`, which prints the
    messages its level lets through, the do-nothing `NullLogger`, and the
    test suite's `CapturingLogger`, which records every message and echoes
    it. Printing to standard output is modelled as appending lines to a
    sequence. */
module Logging {
  import opened Text

  /** `Logger::Level`, in declaration order. */
  datatype Level = Debug | Verbose | Quiet | Nothing

  function Rank(l: Level): (r: nat)
    ensures r < 4
  {
    match l
    case Debug => 0
    case Verbose => 1
    case Quiet => 2
    case Nothing => 3
  }

  /** `a <= b` on the enumeration. */
  predicate AtMost(a: Level, b: Level)
  {
    Rank(a) <= Rank(b)
  }

  /** The three logging calls of the `Logger` interface. */
  datatype Kind = WarningMsg | InfoMsg | DebugMsg

  /** The tag a message of this kind is printed and captured with. */
  function KindName(k: Kind): string
  {
    match k
    case WarningMsg => "warning"
    case InfoMsg => "info"
    case DebugMsg => "debug"
  }

  /** The highest level at which `BasicLogger` still prints this kind. */
  function Threshold(k: Kind): Level
  {
    match k
    case WarningMsg => Quiet
    case InfoMsg => Verbose
    case DebugMsg => Debug
  }

  /** `std::left << std::setw(w) << s`: `s` padded with blanks on the right
      to at least `w` characters. */
  function PadRight(s: string, w: nat): (r: string)
    ensures |r| == if |s| < w then w else |s|
    ensures r[..|s|] == s
    ensures forall i :: |s| <= i < |r| ==> r[i] == ' '
    decreases w - |s|
  {
    if |s| < w then PadRight(s + " ", w) else s
  }

  /** The tag of each kind as `std::left << std::setw(7)` prints it. */
  function PaddedTag(k: Kind): string
  {
    match k
    case WarningMsg => "warning"
    case InfoMsg => "info   "
    case DebugMsg => "debug  "
  }

  /** One printed line: the padded tag, `": "`, the message, '\n'. */
  function FormatLine(k: Kind, msg: string): (line: string)
  {
    PaddedTag(k) + ": " + msg + "\n"
  }

  /** What `BasicLogger` at `level` prints for one message. */
  function Printed(level: Level, k: Kind, msg: string): (lines: seq<string>)
    ensures |lines| <= 1
  {
    if AtMost(level, Threshold(k)) then [FormatLine(k, msg)] else []
  }

  /** What `BasicLogger` at `level` prints for a sequence of messages. */
  function PrintedAll(level: Level, msgs: seq<(Kind, string)>): (lines: seq<string>)
    ensures |lines| <= |msgs|
  {
    if msgs == [] then [] else Printed(level, msgs[0].0, msgs[0].1) + PrintedAll(level, msgs[1..])
  }

  /** What `CapturingLogger` records for a sequence of messages. */
  function CapturedAll(msgs: seq<(Kind, string)>): (entries: seq<(string, string)>)
    ensures |entries| == |msgs|
    ensures forall i :: 0 <= i < |msgs| ==> entries[i] == (KindName(msgs[i].0), msgs[i].1)
  {
    if msgs == [] then [] else [(KindName(msgs[0].0), msgs[0].1)] + CapturedAll(msgs[1..])
  }

  // ---------------------------------------------------------------------
  // Properties of the level filter

  /** Each line is the kind's tag padded with blanks to width 7, `": "`,
      the message and '\n'. */
  lemma LineLayout(k: Kind, msg: string)
    ensures FormatLine(k, msg) == PadRight(KindName(k), 7) + ": " + msg + "\n"
  {
    assert PadRight("warning", 7) == "warning";
    assert PadRight("info", 7) == "info   ";
    assert PadRight("debug", 7) == "debug  ";
  }

  /** `Nothing` prints nothing at all. */
  lemma NothingPrintsNothing(k: Kind, msg: string)
    ensures Printed(Nothing, k, msg) == []
  {
  }

  /** The default level, `Quiet`, prints warnings and only warnings. */
  lemma QuietPrintsOnlyWarnings(k: Kind, msg: string)
    ensures Printed(Quiet, k, msg) != [] <==> k == WarningMsg
  {
  }

  /** Debug messages are printed only at `Debug`, the lowest level. */
  lemma DebugOnlyAtDebug(level: Level, msg: string)
    ensures Printed(level, DebugMsg, msg) != [] <==> level == Debug
  {
  }

  /** Warnings are printed at every level except `Nothing`, info messages
      only at `Debug` and `Verbose`. */
  lemma WarningAndInfoLevels(level: Level, msg: string)
    ensures Printed(level, WarningMsg, msg) != [] <==> level != Nothing
    ensures Printed(level, InfoMsg, msg) != [] <==> level == Debug || level == Verbose
  {
  }

  /** Lowering the level never suppresses a message. */
  lemma {:induction false} LoweringNeverSuppresses(lower: Level, higher: Level, msgs: seq<(Kind, string)>)
    requires AtMost(lower, higher)
    ensures |PrintedAll(higher, msgs)| <= |PrintedAll(lower, msgs)|
    ensures forall k, m :: Printed(higher, k, m) != [] ==> Printed(lower, k, m) == Printed(higher, k, m)
    decreases |msgs|
  {
    if msgs != [] {
      LoweringNeverSuppresses(lower, higher, msgs[1..]);
    }
  }

  /** `CapturingLogger` echoes every message, whatever its kind, in the
      layout `BasicLogger` prints: exactly what `BasicLogger` prints at
      `Debug`, one line per message, in order. */
  lemma {:induction false} EchoesEveryMessage(msgs: seq<(Kind, string)>)
    ensures |PrintedAll(Debug, msgs)| == |msgs|
    ensures forall i :: 0 <= i < |msgs| ==> PrintedAll(Debug, msgs)[i] == FormatLine(msgs[i].0, msgs[i].1)
    decreases |msgs|
  {
    if msgs != [] {
      EchoesEveryMessage(msgs[1..]);
      assert Printed(Debug, msgs[0].0, msgs[0].1) == [FormatLine(msgs[0].0, msgs[0].1)];
    }
  }

  // ---------------------------------------------------------------------
  // The loggers

  /** `details::NullLogger`: accepts every message and does nothing. */
  class NullLogger {
    var level: Level

    constructor()
      ensures level == Quiet
    {
      level := Quiet;
    }

    method Warning(msg: string)
    {
    }

    method Info(msg: string)
    {
    }

    method Debug(msg: string)
    {
    }
  }

  /** `BasicLogger`: prints a line for each message its level lets through. */
  class BasicLogger {
    var level: Level
    /** Lines written to standard output, oldest first. */
    var output: seq<string>

    constructor()
      ensures level == Quiet && output == []
    {
      level := Quiet;
      output := [];
    }

    method Warning(msg: string)
      modifies this
      ensures level == old(level)
      ensures output == old(output) + Printed(level, WarningMsg, msg)
    {
      if AtMost(level, Quiet) {
        output := output + [FormatLine(WarningMsg, msg)];
      }
    }

    method Info(msg: string)
      modifies this
      ensures level == old(level)
      ensures output == old(output) + Printed(level, InfoMsg, msg)
    {
      if AtMost(level, Verbose) {
        output := output + [FormatLine(InfoMsg, msg)];
      }
    }

    method Debug(msg: string)
      modifies this
      ensures level == old(level)
      ensures output == old(output) + Printed(level, DebugMsg, msg)
    {
      if AtMost(level, Level.Debug) {
        output := output + [FormatLine(DebugMsg, msg)];
      }
    }
  }

  /** The test suite's `CapturingLogger`: records each message with its tag
      and echoes it to standard output, whatever the level. */
  class CapturingLogger {
    var level: Level
    /** `logged_messages`: (tag, message) pairs, oldest first. */
    var logged: seq<(string, string)>
    /** Lines written to standard output, oldest first. */
    var output: seq<string>

    constructor()
      ensures level == Quiet && logged == [] && output == []
    {
      level := Quiet;
      logged := [];
      output := [];
    }

    method Warning(msg: string)
      modifies this
      ensures level == old(level)
      ensures logged == old(logged) + [("warning", msg)]
      ensures output == old(output) + [FormatLine(WarningMsg, msg)]
    {
      logged := logged + [("warning", msg)];
      output := output + [FormatLine(WarningMsg, msg)];
    }

    method Info(msg: string)
      modifies this
      ensures level == old(level)
      ensures logged == old(logged) + [("info", msg)]
      ensures output == old(output) + [FormatLine(InfoMsg, msg)]
    {
      logged := logged + [("info", msg)];
      output := output + [FormatLine(InfoMsg, msg)];
    }

    method Debug(msg: string)
      modifies this
      ensures level == old(level)
      ensures logged == old(logged) + [("debug", msg)]
      ensures output == old(output) + [FormatLine(DebugMsg, msg)]
    {
      logged := logged + [("debug", msg)];
      output := output + [FormatLine(DebugMsg, msg)];
    }

    function Size(): (n: nat)
      reads this
      ensures n == |logged|
    {
      |logged|
    }

    /** Whether `sub` occurs in the most recent message; false when nothing
        was logged. */
    predicate ContainsLast(sub: string)
      reads this
      ensures ContainsLast(sub) <==> |logged| > 0 && Occurs(logged[|logged| - 1].1, sub)
    {
      if |logged| > 0 then ContainsAt(logged[|logged| - 1].1, sub); Contains(logged[|logged| - 1].1, sub)
      else false
    }

    /** Whether `sub` occurs in message number `idx`; false when there is no
        such message. */
    predicate ContainsIn(idx: nat, sub: string)
      reads this
      ensures ContainsIn(idx, sub) <==> idx < |logged| && Occurs(logged[idx].1, sub)
    {
      if idx < |logged| then ContainsAt(logged[idx].1, sub); Contains(logged[idx].1, sub)
      else false
    }
  }

  /** The logger a `shared_ptr<Logger>` points to, tagged by its class. */
  datatype LoggerRef = NullRef(n: NullLogger) | BasicRef(b: BasicLogger) | CapturingRef(c: CapturingLogger)
  {
    function Target(): object
    {
      match this
      case NullRef(n) => n
      case BasicRef(b) => b
      case CapturingRef(c) => c
    }
  }

  /** What can be observed of a logger: its level, the lines it printed and
      the pairs a `CapturingLogger` recorded. */
  datatype LogState = LogState(level: Level, output: seq<string>, logged: seq<(string, string)>)

  function StateOf(log: LoggerRef): LogState
    reads log.Target()
  {
    match log
    case NullRef(_) => LogState(Quiet, [], [])
    case BasicRef(b) => LogState(b.level, b.output, [])
    case CapturingRef(c) => LogState(c.level, c.output, c.logged)
  }

  /** The state of `log` after it received `msgs` in state `st`: a
      `BasicLogger` prints what its level lets through, a `CapturingLogger`
      records and echoes them all, and neither changes its level. */
  function After(log: LoggerRef, st: LogState, msgs: seq<(Kind, string)>): (next: LogState)
    ensures next.level == st.level
  {
    match log
    case NullRef(_) => st
    case BasicRef(_) => st.(output := st.output + PrintedAll(st.level, msgs))
    case CapturingRef(_) =>
      st.(output := st.output + PrintedAll(Debug, msgs), logged := st.logged + CapturedAll(msgs))
  }

  /** Starting from state `before`, `log` received `msgs`, in order. */
  predicate Delivered(log: LoggerRef, before: LogState, msgs: seq<(Kind, string)>)
    reads log.Target()
  {
    StateOf(log) == After(log, before, msgs)
  }

  lemma {:induction false} PrintedAllAppend(level: Level, a: seq<(Kind, string)>, b: seq<(Kind, string)>)
    ensures PrintedAll(level, a + b) == PrintedAll(level, a) + PrintedAll(level, b)
    decreases |a|
  {
    if a != [] {
      assert (a + b)[1..] == a[1..] + b;
      PrintedAllAppend(level, a[1..], b);
    } else {
      assert a + b == b;
    }
  }

  lemma CapturedAllAppend(a: seq<(Kind, string)>, b: seq<(Kind, string)>)
    ensures CapturedAll(a + b) == CapturedAll(a) + CapturedAll(b)
  {
  }

  /** Delivering `a` and then `b` is delivering `a + b`. */
  lemma AfterAppend(log: LoggerRef, st: LogState, a: seq<(Kind, string)>, b: seq<(Kind, string)>)
    ensures After(log, After(log, st, a), b) == After(log, st, a + b)
  {
    match log
    case NullRef(_) =>
    case BasicRef(_) =>
      PrintedAllAppend(st.level, a, b);
      AppendAssociates(st.output, PrintedAll(st.level, a), PrintedAll(st.level, b));
    case CapturingRef(_) =>
      PrintedAllAppend(Debug, a, b);
      AppendAssociates(st.output, PrintedAll(Debug, a), PrintedAll(Debug, b));
      CapturedAllAppend(a, b);
      AppendAssociates(st.logged, CapturedAll(a), CapturedAll(b));
  }

  /** Delivering no message leaves the state as it is. */
  lemma AfterNothing(log: LoggerRef, st: LogState)
    ensures After(log, st, []) == st
  {
    assert st.output + [] == st.output;
    assert st.logged + [] == st.logged;
  }

  /** A virtual call `log->warning/info/debug(msg)`. */
  method Send(log: LoggerRef, k: Kind, msg: string)
    modifies log.Target()
    ensures Delivered(log, old(StateOf(log)), [(k, msg)])
  {
    match log
    case NullRef(n) =>
      match k {
        case WarningMsg => n.Warning(msg);
        case InfoMsg => n.Info(msg);
        case DebugMsg => n.Debug(msg);
      }
    case BasicRef(b) =>
      match k {
        case WarningMsg => b.Warning(msg);
        case InfoMsg => b.Info(msg);
        case DebugMsg => b.Debug(msg);
      }
    case CapturingRef(c) =>
      match k {
        case WarningMsg => c.Warning(msg);
        case InfoMsg => c.Info(msg);
        case DebugMsg => c.Debug(msg);
      }
  }

  /** Two deliveries in a row are one delivery of both message lists. */
  method SendTwo(log: LoggerRef, k1: Kind, m1: string, k2: Kind, m2: string)
    modifies log.Target()
    ensures Delivered(log, old(StateOf(log)), [(k1, m1), (k2, m2)])
  {
    ghost var st0 := StateOf(log);
    Send(log, k1, m1);
    Send(log, k2, m2);
    AfterAppend(log, st0, [(k1, m1)], [(k2, m2)]);
    assert [(k1, m1)] + [(k2, m2)] == [(k1, m1), (k2, m2)];
  }

  /** Each message of `msgs` sent in turn. */
  method SendAll(log: LoggerRef, msgs: seq<(Kind, string)>)
    modifies log.Target()
    ensures Delivered(log, old(StateOf(log)), msgs)
  {
    ghost var st0 := StateOf(log);
    for i := 0 to |msgs|
      invariant StateOf(log) == After(log, st0, msgs[..i])
    {
      ghost var st1 := StateOf(log);
      Send(log, msgs[i].0, msgs[i].1);
      AfterAppend(log, st0, msgs[..i], [msgs[i]]);
      assert msgs[..i] + [msgs[i]] == msgs[..i + 1];
    }
    assert msgs[..|msgs|] == msgs;
  }
}
