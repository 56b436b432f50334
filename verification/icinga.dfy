/** The monitoring-plugin side of the check: the four status codes, the level
    name printed for a code, and the one output line plus exit code that a
    report produces (main.go, type Icinga). */
module Icinga {
  import opened Wrappers

  const OK: int := 0
  const WARNING: int := 1
  const CRITICAL: int := 2
  const UNKNOWN: int := 3

  /** The level name printed at the head of the output line. Total: every
      code other than OK, WARNING and CRITICAL, including UNKNOWN itself,
      is named "UNKNOWN". */
  function StatusToString(code: int): (name: string)
    ensures code == OK <==> name == "OK"
    ensures code == WARNING <==> name == "WARNING"
    ensures code == CRITICAL <==> name == "CRITICAL"
    ensures code !in {OK, WARNING, CRITICAL} <==> name == "UNKNOWN"
    ensures ':' !in name
  {
    if code == OK then "OK"
    else if code == WARNING then "WARNING"
    else if code == CRITICAL then "CRITICAL"
    else "UNKNOWN"
  }

  /** The reading a monitoring system makes of a level name: the code whose
      name it is, if it is one of the four. */
  function LevelCode(name: string): (code: Option<int>)
    ensures code.Some? <==> name in {"OK", "WARNING", "CRITICAL", "UNKNOWN"}
    ensures code.Some? ==> OK <= code.value <= UNKNOWN
    ensures code.Some? ==> StatusToString(code.value) == name
  {
    if name == "OK" then Some(OK)
    else if name == "WARNING" then Some(WARNING)
    else if name == "CRITICAL" then Some(CRITICAL)
    else if name == "UNKNOWN" then Some(UNKNOWN)
    else None
  }

  /** What a report leaves behind when the process ends: the exit status and
      everything written to standard output. */
  datatype Report = Report(exitCode: int, output: string)

  /** Whether ": " starts at position `i` of `line`. */
  predicate SeparatorAt(line: string, i: int)
  {
    0 <= i && i + 1 < |line| && line[i] == ':' && line[i + 1] == ' '
  }

  /** Splits a line at its first ": ", the separator between level and message. */
  function SplitLevel(line: string): (parts: Option<(string, string)>)
    ensures parts.Some? ==> parts.value.0 + ": " + parts.value.1 == line
    ensures parts.Some? ==> forall i :: 0 <= i < |parts.value.0| ==> !SeparatorAt(line, i)
    ensures parts.None? <==> forall i :: 0 <= i < |line| ==> !SeparatorAt(line, i)
  {
    if |line| < 2 then None
    else if line[0] == ':' && line[1] == ' ' then
      assert SeparatorAt(line, 0);
      Some(("", line[2..]))
    else
      assert forall i :: 1 <= i < |line| ==> SeparatorAt(line, i) == SeparatorAt(line[1..], i - 1);
      match SplitLevel(line[1..])
      case None => None
      case Some(p) =>
        assert (p.0 + ": " + p.1)[|p.0|] == ':' && (p.0 + ": " + p.1)[|p.0| + 1] == ' ';
        assert SeparatorAt(line[1..], |p.0|);
        assert SeparatorAt(line, |p.0| + 1);
        Some(([line[0]] + p.0, p.1))
  }

  /** Reads back level name and message from the output of a report: a line
      `<LEVEL>: <message>` terminated by a newline. */
  function ParseOutput(output: string): (parts: Option<(string, string)>)
    ensures parts.Some? ==> output == parts.value.0 + ": " + parts.value.1 + "\n"
  {
    if |output| == 0 || output[|output| - 1] != '\n' then None
    else SplitLevel(output[..|output| - 1])
  }

  /** A level name free of ':' is recovered intact, whatever the message holds. */
  lemma {:induction false} SplitLevelPrefix(level: string, message: string)
    requires ':' !in level
    ensures SplitLevel(level + ": " + message) == Some((level, message))
  {
    var line := level + ": " + message;
    if |level| == 0 {
      assert line == ": " + message;
      assert line[2..] == message;
    } else {
      assert line[0] == level[0];
      assert line[1..] == level[1..] + ": " + message;
      SplitLevelPrefix(level[1..], message);
      assert [level[0]] + level[1..] == level;
    }
  }

  /** The report for `code` and an already formatted message: exit status
      `code`, output `<LEVEL>: <message>` and a newline. The line can be read
      back into its level and message, whatever the message contains. */
  function ReportStatus(code: int, message: string): (r: Report)
    ensures r.exitCode == code
    ensures ParseOutput(r.output) == Some((StatusToString(code), message))
  {
    var level := StatusToString(code);
    var line := level + ": " + message;
    SplitLevelPrefix(level, message);
    var output := line + "\n";
    assert output[..|output| - 1] == line;
    Report(code, output)
  }

  /** The level printed and the exit status agree exactly when the code is
      one of the four monitoring codes. */
  lemma LevelAgreesWithExitCode(code: int, message: string)
    ensures ParseOutput(ReportStatus(code, message).output).Some?
    ensures LevelCode(ParseOutput(ReportStatus(code, message).output).value.0)
              == Some(ReportStatus(code, message).exitCode)
            <==> OK <= code <= UNKNOWN
  {
  }
}
