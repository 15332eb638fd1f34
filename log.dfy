// The severity-filtered logger shared by every tutorial part (shared/RBLog.swift).
// The threshold is the mutable static `severity`; `write` hands the finished
// line to the console, which is modelled as the list of lines written so far.

module RBLog {

  /** The severities, in the order of their raw values. */
  datatype Severity = Debug | Info | Warning | Error | None

  /** The four severities a message can be logged at (`none` is a threshold only). */
  type Level = s: Severity | s != None witness Debug

  function RawValue(s: Severity): nat
  {
    match s
    case Debug => 0
    case Info => 1
    case Warning => 2
    case Error => 3
    case None => 4
  }

  /** A message at `level` is written iff its raw value reaches the threshold's. */
  predicate Emits(level: Level, threshold: Severity)
  {
    RawValue(level) >= RawValue(threshold)
  }

  /** The marker written in front of a message of each level. */
  function Prefix(level: Level): (p: string)
    ensures |p| > 0
  {
    match level
    case Error => "\U{26D4}\U{FE0F}"
    case Warning => "\U{26A0}\U{FE0F}"
    case Info => "\U{25B7}"
    case Debug => "\U{2192}"
  }

  /** The written line: the level's marker, one space, then the message. */
  function Line(level: Level, message: string): (line: string)
    ensures |line| == |Prefix(level)| + 1 + |message|
    ensures line[..|Prefix(level)|] == Prefix(level)
    ensures line[|Prefix(level)|] == ' '
    ensures line[|Prefix(level)| + 1..] == message
  {
    Prefix(level) + " " + message
  }

  /** Reads a written line back into its level and message, if it is one. */
  function ParseLine(line: string): (r: Parsed)
    ensures r.Parsed? ==> Line(r.level, r.message) == line
  {
    if HasMarker(line, Error) then Parsed(Error, line[|Prefix(Error)| + 1..])
    else if HasMarker(line, Warning) then Parsed(Warning, line[|Prefix(Warning)| + 1..])
    else if HasMarker(line, Info) then Parsed(Info, line[|Prefix(Info)| + 1..])
    else if HasMarker(line, Debug) then Parsed(Debug, line[|Prefix(Debug)| + 1..])
    else NotALine
  }

  datatype Parsed = NotALine | Parsed(level: Level, message: string)

  predicate HasMarker(line: string, level: Level)
  {
    |line| > |Prefix(level)| && line[..|Prefix(level)| + 1] == Prefix(level) + " "
  }

  /** The raw values are strictly ordered debug < info < warning < error < none. */
  lemma RawValuesOrdered()
    ensures RawValue(Debug) < RawValue(Info) < RawValue(Warning) < RawValue(Error) < RawValue(None)
    ensures forall a: Severity, b: Severity :: RawValue(a) == RawValue(b) ==> a == b
  {
  }

  /** The threshold `none` suppresses every level. */
  lemma NoneSuppressesAll(level: Level)
    ensures !Emits(level, None)
  {
  }

  /** The default threshold `debug` lets every level through. */
  lemma DebugEmitsAll(level: Level)
    ensures Emits(level, Debug)
  {
  }

  /** Raising the threshold never lets through a message a lower threshold suppressed. */
  lemma RaisingThresholdOnlySuppresses(level: Level, low: Severity, high: Severity)
    requires RawValue(low) <= RawValue(high)
    ensures Emits(level, high) ==> Emits(level, low)
    ensures !Emits(level, low) ==> !Emits(level, high)
  {
  }

  /** The level and the message can be read back from every written line. */
  lemma {:induction false} LineRoundTrip(level: Level, message: string)
    ensures ParseLine(Line(level, message)) == Parsed(level, message)
  {
    var line := Line(level, message);
    assert line[..|Prefix(level)| + 1] == Prefix(level) + " ";
    assert HasMarker(line, level);
    assert line[0] == Prefix(level)[0];
  }

  /** The logger: the mutable threshold and the lines written so far. */
  class Logger {
    var severity: Severity
    var written: seq<string>

    constructor ()
      ensures severity == Severity.Debug && written == []
    {
      severity := Severity.Debug;
      written := [];
    }

    method SetSeverity(threshold: Severity)
      modifies this
      ensures severity == threshold && written == old(written)
    {
      severity := threshold;
    }

    /** Writes an already formatted message as one line. */
    method Write(message: string)
      modifies this
      ensures written == old(written) + [message] && severity == old(severity)
    {
      written := written + [message];
    }

    method Log(message: string, level: Level)
      modifies this
      ensures written == old(written) + [Line(level, message)] && severity == old(severity)
    {
      Write(Prefix(level) + " " + message);
    }

    method Error(message: string)
      modifies this
      ensures severity == old(severity)
      ensures written == if Emits(Severity.Error, severity) then old(written) + [Line(Severity.Error, message)] else old(written)
    {
      if RawValue(Severity.Error) >= RawValue(severity) {
        Log(message, Severity.Error);
      }
    }

    method Warning(message: string)
      modifies this
      ensures severity == old(severity)
      ensures written == if Emits(Severity.Warning, severity) then old(written) + [Line(Severity.Warning, message)] else old(written)
    {
      if RawValue(Severity.Warning) >= RawValue(severity) {
        Log(message, Severity.Warning);
      }
    }

    method Info(message: string)
      modifies this
      ensures severity == old(severity)
      ensures written == if Emits(Severity.Info, severity) then old(written) + [Line(Severity.Info, message)] else old(written)
    {
      if RawValue(Severity.Info) >= RawValue(severity) {
        Log(message, Severity.Info);
      }
    }

    method Debug(message: string)
      modifies this
      ensures severity == old(severity)
      ensures written == if Emits(Severity.Debug, severity) then old(written) + [Line(Severity.Debug, message)] else old(written)
    {
      if RawValue(Severity.Debug) >= RawValue(severity) {
        Log(message, Severity.Debug);
      }
    }
  }
}
