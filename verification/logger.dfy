/**
 * The logger: a process-wide level threshold and five wrappers, one per severity, that
 * append a line `[LEVEL][TAG] message` to the serial output when the severity is at or
 * above the threshold. Levels are plain integers, because the source's unscoped enum
 * can carry values outside DEBUG..CRITICAL; those print as "UNKNOWN".
 */
module Logging {

  import opened Options

  const LevelDebug: int := 0
  const LevelInfo: int := 1
  const LevelWarning: int := 2
  const LevelError: int := 3
  const LevelCritical: int := 4

  predicate IsLevel(level: int)
  {
    LevelDebug <= level <= LevelCritical
  }

  /** The name printed for a level: one of five names for a valid level, "UNKNOWN" otherwise. */
  function LevelString(level: int): (name: string)
    ensures IsLevel(level) <==> name != "UNKNOWN"
    ensures name in {"DEBUG", "INFO", "WARN", "ERROR", "CRIT", "UNKNOWN"}
  {
    if level == LevelDebug then "DEBUG"
    else if level == LevelInfo then "INFO"
    else if level == LevelWarning then "WARN"
    else if level == LevelError then "ERROR"
    else if level == LevelCritical then "CRIT"
    else "UNKNOWN"
  }

  /** Distinct valid levels print under distinct names. */
  lemma LevelStringInjective(a: int, b: int)
    requires IsLevel(a) && IsLevel(b) && a != b
    ensures LevelString(a) != LevelString(b)
  {
  }

  /** A message of severity `level` passes the filter set at `currentLevel`. */
  function Emits(level: int, currentLevel: int): (passes: bool)
    ensures passes <==> !(level < currentLevel)
  {
    level >= currentLevel
  }

  /** Critical messages pass at every valid threshold. */
  lemma CriticalAlwaysEmitted(currentLevel: int)
    requires IsLevel(currentLevel)
    ensures Emits(LevelCritical, currentLevel)
  {
  }

  /** Among valid thresholds, debug messages pass only at DEBUG. */
  lemma DebugOnlyAtDebug(currentLevel: int)
    requires IsLevel(currentLevel)
    ensures Emits(LevelDebug, currentLevel) <==> currentLevel == LevelDebug
  {
  }

  /** Whatever passes the filter, every more severe message passes too. */
  lemma EmitsUpward(level: int, higher: int, currentLevel: int)
    requires level <= higher && Emits(level, currentLevel)
    ensures Emits(higher, currentLevel)
  {
  }

  /** The line printed for one message. */
  function FormatLine(level: int, tag: string, message: string): (line: string)
    ensures |line| == |LevelString(level)| + |tag| + |message| + 6
    ensures line[0] == '[' && line[|line| - 1] == '\n'
  {
    "[" + LevelString(level) + "][" + tag + "] " + message + "\n"
  }

  /** The three fields of a printed line. */
  datatype LineParts = LineParts(levelName: string, tag: string, message: string)

  /** The position of the first `c` in `s`, or |s| when there is none. */
  function IndexOf(s: string, c: char): (i: nat)
    ensures i <= |s|
    ensures i < |s| ==> s[i] == c
    ensures forall j :: 0 <= j < i ==> s[j] != c
  {
    if s == [] then 0
    else if s[0] == c then 0
    else 1 + IndexOf(s[1..], c)
  }

  /** Reads the level name, tag and message back from a printed line. */
  function ParseLine(line: string): Option<LineParts>
  {
    if |line| < 2 || line[0] != '[' || line[|line| - 1] != '\n' then None
    else
      var body := line[1..|line| - 1];
      var i := IndexOf(body, ']');
      if i + 1 >= |body| || body[i + 1] != '[' then None
      else
        var rest := body[i + 2..];
        var j := IndexOf(rest, ']');
        if j + 1 >= |rest| || rest[j + 1] != ' ' then None
        else Some(LineParts(body[..i], rest[..j], rest[j + 2..]))
  }

  lemma IndexOfFirst(a: string, c: char, b: string)
    requires c !in a
    ensures IndexOf(a + [c] + b, c) == |a|
  {
    var s := a + [c] + b;
    assert s[|a|] == c;
    assert forall j :: 0 <= j < |a| ==> s[j] == a[j];
  }

  /** A line whose tag has no ']' parses back into its level name, tag and message. */
  lemma ParseFormatLine(level: int, tag: string, message: string)
    requires ']' !in tag
    ensures ParseLine(FormatLine(level, tag, message)) == Some(LineParts(LevelString(level), tag, message))
  {
    var name := LevelString(level);
    var line := FormatLine(level, tag, message);
    var body := line[1..|line| - 1];
    assert body == name + [']'] + ("[" + tag + "] " + message);
    IndexOfFirst(name, ']', "[" + tag + "] " + message);
    var rest := body[|name| + 2..];
    assert rest == tag + [']'] + (" " + message);
    IndexOfFirst(tag, ']', " " + message);
    assert body[..|name|] == name;
    assert rest[..|tag|] == tag;
    assert rest[|tag| + 2..] == message;
  }

  /** The serial output after a message of severity `level` has gone through the filter. */
  function Logged(output: seq<string>, currentLevel: int, level: int, tag: string, message: string): (out: seq<string>)
    ensures Emits(level, currentLevel) ==> out == output + [FormatLine(level, tag, message)]
    ensures !Emits(level, currentLevel) ==> out == output
  {
    if level < currentLevel then output else output + [FormatLine(level, tag, message)]
  }

  /**
   * The process-wide logger: the threshold `currentLevel` and the serial output seen
   * so far, one string per printed line. `message` is the already formatted text.
   */
  class Logger {
    var currentLevel: int
    var output: seq<string>

    constructor (initialLevel: int)
      ensures currentLevel == initialLevel && output == []
    {
      currentLevel, output := initialLevel, [];
    }

    method SetLevel(level: int)
      modifies this`currentLevel
      ensures currentLevel == level
    {
      currentLevel := level;
    }

    method GetLevel() returns (level: int)
      ensures level == currentLevel
    {
      level := currentLevel;
    }

    /** Appends the formatted line when `level` passes the threshold; otherwise prints nothing. */
    method Log(level: int, tag: string, message: string)
      modifies this`output
      ensures output == Logged(old(output), currentLevel, level, tag, message)
    {
      if level < currentLevel {
        return;
      }
      output := output + [FormatLine(level, tag, message)];
    }

    method Debug(tag: string, message: string)
      modifies this`output
      ensures output == Logged(old(output), currentLevel, LevelDebug, tag, message)
      ensures IsLevel(currentLevel) ==> (output != old(output) <==> currentLevel == LevelDebug)
    {
      Log(LevelDebug, tag, message);
    }

    method Info(tag: string, message: string)
      modifies this`output
      ensures output == Logged(old(output), currentLevel, LevelInfo, tag, message)
    {
      Log(LevelInfo, tag, message);
    }

    method Warning(tag: string, message: string)
      modifies this`output
      ensures output == Logged(old(output), currentLevel, LevelWarning, tag, message)
    {
      Log(LevelWarning, tag, message);
    }

    method Error(tag: string, message: string)
      modifies this`output
      ensures output == Logged(old(output), currentLevel, LevelError, tag, message)
    {
      Log(LevelError, tag, message);
    }

    method Critical(tag: string, message: string)
      modifies this`output
      ensures output == Logged(old(output), currentLevel, LevelCritical, tag, message)
      ensures IsLevel(currentLevel) ==> output == old(output) + [FormatLine(LevelCritical, tag, message)]
    {
      Log(LevelCritical, tag, message);
    }
  }

  /** Setting the level and reading it back yields the level that was set; nothing is printed. */
  method SetThenGetLevel(logger: Logger, level: int) returns (got: int)
    modifies logger`currentLevel
    ensures logger.currentLevel == level
    ensures got == level && logger.output == old(logger.output)
  {
    logger.SetLevel(level);
    got := logger.GetLevel();
  }
}
