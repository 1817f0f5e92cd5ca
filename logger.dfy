/**
 * Logger of Logger.hpp.  Standard output, standard error and the log
 * file's text are sequences the logger appends to; whether the file opens
 * is an input of each call that writes to it.  `commonPrefix.append(message)`
 * changes the prefix itself, so every message is prefixed by all earlier ones.
 */
module Logging {

  /** The underlying values of `Level` that name none of its enumerators (0 to 3 are DEBUGINFO to ERROR). */
  type UndeclaredCode = c: int | c < 0 || 3 < c witness -1

  /** The four declared levels, and a value outside them (reachable by a cast), code included. */
  datatype Level = DebugInfo | Info | Warning | Error | Undeclared(code: UndeclaredCode)

  datatype Output = Console | File | Both

  function LevelName(level: Level): (name: string)
    ensures level.Undeclared? <==> name == "UNKNOWN"
  {
    match level
    case DebugInfo => "DEBUG"
    case Info => "INFO"
    case Warning => "WARNING"
    case Error => "ERROR"
    case Undeclared(_) => "UNKNOWN"
  }

  predicate ToConsole(output: Output) { output == Console || output == Both }
  predicate ToFile(output: Output) { output == File || output == Both }

  /** How operator<< prints a std::filesystem::path: std::quoted, escaping '"' and '\'. */
  function Quoted(path: string): (r: string)
    ensures |r| >= 2 && r[0] == '"' && r[|r| - 1] == '"'
  {
    "\"" + Escaped(path) + "\""
  }

  function Escaped(s: string): (r: string)
    ensures |r| >= |s|
    decreases |s|
  {
    if s == [] then ""
    else (if s[0] == '"' || s[0] == '\\' then ['\\', s[0]] else [s[0]]) + Escaped(s[1..])
  }

  /** Unescaping what Quoted wrote gives the path back. */
  function Unescaped(s: string): string
    decreases |s|
  {
    if s == [] then ""
    else if s[0] == '\\' && |s| >= 2 then [s[1]] + Unescaped(s[2..])
    else [s[0]] + Unescaped(s[1..])
  }

  lemma {:induction false} EscapedRoundTrip(s: string)
    ensures Unescaped(Escaped(s)) == s
    decreases |s|
  {
    if s != [] {
      var head := if s[0] == '"' || s[0] == '\\' then ['\\', s[0]] else [s[0]];
      var e := Escaped(s);
      assert e == head + Escaped(s[1..]);
      EscapedRoundTrip(s[1..]);
      if s[0] == '"' || s[0] == '\\' {
        assert e[0] == '\\' && e[1] == s[0] && e[2..] == Escaped(s[1..]);
      } else {
        assert e[0] == s[0] && e[1..] == Escaped(s[1..]);
      }
      assert [s[0]] + s[1..] == s;
    }
  }

  function OpenError(path: string): string {
    "[ERROR] Unable to open log file: " + Quoted(path) + "\n"
  }

  /**
   * The line Log formats, given the prefix after the message has been
   * appended to it: the bracketed level name and a space, then the whole
   * prefix, then a newline.
   */
  function LogLine(level: Level, prefix: string): (r: string)
    ensures |r| == |LevelName(level)| + |prefix| + 4
    ensures r[..|LevelName(level)| + 3] == "[" + LevelName(level) + "] "
    ensures r[|r| - |prefix| - 1..] == prefix + "\n"
  {
    "[" + LevelName(level) + "] " + prefix + "\n"
  }

  datatype LoggerState = LoggerState(
    logFilePath: string,
    logStartMsg: string,
    logEndMsg: string,
    commonPrefix: string,
    stdout: string,
    stderr: string,
    fileText: string)   // what the file at logFilePath holds

  /** The constructor: with a path, the file is truncated to the start message, or the failure is reported. */
  function Opened(prefix: string, startMsg: string, endMsg: string, path: string,
                  canOpen: bool, existing: string, stdout: string, stderr: string): (st: LoggerState)
    ensures st.commonPrefix == prefix && st.stdout == stdout
    ensures path != "" && canOpen ==> st.fileText == startMsg + "\n" && st.stderr == stderr
    ensures path != "" && !canOpen ==> st.fileText == existing && st.stderr == stderr + OpenError(path)
    ensures path == "" ==> st.fileText == existing && st.stderr == stderr
  {
    var st := LoggerState(path, startMsg, endMsg, prefix, stdout, stderr, existing);
    if path == "" then st
    else if canOpen then st.(fileText := startMsg + "\n")
    else st.(stderr := stderr + OpenError(path))
  }

  /** The destructor: with a path, the end message is appended, or the failure is reported. */
  function Closed(st: LoggerState, canOpen: bool): (r: LoggerState)
    ensures r.stdout == st.stdout && r.commonPrefix == st.commonPrefix
    ensures st.logFilePath != "" && canOpen ==> r.fileText == st.fileText + st.logEndMsg + "\n" && r.stderr == st.stderr
    ensures st.logFilePath != "" && !canOpen ==> r.fileText == st.fileText && r.stderr == st.stderr + OpenError(st.logFilePath)
    ensures st.logFilePath == "" ==> r == st
  {
    if st.logFilePath == "" then st
    else if canOpen then st.(fileText := st.fileText + st.logEndMsg + "\n")
    else st.(stderr := st.stderr + OpenError(st.logFilePath))
  }

  /** One Log call. */
  function LogStep(st: LoggerState, level: Level, message: string, output: Output, canOpen: bool): (r: LoggerState)
    ensures r.commonPrefix == st.commonPrefix + message
    ensures r.logFilePath == st.logFilePath && r.logStartMsg == st.logStartMsg && r.logEndMsg == st.logEndMsg
    ensures ToConsole(output) ==> r.stdout == st.stdout + LogLine(level, r.commonPrefix)
    ensures !ToConsole(output) ==> r.stdout == st.stdout
    ensures ToFile(output) && st.logFilePath != "" && canOpen ==>
      r.fileText == st.fileText + LogLine(level, r.commonPrefix) && r.stderr == st.stderr
    ensures ToFile(output) && st.logFilePath != "" && !canOpen ==>
      r.fileText == st.fileText && r.stderr == st.stderr + OpenError(st.logFilePath)
    ensures !ToFile(output) || st.logFilePath == "" ==> r.fileText == st.fileText && r.stderr == st.stderr
  {
    var prefix := st.commonPrefix + message;
    var line := LogLine(level, prefix);
    var afterConsole := st.(commonPrefix := prefix, stdout := if ToConsole(output) then st.stdout + line else st.stdout);
    if ToFile(output) && st.logFilePath != "" then
      if canOpen then afterConsole.(fileText := st.fileText + line)
      else afterConsole.(stderr := st.stderr + OpenError(st.logFilePath))
    else afterConsole
  }

  class Logger {
    var logFilePath: string
    var logStartMsg: string
    var logEndMsg: string
    var commonPrefix: string
    var stdout: string
    var stderr: string
    var fileText: string

    function State(): LoggerState
      reads this
    {
      LoggerState(logFilePath, logStartMsg, logEndMsg, commonPrefix, stdout, stderr, fileText)
    }

    /** `existing` is what the file held before; `stdout`/`stderr` are the streams so far. */
    constructor (prefix: string, startMsg: string, endMsg: string, path: string,
                 canOpen: bool, existing: string, out: string, err: string)
      ensures State() == Opened(prefix, startMsg, endMsg, path, canOpen, existing, out, err)
    {
      commonPrefix, logStartMsg, logEndMsg, logFilePath := prefix, startMsg, endMsg, path;
      stdout, stderr, fileText := out, err, existing;
      new;
      if logFilePath != "" {
        if canOpen {
          fileText := "";
          fileText := fileText + logStartMsg + "\n";
        } else {
          stderr := stderr + OpenError(logFilePath);
        }
      }
    }

    /** ~Logger. */
    method Close(canOpen: bool)
      modifies this
      ensures State() == Closed(old(State()), canOpen)
    {
      if logFilePath != "" {
        if canOpen {
          fileText := fileText + logEndMsg + "\n";
        } else {
          stderr := stderr + OpenError(logFilePath);
        }
      }
    }

    method Log(level: Level, message: string, output: Output, canOpen: bool)
      modifies this
      ensures State() == LogStep(old(State()), level, message, output, canOpen)
    {
      var levelStr := LevelName(level);
      commonPrefix := commonPrefix + message;
      var logMessage := "[" + levelStr + "] " + commonPrefix + "\n";
      if output == Console || output == Both {
        stdout := stdout + logMessage;
      }
      if (output == File || output == Both) && logFilePath != "" {
        if canOpen {
          fileText := fileText + logMessage;
        } else {
          stderr := stderr + OpenError(logFilePath);
        }
      }
    }
  }

  // ---------------------------------------------------------------------
  // Sequences of calls

  datatype LogCall = LogCall(level: Level, message: string, output: Output, canOpen: bool)

  function Replay(st: LoggerState, calls: seq<LogCall>): LoggerState
    decreases |calls|
  {
    if calls == [] then st
    else Replay(LogStep(st, calls[0].level, calls[0].message, calls[0].output, calls[0].canOpen), calls[1..])
  }

  function Messages(calls: seq<LogCall>): string
    decreases |calls|
  {
    if calls == [] then "" else calls[0].message + Messages(calls[1..])
  }

  /** The lines a sequence of calls formats, starting from `prefix`. */
  function Lines(prefix: string, calls: seq<LogCall>): string
    decreases |calls|
  {
    if calls == [] then ""
    else
      var p := prefix + calls[0].message;
      LogLine(calls[0].level, p) + Lines(p, calls[1..])
  }

  /** The prefix keeps every message logged so far, in order. */
  lemma {:induction false} PrefixAccumulates(st: LoggerState, calls: seq<LogCall>)
    ensures Replay(st, calls).commonPrefix == st.commonPrefix + Messages(calls)
    decreases |calls|
  {
    if calls != [] {
      var next := LogStep(st, calls[0].level, calls[0].message, calls[0].output, calls[0].canOpen);
      PrefixAccumulates(next, calls[1..]);
      assert st.commonPrefix + calls[0].message + Messages(calls[1..]) ==
             st.commonPrefix + (calls[0].message + Messages(calls[1..]));
    }
  }

  predicate AllToConsole(calls: seq<LogCall>) {
    forall i :: 0 <= i < |calls| ==> ToConsole(calls[i].output)
  }

  predicate AllToOpenFile(calls: seq<LogCall>) {
    forall i :: 0 <= i < |calls| ==> ToFile(calls[i].output) && calls[i].canOpen
  }

  predicate NoneToFile(calls: seq<LogCall>) {
    forall i :: 0 <= i < |calls| ==> !ToFile(calls[i].output)
  }

  lemma ConsoleTail(calls: seq<LogCall>)
    requires calls != [] && AllToConsole(calls)
    ensures ToConsole(calls[0].output) && AllToConsole(calls[1..])
  {
    forall i | 0 <= i < |calls| - 1 ensures ToConsole(calls[1..][i].output) {
      assert calls[1..][i] == calls[i + 1];
    }
  }

  lemma OpenFileTail(calls: seq<LogCall>)
    requires calls != [] && AllToOpenFile(calls)
    ensures ToFile(calls[0].output) && calls[0].canOpen && AllToOpenFile(calls[1..])
  {
    forall i | 0 <= i < |calls| - 1 ensures ToFile(calls[1..][i].output) && calls[1..][i].canOpen {
      assert calls[1..][i] == calls[i + 1];
    }
  }

  lemma Concat3(a: string, b: string, c: string)
    ensures a + b + c == a + (b + c)
  {
  }

  /** Console-routed calls print their lines, each carrying every earlier message. */
  lemma {:induction false} ConsoleLines(st: LoggerState, calls: seq<LogCall>)
    requires AllToConsole(calls)
    ensures Replay(st, calls).stdout == st.stdout + Lines(st.commonPrefix, calls)
    decreases |calls|
  {
    if calls != [] {
      var c := calls[0];
      var next := LogStep(st, c.level, c.message, c.output, c.canOpen);
      var line := LogLine(c.level, next.commonPrefix);
      var rest := Lines(next.commonPrefix, calls[1..]);
      ConsoleTail(calls);
      ConsoleLines(next, calls[1..]);
      assert next.stdout == st.stdout + line;
      assert Lines(st.commonPrefix, calls) == line + rest;
      Concat3(st.stdout, line, rest);
    }
  }

  /**
   * A file logger's whole life: constructed, every call written to the
   * file, destroyed.  The file then holds the start message, the lines and
   * the end message, and nothing went to standard error.
   */
  lemma FileLifecycle(prefix: string, startMsg: string, endMsg: string, path: string, existing: string,
                      out: string, err: string, calls: seq<LogCall>)
    requires path != "" && AllToOpenFile(calls)
    ensures var st := Replay(Opened(prefix, startMsg, endMsg, path, true, existing, out, err), calls);
            Closed(st, true).fileText == startMsg + "\n" + Lines(prefix, calls) + endMsg + "\n" &&
            Closed(st, true).stderr == err
  {
    FileLines(Opened(prefix, startMsg, endMsg, path, true, existing, out, err), calls);
  }

  lemma {:induction false} FileLines(st: LoggerState, calls: seq<LogCall>)
    requires st.logFilePath != "" && AllToOpenFile(calls)
    ensures Replay(st, calls).fileText == st.fileText + Lines(st.commonPrefix, calls)
    ensures Replay(st, calls).stderr == st.stderr
    ensures Replay(st, calls).logFilePath == st.logFilePath && Replay(st, calls).logEndMsg == st.logEndMsg
    decreases |calls|
  {
    if calls != [] {
      var c := calls[0];
      var next := LogStep(st, c.level, c.message, c.output, c.canOpen);
      var line := LogLine(c.level, next.commonPrefix);
      var rest := Lines(next.commonPrefix, calls[1..]);
      OpenFileTail(calls);
      FileLines(next, calls[1..]);
      assert next.fileText == st.fileText + line && next.stderr == st.stderr;
      assert Lines(st.commonPrefix, calls) == line + rest;
      Concat3(st.fileText, line, rest);
    }
  }

  /** Without a path neither construction, logging nor destruction touches the file or standard error. */
  lemma {:induction false} NoPathNoFile(st: LoggerState, calls: seq<LogCall>, canOpen: bool)
    requires st.logFilePath == ""
    ensures Closed(Replay(st, calls), canOpen).fileText == st.fileText
    ensures Closed(Replay(st, calls), canOpen).stderr == st.stderr
    decreases |calls|
  {
    if calls != [] {
      NoPathNoFile(LogStep(st, calls[0].level, calls[0].message, calls[0].output, calls[0].canOpen), calls[1..], canOpen);
    }
  }

  /** Calls routed only to the console leave the file alone. */
  lemma {:induction false} ConsoleOnlyLeavesFile(st: LoggerState, calls: seq<LogCall>)
    requires NoneToFile(calls)
    ensures Replay(st, calls).fileText == st.fileText && Replay(st, calls).stderr == st.stderr
    decreases |calls|
  {
    if calls != [] {
      ConsoleOnlyLeavesFile(LogStep(st, calls[0].level, calls[0].message, calls[0].output, calls[0].canOpen), calls[1..]);
    }
  }

  /** The four declared levels print four different names. */
  lemma DeclaredLevelNamesDistinct(a: Level, b: Level)
    requires !a.Undeclared? && !b.Undeclared? && a != b
    ensures LevelName(a) != LevelName(b)
  {
  }

  /** Two calls: the second line repeats the first message. */
  lemma ExampleTwoCalls(prefix: string)
    ensures var st := Opened(prefix, "start", "end", "", true, "", "", "");
            var calls := [LogCall(Info, "a", Console, true), LogCall(Error, "b", Console, true)];
            Replay(st, calls).stdout == LogLine(Info, prefix + "a") + LogLine(Error, prefix + "ab")
  {
    var st := Opened(prefix, "start", "end", "", true, "", "", "");
    var calls := [LogCall(Info, "a", Console, true), LogCall(Error, "b", Console, true)];
    ConsoleLines(st, calls);
    assert calls[1..] == [calls[1]] && calls[1..][1..] == [];
    assert prefix + "a" + "b" == prefix + "ab";
    assert Lines(prefix + "ab", []) == "";
    assert Lines(prefix + "a", calls[1..]) == LogLine(Error, prefix + "ab") + "";
  }
}
