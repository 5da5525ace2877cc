/**
 * The severity logger: four levels, each with its own daily-rotated log file
 * under `log\<program stem>\<level>\`, and the one-line record format.
 * Opening files, rotating and deleting them and the console echo belong to
 * Python's `logging` library and are not modelled; what is kept is the file
 * path and the rotation settings each level's handler is given, and the lines
 * each level's file receives.
 */
module Logging {
  import opened Wrappers
  import opened Strings

  datatype Level = DEBUG | INFO | WARNING | ERROR

  const AllLevels: set<Level> := {DEBUG, INFO, WARNING, ERROR}

  /** The four levels are distinct, so a map keyed by all of them has four entries. */
  lemma LevelCount()
    ensures |AllLevels| == 4
  {
  }

  /** The order in which the handler dictionary holds its keys. */
  const HandlerOrder: seq<Level> := [INFO, ERROR, WARNING, DEBUG]

  /** The numeric value of Python's `logging` constant for the level. */
  function Code(l: Level): int
  {
    match l
    case DEBUG => 10
    case INFO => 20
    case WARNING => 30
    case ERROR => 40
  }

  /** The upper-case name that opens each record. */
  function LevelName(l: Level): string
  {
    match l
    case DEBUG => "DEBUG"
    case INFO => "INFO"
    case WARNING => "WARNING"
    case ERROR => "ERROR"
  }

  /** The lower-case directory name that holds the level's files. */
  function LevelDir(l: Level): string
  {
    match l
    case DEBUG => "debug"
    case INFO => "info"
    case WARNING => "warning"
    case ERROR => "error"
  }

  /** The name given to the level's `logging.Logger`: the decimal code. */
  function LoggerName(l: Level): string
  {
    match l
    case DEBUG => "10"
    case INFO => "20"
    case WARNING => "30"
    case ERROR => "40"
  }

  // ---------------------------------------------------------------------------
  // Record format

  /** A record: `[LEVEL][time][file][function]: message`. */
  function LogLine(level: string, time: string, file: string, caller: string, message: string): string
  {
    "[" + level + "][" + time + "][" + file + "][" + caller + "]: " + message
  }

  /** A record opens with its level in brackets and closes with `: ` and the message. */
  lemma LogLineShape(level: string, time: string, file: string, caller: string, message: string)
    ensures var r := LogLine(level, time, file, caller, message);
      && |r| == |level| + |time| + |file| + |caller| + |message| + 10
      && r[..|level| + 2] == "[" + level + "]"
      && r[|r| - |message| - 2..] == ": " + message
  {
    var r := LogLine(level, time, file, caller, message);
    assert r == "[" + level + "]" + ("[" + time + "][" + file + "][" + caller + "]") + (": " + message);
  }

  /** Each field in square brackets, one after the other. */
  function Bracket(fields: seq<string>): string
  {
    if fields == [] then [] else "[" + fields[0] + "]" + Bracket(fields[1..])
  }

  lemma LogLineBracketed(level: string, time: string, file: string, caller: string, message: string)
    ensures LogLine(level, time, file, caller, message) == Bracket([level, time, file, caller]) + ": " + message
  {
    var fs := [level, time, file, caller];
    assert Bracket(fs[3..]) == "[" + caller + "]";
    assert Bracket(fs[2..]) == "[" + file + "][" + caller + "]";
    assert Bracket(fs[1..]) == "[" + time + "][" + file + "][" + caller + "]";
  }

  datatype LineFields = LineFields(level: string, time: string, file: string, caller: string, message: string)

  /** Reads one `[field]` off the front of `s`, giving the field and what follows. */
  function Bracketed(s: string): (r: Option<(string, string)>)
    ensures r.Some? ==> s == "[" + r.value.0 + "]" + r.value.1 && ']' !in r.value.0
  {
    if |s| > 0 && s[0] == '[' && ']' in s[1..] then
      var field := Before(s[1..], ']');
      assert s[1..] == field + "]" + s[1..][|field| + 1..];
      Some((field, s[1..][|field| + 1..]))
    else None
  }

  /** Reads `n` bracketed fields off the front of `s`, giving them and what follows. */
  function ReadFields(s: string, n: nat): (r: Option<(seq<string>, string)>)
    ensures r.Some? ==> |r.value.0| == n && s == Bracket(r.value.0) + r.value.1
  {
    if n == 0 then Some(([], s))
    else
      match Bracketed(s)
      case None => None
      case Some((field, rest)) =>
        match ReadFields(rest, n - 1)
        case None => None
        case Some((fields, tail)) =>
          assert ([field] + fields)[1..] == fields;
          Some(([field] + fields, tail))
  }

  /** Reads a record back into its five parts. */
  function ParseLine(line: string): (r: Option<LineFields>)
    ensures r.Some? ==> line == LogLine(r.value.level, r.value.time, r.value.file, r.value.caller, r.value.message)
  {
    match ReadFields(line, 4)
    case None => None
    case Some((fs, tail)) =>
      if |tail| >= 2 && tail[..2] == ": " then
        LogLineBracketed(fs[0], fs[1], fs[2], fs[3], tail[2..]);
        assert fs == [fs[0], fs[1], fs[2], fs[3]];
        assert tail == ": " + tail[2..];
        Some(LineFields(fs[0], fs[1], fs[2], fs[3], tail[2..]))
      else None
  }

  lemma {:induction false} BracketedFront(field: string, rest: string)
    requires ']' !in field
    ensures Bracketed("[" + field + "]" + rest) == Some((field, rest))
  {
    var s := "[" + field + "]" + rest;
    assert s[1..] == field + [']'] + rest;
    BeforeFirst(field, ']', rest);
    assert s[1..][|field| + 1..] == rest;
  }

  lemma {:induction false} ReadBracket(fields: seq<string>, rest: string)
    requires forall i :: 0 <= i < |fields| ==> ']' !in fields[i]
    ensures ReadFields(Bracket(fields) + rest, |fields|) == Some((fields, rest))
  {
    if fields != [] {
      var s := Bracket(fields) + rest;
      var tail := Bracket(fields[1..]) + rest;
      assert s == "[" + fields[0] + "]" + tail;
      BracketedFront(fields[0], tail);
      assert Bracketed(s) == Some((fields[0], tail));
      ReadBracket(fields[1..], rest);
      assert ReadFields(tail, |fields| - 1) == Some((fields[1..], rest));
      assert [fields[0]] + fields[1..] == fields;
      assert ReadFields(s, |fields|) == Some(([fields[0]] + fields[1..], rest));
    } else {
      assert Bracket(fields) + rest == rest;
    }
  }

  /** Every field of a record can be read back, provided none but the message holds a `]`. */
  lemma ParseLogLine(level: string, time: string, file: string, caller: string, message: string)
    requires ']' !in level && ']' !in time && ']' !in file && ']' !in caller
    ensures ParseLine(LogLine(level, time, file, caller, message)) == Some(LineFields(level, time, file, caller, message))
  {
    var fs, tail := [level, time, file, caller], ": " + message;
    var line := LogLine(level, time, file, caller, message);
    LogLineBracketed(level, time, file, caller, message);
    assert line == Bracket(fs) + tail;
    assert forall i :: 0 <= i < |fs| ==> ']' !in fs[i];
    ReadBracket(fs, tail);
    assert ReadFields(line, 4) == Some((fs, tail));
    assert tail[..2] == ": " && tail[2..] == message;
  }

  // ---------------------------------------------------------------------------
  // File layout and retention

  const PathSeparators: set<char> := {'/', '\\'}

  /** The program's base name up to its first `.`: `os.path.basename(argv0).split(".")[0]`. */
  function Stem(argv0: string): (r: string)
    ensures '.' !in r && '/' !in r && '\\' !in r
    ensures var base := AfterLast(argv0, PathSeparators);
      |r| <= |base| && r == base[..|r|] && (|r| == |base| || base[|r|] == '.')
  {
    Split(AfterLast(argv0, PathSeparators), '.')[0]
  }

  /** The directory of one level: `log\<stem>\<level>`. */
  function LevelDirPath(stem: string, l: Level): string
  {
    "log\\" + stem + "\\" + LevelDir(l)
  }

  /** A level's directory falls apart into exactly its three components. */
  lemma LevelDirPathComponents(stem: string, l: Level)
    requires '\\' !in stem
    ensures Split(LevelDirPath(stem, l), '\\') == ["log", stem, LevelDir(l)]
  {
    var parts := ["log", stem, LevelDir(l)];
    assert Join(parts[2..], '\\') == LevelDir(l);
    assert Join(parts[1..], '\\') == stem + "\\" + LevelDir(l);
    assert Join(parts, '\\') == LevelDirPath(stem, l);
    SplitJoin(parts, '\\');
  }

  /** The file of one level for one day: `log\<stem>\<level>\<day>.log`. */
  function LogPath(stem: string, l: Level, day: string): string
  {
    LevelDirPath(stem, l) + "\\" + day + ".log"
  }

  /** A level's file lies directly in the level's directory and is named `<day>.log`. */
  lemma LogPathInLevelDir(stem: string, l: Level, day: string)
    ensures var dir, r := LevelDirPath(stem, l), LogPath(stem, l, day);
      && |r| == |dir| + |day| + 5
      && r[..|dir| + 1] == dir + "\\"
      && r[|dir| + 1..] == day + ".log"
  {
    var dir := LevelDirPath(stem, l);
    assert LogPath(stem, l, day) == (dir + "\\") + (day + ".log");
  }

  /** A log path falls apart into exactly its four components. */
  lemma LogPathComponents(stem: string, l: Level, day: string)
    requires '\\' !in stem && '\\' !in day
    ensures Split(LogPath(stem, l, day), '\\') == ["log", stem, LevelDir(l), day + ".log"]
  {
    var parts := ["log", stem, LevelDir(l), day + ".log"];
    var file := day + ".log";
    assert Join(parts[3..], '\\') == file;
    assert Join(parts[2..], '\\') == LevelDir(l) + "\\" + file;
    assert Join(parts[1..], '\\') == stem + "\\" + (LevelDir(l) + "\\" + file);
    assert Join(parts, '\\') == "log" + "\\" + (stem + "\\" + (LevelDir(l) + "\\" + file));
    assert Join(parts, '\\') == LogPath(stem, l, day);
    assert '\\' !in file;
    SplitJoin(parts, '\\');
  }

  /** Two levels never share a log file. */
  lemma LogPathsDistinct(argv0: string, l1: Level, l2: Level, day: string)
    requires '\\' !in day && l1 != l2
    ensures LogPath(Stem(argv0), l1, day) != LogPath(Stem(argv0), l2, day)
  {
    var stem := Stem(argv0);
    LogPathComponents(stem, l1, day);
    LogPathComponents(stem, l2, day);
    assert Split(LogPath(stem, l1, day), '\\')[2] != Split(LogPath(stem, l2, day), '\\')[2];
  }

  /** How many rotated files a level's handler keeps. */
  function Retention(l: Level): (r: nat)
    ensures r == 7 <==> l == INFO
    ensures l != INFO ==> r == 30
  {
    if Code(l) == 20 then 7 else 30
  }

  /** The settings a `TimedRotatingFileHandler` is opened with. */
  datatype Handler = Handler(path: string, when: string, interval: nat, backupCount: nat, encoding: string)

  /** A level's `logging.Logger`: its name and level, its console handler's level and its file handler. */
  datatype Channel = Channel(name: string, threshold: Level, consoleThreshold: Level, file: Handler)

  // ---------------------------------------------------------------------------
  // The logger object

  class Logger {
    /** The directories made sure to exist, in the order they are created. */
    const logDirs: seq<string>
    const handlers: map<Level, Handler>
    const loggers: map<Level, Channel>
    /** The lines each level's file has received. */
    ghost var logs: map<Level, seq<string>>

    ghost predicate Valid()
      reads this
    {
      handlers.Keys == AllLevels && loggers.Keys == AllLevels && logs.Keys == AllLevels
    }

    constructor (argv0: string, day: string)
      ensures Valid()
      ensures |logDirs| == 4 && forall i :: 0 <= i < 4 ==> logDirs[i] == LevelDirPath(Stem(argv0), HandlerOrder[i])
      ensures forall l :: l in handlers ==>
        handlers[l] == Handler(LogPath(Stem(argv0), l, day), "D", 1, Retention(l), "utf-8")
      ensures forall l :: l in loggers ==> loggers[l] == Channel(LoggerName(l), l, INFO, handlers[l])
      ensures forall l :: l in logs ==> logs[l] == []
    {
      var dirs, h := CreateHandlers(argv0, day);
      var c := StreamHandler(h);
      logDirs, handlers, loggers := dirs, h, c;
      logs := map[DEBUG := [], INFO := [], WARNING := [], ERROR := []];
    }

    /**
     * Works out the directories and the four file handlers: every level's
     * directory is created, every level gets one handler for today's file,
     * INFO keeps a week of files and the other levels a month.
     */
    static method CreateHandlers(argv0: string, day: string) returns (dirs: seq<string>, handlers: map<Level, Handler>)
      ensures |dirs| == 4 && forall i :: 0 <= i < 4 ==> dirs[i] == LevelDirPath(Stem(argv0), HandlerOrder[i])
      ensures handlers.Keys == AllLevels && |handlers| == 4
      ensures forall l :: l in handlers ==>
        && handlers[l].path == LogPath(Stem(argv0), l, day)
        && LevelDirPath(Stem(argv0), l) in dirs
        && handlers[l].when == "D" && handlers[l].interval == 1
        && handlers[l].backupCount == Retention(l)
        && handlers[l].encoding == "utf-8"
    {
      var logPath := "log\\" + Stem(argv0);
      dirs := seq(4, i requires 0 <= i < 4 => logPath + "\\" + LevelDir(HandlerOrder[i]));
      var paths := map l | l in AllLevels :: logPath + "\\" + LevelDir(l) + "\\" + day + ".log";
      handlers := map[];
      var i := 0;
      while i < |HandlerOrder|
        invariant 0 <= i <= |HandlerOrder|
        invariant handlers.Keys == set j | 0 <= j < i :: HandlerOrder[j]
        invariant forall l :: l in handlers ==>
          handlers[l] == Handler(LogPath(Stem(argv0), l, day), "D", 1, Retention(l), "utf-8")
      {
        var level := HandlerOrder[i];
        if Code(level) == 20 {
          handlers := handlers[level := Handler(paths[level], "D", 1, 7, "utf-8")];
        } else {
          handlers := handlers[level := Handler(paths[level], "D", 1, 30, "utf-8")];
        }
        i := i + 1;
      }
      assert HandlerOrder[0] in handlers && HandlerOrder[1] in handlers;
      assert HandlerOrder[2] in handlers && HandlerOrder[3] in handlers;
      assert handlers.Keys == AllLevels;
      LevelCount();
      assert dirs[0] == LevelDirPath(Stem(argv0), INFO);
      assert dirs[1] == LevelDirPath(Stem(argv0), ERROR);
      assert dirs[2] == LevelDirPath(Stem(argv0), WARNING);
      assert dirs[3] == LevelDirPath(Stem(argv0), DEBUG);
    }

    /**
     * Sets up one `logging.Logger` per level: named after the level's code,
     * at the level's own threshold, echoing to the console from INFO up and
     * writing to the level's file handler.
     */
    static method StreamHandler(handlers: map<Level, Handler>) returns (loggers: map<Level, Channel>)
      requires handlers.Keys == AllLevels
      ensures loggers.Keys == AllLevels
      ensures forall l :: l in loggers ==>
        && loggers[l].file == handlers[l]
        && loggers[l].threshold == l
        && loggers[l].consoleThreshold == INFO
        && loggers[l].name == LoggerName(l)
    {
      loggers := map[];
      var i := 0;
      while i < |HandlerOrder|
        invariant 0 <= i <= |HandlerOrder|
        invariant loggers.Keys == set j | 0 <= j < i :: HandlerOrder[j]
        invariant forall l :: l in loggers ==> loggers[l] == Channel(LoggerName(l), l, INFO, handlers[l])
      {
        var level := HandlerOrder[i];
        loggers := loggers[level := Channel(LoggerName(level), level, INFO, handlers[level])];
        i := i + 1;
      }
      assert HandlerOrder[0] in loggers && HandlerOrder[1] in loggers;
      assert HandlerOrder[2] in loggers && HandlerOrder[3] in loggers;
    }

    /** Writes one record at `level`; every other level's file is left as it was. */
    method Log(level: Level, message: string, time: string, file: string, caller: string)
      requires Valid()
      modifies this
      ensures Valid()
      ensures logs == old(logs)[level := old(logs)[level] + [LogLine(LevelName(level), time, file, caller, message)]]
    {
      logs := logs[level := logs[level] + [LogLine(LevelName(level), time, file, caller, message)]];
    }
  }
}
