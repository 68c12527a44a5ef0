/** The leveled logger of log.go: the five level constants, keyword parsing,
    named child loggers, and the level filter that decides whether a message
    reaches the underlying Go `log.Logger`. */
module Logging {
  import opened Common

  /** Go's `Level` is a plain `int`; the named levels are the `iota` constants. */
  type Level = int

  const UNSPECIFIED: Level := 0
  const ERROR: Level := 1
  const WARNING: Level := 2
  const INFO: Level := 3
  const DEBUG: Level := 4

  /** The named levels are strictly ordered, from the silent UNSPECIFIED to
      the most verbose DEBUG. */
  lemma LevelsOrdered()
    ensures UNSPECIFIED < ERROR < WARNING < INFO < DEBUG
    ensures UNSPECIFIED == 0 && DEBUG == 4
  {
  }

  /** The keyword that ParseLevel accepts for each named level. */
  function Keyword(level: Level): string
    requires ERROR <= level <= DEBUG
  {
    if level == ERROR then "ERROR"
    else if level == WARNING then "WARNING"
    else if level == INFO then "INFO"
    else "DEBUG"
  }

  /** Upper-casing restricted to ASCII letters. */
  function UpperChar(c: char): char
  {
    if 'a' <= c <= 'z' then (c as int - 'a' as int + 'A' as int) as char else c
  }

  function ToUpper(s: string): string
  {
    seq(|s|, i requires 0 <= i < |s| => UpperChar(s[i]))
  }

  /** `s` spells the upper-case word `word` in some mix of letter cases. */
  ghost predicate SpellsIgnoringCase(s: string, word: string)
  {
    |s| == |word| && forall i :: 0 <= i < |s| ==> UpperChar(s[i]) == word[i]
  }

  function ParseLevel(s: string): (r: (Level, bool))
    ensures r.1 <==> ERROR <= r.0 <= DEBUG
    ensures !r.1 ==> r.0 == UNSPECIFIED
    ensures r.1 ==> ToUpper(s) == Keyword(r.0)
  {
    var u := ToUpper(s);
    if u == "ERROR" then (ERROR, true)
    else if u == "WARNING" then (WARNING, true)
    else if u == "INFO" then (INFO, true)
    else if u == "DEBUG" then (DEBUG, true)
    else (UNSPECIFIED, false)
  }

  lemma UpperMatchesSpelling(s: string, word: string)
    ensures ToUpper(s) == word <==> SpellsIgnoringCase(s, word)
  {
    if SpellsIgnoringCase(s, word) {
      assert forall i :: 0 <= i < |s| ==> ToUpper(s)[i] == word[i];
    }
  }

  /** ParseLevel accepts exactly the four keywords, in any letter case, and
      rejects every other string with UNSPECIFIED. */
  lemma ParseLevelAcceptsKeywords(s: string, level: Level)
    requires ERROR <= level <= DEBUG
    ensures ParseLevel(s) == (level, true) <==> SpellsIgnoringCase(s, Keyword(level))
  {
    UpperMatchesSpelling(s, Keyword(level));
  }

  lemma ParseLevelRejects(s: string)
    requires forall level :: ERROR <= level <= DEBUG ==> !SpellsIgnoringCase(s, Keyword(level))
    ensures ParseLevel(s) == (UNSPECIFIED, false)
  {
    var r := ParseLevel(s);
    if r.1 {
      UpperMatchesSpelling(s, Keyword(r.0));
    }
  }

  /** Parsing ignores letter case: an upper-cased spelling parses the same way. */
  lemma ParseLevelIgnoresCase(s: string)
    ensures ParseLevel(ToUpper(s)) == ParseLevel(s)
  {
    assert ToUpper(ToUpper(s)) == ToUpper(s);
  }

  /** The caller's position that `runtime.Caller(2)` reports, already reduced
      to the base file name. */
  datatype CallSite = CallSite(file: string, line: int)

  /** One argument of a Go `Printf` call. */
  datatype Arg = Str(s: string) | Num(n: int) | Lvl(level: Level)

  /** One `Printf` call on the underlying Go `log.Logger`. */
  datatype Record = Record(format: string, args: seq<Arg>)

  /** A message at `msgLevel` passes the filter of a logger at `loggerLevel`;
      a logger at DEBUG or beyond lets every named level through. */
  predicate Emits(msgLevel: Level, loggerLevel: Level): (emitted: bool)
    ensures ERROR <= msgLevel <= DEBUG && loggerLevel >= DEBUG ==> emitted
  {
    msgLevel <= loggerLevel
  }

  /** The leading part of the format string and its arguments: the caller
      position when the logger is at DEBUG or more verbose, then name and level. */
  function PrefixFormat(loggerLevel: Level, site: Option<CallSite>): string
  {
    (if loggerLevel >= DEBUG && site.Some? then "%s:%d " else "") + "%s %s: "
  }

  function PrefixArgs(loggerLevel: Level, site: Option<CallSite>, name: string, msgLevel: Level): seq<Arg>
  {
    (if loggerLevel >= DEBUG && site.Some? then [Str(site.value.file), Num(site.value.line)] else [])
    + [Str(name), Lvl(msgLevel)]
  }

  /** Every emitted line carries "<name> <level>: " right before the message,
      and the caller position only when the logger is at DEBUG or beyond. */
  lemma PrefixShape(loggerLevel: Level, site: Option<CallSite>, name: string, msgLevel: Level)
    ensures var f := PrefixFormat(loggerLevel, site);
      |f| >= 7 && f[|f| - 7..] == "%s %s: "
    ensures var a := PrefixArgs(loggerLevel, site, name, msgLevel);
      |a| >= 2 && a[|a| - 2..] == [Str(name), Lvl(msgLevel)]
    ensures |PrefixArgs(loggerLevel, site, name, msgLevel)| == 4 <==> loggerLevel >= DEBUG && site.Some?
  {
  }

  /** A fresh logger sits at UNSPECIFIED and so drops every message sent
      through Errorf, Warningf, Infof or Debugf. */
  lemma UnspecifiedIsSilent(msgLevel: Level)
    requires ERROR <= msgLevel <= DEBUG
    ensures !Emits(msgLevel, UNSPECIFIED)
  {
  }

  /** The output shared by a logger and all of its children. */
  class Sink {
    var records: seq<Record>

    constructor ()
      ensures records == []
    {
      records := [];
    }
  }

  class Logger {
    var name: string
    var level: Level
    const sink: Sink

    /** GetLogger: a new logger at UNSPECIFIED with its own output. */
    constructor (name: string)
      ensures this.name == name && level == UNSPECIFIED
      ensures fresh(sink) && sink.records == []
    {
      this.name := name;
      level := UNSPECIFIED;
      sink := new Sink();
    }

    constructor Copy(name: string, level: Level, sink: Sink)
      ensures this.name == name && this.level == level && this.sink == sink
    {
      this.name := name;
      this.level := level;
      this.sink := sink;
    }

    /** A copy of this logger named "<parent>.<suffix>", sharing level and
        output; the parent itself is untouched. */
    method Child(suffix: string) returns (child: Logger)
      ensures fresh(child)
      ensures child.name == name + "." + suffix
      ensures child.level == level && child.sink == sink
    {
      child := new Logger.Copy(name + "." + suffix, level, sink);
    }

    method SetLogLevel(level: Level)
      modifies this`level
      ensures this.level == level
    {
      this.level := level;
    }

    /** printf: drops a message above the logger's level, otherwise hands one
        record to the output, its format and arguments built by appending. */
    method Printf(msgLevel: Level, format: string, args: seq<Arg>, site: Option<CallSite>)
      modifies sink
      ensures Emits(msgLevel, level) ==>
        sink.records == old(sink.records) + [Record(PrefixFormat(level, site) + format,
                                                    PrefixArgs(level, site, name, msgLevel) + args)]
      ensures !Emits(msgLevel, level) ==> sink.records == old(sink.records)
    {
      if msgLevel > level {
        return;
      }
      var ourFormat := "";
      var ourArgs: seq<Arg> := [];
      if level >= DEBUG {
        if site.Some? {
          ourFormat := ourFormat + "%s:%d ";
          ourArgs := ourArgs + [Str(site.value.file), Num(site.value.line)];
        }
      }
      ourFormat := ourFormat + "%s %s: ";
      ourArgs := ourArgs + [Str(name), Lvl(msgLevel)];
      assert ourFormat == PrefixFormat(level, site);
      assert ourArgs == PrefixArgs(level, site, name, msgLevel);
      sink.records := sink.records + [Record(ourFormat + format, ourArgs + args)];
    }

    method Errorf(format: string, args: seq<Arg>, site: Option<CallSite>)
      modifies sink
      ensures Emits(ERROR, level) ==>
        sink.records == old(sink.records) + [Record(PrefixFormat(level, site) + format,
                                                    PrefixArgs(level, site, name, ERROR) + args)]
      ensures !Emits(ERROR, level) ==> sink.records == old(sink.records)
    {
      Printf(ERROR, format, args, site);
    }

    method Warningf(format: string, args: seq<Arg>, site: Option<CallSite>)
      modifies sink
      ensures Emits(WARNING, level) ==>
        sink.records == old(sink.records) + [Record(PrefixFormat(level, site) + format,
                                                    PrefixArgs(level, site, name, WARNING) + args)]
      ensures !Emits(WARNING, level) ==> sink.records == old(sink.records)
    {
      Printf(WARNING, format, args, site);
    }

    method Infof(format: string, args: seq<Arg>, site: Option<CallSite>)
      modifies sink
      ensures Emits(INFO, level) ==>
        sink.records == old(sink.records) + [Record(PrefixFormat(level, site) + format,
                                                    PrefixArgs(level, site, name, INFO) + args)]
      ensures !Emits(INFO, level) ==> sink.records == old(sink.records)
    {
      Printf(INFO, format, args, site);
    }

    method Debugf(format: string, args: seq<Arg>, site: Option<CallSite>)
      modifies sink
      ensures Emits(DEBUG, level) ==>
        sink.records == old(sink.records) + [Record(PrefixFormat(level, site) + format,
                                                    PrefixArgs(level, site, name, DEBUG) + args)]
      ensures !Emits(DEBUG, level) ==> sink.records == old(sink.records)
    {
      Printf(DEBUG, format, args, site);
    }
  }
}
