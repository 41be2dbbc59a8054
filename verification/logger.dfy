/**
 The console logger of logger.go: an immutable configuration plus three
 constructor presets, and the level entry points that render one line with
 `FormatLog`. The sink is the returned list of values handed to it, and the
 clock is the `now` argument of each call (see the Format module).
 */
module Logger {
  import Colors
  import Scanner
  import Errors
  import opened Format

  /** Where a logger's instants come from: the moment of each call, or one
      instant fixed when the logger was built. */
  datatype Clock = Live | Frozen(instant: string -> string)

  datatype ConsoleLogger = ConsoleLogger(config: LogFormatConfig, clock: Clock)

  /** The instant a call at `now` renders. */
  function Instant(clock: Clock, now: string -> string): string -> string {
    match clock
    case Live => now
    case Frozen(t) => t
  }

  const PresetDateFormat: string := "[2006-01-02 15:04:05]"

  const PresetLevelColors: map<string, string> := map["error" := "red", "info" := "blue", "debug" := "yellow"]

  /** `[green][date][reset] [yellow]->[reset] [level]: [log]`, spelled span by span. */
  const SimpleFormat: string :=
    "[green]" + "[date]" + "[reset]" + " " + "[yellow]" + "->" + "[reset]" + " " + "[level]" + ": " + "[log]"

  /** The caller's layout, format and level colours as logger.go builds them:
      the clock is `time.Now().Local`, a method value bound to the instant
      `builtAt` at which the logger was made, so every line carries that instant. */
  function CreateConsoleLogger(dateFormat: string, logFormat: string, levelColors: map<string, string>,
                               builtAt: string -> string): (l: ConsoleLogger)
    ensures l.config == LogFormatConfig(dateFormat, logFormat, true, levelColors)
    ensures forall now :: Instant(l.clock, now) == builtAt
  {
    ConsoleLogger(LogFormatConfig(dateFormat, logFormat, true, levelColors), Frozen(builtAt))
  }

  /** The constructor as evidently intended: the caller's layout, format and
      level colours, kept verbatim, with level colouring on and the instant of
      each call, as the other presets have. */
  function CreateConsoleLoggerLive(dateFormat: string, logFormat: string, levelColors: map<string, string>): (l: ConsoleLogger)
    ensures l.config.dateFormat == dateFormat && l.config.format == logFormat
    ensures l.config.levelColors == levelColors
    ensures l.config.levelColor
    ensures forall now :: Instant(l.clock, now) == now
  {
    ConsoleLogger(LogFormatConfig(dateFormat, logFormat, true, levelColors), Live)
  }

  /** The caller's format with the preset layout and level colours
      error → red, info → blue, debug → yellow. */
  function CreateFormattedLogger(logFormat: string): (l: ConsoleLogger)
    ensures l.config.format == logFormat && l.config.dateFormat == PresetDateFormat
    ensures l.config.levelColor
    ensures l.config.levelColors == PresetLevelColors
    ensures Colors.Lookup(l.config.levelColors, "error") == "red"
    ensures Colors.Lookup(l.config.levelColors, "info") == "blue"
    ensures Colors.Lookup(l.config.levelColors, "debug") == "yellow"
    ensures forall now :: Instant(l.clock, now) == now
  {
    ConsoleLogger(LogFormatConfig(PresetDateFormat, logFormat, true, PresetLevelColors), Live)
  }

  /** The fully preset logger: the simple format, the preset layout and the
      preset level colours. */
  function CreateSimpleConsoleLogger(): (l: ConsoleLogger)
    ensures l.config.format == SimpleFormat && l.config.dateFormat == PresetDateFormat
    ensures l.config.levelColor
    ensures l.config.levelColors == PresetLevelColors
    ensures Colors.Lookup(l.config.levelColors, "error") == "red"
    ensures Colors.Lookup(l.config.levelColors, "info") == "blue"
    ensures Colors.Lookup(l.config.levelColors, "debug") == "yellow"
    ensures forall now :: Instant(l.clock, now) == now
  {
    ConsoleLogger(LogFormatConfig(PresetDateFormat, SimpleFormat, true, PresetLevelColors), Live)
  }

  /** A call at instant `now`: one call of the sink, with the one line rendered
      at the logger's instant. */
  function Log(l: ConsoleLogger, message: string, level: string, now: string -> string): (out: seq<string>)
    ensures |out| == 1
    ensures |out[0]| >= |Colors.Reset| && out[0][|out[0]| - |Colors.Reset|..] == Colors.Reset
    ensures out[0][..|out[0]| - |Colors.Reset|] == Substitute(level, message, l.config, Instant(l.clock, now))
  {
    [FormatLog(level, message, l.config, Instant(l.clock, now))]
  }

  function Error(l: ConsoleLogger, message: string, now: string -> string): (out: seq<string>)
    ensures out == [FormatLog("error", message, l.config, Instant(l.clock, now))]
  {
    Log(l, message, "error", now)
  }

  function Info(l: ConsoleLogger, message: string, now: string -> string): (out: seq<string>)
    ensures out == [FormatLog("info", message, l.config, Instant(l.clock, now))]
  {
    Log(l, message, "info", now)
  }

  function Debug(l: ConsoleLogger, message: string, now: string -> string): (out: seq<string>)
    ensures out == [FormatLog("debug", message, l.config, Instant(l.clock, now))]
  {
    Log(l, message, "debug", now)
  }

  /** The three entry points differ only in the level they render: a format
      without a `[level]` span prints the same line for all three. */
  lemma LevelsShareFormat(l: ConsoleLogger, message: string, now: string -> string)
    requires forall p :: p in Scanner.Scan(l.config.format) && p.Token? ==> p.text != "[level]"
    ensures Error(l, message, now) == Info(l, message, now) == Debug(l, message, now)
  {
    var t := Instant(l.clock, now);
    var ps := Scanner.Scan(l.config.format);
    Scanner.RenderAgree(ps, Resolver("error", message, l.config, t), Resolver("info", message, l.config, t));
    Scanner.RenderAgree(ps, Resolver("info", message, l.config, t), Resolver("debug", message, l.config, t));
  }

  /** As written, a caller-configured logger's `[date]` ignores when the call
      happens: two calls at different instants print the same line. */
  lemma ConsoleLoggerClockFrozen(dateFormat: string, levelColors: map<string, string>, builtAt: string -> string,
                                 message: string, now1: string -> string, now2: string -> string)
    ensures Error(CreateConsoleLogger(dateFormat, "[date]", levelColors, builtAt), message, now1)
         == Error(CreateConsoleLogger(dateFormat, "[date]", levelColors, builtAt), message, now2)
         == [builtAt(dateFormat) + Colors.Reset]
  {
    var l := CreateConsoleLogger(dateFormat, "[date]", levelColors, builtAt);
    DateTokenRendersNow("error", message, l.config, builtAt);
  }

  /** With the instant of each call, `[date]` prints the call's instant, so
      calls at instants that format differently print different lines. */
  lemma ConsoleLoggerClockLive(dateFormat: string, levelColors: map<string, string>,
                               message: string, now1: string -> string, now2: string -> string)
    ensures Error(CreateConsoleLoggerLive(dateFormat, "[date]", levelColors), message, now1)
         == [now1(dateFormat) + Colors.Reset]
    ensures now1(dateFormat) != now2(dateFormat)
        ==> Error(CreateConsoleLoggerLive(dateFormat, "[date]", levelColors), message, now1)
            != Error(CreateConsoleLoggerLive(dateFormat, "[date]", levelColors), message, now2)
  {
    var l := CreateConsoleLoggerLive(dateFormat, "[date]", levelColors);
    DateTokenRendersNow("error", message, l.config, now1);
    DateTokenRendersNow("error", message, l.config, now2);
    var r1, r2 := now1(dateFormat) + Colors.Reset, now2(dateFormat) + Colors.Reset;
    assert r1[..|r1| - |Colors.Reset|] == now1(dateFormat);
    assert r2[..|r2| - |Colors.Reset|] == now2(dateFormat);
  }

  /** The levels render as the upper-case words the entry points promise. */
  lemma LevelWords()
    ensures ToUpper("error") == "ERROR" && ToUpper("info") == "INFO" && ToUpper("debug") == "DEBUG"
  {
  }

  /** Eleven strings joined left to right are the same string joined right to left. */
  lemma Regroup11(a: string, b: string, c: string, d: string, e: string, g: string,
                  h: string, i: string, j: string, k: string, m: string)
    ensures a + b + c + d + e + g + h + i + j + k + m
         == a + (b + (c + (d + (e + (g + (h + (i + (j + (k + m)))))))))
  {
  }

  /** The scan of any string shaped like the simple format: six whole spans,
      the third repeated, with plain runs between them. */
  lemma ReplaceAllSimpleShape(a: string, b: string, c: string, d: string, e: string, g: string,
                              h: string, i: string, j: string, f: string -> string)
    requires Scanner.IsMatch(a) && Scanner.IsMatch(b) && Scanner.IsMatch(c)
    requires Scanner.IsMatch(e) && Scanner.IsMatch(h) && Scanner.IsMatch(j)
    requires '[' !in d && '[' !in g && '[' !in i
    ensures Scanner.ReplaceAll(a + (b + (c + (d + (e + (g + (c + (d + (h + (i + j))))))))), f)
         == f(a) + (f(b) + (f(c) + (d + (f(e) + (g + (f(c) + (d + (f(h) + (i + f(j))))))))))
  {
    var s8 := i + j;
    var s7 := h + s8;
    var s6 := d + s7;
    var s5 := c + s6;
    var s4 := g + s5;
    var s3 := e + s4;
    var s2 := d + s3;
    var s1 := c + s2;
    var s0 := b + s1;
    assert j + [] == j && f(j) + [] == f(j);
    Scanner.ReplaceAllAtMatch(j, [], f);
    Scanner.ReplaceAllAtPlain(i, j, f);
    Scanner.ReplaceAllAtMatch(h, s8, f);
    Scanner.ReplaceAllAtPlain(d, s7, f);
    Scanner.ReplaceAllAtMatch(c, s6, f);
    Scanner.ReplaceAllAtPlain(g, s5, f);
    Scanner.ReplaceAllAtMatch(e, s4, f);
    Scanner.ReplaceAllAtPlain(d, s3, f);
    Scanner.ReplaceAllAtMatch(c, s2, f);
    Scanner.ReplaceAllAtMatch(b, s1, f);
    Scanner.ReplaceAllAtMatch(a, s0, f);
  }

  /** The spans the simple format uses are each one whole match. */
  lemma SimpleSpansMatch()
    ensures Scanner.IsMatch("[green]") && Scanner.IsMatch("[date]") && Scanner.IsMatch("[reset]")
    ensures Scanner.IsMatch("[yellow]") && Scanner.IsMatch("[level]") && Scanner.IsMatch("[log]")
  {
  }

  /** The simple format with its spans substituted: green, the date, reset, a
      space, yellow, the arrow, reset, a space, the level, a colon and the message. */
  lemma SubstituteSimple(level: string, message: string, config: LogFormatConfig, now: string -> string)
    requires config.format == SimpleFormat
    ensures Substitute(level, message, config, now)
         == Colors.Table["green"] + (now(config.dateFormat) + (Colors.Reset + (" " + (Colors.Table["yellow"]
            + ("->" + (Colors.Reset + (" " + (LevelText(level, config) + (": " + message)))))))))
  {
    var f := Resolver(level, message, config, now);
    Regroup11("[green]", "[date]", "[reset]", " ", "[yellow]", "->", "[reset]", " ", "[level]", ": ", "[log]");
    SimpleSpansMatch();
    ReplaceAllSimpleShape("[green]", "[date]", "[reset]", " ", "[yellow]", "->", "[level]", ": ", "[log]", f);
    assert f("[green]") == Colors.Table["green"];
    assert f("[date]") == now(config.dateFormat);
    assert f("[reset]") == Colors.Reset;
    assert f("[yellow]") == Colors.Table["yellow"];
    assert f("[level]") == LevelText(level, config);
    assert f("[log]") == message;
  }

  /** The simple logger's line: green date, yellow arrow, the level in its
      preset colour, the message, and the trailing reset. */
  lemma SimpleLoggerLine(level: string, message: string, now: string -> string)
    ensures Log(CreateSimpleConsoleLogger(), message, level, now)
         == [Colors.Table["green"] + now(PresetDateFormat) + Colors.Reset + " "
             + Colors.Table["yellow"] + "->" + Colors.Reset + " "
             + Colorize(ToUpper(level), Colors.Lookup(PresetLevelColors, level))
             + ": " + message + Colors.Reset]
  {
    var l := CreateSimpleConsoleLogger();
    SubstituteSimple(level, message, l.config, now);
    var g, d, y, lv := Colors.Table["green"], now(PresetDateFormat), Colors.Table["yellow"], LevelText(level, l.config);
    var rs := Colors.Reset;
    Regroup11(g, d, rs, " ", y, "->", rs, " ", lv, ": ", message);
  }

  /** `Error` on the simple logger: the level reads `ERROR` in red. */
  lemma SimpleLoggerErrorLine(message: string, now: string -> string)
    ensures Error(CreateSimpleConsoleLogger(), message, now)
         == [Colors.Table["green"] + now(PresetDateFormat) + Colors.Reset + " "
             + Colors.Table["yellow"] + "->" + Colors.Reset + " "
             + (Colors.Table["red"] + "ERROR" + Colors.Reset)
             + ": " + message + Colors.Reset]
  {
    SimpleLoggerLine("error", message, now);
    LevelWords();
  }

  /** The scan of a whole span, a plain run and a whole span. */
  lemma ReplaceAllSpanPlainSpan(a: string, b: string, c: string, f: string -> string)
    requires Scanner.IsMatch(a) && Scanner.IsMatch(c) && '[' !in b
    ensures Scanner.ReplaceAll(a + (b + c), f) == f(a) + (b + f(c))
  {
    assert c + [] == c && f(c) + [] == f(c);
    Scanner.ReplaceAllAtMatch(c, [], f);
    Scanner.ReplaceAllAtPlain(b, c, f);
    Scanner.ReplaceAllAtMatch(a, b + c, f);
  }

  /** The caller-configured logger with format `[date]: [log]` prints a date,
      a colon and the message; the level does not appear. As written the date is
      the instant the logger was built; with the live clock it is the call's. */
  lemma ConsoleLoggerDateLogLine(message: string, builtAt: string -> string, now: string -> string)
    ensures Error(CreateConsoleLogger("2006-01-02", "[date]" + ": " + "[log]", map["error" := "red"], builtAt), message, now)
         == [builtAt("2006-01-02") + ": " + message + Colors.Reset]
    ensures Error(CreateConsoleLoggerLive("2006-01-02", "[date]" + ": " + "[log]", map["error" := "red"]), message, now)
         == [now("2006-01-02") + ": " + message + Colors.Reset]
  {
    DateLogLine(CreateConsoleLogger("2006-01-02", "[date]" + ": " + "[log]", map["error" := "red"], builtAt).config, message, builtAt);
    DateLogLine(CreateConsoleLoggerLive("2006-01-02", "[date]" + ": " + "[log]", map["error" := "red"]).config, message, now);
  }

  /** The `error` line for the format `[date]: [log]` at instant `t`. */
  lemma DateLogLine(config: LogFormatConfig, message: string, t: string -> string)
    requires config.format == "[date]" + ": " + "[log]"
    ensures FormatLog("error", message, config, t) == t(config.dateFormat) + ": " + message + Colors.Reset
  {
    var f := Resolver("error", message, config, t);
    assert Scanner.IsMatch("[date]") && Scanner.IsMatch("[log]");
    assert "[date]" + ": " + "[log]" == "[date]" + (": " + "[log]");
    ReplaceAllSpanPlainSpan("[date]", ": ", "[log]", f);
    assert f("[date]") == t(config.dateFormat);
    assert f("[log]") == message;
    var dt := t(config.dateFormat);
    assert dt + (": " + message) + Colors.Reset == dt + ": " + message + Colors.Reset;
  }

  /** The scan of four whole spans with plain runs between them. */
  lemma ReplaceAllFourSpans(a: string, b: string, c: string, d: string, e: string, g: string, h: string, f: string -> string)
    requires Scanner.IsMatch(a) && Scanner.IsMatch(c) && Scanner.IsMatch(e) && Scanner.IsMatch(h)
    requires '[' !in b && '[' !in d && '[' !in g
    ensures Scanner.ReplaceAll(a + (b + (c + (d + (e + (g + h))))), f)
         == f(a) + (b + (f(c) + (d + (f(e) + (g + f(h))))))
  {
    ReplaceAllSpanPlainSpan(e, g, h, f);
    Scanner.ReplaceAllAtPlain(d, e + (g + h), f);
    Scanner.ReplaceAllAtMatch(c, d + (e + (g + h)), f);
    Scanner.ReplaceAllAtPlain(b, c + (d + (e + (g + h))), f);
    Scanner.ReplaceAllAtMatch(a, b + (c + (d + (e + (g + h)))), f);
  }

  /** Seven strings joined left to right are the same string joined right to left. */
  lemma Regroup7(a: string, b: string, c: string, d: string, e: string, g: string, h: string)
    ensures a + b + c + d + e + g + h == a + (b + (c + (d + (e + (g + h)))))
  {
  }

  /** A logger whose configuration leaves level colouring off prints the level
      as the plain upper-case word, and copies the unknown `[default]` through. */
  lemma PlainLevelLine(level: string, message: string, now: string -> string, colors: map<string, string>)
    ensures Log(ConsoleLogger(LogFormatConfig("2023-02-02 15:15:15",
                  "[date]" + " " + "[level]" + ": " + "[log]" + " " + "[default]", false, colors), Live), message, level, now)
         == [now("2023-02-02 15:15:15") + " " + ToUpper(level) + ": " + message + " " + "[default]" + Colors.Reset]
  {
    var config := LogFormatConfig("2023-02-02 15:15:15", "[date]" + " " + "[level]" + ": " + "[log]" + " " + "[default]", false, colors);
    var f := Resolver(level, message, config, now);
    assert Scanner.IsMatch("[date]") && Scanner.IsMatch("[level]") && Scanner.IsMatch("[log]") && Scanner.IsMatch("[default]");
    Regroup7("[date]", " ", "[level]", ": ", "[log]", " ", "[default]");
    ReplaceAllFourSpans("[date]", " ", "[level]", ": ", "[log]", " ", "[default]", f);
    assert f("[date]") == now("2023-02-02 15:15:15");
    assert f("[level]") == ToUpper(level);
    assert f("[log]") == message;
    assert f("[default]") == "[default]";
    var dt, lv := now("2023-02-02 15:15:15"), ToUpper(level);
    Regroup7(dt, " ", lv, ": ", message, " ", "[default]");
  }

  /** The lines a logger's `Error` prints when it is the sink of `LogIfErr`. */
  function ErrorEach(l: ConsoleLogger, chains: seq<Errors.Error>, now: string -> string): seq<string>
    requires forall v :: v in chains ==> !Errors.Ok(v)
  {
    if chains == [] then []
    else Error(l, Errors.ErrorString(chains[0]), now) + ErrorEach(l, chains[1..], now)
  }

  /** Passing a logger's `Error` to `LogIfErr`: a success chain prints
      nothing, a failure prints its trace as one error line. */
  lemma LogIfErrThroughLogger(l: ConsoleLogger, e: Errors.Error, now: string -> string)
    ensures ErrorEach(l, Errors.LogIfErr(e).1, now)
         == if Errors.Ok(e) then [] else [FormatLog("error", Errors.GetStackTrace(e), l.config, Instant(l.clock, now))]
  {
  }
}
