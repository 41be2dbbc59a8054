/**
 The log-line renderer of format.go. A format string's bracketed spans are
 replaced through a fixed token table and the reset escape is appended once.
 The instant being logged is `now`: the text Go's `Time.Format` gives for a
 layout, so `[date]` becomes `now(config.dateFormat)`. The message is the text
 its `Error()` returns.
 */
module Format {
  import Colors
  import Scanner

  datatype LogFormatConfig = LogFormatConfig(
    dateFormat: string,
    format: string,
    levelColor: bool,
    levelColors: map<string, string>)

  /** The tokens the table recognises, brackets included. */
  const ColorTokens: map<string, string> := map[
    "[red]" := "red", "[green]" := "green", "[magenta]" := "magenta",
    "[blue]" := "blue", "[yellow]" := "yellow", "[reset]" := "reset"]
  const Tokens: set<string> :=
    {"[level]", "[date]", "[log]", "[red]", "[green]", "[magenta]", "[blue]", "[yellow]", "[reset]"}

  /** The table's spans are the colour spans and the three value spans. */
  lemma TokensAreTable()
    ensures Tokens == ColorTokens.Keys + {"[level]", "[date]", "[log]"}
  {
  }

  /** `message` wrapped in the named colour and the reset escape; an unknown
      colour name contributes nothing before the message. */
  function Colorize(message: string, color: string): (r: string)
    ensures color in Colors.Table ==> r == Colors.Table[color] + message + Colors.Reset
    ensures color !in Colors.Table ==> r == message + Colors.Reset
  {
    Colors.Color(color) + message + Colors.Reset
  }

  function UpperChar(c: char): char {
    if 'a' <= c <= 'z' then (c as int - 'a' as int + 'A' as int) as char else c
  }

  /** `strings.ToUpper`, for ASCII letters. */
  function ToUpper(s: string): (r: string)
    ensures |r| == |s|
    ensures forall i :: 0 <= i < |s| ==> r[i] == UpperChar(s[i])
  {
    if s == [] then [] else [UpperChar(s[0])] + ToUpper(s[1..])
  }

  /** Upper-casing twice changes nothing more. */
  lemma ToUpperIdempotent(s: string)
    ensures ToUpper(ToUpper(s)) == ToUpper(s)
  {
    assert forall i :: 0 <= i < |s| ==> UpperChar(UpperChar(s[i])) == UpperChar(s[i]);
  }

  /** The level as printed: upper-cased, and coloured when the config asks. */
  function LevelText(level: string, config: LogFormatConfig): (r: string)
    ensures !config.levelColor ==> r == ToUpper(level)
    ensures config.levelColor
        ==> r == Colorize(ToUpper(level), Colors.Lookup(config.levelColors, level))
  {
    if config.levelColor then Colorize(ToUpper(level), Colors.Lookup(config.levelColors, level))
    else ToUpper(level)
  }

  /** The token table: what one whole bracketed span is replaced by. */
  function FormatParser(cmd: string, level: string, log: string, config: LogFormatConfig, now: string -> string): (r: string)
    ensures cmd !in Tokens ==> r == cmd
    ensures cmd in ColorTokens ==> r == Colors.Table[ColorTokens[cmd]]
    ensures cmd == "[level]" ==> r == LevelText(level, config)
    ensures cmd == "[date]" ==> r == now(config.dateFormat)
    ensures cmd == "[log]" ==> r == log
  {
    if cmd == "[level]" then LevelText(level, config)
    else if cmd == "[date]" then now(config.dateFormat)
    else if cmd == "[log]" then log
    else if cmd == "[red]" then Colors.Color("red")
    else if cmd == "[green]" then Colors.Color("green")
    else if cmd == "[magenta]" then Colors.Color("magenta")
    else if cmd == "[blue]" then Colors.Color("blue")
    else if cmd == "[yellow]" then Colors.Color("yellow")
    else if cmd == "[reset]" then Colors.Color("reset")
    else cmd
  }

  /** The replacement function `FormatLog` hands to the scan. */
  function Resolver(level: string, log: string, config: LogFormatConfig, now: string -> string): string -> string {
    cmd => FormatParser(cmd, level, log, config, now)
  }

  /** The format with its spans substituted, before the trailing reset: a
      format without any `[` comes back unchanged. */
  function Substitute(level: string, log: string, config: LogFormatConfig, now: string -> string): (r: string)
    ensures '[' !in config.format ==> r == config.format
  {
    Scanner.ReplaceAll(config.format, Resolver(level, log, config, now))
  }

  /** The finished line: the substituted format, then the reset escape once.
      A format with no bracketed span comes back verbatim before the reset. */
  function FormatLog(level: string, log: string, config: LogFormatConfig, now: string -> string): (r: string)
    ensures |r| >= |Colors.Reset| && r[|r| - |Colors.Reset|..] == Colors.Reset
    ensures r[..|r| - |Colors.Reset|] == Substitute(level, log, config, now)
    ensures Scanner.NoMatch(config.format) ==> r == config.format + Colors.Reset
  {
    Scanner.ReplaceAllNoMatchIf(config.format, Resolver(level, log, config, now));
    Substitute(level, log, config, now) + Colors.Reset
  }

  /** Bracketed spans outside the table are copied through, brackets included:
      a format whose every span is unknown comes back verbatim before the reset. */
  lemma UnknownTokensPassThrough(level: string, log: string, config: LogFormatConfig, now: string -> string)
    requires forall p :: p in Scanner.Scan(config.format) && p.Token? ==> p.text !in Tokens
    ensures FormatLog(level, log, config, now) == config.format + Colors.Reset
  {
    Scanner.ReplaceAllFixed(config.format, Resolver(level, log, config, now));
  }

  /** A format that starts with a whole bracketed span: the span's table
      entry comes first, then the rest of the format rendered on its own.
      What the table inserts is never scanned again. */
  lemma SubstituteAtToken(t: string, rest: string, level: string, log: string, config: LogFormatConfig, now: string -> string)
    requires Scanner.IsMatch(t) && config.format == t + rest
    ensures Substitute(level, log, config, now)
         == FormatParser(t, level, log, config, now) + Scanner.ReplaceAll(rest, Resolver(level, log, config, now))
  {
    Scanner.ReplaceAllAtMatch(t, rest, Resolver(level, log, config, now));
  }

  /** `[log]` alone renders the message verbatim, whatever brackets it holds. */
  lemma LogTokenVerbatim(level: string, log: string, config: LogFormatConfig, now: string -> string)
    requires config.format == "[log]"
    ensures FormatLog(level, log, config, now) == log + Colors.Reset
  {
    assert "[log]" + "" == "[log]";
    SubstituteAtToken("[log]", "", level, log, config, now);
  }

  /** `[date]` alone renders the instant in the configured layout and nothing else. */
  lemma DateTokenRendersNow(level: string, log: string, config: LogFormatConfig, now: string -> string)
    requires config.format == "[date]"
    ensures FormatLog(level, log, config, now) == now(config.dateFormat) + Colors.Reset
  {
    assert "[date]" + "" == "[date]";
    SubstituteAtToken("[date]", "", level, log, config, now);
  }

  /** `[level]` alone renders the upper-cased level, wrapped in the level's
      colour and a reset exactly when level colouring is on. */
  lemma LevelTokenRendering(level: string, log: string, config: LogFormatConfig, now: string -> string)
    requires config.format == "[level]"
    ensures !config.levelColor ==> FormatLog(level, log, config, now) == ToUpper(level) + Colors.Reset
    ensures config.levelColor
        ==> FormatLog(level, log, config, now)
            == Colorize(ToUpper(level), Colors.Lookup(config.levelColors, level)) + Colors.Reset
  {
    assert "[level]" + "" == "[level]";
    SubstituteAtToken("[level]", "", level, log, config, now);
    assert Substitute(level, log, config, now) == LevelText(level, config);
  }

  /** Every colour token is one whole match, and names a colour of the table. */
  lemma ColorTokensMatch()
    ensures forall t :: t in ColorTokens ==> Scanner.IsMatch(t) && ColorTokens[t] in Colors.Table
  {
    assert Scanner.IsMatch("[red]") && Scanner.IsMatch("[green]") && Scanner.IsMatch("[magenta]");
    assert Scanner.IsMatch("[blue]") && Scanner.IsMatch("[yellow]") && Scanner.IsMatch("[reset]");
  }

  /** A colour token alone renders exactly its escape from the colour table. */
  lemma ColorTokenRendering(t: string, level: string, log: string, config: LogFormatConfig, now: string -> string)
    requires t in ColorTokens && config.format == t
    ensures FormatLog(level, log, config, now) == Colors.Table[ColorTokens[t]] + Colors.Reset
  {
    assert t + "" == t;
    ColorTokensMatch();
    SubstituteAtToken(t, "", level, log, config, now);
  }

  /** The leftmost `[` opens the match, so `[[log]` is one unknown span and is
      copied through rather than yielding the message. */
  lemma NestedOpenBracketIsUnknown(level: string, log: string, config: LogFormatConfig, now: string -> string)
    requires config.format == "[[log]"
    ensures FormatLog(level, log, config, now) == "[[log]" + Colors.Reset
  {
    var t := "[[log]";
    assert Scanner.IsMatch(t) by {
      assert t[0] == '[' && t[|t| - 1] == ']';
      assert t[1] == '[' && t[2] == 'l' && t[3] == 'o' && t[4] == 'g';
    }
    assert t !in Tokens;
    assert t + "" == t;
    SubstituteAtToken(t, "", level, log, config, now);
  }

  /** `[date] [level]: [log]` cut into whole tokens and the text between them. */
  function DateLevelLogCut(): seq<Scanner.Segment> {
    [Scanner.Whole("[date]"), Scanner.Plain(" "), Scanner.Whole("[level]"), Scanner.Plain(": "), Scanner.Whole("[log]")]
  }

  lemma DateLevelLogCutSpells()
    ensures Scanner.Spell(DateLevelLogCut()) == "[date] [level]: [log]"
  {
  }

  lemma DateLevelLogCutWell()
    ensures Scanner.WellCut(DateLevelLogCut())
  {
  }

  lemma SubstituteDateLevelLog(level: string, log: string, config: LogFormatConfig, now: string -> string)
    requires config.format == "[date] [level]: [log]"
    ensures Substitute(level, log, config, now) == now(config.dateFormat) + (" " + (LevelText(level, config) + (": " + (log + ""))))
  {
    var f := Resolver(level, log, config, now);
    DateLevelLogCutSpells();
    DateLevelLogCutWell();
    Scanner.ReplaceAllTemplate(DateLevelLogCut(), f);
    assert f("[date]") == now(config.dateFormat);
    assert f("[level]") == LevelText(level, config);
    assert f("[log]") == log;
  }

  /** The line for `[date] [level]: [log]` with level colouring on. */
  lemma DateLevelLogLine(level: string, log: string, config: LogFormatConfig, now: string -> string)
    requires config.format == "[date] [level]: [log]" && config.levelColor
    ensures FormatLog(level, log, config, now)
         == now(config.dateFormat) + " "
            + Colorize(ToUpper(level), Colors.Lookup(config.levelColors, level))
            + ": " + log + Colors.Reset
  {
    SubstituteDateLevelLog(level, log, config, now);
    LineOfSubstitute(now(config.dateFormat), LevelText(level, config), log);
  }

  /** The regrouping `DateLevelLogLine` needs, on opaque pieces. */
  lemma LineOfSubstitute(d: string, lv: string, log: string)
    ensures d + (" " + (lv + (": " + (log + "")))) + Colors.Reset == d + " " + lv + ": " + log + Colors.Reset
  {
  }
}
