# glogger in Dafny

A model of the Go package `glogger`. It has three parts:

- **The error chain (errors.go).** A chain holds an optional base failure, an integer code and an append-only stack of annotations. From it come a human-readable trace, a structured (JSON) projection and the `LogIfErr` hook.
- **The log-line renderer (format.go).** It replaces every `[...]` span of a format string through a fixed token table. This covers the level, the date, the message and six colour escapes. It then appends the reset escape once.
- **The console logger (logger.go).** It has an ANSI colour table, three constructor presets and the `Error`/`Info`/`Debug` entry points. Each entry point renders one line and hands it to a sink.

Modules, one per file:

- `Wrappers`: `Option`.
- `Colors`: the colour table. A lookup of a missing key gives `""`, as a Go map lookup does.
- `Errors`: the chain.
- `Scanner`: the substitution Go's `regexp` performs for `\[(.*?)\]` with `ReplaceAllStringFunc`, written as a left-to-right scan. A match is a `[`, then the shortest run without `]` or a line break, then `]`. Matches are taken leftmost first and never overlap. A replacement is never rescanned.
- `Format`: the renderer.
- `Logger`: the logger.

Modelling choices:

- The chain is an immutable value. Each fluent call returns the updated chain.
- The base `error` is held as its message.
- A value handed to a logger is its `Error()` text.
- The sink is the returned list of values it receives.
- The instant being logged is `now: string -> string`. It gives the text Go's `Time.Format` produces for a layout.

Where the code and its tests disagree, the model follows the code:

- logger_test.go:67-90 builds a config without `LevelColor` and still expects a coloured `ERROR`. The code (format.go:31-34) prints the plain upper-case word, and `Logger.PlainLevelLine` states that.
- errors_test.go:209-221 calls a `UserErr` method. No such method exists in errors.go.

## Model

| member | source | states |
|---|---|---|
| Colors.Lookup | logger.go:7-17 | a key in the map gives its value; a missing key gives the empty string |
| Colors.Color | format.go:25 | a known colour name gives its escape from the table; an unknown one gives the empty string |
| Colors.TableShape | logger.go:7-17 | the table holds exactly the eight colours and `reset`; colour number i (black 0 … white 7) is ESC `[3i m`; `reset` is ESC `[0m` |
| Errors.NewError | errors.go:45-49 | the chain holds the given base, code 0 and no annotations; it is Ok exactly when there is no base |
| Errors.EmptyErr | errors.go:51-53 | the empty chain is Ok, with code 0 and no annotations |
| Errors.Ok | errors.go:136-138 | a chain is Ok exactly when it has no base failure |
| Errors.OkIgnoresCodeAndStack | errors.go:136-138 | Ok depends only on the base being absent, whatever the code and stack |
| Errors.Caused | errors.go:106-113 | the stack grows by exactly one entry at the end, with the message and an empty location; earlier entries, base and code are kept |
| Errors.CausedAt | errors.go:115-122 | the stack grows by exactly one entry at the end, with the message and location; earlier entries, base and code are kept |
| Errors.Code | errors.go:124-127 | the code becomes the given one; base and stack are kept |
| Errors.ApplyAccumulates | errors.go:106-127 | any sequence of fluent calls keeps the base, appends exactly the annotations made in call order after the existing ones, and leaves the code of the last `Code` call |
| Errors.FramesText | errors.go:69-74 | the annotation lines are empty exactly when the stack is; otherwise they start with `caused: ` and end with a line break |
| Errors.FramesTextAppend | errors.go:69-74 | one more annotation adds exactly its own lines after the existing ones |
| Errors.GetStackTrace | errors.go:67-76 | the trace starts with the `root cause: ` line for the base and ends with a line break; it needs a base |
| Errors.ErrorString | errors.go:78-80 | `Error()` is the trace |
| Errors.TraceOfNewError | errors.go:67-68 | a fresh chain's trace is its one root line |
| Errors.TraceOfCausedAt | errors.go:69-74 | `CausedAt` extends the trace by a `caused:` line, plus an `at:` line exactly when the location is non-empty |
| Errors.TraceOfCaused | errors.go:69-74 | `Caused` extends the trace by exactly one `caused:` line |
| Errors.TraceOfCode | errors.go:67-76 | setting the code leaves the trace unchanged |
| Errors.TraceOfThreeLinks | errors.go:67-76 | a base, a located annotation and a plain one give four lines in order: root, caused, at, caused |
| Errors.TraceExample | errors_test.go:139-156 | the chain of the printable-trace test renders exactly that test's four-line text |
| Errors.ParseFramesRoundTrip | errors.go:69-74 | the annotation lines of a single-line stack read back to the same stack |
| Errors.TraceRoundTrip | errors.go:67-76 | for single-line messages the trace reads back to the same base and the same annotations in order |
| Errors.TraceAmbiguousAcrossLines | errors.go:67-76 | a base whose message holds a line break renders like a different chain with one more annotation |
| Errors.ProjectStack | errors.go:83-90 | the projection has one entry per annotation; entry i carries the annotation's message, location and order i |
| Errors.JSON | errors.go:82-104 | the record carries the base message, the code and the per-annotation entries in order; the second result is an Ok chain |
| Errors.JSONRoundTrip | errors.go:82-104 | the projection loses nothing: rebuilding a chain from it gives the original chain |
| Errors.LogIfErr | errors.go:129-134 | the chain comes back unchanged; the sink receives the chain exactly once when it is a failure, and nothing when it is Ok |
| Scanner.FirstClose | format.go:17 | the position found holds the first `]` with no `]` or line break before it; none is found when a line break or the end comes first |
| Scanner.MatchAt | format.go:17 | the length found is that of the one match starting the string; there is none when no prefix is a match |
| Scanner.Scan | format.go:17-20 | the pieces join back to the input, and every token is a match |
| Scanner.ScanAtMatch | format.go:17-20 | a match at the front is taken whole, and the scan resumes right after it |
| Scanner.ScanAtLiteral | format.go:17-20 | where no match starts, one character is copied and the scan moves on |
| Scanner.ReplaceAllAtMatch | format.go:18-20 | a match at the front is replaced by f of it, and the replacement is not scanned again |
| Scanner.ReplaceAllAtLiteral | format.go:18-20 | a character other than `[` at the front is copied |
| Scanner.ReplaceAllAtPlain | format.go:18-20 | a run without `[` at the front is copied whole |
| Scanner.ReplaceAllTemplate | format.go:18-20 | a string cut into plain runs and whole matches renders piece by piece: matches replaced, the text between them copied |
| Scanner.ReplaceAllFixed | format.go:18-20 | if f gives back every match it is handed, the string comes back unchanged |
| Scanner.ReplaceAll | format.go:18-20 | `ReplaceAllStringFunc` with the pattern: text without any `[` comes back unchanged, whatever f is |
| Scanner.RenderNoMatch | format.go:18-20 | the scan of a string without any match copies it, whatever f is |
| Scanner.ReplaceAllNoMatchIf | format.go:18-20 | a string without any match comes back unchanged, whatever f is |
| Scanner.RenderAgree | format.go:18-20 | replacement functions that agree on every match render the same text |
| Format.Colorize | format.go:24-26 | the message is wrapped in the colour's escape and the reset; an unknown colour gives only the message and the reset |
| Format.ToUpper | format.go:32-34 | same length; each character is upper-cased |
| Format.ToUpperIdempotent | format.go:32-34 | upper-casing twice changes nothing more |
| Format.LevelText | format.go:30-34 | the level is upper-cased, and wrapped in its configured colour exactly when level colouring is on |
| Format.FormatParser | format.go:28-54 | a span outside the table comes back verbatim; a colour span gives that colour's escape; `[level]`, `[date]` and `[log]` give the level text, the instant in the configured layout and the message |
| Format.TokensAreTable | format.go:29-50 | the spans the table recognises are exactly the six colour spans plus `[level]`, `[date]` and `[log]` |
| Format.Substitute | format.go:17-20 | the format with its spans replaced through the table; a format without any `[` comes back unchanged |
| Format.FormatLog | format.go:16-22 | the line is the substituted format followed by exactly one reset escape; a format without spans comes back verbatim before the reset |
| Format.UnknownTokensPassThrough | format.go:51-52 | a format whose every span is outside the table comes back verbatim before the reset |
| Format.SubstituteAtToken | format.go:16-22 | a format starting with a whole span renders as that span's table entry, then the rest rendered on its own |
| Format.LogTokenVerbatim | format.go:37-38 | `[log]` renders the message verbatim, whatever brackets it holds |
| Format.DateTokenRendersNow | format.go:35-36 | `[date]` renders the instant in the configured layout |
| Format.LevelTokenRendering | format.go:30-34 | `[level]` renders the upper-cased level, coloured exactly when level colouring is on |
| Format.ColorTokensMatch | format.go:39-50 | every colour span is one whole match and names a colour of the table |
| Format.ColorTokenRendering | format.go:39-50 | a colour span renders exactly its escape from the colour table |
| Format.NestedOpenBracketIsUnknown | format.go:17-20 | in `[[log]` the leftmost `[` opens the match, so the whole span is unknown and copied through |
| Format.SubstituteDateLevelLog | format.go:16-54 | `[date] [level]: [log]` substitutes to the instant, a space, the level text, a colon and the message |
| Format.DateLevelLogLine | format.go:16-54 | with level colouring on, that format's line is date, space, coloured level, colon, message, reset |
| Logger.Instant | logger.go:44 | a live clock gives the instant of the call; a frozen one gives the instant it was fixed at, whenever the call happens |
| Logger.CreateConsoleLogger | logger.go:35-46 | as written: the caller's layout, format and level colours are kept, with colouring on; every call renders the instant at which the logger was built |
| Logger.CreateConsoleLoggerLive | logger.go:35-46 | the corrected variant of logger.go:44 (see Findings): the caller's layout, format and level colours are kept, with colouring on; each call renders its own instant |
| Logger.CreateFormattedLogger | logger.go:48-63 | the caller's format, the preset layout and exactly the level colours error→red, info→blue, debug→yellow; each call renders its own instant |
| Logger.CreateSimpleConsoleLogger | logger.go:65-80 | the simple format, the preset layout and exactly the preset level colours; each call renders its own instant |
| Logger.Log | logger.go:94-96 | one call of the sink; its one line is the substituted format at the logger's instant, then the reset |
| Logger.Error | logger.go:82-84 | logs at level `error` |
| Logger.Info | logger.go:86-88 | logs at level `info` |
| Logger.Debug | logger.go:90-92 | logs at level `debug` |
| Logger.LevelsShareFormat | logger.go:82-96 | for a format without a `[level]` span, all three entry points print the same line |
| Logger.ConsoleLoggerClockFrozen | logger.go:44 | as written, two calls at different instants print the same `[date]` line, the one of the build instant |
| Logger.ConsoleLoggerClockLive | logger.go:35-46 | with a live clock, `[date]` prints the call's instant, so calls at differently formatted instants print different lines |
| Logger.LevelWords | logger.go:82-92 | the three levels print as `ERROR`, `INFO` and `DEBUG` |
| Logger.SubstituteSimple | logger.go:65-80 | the simple format substitutes to green, date, reset, space, yellow, arrow, reset, space, level, colon, message |
| Logger.SimpleLoggerLine | logger.go:65-96 | the simple logger's line, with the level in its preset colour and the trailing reset |
| Logger.SimpleLoggerErrorLine | logger_test.go:42-64 | `Error` on the simple logger prints the level as a red `ERROR`, as that test expects |
| Logger.ConsoleLoggerDateLogLine | logger_test.go:20-40 | a caller-configured logger with `[date]: [log]` prints a date, a colon, the message and the reset; as written the date is the build instant, with the live clock the call's |
| Logger.PlainLevelLine | format.go:28-54 | with level colouring off, the level prints as the plain upper-case word and the unknown `[default]` is copied through |
| Logger.LogIfErrThroughLogger | errors.go:129-134 | passing a logger's `Error` to `LogIfErr` prints nothing for an Ok chain and the trace as one error line for a failure |

## Left out

- The chain is a value, so aliasing is not modelled. Go's fluent calls change the receiver in place and return it. In errors_test.go:23-25 the original variable and the returned one are the same object. In the model, an earlier value keeps its old stack.
- The getters `GetBaseErr`, `GetErrCode` and `GetStack` (errors.go:55-65) are the datatype's fields `baseErr`, `code` and `stack`. They have no members of their own.
- The base `error` is its message. Any other behaviour of a Go `error` value is not modelled.
- Errors.GetStackTrace: its own contract states only the root line and the final line break. The full text is stated by the `TraceOf…` lemmas and by `Errors.TraceRoundTrip`.
- Errors.GetStackTrace, Errors.ErrorString and Errors.JSON require a base. Go dereferences a nil base and panics there; the model does not model that panic.
- Errors.JSON: returns the record that Go marshals, not its bytes. Go's JSON encoding is not modelled. The record's field names are `root`, `code`, `errors`, and `error`/`order`/`at` per entry.
- Errors.JSON: the marshal-failure branch (errors.go:98-101) is not modelled. It cannot be reached with a record of strings and integers.
- `Code` takes an unbounded integer. Go's `int` width is not modelled; the value is only stored and copied.
- Format.FormatLog: takes the message as text. Go calls `message.Error()` only when a span is found; that laziness is not modelled.
- The instant is an abstract `now`, giving the text `Time.Format` produces for a layout. Go's layout language and time zones are not modelled.
- Format.ToUpper: upper-cases ASCII letters only. Go's `strings.ToUpper` also maps other Unicode letters.
- The regular-expression engine is replaced by the direct scan in `Scanner`, which matches the same spans.
- Sinks, `fmt.Fprintln` and the default `Now` functions are I/O and ambient time. A call's output is the returned list of sink arguments, and its instant is a parameter.
- main.go, example.go and logstring.go are not part of this model.

## Findings

| source | as written | input that shows it | evidently intended | confidence | as-written member | corrected member |
|---|---|---|---|---|---|---|
| logger.go:44 | `Now: time.Now().Local` evaluates `time.Now()` once, when the logger is built, and keeps a method value bound to that instant | `CreateConsoleLogger("2006-01-02", "[date]", …)` then `Error` on two different days prints the build day both times | `Now: time.Now` (read the clock at each call), as the other two presets do at logger.go:61 and logger.go:78 | high; not executed | Logger.ConsoleLoggerClockFrozen (on Logger.CreateConsoleLogger) | Logger.ConsoleLoggerClockLive (on Logger.CreateConsoleLoggerLive) |
