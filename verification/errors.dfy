/**
 The error chain of errors.go: an optional base failure (held as its message),
 an integer classification code and an append-only stack of annotations.
 The Go mutators change the chain in place and return it; here each returns
 the updated chain. The Go getters `GetBaseErr`, `GetErrCode` and `GetStack`
 are the datatype's fields `baseErr`, `code` and `stack`.
 */
module Errors {
  import opened Wrappers

  /** One annotation: a message and a location, empty when none was given. */
  datatype SubErr = SubErr(err: string, at: string)

  datatype Error = Error(baseErr: Option<string>, code: int, stack: seq<SubErr>)

  /** The structured projection: `order` (here `pos`) is the annotation's index. */
  datatype JSONSubErr = JSONSubErr(err: string, pos: int, at: string)

  datatype JSONErr = JSONErr(root: string, code: int, caused: seq<JSONSubErr>)

  /** "No error" is exactly "no base failure". */
  predicate Ok(e: Error) {
    e.baseErr.None?
  }

  function NewError(base: Option<string>): (r: Error)
    ensures r.baseErr == base && r.code == 0 && r.stack == []
    ensures Ok(r) <==> base.None?
  {
    Error(base, 0, [])
  }

  function EmptyErr(): (r: Error)
    ensures Ok(r) && r.code == 0 && r.stack == []
  {
    Error(None, 0, [])
  }

  /** `Ok` looks at the base only: code and stack never change the verdict. */
  lemma OkIgnoresCodeAndStack(base: Option<string>, code: int, stack: seq<SubErr>)
    ensures Ok(Error(base, code, stack)) <==> base.None?
    ensures Ok(Error(base, code, stack)) == Ok(NewError(base))
  {
  }

  function Caused(e: Error, message: string): (r: Error)
    ensures |r.stack| == |e.stack| + 1
    ensures r.stack[..|e.stack|] == e.stack
    ensures r.stack[|e.stack|] == SubErr(message, "")
    ensures r.baseErr == e.baseErr && r.code == e.code
  {
    e.(stack := e.stack + [SubErr(message, "")])
  }

  function CausedAt(e: Error, message: string, at: string): (r: Error)
    ensures |r.stack| == |e.stack| + 1
    ensures r.stack[..|e.stack|] == e.stack
    ensures r.stack[|e.stack|] == SubErr(message, at)
    ensures r.baseErr == e.baseErr && r.code == e.code
  {
    e.(stack := e.stack + [SubErr(message, at)])
  }

  function Code(e: Error, code: int): (r: Error)
    ensures r.code == code
    ensures r.baseErr == e.baseErr && r.stack == e.stack
  {
    e.(code := code)
  }

  /** One fluent call on a chain, for reasoning about whole call sequences. */
  datatype Step = CausedStep(message: string) | CausedAtStep(message: string, at: string) | CodeStep(code: int)

  function ApplyStep(e: Error, s: Step): Error {
    match s
    case CausedStep(m) => Caused(e, m)
    case CausedAtStep(m, a) => CausedAt(e, m, a)
    case CodeStep(c) => Code(e, c)
  }

  /** The chain after the calls `steps`, made left to right. */
  function Apply(e: Error, steps: seq<Step>): Error
    decreases |steps|
  {
    if steps == [] then e else Apply(ApplyStep(e, steps[0]), steps[1..])
  }

  /** The annotations a call sequence contributes, in call order. */
  function Annotations(steps: seq<Step>): seq<SubErr> {
    if steps == [] then []
    else
      match steps[0]
      case CausedStep(m) => [SubErr(m, "")] + Annotations(steps[1..])
      case CausedAtStep(m, a) => [SubErr(m, a)] + Annotations(steps[1..])
      case CodeStep(_) => Annotations(steps[1..])
  }

  /** The code set by the last `Code` call, or `code` if there is none. */
  function LastCode(code: int, steps: seq<Step>): int {
    if steps == [] then code
    else
      match steps[|steps| - 1]
      case CodeStep(c) => c
      case _ => LastCode(code, steps[..|steps| - 1])
  }

  lemma {:induction false} LastCodeCons(code: int, s: Step, steps: seq<Step>)
    ensures LastCode(code, [s] + steps) == LastCode(if s.CodeStep? then s.code else code, steps)
    decreases |steps|
  {
    if steps != [] {
      assert ([s] + steps)[..|[s] + steps| - 1] == [s] + steps[..|steps| - 1];
      LastCodeCons(code, s, steps[..|steps| - 1]);
    }
  }

  /** Any sequence of fluent calls keeps the base, appends exactly the
      annotations it made in call order after the existing ones, and leaves
      the code of the last `Code` call. */
  lemma {:induction false} ApplyAccumulates(e: Error, steps: seq<Step>)
    ensures Apply(e, steps).baseErr == e.baseErr
    ensures Apply(e, steps).stack == e.stack + Annotations(steps)
    ensures Apply(e, steps).code == LastCode(e.code, steps)
    decreases |steps|
  {
    if steps != [] {
      var e' := ApplyStep(e, steps[0]);
      ApplyAccumulates(e', steps[1..]);
      assert [steps[0]] + steps[1..] == steps;
      LastCodeCons(e.code, steps[0], steps[1..]);
    }
  }

  const RootPrefix: string := "root cause: "
  const CausedPrefix: string := "caused: "
  const AtPrefix: string := "    at: "

  /** The lines one annotation contributes to the trace. */
  function FrameText(s: SubErr): string {
    CausedPrefix + s.err + "\n" + (if s.at != "" then AtPrefix + s.at + "\n" else "")
  }

  /** The annotation lines of the trace: they start with `caused: ` unless
      there are none, and end with a line break. */
  function FramesText(stack: seq<SubErr>): (r: string)
    ensures stack == [] <==> r == []
    ensures r != [] ==> CausedPrefix <= r && r[0] == 'c' && r[|r| - 1] == '\n'
  {
    if stack == [] then "" else FrameText(stack[0]) + FramesText(stack[1..])
  }

  lemma {:induction false} FramesTextAppend(stack: seq<SubErr>, s: SubErr)
    ensures FramesText(stack + [s]) == FramesText(stack) + FrameText(s)
    decreases |stack|
  {
    if stack == [] {
      assert [] + [s] == [s];
    } else {
      assert (stack + [s])[1..] == stack[1..] + [s];
      FramesTextAppend(stack[1..], s);
    }
  }

  /** The human-readable trace. The base must be present: Go dereferences it. */
  function GetStackTrace(e: Error): (r: string)
    requires !Ok(e)
    ensures RootPrefix + e.baseErr.value + "\n" <= r
    ensures r[|r| - 1] == '\n'
  {
    RootPrefix + e.baseErr.value + "\n" + FramesText(e.stack)
  }

  /** `Error()` is the trace: this is the text a sink or a logger sees. */
  function ErrorString(e: Error): (r: string)
    requires !Ok(e)
    ensures r == GetStackTrace(e)
  {
    GetStackTrace(e)
  }

  lemma TraceOfNewError(base: string)
    ensures GetStackTrace(NewError(Some(base))) == RootPrefix + base + "\n"
  {
  }

  /** Each annotation call extends the trace by exactly its own lines, the
      location line only when the location is non-empty; `Code` leaves it alone. */
  lemma TraceOfCausedAt(e: Error, message: string, at: string)
    requires !Ok(e)
    ensures GetStackTrace(CausedAt(e, message, at))
         == GetStackTrace(e) + (CausedPrefix + message + "\n" + (if at != "" then AtPrefix + at + "\n" else ""))
  {
    var h, fs, fr := RootPrefix + e.baseErr.value + "\n", FramesText(e.stack), FrameText(SubErr(message, at));
    FramesTextAppend(e.stack, SubErr(message, at));
    assert h + (fs + fr) == (h + fs) + fr;
  }

  lemma TraceOfCaused(e: Error, message: string)
    requires !Ok(e)
    ensures GetStackTrace(Caused(e, message)) == GetStackTrace(e) + (CausedPrefix + message + "\n")
  {
    TraceOfCausedAt(e, message, "");
    assert CausedPrefix + message + "\n" + "" == CausedPrefix + message + "\n";
  }

  lemma TraceOfCode(e: Error, code: int)
    requires !Ok(e)
    ensures GetStackTrace(Code(e, code)) == GetStackTrace(e)
  {
  }

  /** The trace of a base with one located and then one plain annotation. */
  lemma TraceOfThreeLinks(base: string, m1: string, at1: string, m2: string)
    requires at1 != ""
    ensures GetStackTrace(Caused(CausedAt(NewError(Some(base)), m1, at1), m2))
         == (RootPrefix + base + "\n") + (CausedPrefix + m1 + "\n") + (AtPrefix + at1 + "\n") + (CausedPrefix + m2 + "\n")
  {
    var e0 := NewError(Some(base));
    var e1 := CausedAt(e0, m1, at1);
    TraceOfNewError(base);
    TraceOfCausedAt(e0, m1, at1);
    TraceOfCaused(e1, m2);
    var l0, l1, l2, l3 := RootPrefix + base + "\n", CausedPrefix + m1 + "\n", AtPrefix + at1 + "\n", CausedPrefix + m2 + "\n";
    assert l0 + (l1 + l2) + l3 == l0 + l1 + l2 + l3;
  }

  lemma ExampleHeadLines()
    ensures RootPrefix + "some error" + "\n" == "root cause: some error\n"
    ensures CausedPrefix + "some new error" + "\n" == "caused: some new error\n"
  {
  }

  lemma ExampleTailLines()
    ensures AtPrefix + "some location" + "\n" == "    at: some location\n"
    ensures CausedPrefix + "some new error 2" + "\n" == "caused: some new error 2\n"
  {
  }

  /** The trace pinned by errors_test.go for a base, one located and one plain
      annotation: one line per link and one for the location. */
  lemma TraceExample()
    ensures ErrorString(Caused(CausedAt(NewError(Some("some error")), "some new error", "some location"), "some new error 2"))
         == "root cause: some error\n" + "caused: some new error\n" + "    at: some location\n" + "caused: some new error 2\n"
  {
    TraceOfThreeLinks("some error", "some new error", "some location", "some new error 2");
    ExampleHeadLines();
    ExampleTailLines();
  }

  /** Splits off the first line, without its newline. */
  function SplitLine(t: string): (r: Option<(string, string)>)
    ensures r.Some? ==> t == r.value.0 + "\n" + r.value.1 && '\n' !in r.value.0
    ensures r.None? ==> '\n' !in t
  {
    if t == [] then None
    else if t[0] == '\n' then Some(([], t[1..]))
    else
      match SplitLine(t[1..])
      case None => None
      case Some((line, rest)) => Some(([t[0]] + line, rest))
  }

  lemma {:induction false} SplitLineOf(line: string, rest: string)
    requires '\n' !in line
    ensures SplitLine(line + "\n" + rest) == Some((line, rest))
    decreases |line|
  {
    var t := line + "\n" + rest;
    if line == [] {
      assert t[1..] == rest;
    } else {
      assert t[0] == line[0];
      assert t[1..] == line[1..] + "\n" + rest;
      SplitLineOf(line[1..], rest);
      assert [t[0]] + line[1..] == line;
    }
  }

  /** The optional location line after a `caused:` line, and what follows it. */
  function AtLine(t: string): (r: (string, string))
    ensures |r.1| <= |t|
  {
    match SplitLine(t)
    case Some((line, rest)) =>
      if AtPrefix <= line then (line[|AtPrefix|..], rest) else ("", t)
    case None => ("", t)
  }

  /** Reads the annotation lines of a trace back into a stack. */
  function ParseFrames(t: string): Option<seq<SubErr>>
    decreases |t|
  {
    if t == [] then Some([])
    else
      match SplitLine(t)
      case None => None
      case Some((line, rest)) =>
        if !(CausedPrefix <= line) then None
        else
          var (at, tail) := AtLine(rest);
          match ParseFrames(tail)
          case None => None
          case Some(stack) => Some([SubErr(line[|CausedPrefix|..], at)] + stack)
  }

  /** Reads a whole trace back into its base message and stack. */
  function ParseTrace(t: string): Option<(string, seq<SubErr>)> {
    match SplitLine(t)
    case None => None
    case Some((line, rest)) =>
      if !(RootPrefix <= line) then None
      else
        match ParseFrames(rest)
        case None => None
        case Some(stack) => Some((line[|RootPrefix|..], stack))
  }

  /** No message or location contains a line break. */
  predicate SingleLine(e: Error) {
    && (e.baseErr.Some? ==> '\n' !in e.baseErr.value)
    && forall i :: 0 <= i < |e.stack| ==> '\n' !in e.stack[i].err && '\n' !in e.stack[i].at
  }

  /** The location line of one annotation, if any, is read back exactly, and
      an annotation line that follows is not mistaken for one. */
  lemma AtLineOfFrame(at: string, rest: string)
    requires '\n' !in at
    requires rest == [] || rest[0] == 'c'
    ensures AtLine((if at != "" then AtPrefix + at + "\n" else "") + rest) == (at, rest)
  {
    if at != "" {
      assert (AtPrefix + at + "\n") + rest == (AtPrefix + at) + "\n" + rest;
      SplitLineOf(AtPrefix + at, rest);
      assert AtPrefix <= AtPrefix + at;
      assert (AtPrefix + at)[|AtPrefix|..] == at;
    } else {
      assert "" + rest == rest;
      match SplitLine(rest)
      case None =>
      case Some((line, r)) =>
        assert rest == line + "\n" + r;
        assert line != [] ==> line[0] == rest[0];
    }
  }

  /** Parsing one annotation's lines in front of the rest of the trace. */
  lemma ParseFramesStep(s: SubErr, rest: string)
    requires '\n' !in s.err && '\n' !in s.at
    requires rest == [] || rest[0] == 'c'
    ensures ParseFrames(FrameText(s) + rest)
         == if ParseFrames(rest).Some? then Some([s] + ParseFrames(rest).value) else None
  {
    var atPart := if s.at != "" then AtPrefix + s.at + "\n" else "";
    assert FrameText(s) + rest == (CausedPrefix + s.err) + "\n" + (atPart + rest);
    SplitLineOf(CausedPrefix + s.err, atPart + rest);
    assert CausedPrefix <= CausedPrefix + s.err;
    assert (CausedPrefix + s.err)[|CausedPrefix|..] == s.err;
    AtLineOfFrame(s.at, rest);
  }

  lemma {:induction false} ParseFramesRoundTrip(stack: seq<SubErr>)
    requires forall i :: 0 <= i < |stack| ==> '\n' !in stack[i].err && '\n' !in stack[i].at
    ensures ParseFrames(FramesText(stack)) == Some(stack)
    decreases |stack|
  {
    if stack != [] {
      var rest := FramesText(stack[1..]);
      ParseFramesRoundTrip(stack[1..]);
      assert rest == [] || rest[0] == 'c';
      ParseFramesStep(stack[0], rest);
      assert FramesText(stack) == FrameText(stack[0]) + rest;
      assert [stack[0]] + stack[1..] == stack;
    }
  }

  /** For single-line messages the trace loses nothing but the code: it reads
      back to the same base and the same annotations in the same order. */
  lemma TraceRoundTrip(e: Error)
    requires !Ok(e) && SingleLine(e)
    ensures ParseTrace(GetStackTrace(e)) == Some((e.baseErr.value, e.stack))
  {
    var b := e.baseErr.value;
    assert GetStackTrace(e) == (RootPrefix + b) + "\n" + FramesText(e.stack);
    SplitLineOf(RootPrefix + b, FramesText(e.stack));
    assert RootPrefix <= RootPrefix + b;
    assert (RootPrefix + b)[|RootPrefix|..] == b;
    ParseFramesRoundTrip(e.stack);
  }

  /** Without the single-line condition the trace is ambiguous: a base whose
      message holds a line break renders like a shorter base plus an annotation. */
  lemma TraceAmbiguousAcrossLines()
    ensures NewError(Some("a\ncaused: b")) != Caused(NewError(Some("a")), "b")
    ensures GetStackTrace(NewError(Some("a\ncaused: b"))) == GetStackTrace(Caused(NewError(Some("a")), "b"))
  {
    TraceOfCaused(NewError(Some("a")), "b");
  }

  /** The projection of a stack: entry `i` carries the annotation's message,
      its location and `i` as its order. */
  function ProjectStack(stack: seq<SubErr>): (r: seq<JSONSubErr>)
    ensures |r| == |stack|
    ensures forall i :: 0 <= i < |stack| ==> r[i] == JSONSubErr(stack[i].err, i, stack[i].at)
  {
    if stack == [] then []
    else
      var last := stack[|stack| - 1];
      ProjectStack(stack[..|stack| - 1]) + [JSONSubErr(last.err, |stack| - 1, last.at)]
  }

  /** The structured projection and a success chain. The base must be present:
      Go dereferences it. The marshal step cannot fail on these field types. */
  function JSON(e: Error): (r: (JSONErr, Error))
    requires !Ok(e)
    ensures r.0.root == e.baseErr.value && r.0.code == e.code
    ensures |r.0.caused| == |e.stack|
    ensures forall i :: 0 <= i < |e.stack| ==> r.0.caused[i] == JSONSubErr(e.stack[i].err, i, e.stack[i].at)
    ensures Ok(r.1) && r.1.stack == []
  {
    (JSONErr(e.baseErr.value, e.code, ProjectStack(e.stack)), EmptyErr())
  }

  /** What a consumer rebuilds from the projection: the order fields are dropped. */
  function FromJSON(j: JSONErr): Error {
    Error(Some(j.root), j.code, seq(|j.caused|, i requires 0 <= i < |j.caused| => SubErr(j.caused[i].err, j.caused[i].at)))
  }

  /** The projection loses nothing: it decodes back to the very chain. */
  lemma JSONRoundTrip(e: Error)
    requires !Ok(e)
    ensures FromJSON(JSON(e).0) == e
  {
  }

  /** The chain unchanged, plus the values handed to the sink: the chain itself,
      once, exactly when it is a failure. */
  function LogIfErr(e: Error): (r: (Error, seq<Error>))
    ensures r.0 == e
    ensures |r.1| <= 1
    ensures r.1 == [] <==> Ok(e)
    ensures forall v :: v in r.1 ==> v == e && !Ok(v)
  {
    if Ok(e) then (e, []) else (e, [e])
  }
}
