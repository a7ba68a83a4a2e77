/**
 * The parse error of src/ast.rs: the text of the offending token and a trace
 * of context strings, innermost cause first, each enclosing rule appending its
 * own description. `Result<T>` is Rust's `Result<T, ParseError>`.
 */
module ParseErrors {

  datatype ParseError = ParseError(trace: seq<string>, tokString: string)

  datatype Result<+T> = Ok(value: T) | Err(error: ParseError)

  /** `ParseError::new`: a trace holding only the cause. */
  function New(tokString: string, cause: string): (e: ParseError)
    ensures |e.trace| == 1 && e.trace[0] == cause
    ensures e.tokString == tokString
  {
    ParseError([cause], tokString)
  }

  /** `ParseError::err`: a failed result carrying a fresh error. */
  function Raise<T>(tokString: string, cause: string): (r: Result<T>)
    ensures r.Err? && r.error.trace == [cause] && r.error.tokString == tokString
  {
    Err(New(tokString, cause))
  }

  /** `ParseError::context`: pushes a description at the end of the trace. */
  function Context(e: ParseError, description: string): (e': ParseError)
    ensures |e'.trace| == |e.trace| + 1
    ensures e'.trace[..|e.trace|] == e.trace && e'.trace[|e.trace|] == description
    ensures e'.tokString == e.tokString
  {
    e.(trace := e.trace + [description])
  }

  /** `ParseResultExt::context`: maps `Context` over the error of a result. */
  function WithContext<T>(r: Result<T>, description: string): (r': Result<T>)
    ensures r.Ok? <==> r'.Ok?
    ensures r.Ok? ==> r' == r
    ensures r.Err? ==> r'.error.tokString == r.error.tokString
    ensures r.Err? ==> r'.error.trace == r.error.trace + [description]
  {
    match r
    case Ok(_) => r
    case Err(e) => Err(Context(e, description))
  }

  /** The error after a sequence of enclosing rules each added their context, in order. */
  function ContextAll(e: ParseError, descriptions: seq<string>): ParseError
    decreases descriptions
  {
    if |descriptions| == 0 then e
    else ContextAll(Context(e, descriptions[0]), descriptions[1..])
  }

  /**
   * The trace is the cause followed by every description, in the order the
   * rules returned: length one plus the number of `context` calls, innermost first.
   */
  lemma {:induction false} ContextAllTrace(e: ParseError, descriptions: seq<string>)
    ensures ContextAll(e, descriptions).trace == e.trace + descriptions
    ensures ContextAll(e, descriptions).tokString == e.tokString
    decreases descriptions
  {
    if |descriptions| > 0 {
      ContextAllTrace(Context(e, descriptions[0]), descriptions[1..]);
      assert e.trace + [descriptions[0]] + descriptions[1..] == e.trace + descriptions;
    }
  }

  lemma TraceOfNewWithContexts(tokString: string, cause: string, descriptions: seq<string>)
    ensures |ContextAll(New(tokString, cause), descriptions).trace| == 1 + |descriptions|
    ensures ContextAll(New(tokString, cause), descriptions).trace[0] == cause
    ensures ContextAll(New(tokString, cause), descriptions).tokString == tokString
  {
    ContextAllTrace(New(tokString, cause), descriptions);
  }

  const Separator := "\n-> while parsing "

  /** One step of the fold in `Display::fmt`. */
  function FoldStep(acc: string, s: string): string
  {
    if |acc| == 0 then acc + s else acc + Separator + s
  }

  /** The left fold of `FoldStep` over the trace, starting from the empty string. */
  function Render(trace: seq<string>): string
  {
    if |trace| == 0 then "" else FoldStep(Render(trace[..|trace| - 1]), trace[|trace| - 1])
  }

  /** `Display::fmt`, with the trailing newline of `writeln!`. */
  function Display(e: ParseError): (d: string)
    ensures var header := "error encountered at token \"" + e.tokString + "\" while parsing ";
            |d| > |header| && d[..|header|] == header && d[|d| - 1] == '\n'
  {
    "error encountered at token \"" + e.tokString + "\" while parsing " + Render(e.trace) + "\n"
  }

  /** Reference rendering: the innermost cause, then one "while parsing" line per enclosing context. */
  function Lines(trace: seq<string>): string
  {
    if |trace| == 0 then "" else Separator + trace[0] + Lines(trace[1..])
  }

  function Joined(trace: seq<string>): string
  {
    if |trace| == 0 then "" else trace[0] + Lines(trace[1..])
  }

  lemma {:induction false} LinesSnoc(trace: seq<string>, s: string)
    ensures Lines(trace + [s]) == Lines(trace) + Separator + s
  {
    if |trace| > 0 {
      assert (trace + [s])[1..] == trace[1..] + [s];
      LinesSnoc(trace[1..], s);
    } else {
      assert (trace + [s])[1..] == [];
    }
  }

  /** When no entry is empty, the fold renders exactly the reference layout. */
  lemma {:induction false} RenderIsJoined(trace: seq<string>)
    requires forall i :: 0 <= i < |trace| ==> |trace[i]| > 0
    ensures Render(trace) == Joined(trace)
    ensures |trace| > 0 ==> |Render(trace)| > 0
  {
    if |trace| > 0 {
      var init := trace[..|trace| - 1];
      var last := trace[|trace| - 1];
      assert trace == init + [last];
      assert trace[..|trace| - 1] == init;
      RenderIsJoined(init);
      if |init| == 0 {
        assert Render(init) == "";
        assert Render(trace) == last;
      } else {
        assert trace[1..] == init[1..] + [last];
        LinesSnoc(init[1..], last);
        assert Render(trace) == Render(init) + Separator + last;
        assert Joined(trace) == init[0] + Lines(init[1..]) + Separator + last;
      }
    }
  }

  /**
   * When no trace entry is empty, the message is the header, the innermost
   * cause, one "while parsing" line per enclosing context, and a newline.
   */
  lemma DisplayIsJoined(e: ParseError)
    requires forall i :: 0 <= i < |e.trace| ==> |e.trace[i]| > 0
    ensures Display(e)
         == "error encountered at token \"" + e.tokString + "\" while parsing " + Joined(e.trace) + "\n"
  {
    RenderIsJoined(e.trace);
  }

  /** The rendering of a fresh error names the token and the cause on one line. */
  lemma DisplayNew(tokString: string, cause: string)
    ensures Display(New(tokString, cause))
         == "error encountered at token \"" + tokString + "\" while parsing " + cause + "\n"
  {
    var t := New(tokString, cause).trace;
    assert t[..0] == [];
    assert Render(t) == FoldStep("", cause) == cause;
  }

  /**
   * Adding a context with a non-empty rendering so far adds one
   * "while parsing" line just before the final newline.
   */
  lemma DisplayContext(e: ParseError, description: string)
    requires |Render(e.trace)| > 0
    ensures Display(Context(e, description))
         == "error encountered at token \"" + e.tokString + "\" while parsing "
            + Render(e.trace) + Separator + description + "\n"
  {
    var t := Context(e, description).trace;
    assert t[..|t| - 1] == e.trace;
  }
}
