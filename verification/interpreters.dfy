/**
 * The three execution adapters and the factory that builds them. A runtime's own
 * behaviour on a piece of code (what `eval` logs or throws, what Pyodide prints or
 * raises) is an input here; what the adapters do with it is modelled.
 */
module Interpreters {
  import opened Wrappers
  import opened Text
  import opened Events

  /** The adapter variants: native `eval`, Pyodide and php-wasm. */
  datatype Kind = JS | Python | PHP

  /** `LanguageInterpreterFactory.supportedLanguages`. */
  const SUPPORTED_LANGUAGES: seq<string> := ["javascript", "python", "php"]

  /** The language name under which each adapter is created. */
  function LanguageName(k: Kind): (r: string)
    ensures r in SUPPORTED_LANGUAGES
  {
    match k
    case JS => "javascript"
    case Python => "python"
    case PHP => "php"
  }

  /** `LanguageInterpreterFactory.create`: the adapter for a supported name, otherwise the thrown error. */
  function Create(language: string): (r: Result<Kind>)
    ensures r.Ok? <==> language in SUPPORTED_LANGUAGES
    ensures r.Ok? ==> LanguageName(r.value) == language
    ensures r.Err? ==> r.message == "Language not supported"
  {
    if language == "javascript" then Ok(JS)
    else if language == "python" then Ok(Python)
    else if language == "php" then Ok(PHP)
    else Err("Language not supported")
  }

  /** Every adapter kind is created from its own name, and the supported names are exactly those names. */
  lemma CreateRoundTrip(k: Kind)
    ensures Create(LanguageName(k)) == Ok(k)
    ensures LanguageName(k) in SUPPORTED_LANGUAGES
  {
  }

  /** The ready payload of each adapter: its display name followed by " ready!". */
  function ReadyMessage(k: Kind): (r: string)
    ensures |r| > 7 && r[|r| - 7..] == " ready!"
  {
    match k
    case JS => "JavaScript ready!"
    case Python => "Python ready!"
    case PHP => "PHP ready!"
  }

  /**
   * The events an adapter's constructor dispatches before it returns: the
   * JavaScript adapter announces readiness at once; Python and PHP start an
   * asynchronous load and announce readiness only when it completes.
   */
  function ConstructionEvents(k: Kind): (r: seq<Event>)
    ensures AnyReady(r) <==> k == JS
    ensures |r| == if k == JS then 1 else 0
    ensures forall i :: 0 <= i < |r| ==> r[i] == LangReady(ReadyMessage(k))
  {
    if k == JS then
      var r := [LangReady(ReadyMessage(JS))];
      assert r[0].LangReady?;
      r
    else []
  }

  // ---------------------------------------------------------------------------
  // JavaScript adapter

  /**
   * A value thrown by `eval`, as the catch block sees it when it builds
   * `${e.name}: ${e.message}`. Either both properties read as text (for a thrown
   * string or number both read as "undefined"), or reading or converting one of
   * them throws in turn: `null` and `undefined` (a TypeError), a Symbol-valued
   * `name` (a TypeError), a throwing getter, a revoked Proxy. `escapes` describes
   * the error that is then thrown out of the catch block.
   */
  datatype Fault = Fault(name: string, message: string) | Unreadable(escapes: string)

  /** The thrown value's `name` or `message` cannot be read as text. */
  predicate ThrowsUnreadable(o: JsOutcome)
  {
    o.thrown.Some? && o.thrown.value.Unreadable?
  }

  /**
   * What `eval(code)` does: the arguments of every `console.log` call it makes,
   * in order, and the fault it throws, if any.
   */
  datatype JsOutcome = JsOutcome(logs: seq<seq<string>>, thrown: Option<Fault>)

  /** The text the replaced `console.log` accumulates: each call adds its arguments joined by a space, then a newline. */
  function Captured(logs: seq<seq<string>>): (r: string)
    ensures r == "" <==> logs == []
    ensures r != "" ==> r[|r| - 1] == '\n'
  {
    if logs == [] then "" else Captured(logs[..|logs| - 1]) + LogLine(logs[|logs| - 1])
  }

  /** What one `console.log(...args)` call adds to the capture. */
  function LogLine(args: seq<string>): (r: string)
    ensures r != "" && r[|r| - 1] == '\n'
  {
    Join(args, " ") + "\n"
  }

  /** A single `console.log(line)` is captured as that line plus a line break. */
  lemma CapturedOneLine(line: string)
    ensures Captured([[line]]) == line + "\n"
  {
  }

  /** Capture is a left fold: the text of a prefix of the calls is a prefix of the whole text. */
  lemma {:induction false} CapturedAppend(logs: seq<seq<string>>, more: seq<seq<string>>)
    ensures Captured(logs + more) == Captured(logs) + Captured(more)
    decreases |more|
  {
    if more == [] {
      assert logs + more == logs;
    } else {
      var init, last := more[..|more| - 1], more[|more| - 1];
      var all := logs + more;
      assert all[..|all| - 1] == logs + init && all[|all| - 1] == last;
      assert Captured(all) == Captured(logs + init) + LogLine(last);
      assert Captured(more) == Captured(init) + LogLine(last);
      CapturedAppend(logs, init);
    }
  }

  /** The accumulation loop of the replaced `console.log`: `result += args.join(' ') + '\n'` per call. */
  method CaptureLogs(logs: seq<seq<string>>) returns (result: string)
    ensures result == Captured(logs)
  {
    result := "";
    for i := 0 to |logs|
      invariant result == Captured(logs[..i])
    {
      assert logs[..i + 1][..i] == logs[..i];
      result := result + LogLine(logs[i]);
    }
    assert logs[..|logs|] == logs;
  }

  /** The events one run of the JavaScript adapter dispatches. */
  function JavaScriptEvents(o: JsOutcome): (r: seq<Event>)
    ensures |r| == if ThrowsUnreadable(o) then 0 else 1
    ensures r != [] ==> (r[0].LangError? <==> o.thrown.Some?)
    ensures r != [] ==> (r[0].LangOutput? <==> o.thrown.None?)
    ensures o.thrown.Some? && o.thrown.value.Fault? ==>
      r[0].detail == o.thrown.value.name + ": " + o.thrown.value.message
    ensures o.thrown.None? ==> r[0].detail == OutputPayload(Captured(o.logs))
  {
    match o.thrown
    case Some(Fault(name, message)) => [LangError(name + ": " + message)]
    case Some(Unreadable(_)) => []
    case None => [LangOutput(OutputPayload(Captured(o.logs)))]
  }

  /**
   * A run that completes reports the sentinel exactly when it logged nothing:
   * captured text always ends in a line break, which the sentinel does not.
   */
  lemma JavaScriptNoOutputIff(o: JsOutcome)
    requires o.thrown.None?
    ensures JavaScriptEvents(o)[0].detail == NO_OUTPUT <==> o.logs == []
  {
  }

  /** Where `console.log` currently writes: the host console, or the adapter's capture buffer. */
  datatype Sink = HostLog | CaptureBuffer

  /** The global console whose `log` the JavaScript adapter replaces during a run. */
  class Console {
    var log: Sink

    constructor ()
      ensures log == HostLog
    {
      log := HostLog;
    }
  }

  /**
   * `JavaScriptInterpreter.run`: swap `console.log` for the capture, evaluate,
   * restore the previous sink on every path, and return the events to dispatch.
   * When the thrown value's name or message cannot be read as text, the catch
   * block itself throws, so no event
   * is produced and the TypeError escapes the run.
   */
  method JavaScriptRun(console: Console, o: JsOutcome) returns (events: seq<Event>, r: Outcome)
    modifies console
    ensures console.log == old(console.log)
    ensures events == JavaScriptEvents(o)
    ensures r.Thrown? <==> ThrowsUnreadable(o)
    ensures r.Thrown? ==> r.error == o.thrown.value.escapes
  {
    var oldLog := console.log;
    console.log := CaptureBuffer;
    var result := CaptureLogs(o.logs);
    match o.thrown {
      case Some(Unreadable(escapes)) =>
        events, r := [], Thrown(escapes);
        console.log := oldLog;
        return;
      case Some(Fault(name, message)) =>
        events, r := [LangError(name + ": " + message)], Done;
        console.log := oldLog;
        return;
      case None =>
    }
    console.log := oldLog;
    events, r := [LangOutput(OutputPayload(result))], Done;
  }

  // ---------------------------------------------------------------------------
  // Python adapter

  /**
   * What Pyodide does with the code: complete, leaving the redirected stdout
   * buffer's contents (None when the runtime is not loaded yet and every call
   * yields `undefined`), or raise an error.
   */
  datatype PyOutcome = PyCompleted(stdout: Option<string>) | PyRaised(error: string)

  /** The events one run of the Python adapter dispatches. */
  function PythonEvents(o: PyOutcome): (r: seq<Event>)
    ensures |r| == 1
    ensures r[0].LangError? <==> o.PyRaised?
    ensures r[0].LangOutput? <==> o.PyCompleted?
    ensures o.PyRaised? ==> r[0].detail == o.error
    ensures o.PyCompleted? ==> r[0].detail != ""
    ensures o.PyCompleted? && o.stdout.Some? && o.stdout.value != "" ==> r[0].detail == o.stdout.value
    ensures o.PyCompleted? && (o.stdout.None? || o.stdout.value == "") ==> r[0].detail == NO_OUTPUT
  {
    match o
    case PyRaised(e) => [LangError(e)]
    case PyCompleted(stdout) => [LangOutput(OutputPayload(stdout.GetOr("")))]
  }

  // ---------------------------------------------------------------------------
  // PHP adapter

  /** The program the PHP adapter hands to php-wasm: the code behind an opening tag. */
  function PhpProgram(code: string): (r: string)
    ensures |r| == |code| + 6 && r[6..] == code
    ensures r[..6] == "<?php "
  {
    "<?php " + code
  }

  /**
   * The heuristic of the php-wasm 'output' listener: an output chunk is treated as
   * an error report when its text before the first ':' mentions "error" in any
   * ASCII case and the text contains "error:", or it contains both "thrown in" and
   * "on line", or it contains "Stack trace", or it contains "#0 {main}".
   */
  function IsPhpError(text: string): (r: bool)
    ensures Contains(text, "Stack trace") ==> r
    ensures Contains(text, "#0 {main}") ==> r
    ensures Contains(text, "thrown in") && Contains(text, "on line") ==> r
    ensures r ==> Contains(text, "error:") || Contains(text, "on line")
                  || Contains(text, "Stack trace") || Contains(text, "#0 {main}")
    ensures r ==> text != ""
  {
    (Contains(AsciiLower(BeforeFirst(text, ':')), "error") && Contains(text, "error:"))
    || (Contains(text, "thrown in") && Contains(text, "on line"))
    || Contains(text, "Stack trace")
    || Contains(text, "#0 {main}")
  }

  /** Output that follows an error report never turns it back into ordinary output. */
  lemma IsPhpErrorAppend(text: string, more: string)
    requires IsPhpError(text)
    ensures IsPhpError(text + more)
  {
    ContainsAppend(text, more, "error:");
    ContainsAppend(text, more, "thrown in");
    ContainsAppend(text, more, "on line");
    ContainsAppend(text, more, "Stack trace");
    ContainsAppend(text, more, "#0 {main}");
    var head := BeforeFirst(text, ':');
    if Contains(AsciiLower(head), "error") {
      BeforeFirstAppend(text, more, ':');
      if ':' !in text {
        assert head == text;
        AsciiLowerAppend(text, BeforeFirst(more, ':'));
        ContainsAppend(AsciiLower(text), AsciiLower(BeforeFirst(more, ':')), "error");
      }
    }
  }

  /** The event the 'output' listener dispatches for one chunk, whose parts are joined with ','. */
  function PhpOutputEvent(detail: seq<string>): (r: Event)
    ensures r.LangError? || r.LangOutput?
    ensures r.LangError? <==> IsPhpError(Join(detail, ","))
    ensures r.LangError? ==> r.detail == Join(detail, ",")
    ensures r.LangOutput? ==> r.detail == OutputPayload(Join(detail, ","))
    ensures r.detail != ""
  {
    var text := Join(detail, ",");
    if IsPhpError(text) then LangError(text) else LangOutput(OutputPayload(text))
  }

  /** A chunk classified as an error stays one when further parts are added to its detail. */
  lemma PhpOutputEventExtend(detail: seq<string>, part: string)
    requires PhpOutputEvent(detail).LangError?
    ensures PhpOutputEvent(detail + [part]).LangError?
  {
    var text := Join(detail, ",");
    assert detail != [] && IsPhpError(text);
    assert Join(detail + [part], ",") == text + ("," + part) by {
      JoinSnoc(detail, part, ",");
    }
    assert IsPhpError(text + ("," + part)) by {
      IsPhpErrorAppend(text, "," + part);
    }
  }

  /** The event the 'error' listener dispatches: the joined detail, always as an error. */
  function PhpErrorEvent(detail: seq<string>): (r: Event)
    ensures r.LangError? && r.detail == Join(detail, ",")
  {
    LangError(Join(detail, ","))
  }

  /** A chunk the heuristic flags yields on the output channel the very event the error channel would send. */
  lemma PhpChannelsAgreeOnErrors(detail: seq<string>)
    ensures PhpOutputEvent(detail).LangError? <==> PhpOutputEvent(detail) == PhpErrorEvent(detail)
  {
  }

  /** What a runtime does with a submitted snippet, for the two runtimes that answer synchronously. */
  datatype Runtime = Runtime(eval: string -> JsOutcome, runPython: string -> PyOutcome)

  /** The events an adapter of kind `k` dispatches while running `code`; php-wasm answers later, through its listeners. */
  function RunEvents(k: Kind, code: string, runtime: Runtime): (r: seq<Event>)
    ensures !AnyReady(r)
    ensures k == PHP ==> r == []
    ensures k == Python ==> |r| == 1
    ensures k == JS ==> |r| == if RunThrows(k, code, runtime) then 0 else 1
    ensures forall i :: 0 <= i < |r| ==> r[i].LangOutput? || r[i].LangError?
  {
    match k
    case JS => JavaScriptEvents(runtime.eval(code))
    case Python => PythonEvents(runtime.runPython(code))
    case PHP => []
  }

  /**
   * Running `code` on an adapter of kind `k` throws out of `run`: only the JavaScript
   * adapter can, when `eval` throws a value whose name or message cannot be read as text.
   */
  predicate RunThrows(k: Kind, code: string, runtime: Runtime)
  {
    k == JS && ThrowsUnreadable(runtime.eval(code))
  }
}
