/**
 * `LanguageInterpreterService`: the registry of adapters keyed by language name,
 * the active language, the readiness flag and the window's event log.
 */
module Service {
  import opened Wrappers
  import opened Events
  import opened Interpreters

  /** The adapter `run` forwards to: the one stored for the active language, else a fresh JavaScript one. */
  function Target(interpreters: map<string, Kind>, current: string): (r: Kind)
    ensures current in interpreters ==> r == interpreters[current]
    ensures current !in interpreters ==> r == JS
  {
    if current in interpreters then interpreters[current] else JS
  }

  class LanguageInterpreterService {
    var interpreters: map<string, Kind>
    var currentLanguage: string
    var isReady: bool
    /** Every event dispatched on the window, oldest first. */
    var events: seq<Event>

    /** Only supported names are ever stored or selected. */
    ghost predicate Valid()
      reads this
    {
      && currentLanguage in SUPPORTED_LANGUAGES
      && forall l :: l in interpreters ==> l in SUPPORTED_LANGUAGES
    }

    /** Each stored adapter is the one the factory builds for its key. */
    ghost predicate Coherent()
      reads this
    {
      forall l :: l in interpreters ==> Create(l) == Ok(interpreters[l])
    }

    /** An empty registry with JavaScript selected; the 'lang:ready' listener is `Dispatch`. */
    constructor ()
      ensures Valid() && Coherent()
      ensures interpreters == map[] && currentLanguage == "javascript"
      ensures !isReady && events == []
    {
      interpreters := map[];
      currentLanguage := "javascript";
      isReady := false;
      events := [];
    }

    /** `window.dispatchEvent`: the event is logged, and a ready event makes the service ready. */
    method Dispatch(e: Event)
      modifies this
      ensures events == old(events) + [e]
      ensures isReady == (old(isReady) || e.LangReady?)
      ensures interpreters == old(interpreters) && currentLanguage == old(currentLanguage)
    {
      events := events + [e];
      if e.LangReady? {
        isReady := true;
      }
    }

    /** Dispatches `es` in order. */
    method DispatchAll(es: seq<Event>)
      modifies this
      ensures events == old(events) + es
      ensures isReady == (old(isReady) || AnyReady(es))
      ensures interpreters == old(interpreters) && currentLanguage == old(currentLanguage)
    {
      for i := 0 to |es|
        invariant events == old(events) + es[..i]
        invariant isReady == (old(isReady) || AnyReady(es[..i]))
        invariant interpreters == old(interpreters) && currentLanguage == old(currentLanguage)
      {
        assert es[..i + 1] == es[..i] + [es[i]];
        Dispatch(es[i]);
        assert es[..i + 1][i] == es[i];
      }
      assert es[..|es|] == es;
    }

    /** `init`: stores a new JavaScript adapter under the active language and announces it. */
    method Init()
      requires Valid()
      modifies this
      ensures Valid()
      ensures interpreters == old(interpreters)[currentLanguage := JS]
      ensures currentLanguage == old(currentLanguage)
      ensures isReady
      ensures events == old(events) + [LangReady(ReadyMessage(JS)), LangChanged(currentLanguage + " ready!")]
      ensures old(Coherent()) ==> (Coherent() <==> currentLanguage == "javascript")
    {
      DispatchAll(ConstructionEvents(JS));
      interpreters := interpreters[currentLanguage := JS];
      Dispatch(LangChanged(currentLanguage + " ready!"));
      if currentLanguage != "javascript" {
        assert Create(currentLanguage) != Ok(interpreters[currentLanguage]);
      }
    }

    /**
     * The `interpreter` getter: the adapter stored for the active language, or a
     * fresh JavaScript adapter that is not stored (its constructor still announces readiness).
     */
    method Interpreter() returns (k: Kind)
      modifies this
      ensures k == Target(old(interpreters), old(currentLanguage))
      ensures interpreters == old(interpreters) && currentLanguage == old(currentLanguage)
      ensures currentLanguage in interpreters ==> events == old(events) && isReady == old(isReady)
      ensures currentLanguage !in interpreters ==>
        events == old(events) + ConstructionEvents(JS) && isReady
    {
      if currentLanguage in interpreters {
        k := interpreters[currentLanguage];
      } else {
        DispatchAll(ConstructionEvents(JS));
        k := JS;
      }
    }

    /**
     * `run`: forwards the code to the target adapter. The JavaScript and Python
     * adapters dispatch their result now; the PHP adapter hands the program to
     * php-wasm, which is returned, and answers through its listeners later. A
     * TypeError escaping the JavaScript adapter escapes `run` too.
     */
    method Run(code: string, runtime: Runtime, console: Console) returns (submitted: Option<string>, r: Outcome)
      requires Valid()
      modifies this, console
      ensures Valid()
      ensures interpreters == old(interpreters) && currentLanguage == old(currentLanguage)
      ensures console.log == old(console.log)
      ensures var k := Target(interpreters, currentLanguage);
        && events == old(events)
                     + (if currentLanguage in interpreters then [] else ConstructionEvents(JS))
                     + RunEvents(k, code, runtime)
        && submitted == (if k == PHP then Some(PhpProgram(code)) else None)
      ensures isReady == (old(isReady) || currentLanguage !in interpreters)
      ensures r.Thrown? <==> RunThrows(Target(interpreters, currentLanguage), code, runtime)
      ensures r.Thrown? ==> r.error == runtime.eval(code).thrown.value.escapes
    {
      var k := Interpreter();
      var es: seq<Event>;
      match k {
        case JS =>
          es, r := JavaScriptRun(console, runtime.eval(code));
          submitted := None;
        case Python =>
          es, r := PythonEvents(runtime.runPython(code)), Done;
          submitted := None;
        case PHP =>
          es, r := [], Done;
          submitted := Some(PhpProgram(code));
      }
      DispatchAll(es);
    }

    /**
     * `setLanguage`: rejects an unsupported name without any effect; otherwise
     * creates and stores an adapter the first time the language is selected
     * (clearing readiness first), selects it and announces the change.
     */
    method SetLanguage(language: string) returns (r: Outcome)
      requires Valid()
      modifies this
      ensures Valid()
      ensures r.Thrown? <==> language !in SUPPORTED_LANGUAGES
      ensures r.Thrown? ==>
        && r.error == "Language not supported"
        && interpreters == old(interpreters) && currentLanguage == old(currentLanguage)
        && isReady == old(isReady) && events == old(events)
      ensures r.Done? ==>
        && currentLanguage == language && language in interpreters
      ensures r.Done? && language in old(interpreters) ==>
        && interpreters == old(interpreters) && isReady == old(isReady)
        && events == old(events) + [LangChanged("Language set to: " + language)]
      ensures r.Done? && language !in old(interpreters) ==>
        var k := Create(language).value;
        && interpreters == old(interpreters)[language := k]
        && isReady == (k == JS)
        && events == old(events) + ConstructionEvents(k) + [LangChanged("Language set to: " + language)]
      ensures old(Coherent()) ==> Coherent()
    {
      if language !in SUPPORTED_LANGUAGES {
        return Thrown("Language not supported");
      }
      if language !in interpreters {
        isReady := false;
        var k := Create(language).value;
        DispatchAll(ConstructionEvents(k));
        interpreters := interpreters[language := k];
      }
      currentLanguage := language;
      Dispatch(LangChanged("Language set to: " + language));
      r := Done;
    }

    /** Completion of the asynchronous Pyodide or php-wasm load: the adapter announces readiness. */
    method ReadySignal(k: Kind)
      requires k != JS
      modifies this
      ensures events == old(events) + [LangReady(ReadyMessage(k))]
      ensures isReady
      ensures interpreters == old(interpreters) && currentLanguage == old(currentLanguage)
    {
      Dispatch(LangReady(ReadyMessage(k)));
    }

    /** The php-wasm 'output' listener: one chunk, classified as output or error. */
    method PhpOutputSignal(detail: seq<string>)
      modifies this
      ensures events == old(events) + [PhpOutputEvent(detail)]
      ensures isReady == old(isReady)
      ensures interpreters == old(interpreters) && currentLanguage == old(currentLanguage)
    {
      Dispatch(PhpOutputEvent(detail));
    }

    /** The php-wasm 'error' listener: the chunk is always an error. */
    method PhpErrorSignal(detail: seq<string>)
      modifies this
      ensures events == old(events) + [PhpErrorEvent(detail)]
      ensures isReady == old(isReady)
      ensures interpreters == old(interpreters) && currentLanguage == old(currentLanguage)
    {
      Dispatch(PhpErrorEvent(detail));
    }
  }

  /** A session as a page drives it, checked against the contracts above. */
  method Session(runtime: Runtime)
  {
    var service := new LanguageInterpreterService();
    var console := new Console();
    service.Init();
    assert service.isReady && service.interpreters == map["javascript" := JS];

    var r := service.SetLanguage("ruby");
    assert r == Thrown("Language not supported");
    assert service.currentLanguage == "javascript";

    r := service.SetLanguage("python");
    assert r == Done && !service.isReady;
    service.ReadySignal(Python);
    assert service.isReady;

    var before := service.interpreters;
    r := service.SetLanguage("python");
    assert service.interpreters == before && service.isReady;

    var submitted, outcome := service.Run("print('hi')", runtime, console);
    assert submitted == None && outcome == Done && console.log == HostLog;
  }
}
