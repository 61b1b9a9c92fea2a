# snippet-sorbet language service, modelled in Dafny

The project models the language layer of snippet-sorbet (`src/language.ts`). This layer lets a web page run JavaScript, Python or PHP snippets and hear about the results through window events. The model covers:

- the **service** (`LanguageInterpreterService`): a registry that maps language names to adapters and fills itself lazily, the active language, a global readiness flag, and the window's event log;
- the **factory** (`LanguageInterpreterFactory.create`), which turns the three supported names into adapters and throws `Language not supported` for any other name;
- the **adapters' result rules**: the JavaScript `console.log` capture, the `Success: No output!` sentinel, Python's output/error choice, and the PHP heuristic that reclassifies an output chunk as an error.

Files and modules:

- `wrappers.dfy` (`Wrappers`): the `Option` and `Result` datatypes.
- `text.dfy` (`Text`): JavaScript's `join`, `includes`, `split(c)[0]` and ASCII `toLowerCase`. `Contains` is proved equal to an independent definition ("occurs at some index").
- `events.dfy` (`Events`): the four event kinds that `CustomEventFactory` builds, and the payload rule for output events.
- `interpreters.dfy` (`Interpreters`): the adapter kinds, the factory, and the constructor-time ready event. It also holds the JavaScript run as a method, with a capture loop and a console sink that is restored on both paths, the Python and PHP event rules, and the PHP heuristic.
- `service.dfy` (`Service`): the class `LanguageInterpreterService`. `Dispatch` stands for `window.dispatchEvent` together with the service's `lang:ready` listener. The event is appended to `events`, and a ready event sets `isReady`.

How the model follows the code:

- Constructing a `JavaScriptInterpreter` dispatches `lang:ready` synchronously. So when `setLanguage` creates a JavaScript adapter, it first clears `isReady`, and the listener then sets it again. A new Python or PHP adapter leaves the service not ready until `ReadySignal` stands for its asynchronous load completing.
- The `interpreter` getter's fallback adapter is also a new `JavaScriptInterpreter`. Running while no adapter is stored for the active language therefore emits a ready event and makes the service ready, and nothing is stored.
- Readiness is global: any `lang:ready` event sets it, whatever language sent it, so it does not track the selected language's own load.
- The catch block builds `${e.name}: ${e.message}`. For some thrown values, reading or converting one of these properties throws in turn. Examples: `null` and `undefined`, a Symbol-valued `name`, a throwing getter, a revoked Proxy. The `finally` still restores `console.log`, no event is sent, and the new error escapes `run` and the service's `run`. Such a value is `Fault.Unreadable(escapes)`, and `JavaScriptRun` and `Run` report the escaping error as a `Thrown` outcome.
- `init` stores a new JavaScript adapter under whatever the active language is. `Init`'s contract therefore says this much: if every stored adapter matched its key before, they all still match afterwards exactly when the active language is `javascript`.

## Model

| member | source | states |
|---|---|---|
| Text.Join | src/language.ts:43 | `join` of no parts is empty; otherwise its length is the parts' total length plus one separator between each two neighbours, and it starts with the first part |
| Text.JoinSnoc | src/language.ts:43 | joining one more part appends the separator and that part (the empty list joins to the part alone) |
| Text.Contains | src/language.ts:122-125 | `includes` holds exactly when the substring occurs at some index of the text |
| Text.ContainsAppend | src/language.ts:122-125 | a substring that occurs in a text still occurs once more text follows |
| Text.BeforeFirst | src/language.ts:122 | `split(':')[0]` is a prefix of the text with no `:` in it, and ends where the first `:` is or at the end of the text |
| Text.BeforeFirstAppend | src/language.ts:122 | appending text does not change what comes before the first `:` if the original text already has one; otherwise the original text is extended by the appended text's part before its first `:` |
| Text.LowerChar | src/language.ts:122 | the lowered character is never an ASCII capital; other characters are unchanged, and capitals move to the matching small letter |
| Text.AsciiLower | src/language.ts:122 | lowering keeps the length and leaves no ASCII capital; every capital becomes the matching small letter and every other character is kept |
| Text.AsciiLowerAppend | src/language.ts:122 | lowering distributes over concatenation |
| Events.Event.Name | src/language.ts:16-28 | every event name the factory uses starts with `lang:` |
| Events.NameIdentifiesKind | src/language.ts:14-30 | two events share an event name exactly when they are of the same kind |
| Events.OutputPayload | src/language.ts:55 | an output payload is never empty: it is the captured text when there is any, otherwise exactly `Success: No output!` |
| Interpreters.LanguageName | src/language.ts:149 | the name of every adapter kind is one of the supported names |
| Interpreters.Create | src/language.ts:151-162 | creation succeeds exactly on the supported names, returns the adapter named by the input, and otherwise fails with `Language not supported` |
| Interpreters.CreateRoundTrip | src/language.ts:149-162 | each adapter kind's name is supported and creates that same kind |
| Interpreters.ReadyMessage | src/language.ts:35 | each adapter's ready payload (lines 35, 72 and 114) is its display name followed by ` ready!` |
| Interpreters.ConstructionEvents | src/language.ts:33-36 | the JavaScript constructor emits exactly one event, its own ready event, while it runs; the Python and PHP constructors emit none |
| Interpreters.Captured | src/language.ts:40-44 | captured text is empty exactly when nothing was logged, and otherwise ends in a line break |
| Interpreters.LogLine | src/language.ts:41-44 | every `console.log` call adds a non-empty piece of text that ends in a line break |
| Interpreters.CapturedOneLine | src/language.ts:41-44 | one `console.log(line)` is captured as that line plus a line break |
| Interpreters.CapturedAppend | src/language.ts:40-44 | the capture of a sequence of log calls is the capture of its first part followed by the capture of the rest |
| Interpreters.CaptureLogs | src/language.ts:40-44 | the `+=` loop over the log calls produces exactly the captured text |
| Interpreters.JavaScriptEvents | src/language.ts:46-55 | a run emits no event when `eval` throws a value whose `name` or `message` cannot be read as text, and otherwise exactly one: an error `name: message` when `eval` throws (and then no output event), or else an output event carrying the capture's payload |
| Interpreters.JavaScriptNoOutputIff | src/language.ts:40-55 | a run that completes reports `Success: No output!` exactly when it logged nothing |
| Interpreters.Console.constructor | src/language.ts:39 | before any run, `console.log` writes to the host console |
| Interpreters.JavaScriptRun | src/language.ts:38-57 | the run returns the events above, and `console.log` is restored to what it was before on every path; an error escapes, and is returned, exactly when the thrown value's `name` or `message` cannot be read as text |
| Interpreters.PythonEvents | src/language.ts:82-97 | a run emits exactly one event: the raised error, or an output event with the non-empty stdout or else the sentinel (also when the runtime is not loaded and stdout is undefined) |
| Interpreters.PhpProgram | src/language.ts:143-145 | the program handed to php-wasm is `<?php ` followed by the code, unchanged |
| Interpreters.IsPhpError | src/language.ts:121-126 | a chunk containing `Stack trace`, `#0 {main}`, or both `thrown in` and `on line` is an error; only a non-empty chunk that contains `error:`, `on line`, `Stack trace` or `#0 {main}` can be one |
| Interpreters.IsPhpErrorAppend | src/language.ts:121-126 | output that follows a chunk classified as an error never makes it ordinary output |
| Interpreters.PhpOutputEvent | src/language.ts:118-133 | the output listener emits an error event carrying the `,`-joined detail exactly when the heuristic holds, otherwise an output event with that text's payload; the payload is never empty |
| Interpreters.PhpOutputEventExtend | src/language.ts:118-133 | a detail classified as an error stays one when further parts are added to it |
| Interpreters.PhpErrorEvent | src/language.ts:136-140 | the error listener always emits an error event carrying the `,`-joined detail |
| Interpreters.PhpChannelsAgreeOnErrors | src/language.ts:121-139 | the output listener sends an error exactly when its event equals the one the error listener would send for the same detail |
| Interpreters.RunEvents | src/language.ts:38-145 | a run emits only output or error events. The PHP adapter emits none during the run itself. The Python adapter emits exactly one. The JavaScript adapter emits exactly one unless `eval` throws a value whose `name` or `message` cannot be read as text, and then none |
| Service.Target | src/language.ts:185 | `run` targets the adapter stored for the active language, or the JavaScript fallback when none is stored |
| Service.LanguageInterpreterService.constructor | src/language.ts:166-177 | the service starts with an empty registry, `javascript` selected, not ready, and no events |
| Service.LanguageInterpreterService.Dispatch | src/language.ts:174-176 | a dispatched event is appended to the log; the service becomes ready exactly on a ready event and stays ready otherwise if it was |
| Service.LanguageInterpreterService.DispatchAll | src/language.ts:174-176 | dispatching several events in order appends them all, and the service becomes ready exactly if one of them is a ready event (or it was ready already) |
| Service.LanguageInterpreterService.Init | src/language.ts:179-182 | a JavaScript adapter is stored under the active language, the service is ready, and the events are the JavaScript ready event followed by `<language> ready!`; stored adapters still all match their keys exactly when the active language is `javascript` |
| Service.LanguageInterpreterService.Interpreter | src/language.ts:184-186 | the getter yields the stored adapter, or else a fresh JavaScript adapter whose ready event is emitted and which is not stored |
| Service.LanguageInterpreterService.Run | src/language.ts:188-190 | `run` never changes the registry or the active language; it emits the fallback's ready event (if any) then the target adapter's events, restores the console, and for PHP returns the program handed to php-wasm; it throws exactly when an error escapes the JavaScript adapter, and with that error |
| Service.LanguageInterpreterService.SetLanguage | src/language.ts:192-208 | an unsupported name throws `Language not supported` and changes nothing. Otherwise the language is selected and stored, and exactly one `Language set to: <language>` event ends the log. A known language leaves registry and readiness untouched. A new one gains exactly its own entry, and readiness ends true only for JavaScript. Adapters keep matching their keys |
| Service.LanguageInterpreterService.ReadySignal | src/language.ts:67-72 | a Python load completion (lines 67-72), or php-wasm's ready listener (lines 112-115), emits that adapter's ready event and makes the service ready |
| Service.LanguageInterpreterService.PhpOutputSignal | src/language.ts:118-133 | an output chunk from php-wasm appends its classified event and leaves readiness unchanged |
| Service.LanguageInterpreterService.PhpErrorSignal | src/language.ts:136-140 | an error chunk from php-wasm appends an error event with the joined detail |

## Left out

- Executing code is out of scope: `eval`, Pyodide's `runPython` and php-wasm's `run`. What a runtime does with a snippet is an input (`Runtime`, `JsOutcome`, `PyOutcome`). php-wasm's answers arrive through `PhpOutputSignal` and `PhpErrorSignal`.
- A snippet is assumed to act only through its `console.log` calls and at most one thrown value (for JavaScript), or through its stdout and at most one raised error (for Python). The source gives snippets more reach than that:
  - `eval` at line 47 is a direct eval, so a snippet runs in the scope of `run` and can reassign the local `result` without logging.
  - A snippet can call the exported service (line 211), for example `setLanguage`, in the middle of `run`.
  - A snippet can dispatch a `lang:ready` event itself.
  - Pyodide code can do the same through its `js` module.
  None of this is modelled. The claims of `Service.LanguageInterpreterService.Run` ("registry and active language unchanged", "readiness changes only through the fallback"), of `Interpreters.RunEvents` ("only output or error events") and of `Interpreters.CaptureLogs` (the capture is exactly the joined log calls) hold only under that assumption.
- The asynchronous loading of Pyodide and php-wasm, and the dynamic import from the CDN, are left out. Load completion is the explicit `ReadySignal`. A load that fails is simply never signalled.
- DOM `CustomEvent`, `window.dispatchEvent` and `addEventListener` are left out. They are replaced by the event log and the single `lang:ready` listener inside `Dispatch`.
- The debug `console.log` calls (lines 75, 119, 137) and the Python version query after loading are host side effects and are not modelled. So is the unused `result` at line 89.
- Adapters are modelled by their kind, not as objects. Object identity is not captured: that `init` replaces an existing JavaScript adapter with a new instance, and that the fallback adapter is a different instance each time.
- `console.log` arguments are taken as already converted to strings. JavaScript's conversion of other values is not modelled. A thrown value is given either by the `name` and `message` it reads as, or as unreadable together with a description of the error that reading it throws. Which values fall into which case is JavaScript's property access and string conversion, and that is not modelled.
- The Python error event carries the raw error object in the source. The model carries its text.
- `toLowerCase` is modelled for ASCII letters only. Full Unicode case mapping is not modelled.
- Interleaving of several runs, and runs submitted before a runtime has loaded, are left to the runtime outcome supplied with each call.
- Interpreters.IsPhpError: the contract gives three sufficient marker conditions for an error and one necessary condition, not the full predicate. The heuristic is best-effort text matching, so no claim is made that it classifies PHP output correctly.
- Service.LanguageInterpreterService.Run: for PHP it returns the program even when php-wasm has not loaded yet. In that case the source's `this.php?.run` drops it; whether the program reaches a runtime is not modelled.
- Interpreters.JavaScriptRun: the run returns its error event, and the caller dispatches it after `console.log` has been restored. The source dispatches the error event inside the catch block, before the `finally` restores `console.log`. A `lang:error` listener that logs would have that output swallowed into the discarded capture. The only listener in the model sets readiness and logs nothing, so the two orders are indistinguishable here.
