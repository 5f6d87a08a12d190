# SwiftScraper core in Dafny

SwiftScraper drives a hidden `WKWebView` through a sequence of steps. Swift code calls
functions of a JavaScript module loaded into the page: it opens pages, runs scripts,
waits for conditions and collects results. This project models the four pieces that
carry the library's logic:

- **`JavaScriptGenerator`** (`javascript_generator.dfy`, with `decimal.dfy`) turns a
  module name, a function name and parameter values into the text `module.function(a,b)`.
  Strings are quoted without escaping. Booleans, integers and `null` are written literally.
  Collections are written as whatever `JSONSerialization` produced, and any other value is
  a `parameterSerialization` error. A reader, `ParseCall`, is the generator's inverse. The
  proofs show that the reader recovers every parameter list made of quote-free strings,
  booleans, integers and nulls. They also show that a string holding `","` makes two
  different parameter lists render identically.
- **`SwiftScraperError`** (`scraper_error.dfy`) is the nine-case error enum with its
  `errorDescription`. `ErrorFromDescription` decodes a description back into its error. The
  proofs show that descriptions tell errors apart, with one exception: `commonScriptNotFound`
  and `scriptNotFound(name: "SwiftScraper.js")` share a text.
- **`Browser`** (`web_browser.dfy`) is a class holding the navigation and async-script
  callback slots and the module name. WebKit's delegate calls, script messages and the
  results of `evaluateJavaScript` are methods of the class. Each callback invocation is
  appended to a log, and the contracts state each event's effect on the slots and the logs.
  A completion may react by starting the next load (`Reaction`), as the step after a
  navigation does. The invariant `Valid` states that, since the navigation slot was last
  filled, at most one navigation result has been delivered, none while the slot is still
  filled, and that one to the completion that filled it.
- **`WaitForConditionStep`** (`wait_for_condition_step.dfy`) is a class with the stored
  properties `startRunDate`, `browser`, `model` and `completion`. The main queue is explicit:
  evaluations in flight carry the values their closures captured, and refresh timers carry
  their deadlines. `Settle` is a pure reference definition of what a run reports for a
  sequence of assertion answers. `Drive` feeds a step such a sequence and is proved to
  report exactly what `Settle` says, exactly once. The lemmas about `Settle` give:
  - the condition for proceeding (an iff);
  - that a timeout never comes early;
  - that a timeout does come once a negative answer arrives late;
  - that script errors are passed on.

Time is an integer clock in milliseconds. The 0.1-second refresh interval is
`RefreshInterval = 100`, and `timeoutInSeconds` becomes `timeout` in milliseconds. Callbacks
are identified by numbers and browsers by handles. JSON values are a small datatype with
integer numbers.

Some behaviour of the source follows directly from the model:

- `runPageChangeScript` reports a script failure by calling its completion directly, not
  through the navigation slot. If the navigation finishes before the evaluation's error
  arrives, the same completion runs twice. `Browser.OnEvaluationResult` keeps `Valid` only
  when this does not happen, and `PageChangeFailureAfterFinish` builds the sequence of
  events. Whether WebKit can produce this order is outside the model.
- The same failure can arrive after a newer `load` has filled the slot. The old completion
  receives it, and the newer load's slot is emptied, so the newer completion is never
  invoked (`StaleFailureEmptiesNewerLoad`).
- `callNavigationCompletion` empties the slot before invoking the completion, so a load the
  completion starts keeps its callback (`NextLoadSurvivesNavigationCompletion`). The failure
  closures of `runPageChangeScript` and `runAsyncScript` empty their slot after invoking the
  completion. A load started from a page-change failure therefore loses its callback, and its
  finish is never delivered (`NextLoadWipedByPageChangeFailure`).
- When the step's weak browser reference goes away while a refresh timer is pending, the
  next `handleTimer` returns at its guard, and the completion is never called.
  `BrowserReleasedWhileWaiting` builds this case.
- Only a Boolean `true` satisfies the condition. Other truthy answers, such as the string
  `"true"`, keep the step polling.

## Model

| member | source | states |
|---|---|---|
| JavaScriptGenerator.Stringify | Sources/SwiftScraper/JavaScriptGenerator.swift:23-41 | an argument has a text exactly when it is not an unsupported value and not a collection that `JSONSerialization` rejects |
| JavaScriptGenerator.RenderAll | Sources/SwiftScraper/JavaScriptGenerator.swift:18 | the throwing map succeeds iff every parameter renders, and then gives one text per parameter in order, each that parameter's text |
| JavaScriptGenerator.GenerateScript | Sources/SwiftScraper/JavaScriptGenerator.swift:13-21 | no parameters give exactly `module.function()`; generation fails iff some parameter cannot be rendered, and then always with `parameterSerialization`; a generated call starts with `module.function(` and ends with `)` |
| JavaScriptGenerator.GenerateScriptIsJoinedArguments | Sources/SwiftScraper/JavaScriptGenerator.swift:14-20 | with every parameter renderable, the call is the head, the rendered arguments joined by `,`, and `)`; the empty-parameter guard gives the same text |
| JavaScriptGenerator.ParseCallRoundTrip | Sources/SwiftScraper/JavaScriptGenerator.swift:13-35 | for quote-free strings, booleans, integers and nulls, generation succeeds and the parameters are read back from the call, in order |
| JavaScriptGenerator.UnescapedQuoteIsAmbiguous | Sources/SwiftScraper/JavaScriptGenerator.swift:24-26 | strings are not escaped: the single string `a","b` and the two strings `a`, `b` generate the same call |
| Decimal.IntToDecimal | Sources/SwiftScraper/JavaScriptGenerator.swift:30-31 | an integer's text is a leading `-` iff it is negative, followed by decimal digits with no leading zero that denote its magnitude |
| Decimal.NatToDecimalRoundTrip | Sources/SwiftScraper/JavaScriptGenerator.swift:30-31 | the printed digits of a number read back as that number |
| Decimal.NatToDecimalInjective | Sources/SwiftScraper/JavaScriptGenerator.swift:30-31 | two numbers print the same iff they are equal |
| ScraperError.ErrorDescription | Sources/SwiftScraper/SwiftScraperError.swift:42-63 | every case has a non-empty description |
| ScraperError.ErrorFromDescription | Sources/SwiftScraper/SwiftScraperError.swift:42-63 | the decoder that `DescriptionRoundTrip` inverts against; it recognises only non-empty texts |
| ScraperError.DecodedDescriptionsAreExact | Sources/SwiftScraper/SwiftScraperError.swift:42-63 | whatever the decoder accepts is exactly the description of the error it returns |
| ScraperError.DescriptionRoundTrip | Sources/SwiftScraper/SwiftScraperError.swift:42-63 | every description decodes to its own error, payload included, except `scriptNotFound("SwiftScraper.js")`, which decodes to `commonScriptNotFound` |
| ScraperError.DescriptionCollision | Sources/SwiftScraper/SwiftScraperError.swift:56-59 | two distinct errors have the same description iff they are `commonScriptNotFound` and `scriptNotFound("SwiftScraper.js")` |
| ScraperError.JavascriptErrorDescriptionInjective | Sources/SwiftScraper/SwiftScraperError.swift:48-49 | two JavaScript-error descriptions are equal iff their messages are |
| ScraperError.NavigationFailedDescriptionInjective | Sources/SwiftScraper/SwiftScraperError.swift:50-51 | two navigation-failure descriptions are equal iff their messages are |
| ScraperError.PayloadFreeDescriptionsAreUnique | Sources/SwiftScraper/SwiftScraperError.swift:44-55 | parameterSerialization, contentUnexpected, incorrectStep, timeout and couldNotReadDownloadedFile share their description with no other error |
| WebBrowser.ClassifyEvaluation | Sources/SwiftScraper/Browser.swift:201-216 | an evaluation succeeds iff it reported no error, and then with the response; every error becomes `javascriptError`, whose message is the exception message when WebKit reports a JavaScript exception that has one, and the error's description otherwise |
| WebBrowser.RunScriptOutcomes | Sources/SwiftScraper/Browser.swift:193-216 | `runScript` reports `parameterSerialization` iff some parameter cannot be rendered; it succeeds iff all render and the evaluation reported no error; its failures are only serialisation or JavaScript errors |
| WebBrowser.NoParameterScriptIsEvaluated | Sources/SwiftScraper/Browser.swift:193-199 | a call without parameters always reaches the web view and never fails to serialise |
| WebBrowser.Browser.constructor | Sources/SwiftScraper/Browser.swift:62-66 | a new browser keeps its module name and starts with empty slots and no pending work |
| WebBrowser.Browser.Load | Sources/SwiftScraper/Browser.swift:187-190 | loading fills the navigation slot with the completion (replacing any earlier one) and starts the load; the invariant holds afterwards, armed for that completion |
| WebBrowser.Browser.CallNavigationCompletion | Sources/SwiftScraper/Browser.swift:140-149 | with the slot filled, the slot is emptied and then its completion is invoked once with the result, so a load the completion starts keeps its slot; with it empty, nothing happens; the invariant is kept |
| WebBrowser.Browser.DidFinish | Sources/SwiftScraper/Browser.swift:103-105 | a finished navigation delivers success to the pending completion, if any, and empties the slot unless that completion loads again |
| WebBrowser.Browser.DidFailProvisionalNavigation | Sources/SwiftScraper/Browser.swift:114-122 | an early failure delivers `navigationFailed` with the error's description, whatever the error |
| WebBrowser.Browser.DidFail | Sources/SwiftScraper/Browser.swift:130-138 | a cancelled load (NSURLErrorDomain, -999) changes nothing and leaves the slot filled; any other failure delivers `navigationFailed` with the error's description |
| WebBrowser.Browser.DidReceiveMessage | Sources/SwiftScraper/Browser.swift:157-167 | a message under another name is ignored; one for `swiftScraperResponseHandler` passes its body, as a success, to the pending async callback, which stays in its slot |
| WebBrowser.Browser.Resume | Sources/SwiftScraper/Browser.swift:201-238 | the completion closures: a plain caller receives every result; the page-change and async closures pass on failures only and empty their slot after the completion, even when it loaded again; the invariant breaks only for a page-change failure to a completion that no longer holds the slot |
| WebBrowser.Browser.RunScript | Sources/SwiftScraper/Browser.swift:193-217 | a serialisation failure is reported at once and nothing is evaluated; otherwise the generated call is handed to the web view |
| WebBrowser.Browser.RunPageChangeScript | Sources/SwiftScraper/Browser.swift:220-228 | fills the navigation slot; a serialisation failure reaches the completion at once and empties the slot, even when the completion loaded again; otherwise the call is evaluated and the slot stays filled for the navigation events; the invariant holds afterwards |
| WebBrowser.Browser.RunAsyncScript | Sources/SwiftScraper/Browser.swift:231-239 | fills the async slot; a serialisation failure reaches the completion at once and empties the slot; otherwise the call is evaluated and the slot waits for the script message |
| WebBrowser.Browser.OnEvaluationResult | Sources/SwiftScraper/Browser.swift:201-227 | the evaluation's outcome is classified and passed to its continuation; the single-delivery invariant survives every result except a page-change failure for a completion that no longer holds the navigation slot (its navigation already delivered, or a newer load replaced it), unless that completion loads again |
| WaitForCondition.Outcome | Sources/SwiftScraper/Steps/WaitForConditionStep.swift:53-74 | an answer proceeds iff it is a Boolean `true`; it errs iff the browser reported an error; a negative answer times out iff it came after the limit, and otherwise reschedules |
| WaitForCondition.Verdict | Sources/SwiftScraper/Steps/WaitForConditionStep.swift:55-73 | only a reschedule leaves the completion uncalled; every result carries the model the run was given |
| WaitForCondition.SettleKeepsModel | Sources/SwiftScraper/Steps/WaitForConditionStep.swift:49-76 | a run reports only `proceed` or `failure`, always with its own model |
| WaitForCondition.SettleNoneIffAllReschedule | Sources/SwiftScraper/Steps/WaitForConditionStep.swift:59-69 | a run is still waiting iff every answer so far was negative and within the limit |
| WaitForCondition.SettleAtFirstDecisive | Sources/SwiftScraper/Steps/WaitForConditionStep.swift:49-76 | the first answer that does not reschedule decides the result |
| WaitForCondition.SettleProceedsIff | Sources/SwiftScraper/Steps/WaitForConditionStep.swift:54-58 | a run proceeds iff some answer is a Boolean `true` and every earlier answer was negative and within the limit |
| WaitForCondition.SettleTimeoutIsLate | Sources/SwiftScraper/Steps/WaitForConditionStep.swift:59-62 | with only script errors possible, a timeout happens only at a negative answer that came after the limit, and only when all earlier answers were negative |
| WaitForCondition.SettleTimesOut | Sources/SwiftScraper/Steps/WaitForConditionStep.swift:59-62 | if the assertion never errs and never answers true, a late answer makes the run fail with `timeout` |
| WaitForCondition.SettleErrorPropagates | Sources/SwiftScraper/Steps/WaitForConditionStep.swift:71-73 | an error reported before the run is decided is passed on as the run's failure, with its model |
| WaitForCondition.WaitForConditionStep.constructor | Sources/SwiftScraper/Steps/WaitForConditionStep.swift:31-34 | a new step keeps its assertion name and timeout, with nothing stored and nothing pending |
| WaitForCondition.WaitForConditionStep.Run | Sources/SwiftScraper/Steps/WaitForConditionStep.swift:36-42 | `run` stores the start time, browser, model and completion, then makes the first poll; started while idle, the step satisfies its invariant |
| WaitForCondition.WaitForConditionStep.Store | Sources/SwiftScraper/Steps/WaitForConditionStep.swift:37-40 | the four assignments of `run`, with no poll yet |
| WaitForCondition.WaitForConditionStep.HandleTimer | Sources/SwiftScraper/Steps/WaitForConditionStep.swift:44-49 | with all four properties present, the assertion is evaluated on the stored browser, capturing start, model and completion; with any absent, nothing happens |
| WaitForCondition.WaitForConditionStep.Tick | Sources/SwiftScraper/Steps/WaitForConditionStep.swift:63-68 | a timer runs no earlier than its deadline, is consumed, and polls as `handleTimer` does; the invariant is kept |
| WaitForCondition.WaitForConditionStep.OnPollResult | Sources/SwiftScraper/Steps/WaitForConditionStep.swift:49-76 | a deciding answer resets the step and invokes the captured completion once with the captured model; a reschedule arms a timer 100 ms later and changes nothing else; the invariant is kept |
| WaitForCondition.WaitForConditionStep.ReleaseBrowser | Sources/SwiftScraper/Steps/WaitForConditionStep.swift:23 | the weak browser reference becomes nil and nothing else changes |
| WaitForCondition.WaitForConditionStep.Reset | Sources/SwiftScraper/Steps/WaitForConditionStep.swift:78-83 | all four stored properties become nil |
| WaitForCondition.Drive | Sources/SwiftScraper/Steps/WaitForConditionStep.swift:36-76 | fed any spaced sequence of answers, the step invokes its completion exactly once with what `Settle` decides, and is then idle and reset; if `Settle` has not decided, nothing is delivered and a poll or timer is still pending |

## Left out

- Double parameters of `stringify` are not modelled: floating-point text is out of scope.
- `JSONSerialization` is not modelled. A collection parameter carries the text it would produce, or nothing when the collection is not valid JSON or cannot be serialised. The `?? ""` fallback is contained in that text.
- Foundation's bridging of `NSNumber` is not modelled. In `isOk as? Bool` and `param as? Bool` / `param is Int`, a number is not read as a Boolean, and a Boolean is not read as a number.
- The browser's initialiser loads `SwiftScraper.js` and the module's script from bundles, which throws `commonScriptNotFound` or `scriptNotFound`. This file I/O is not modelled. The constructor keeps only the module name.
- WebView configuration, `insertIntoView`, the user agent and logging are not modelled: they are UI and diagnostics.
- `WebBrowser.Browser.Load` does not model the trap of `URL(string: path)!` (Browser.swift:189): a path that is not a valid URL stops the program, and the model accepts every path.
- Strings are compared character by character. Swift's `String` equality, used for the message name (Browser.swift:162), the error domain (Browser.swift:133) and the synthesised `SwiftScraperError` equality, compares up to Unicode canonical equivalence.
- `WebBrowser.Browser.Load` and `WaitForCondition.WaitForConditionStep.Run` do not model real time, `Date()` or `DispatchQueue.main.asyncAfter`. Timestamps are parameters, and timers are explicit events that run no earlier than their deadline.
- Callbacks are recorded in a log, not executed. A browser completion's re-entry is modelled only as starting one further load (`Reaction`); a completion that runs scripts, or re-enters the step, is not modelled.
- The `[weak self]` captures in `handleTimer` are not modelled: the step object is never deallocated. The weak `browser` property is modelled by `ReleaseBrowser`.
- `WebBrowser.Browser.OnEvaluationResult` does not keep `Valid` after a page-change failure for a completion that no longer holds the slot. This is the source's behaviour, shown by `PageChangeFailureAfterFinish` and `StaleFailureEmptiesNewerLoad`.
- `WaitForCondition.SettleTimeoutIsLate` assumes that the browser reports only serialisation and JavaScript errors, as `RunScriptOutcomes` shows. A `timeout` error coming from the script itself would also end a run as a timeout.
- `JumpToStep` and `Finish` of the step-flow result are declared but never produced: this step does not use them.
- `DownloadStep`, `AsyncProcessStep`, `OpenPageStep`, `StepRunner` and the `Step` protocol are not part of this model. Their runner logic would be needed to model how step results are consumed.
- The tests exercise `WaitForConditionStep` variants that take `params` and `paramsKeys`. The step source modelled here has no such variants, so they are not part of this model.
