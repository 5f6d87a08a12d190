/**
 * The bookkeeping of `Browser`: the two one-shot callback slots (navigation and
 * asynchronous script), how WebKit's navigation events, script messages and script
 * evaluation results reach them, and how `runScript` sorts evaluation errors.
 *
 * WebKit itself is abstract: an event is a method call, a script handed to the web view
 * is an entry of `evaluations` awaiting its result, and a callback is identified by a
 * number; invoking it appends a `Delivery` to a log.
 */
module WebBrowser {
  import opened Wrappers
  import opened Json
  import opened ScraperError
  import opened JavaScriptGenerator

  /** The name under which the page posts messages back. */
  const MessageHandlerName := "swiftScraperResponseHandler"
  /** Foundation's `NSURLErrorDomain` and `NSURLErrorCancelled`. */
  const URLErrorDomain := "NSURLErrorDomain"
  const URLErrorCancelled := -999
  /** WebKit's `WKError.errorDomain` and `WKError.Code.javaScriptExceptionOccurred`. */
  const WKErrorDomain := "WKErrorDomain"
  const JavaScriptExceptionOccurred := 4

  /** The parts of an `NSError` the browser reads. `exceptionMessage` is the string under
      `WKJavaScriptExceptionMessage` in its user info, if there is one. */
  datatype NSError = NSError(domain: string, code: int, localizedDescription: string,
                             exceptionMessage: Option<string>)

  /** A script message: its handler name and its body. */
  datatype ScriptMessage = ScriptMessage(name: string, body: JsonValue)

  type NavigationResult = Result<(), SwiftScraperError>
  type ScriptResponseResult = Result<Option<JsonValue>, SwiftScraperError>

  /** Identifies a completion closure handed to the browser. */
  type CallbackId = nat

  /** One invocation of a callback, with the result it was given. */
  datatype Delivery<R> = Delivery(callback: CallbackId, result: R)

  /** What the completion handed to `runScript` does with the classified result. */
  datatype Continuation =
    | Direct(callback: CallbackId)      // a caller of runScript: passes every result on
    | PageChange(callback: CallbackId)  // runPageChangeScript: reports failures only
    | AsyncStart(callback: CallbackId)  // runAsyncScript: reports failures only

  /** A script handed to the web view whose evaluation has not completed. */
  datatype Evaluation = Evaluation(script: string, continuation: Continuation)

  /** A navigation failure that the browser ignores: the load was cancelled. */
  predicate IsCancellation(error: NSError) {
    error.domain == URLErrorDomain && error.code == URLErrorCancelled
  }

  predicate IsJavaScriptException(error: NSError) {
    error.domain == WKErrorDomain && error.code == JavaScriptExceptionOccurred
  }

  function NavigationFailure(error: NSError): NavigationResult {
    Failure(NavigationFailed(error.localizedDescription))
  }

  /** How `runScript` turns what `evaluateJavaScript` reports into a result. */
  function ClassifyEvaluation(response: Option<JsonValue>, error: Option<NSError>): (r: ScriptResponseResult)
    ensures r.Success? <==> error.None?
    ensures r.Success? ==> r.value == response
    ensures r.Failure? ==> r.error.JavascriptError?
    ensures r.Failure? && !IsJavaScriptException(error.value) ==>
              r.error.errorMessage == error.value.localizedDescription
    ensures r.Failure? && IsJavaScriptException(error.value) ==>
              r.error.errorMessage == error.value.exceptionMessage.GetOr(error.value.localizedDescription)
  {
    match error
    case Some(e) =>
      if IsJavaScriptException(e) then
        Failure(JavascriptError(e.exceptionMessage.GetOr(e.localizedDescription)))
      else
        Failure(JavascriptError(e.localizedDescription))
    case None => Success(response)
  }

  /** The result a `runScript` completion receives, given what the evaluation reports. */
  function RunScriptResult(moduleName: string, functionName: string, params: seq<Param>,
                           response: Option<JsonValue>, error: Option<NSError>): ScriptResponseResult
  {
    match GenerateScript(moduleName, functionName, params)
    case Failure(e) => Failure(e)
    case Success(_) => ClassifyEvaluation(response, error)
  }

  /** `runScript` reports exactly three kinds of outcome: the response, a serialisation error
      when (and only when) some parameter cannot be rendered, or a JavaScript error when
      the evaluation reported one. */
  lemma RunScriptOutcomes(moduleName: string, functionName: string, params: seq<Param>,
                          response: Option<JsonValue>, error: Option<NSError>)
    ensures var r := RunScriptResult(moduleName, functionName, params, response, error);
            && (r == Failure(ParameterSerialization) <==> exists k :: 0 <= k < |params| && !Renderable(params[k]))
            && (r.Success? <==> (forall k :: 0 <= k < |params| ==> Renderable(params[k])) && error.None?)
            && (r.Success? ==> r.value == response)
            && (r.Failure? ==> r.error == ParameterSerialization || r.error.JavascriptError?)
  {
  }

  /** A call without parameters always reaches the web view: it cannot fail to serialise. */
  lemma NoParameterScriptIsEvaluated(moduleName: string, functionName: string,
                                     response: Option<JsonValue>, error: Option<NSError>)
    ensures RunScriptResult(moduleName, functionName, [], response, error) == ClassifyEvaluation(response, error)
    ensures RunScriptResult(moduleName, functionName, [], response, error) != Failure(ParameterSerialization)
  {
  }

  /** What an invoked completion does to the browser before it returns: nothing, or start
      the next page load, as the step that follows a navigation does. */
  datatype Reaction = NoReaction | LoadNext(path: string, completion: CallbackId)

  /** The paths a reaction hands to the web view. */
  function ReactionLoads(reaction: Reaction): seq<string> {
    if reaction.LoadNext? then [reaction.path] else []
  }

  /** The navigation slot after a reaction, given what it held before. */
  function SlotAfter(reaction: Reaction, slot: Option<CallbackId>): Option<CallbackId> {
    if reaction.LoadNext? then Some(reaction.completion) else slot
  }

  class Browser {
    const moduleName: string
    var navigationCallback: Option<CallbackId>
    var asyncScriptCallback: Option<CallbackId>
    /** Paths handed to the web view's `load`, in order. */
    var loads: seq<string>
    /** Scripts handed to `evaluateJavaScript` whose result has not arrived. */
    var evaluations: seq<Evaluation>
    /** Invocations of navigation callbacks, in order. */
    var navigationDeliveries: seq<Delivery<NavigationResult>>
    /** Invocations of script-result callbacks, in order. */
    var scriptDeliveries: seq<Delivery<ScriptResponseResult>>
    /** How many navigation deliveries there were when the navigation slot was last filled,
        and the callback it was filled with. */
    ghost var navigationArmedAt: nat
    ghost var navigationArmedFor: CallbackId

    /** Since the navigation slot was last filled, at most one navigation result has been
        delivered, none while the slot is still filled, and that one to the callback the
        slot was filled with. */
    ghost predicate Valid()
      reads this
    {
      && navigationArmedAt <= |navigationDeliveries| <= navigationArmedAt + 1
      && (navigationCallback.Some? ==>
            |navigationDeliveries| == navigationArmedAt && navigationCallback == Some(navigationArmedFor))
      && (|navigationDeliveries| == navigationArmedAt + 1 ==>
            navigationDeliveries[navigationArmedAt].callback == navigationArmedFor)
    }

    constructor (moduleName: string)
      ensures this.moduleName == moduleName
      ensures navigationCallback.None? && asyncScriptCallback.None?
      ensures loads == [] && evaluations == [] && navigationDeliveries == [] && scriptDeliveries == []
      ensures Valid()
    {
      this.moduleName := moduleName;
      navigationCallback := None;
      asyncScriptCallback := None;
      loads := [];
      evaluations := [];
      navigationDeliveries := [];
      scriptDeliveries := [];
      navigationArmedAt := 0;
      navigationArmedFor := 0;
    }

    /** `load(path:completion:)`: fills the navigation slot and starts the navigation. */
    method Load(path: string, completion: CallbackId)
      modifies this
      ensures navigationCallback == Some(completion)
      ensures loads == old(loads) + [path]
      ensures asyncScriptCallback == old(asyncScriptCallback) && evaluations == old(evaluations)
      ensures navigationDeliveries == old(navigationDeliveries) && scriptDeliveries == old(scriptDeliveries)
      ensures navigationArmedAt == |navigationDeliveries| && navigationArmedFor == completion
      ensures Valid()
    {
      navigationCallback := Some(completion);
      navigationArmedAt := |navigationDeliveries|;
      navigationArmedFor := completion;
      loads := loads + [path];
    }

    /** What the completion just invoked does to the browser. */
    method React(reaction: Reaction)
      modifies this
      ensures navigationCallback == SlotAfter(reaction, old(navigationCallback))
      ensures loads == old(loads) + ReactionLoads(reaction)
      ensures asyncScriptCallback == old(asyncScriptCallback) && evaluations == old(evaluations)
      ensures navigationDeliveries == old(navigationDeliveries) && scriptDeliveries == old(scriptDeliveries)
      ensures reaction.NoReaction? ==>
                navigationArmedAt == old(navigationArmedAt) && navigationArmedFor == old(navigationArmedFor)
      ensures reaction.LoadNext? || old(Valid()) ==> Valid()
    {
      match reaction {
        case NoReaction =>
        case LoadNext(path, completion) =>
          Load(path, completion);
      }
    }

    /** `callNavigationCompletion(result:)`: empties the slot, then invokes what it held, so
        that a load the completion starts keeps its own callback; with the slot already
        empty it does nothing. */
    method CallNavigationCompletion(result: NavigationResult, reaction: Reaction)
      modifies this
      ensures old(navigationCallback).None? ==>
                navigationCallback.None? && navigationDeliveries == old(navigationDeliveries) && loads == old(loads)
      ensures old(navigationCallback).Some? ==>
                && navigationDeliveries == old(navigationDeliveries) + [Delivery(old(navigationCallback).value, result)]
                && navigationCallback == SlotAfter(reaction, None)
                && loads == old(loads) + ReactionLoads(reaction)
      ensures asyncScriptCallback == old(asyncScriptCallback)
      ensures evaluations == old(evaluations) && scriptDeliveries == old(scriptDeliveries)
      ensures old(Valid()) ==> Valid()
    {
      match navigationCallback {
        case None =>
        case Some(navigationCompletion) =>
          navigationCallback := None;
          navigationDeliveries := navigationDeliveries + [Delivery(navigationCompletion, result)];
          React(reaction);
      }
    }

    /** `webView(_:didFinish:)`: the pending navigation, if any, succeeds. */
    method DidFinish(reaction: Reaction)
      modifies this
      ensures old(navigationCallback).None? ==>
                navigationCallback.None? && navigationDeliveries == old(navigationDeliveries) && loads == old(loads)
      ensures old(navigationCallback).Some? ==>
                && navigationDeliveries == old(navigationDeliveries) + [Delivery(old(navigationCallback).value, Success(()))]
                && navigationCallback == SlotAfter(reaction, None)
                && loads == old(loads) + ReactionLoads(reaction)
      ensures asyncScriptCallback == old(asyncScriptCallback)
      ensures evaluations == old(evaluations) && scriptDeliveries == old(scriptDeliveries)
      ensures old(Valid()) ==> Valid()
    {
      CallNavigationCompletion(Success(()), reaction);
    }

    /** `webView(_:didFailProvisionalNavigation:withError:)`: the pending navigation, if any,
        fails with the error's description, whatever the error. */
    method DidFailProvisionalNavigation(error: NSError, reaction: Reaction)
      modifies this
      ensures old(navigationCallback).None? ==>
                navigationCallback.None? && navigationDeliveries == old(navigationDeliveries) && loads == old(loads)
      ensures old(navigationCallback).Some? ==>
                && navigationDeliveries == old(navigationDeliveries)
                                           + [Delivery(old(navigationCallback).value, NavigationFailure(error))]
                && navigationCallback == SlotAfter(reaction, None)
                && loads == old(loads) + ReactionLoads(reaction)
      ensures asyncScriptCallback == old(asyncScriptCallback)
      ensures evaluations == old(evaluations) && scriptDeliveries == old(scriptDeliveries)
      ensures old(Valid()) ==> Valid()
    {
      CallNavigationCompletion(NavigationFailure(error), reaction);
    }

    /** `webView(_:didFail:withError:)`: a cancelled load is ignored and leaves the slot
        filled; any other failure is delivered like a provisional one. */
    method DidFail(error: NSError, reaction: Reaction)
      modifies this
      ensures IsCancellation(error) ==>
                && navigationCallback == old(navigationCallback) && navigationDeliveries == old(navigationDeliveries)
                && loads == old(loads)
      ensures !IsCancellation(error) && old(navigationCallback).None? ==>
                navigationCallback.None? && navigationDeliveries == old(navigationDeliveries) && loads == old(loads)
      ensures !IsCancellation(error) && old(navigationCallback).Some? ==>
                && navigationDeliveries == old(navigationDeliveries)
                                           + [Delivery(old(navigationCallback).value, NavigationFailure(error))]
                && navigationCallback == SlotAfter(reaction, None)
                && loads == old(loads) + ReactionLoads(reaction)
      ensures asyncScriptCallback == old(asyncScriptCallback)
      ensures evaluations == old(evaluations) && scriptDeliveries == old(scriptDeliveries)
      ensures old(Valid()) ==> Valid()
    {
      if IsCancellation(error) {
        return;
      }
      CallNavigationCompletion(NavigationFailure(error), reaction);
    }

    /** `userContentController(_:didReceive:)`: a message for the handler is passed to the
        pending asynchronous callback, which stays in its slot; other messages are ignored. */
    method DidReceiveMessage(message: ScriptMessage, reaction: Reaction)
      modifies this
      ensures message.name != MessageHandlerName || old(asyncScriptCallback).None? ==>
                && scriptDeliveries == old(scriptDeliveries)
                && navigationCallback == old(navigationCallback) && loads == old(loads)
      ensures message.name == MessageHandlerName && old(asyncScriptCallback).Some? ==>
                && scriptDeliveries == old(scriptDeliveries)
                                       + [Delivery(old(asyncScriptCallback).value, Success(Some(message.body)))]
                && navigationCallback == SlotAfter(reaction, old(navigationCallback))
                && loads == old(loads) + ReactionLoads(reaction)
      ensures asyncScriptCallback == old(asyncScriptCallback) && evaluations == old(evaluations)
      ensures navigationDeliveries == old(navigationDeliveries)
      ensures old(Valid()) ==> Valid()
    {
      if message.name != MessageHandlerName {
        return;
      }
      match asyncScriptCallback {
        case None =>
        case Some(callback) =>
          scriptDeliveries := scriptDeliveries + [Delivery(callback, Success(Some(message.body)))];
          React(reaction);
      }
    }

    /** The completion closure `runScript` was given, applied to a result. The page-change
        and asynchronous closures invoke their completion first and empty their slot after
        it, so a slot the completion fills again is emptied. */
    method Resume(continuation: Continuation, result: ScriptResponseResult, reaction: Reaction)
      modifies this
      ensures continuation.Direct? ==>
                && scriptDeliveries == old(scriptDeliveries) + [Delivery(continuation.callback, result)]
                && navigationDeliveries == old(navigationDeliveries)
                && navigationCallback == SlotAfter(reaction, old(navigationCallback))
                && asyncScriptCallback == old(asyncScriptCallback)
                && loads == old(loads) + ReactionLoads(reaction)
      ensures continuation.PageChange? && result.Failure? ==>
                && navigationDeliveries == old(navigationDeliveries)
                                           + [Delivery(continuation.callback, Failure(result.error))]
                && navigationCallback.None?
                && scriptDeliveries == old(scriptDeliveries) && asyncScriptCallback == old(asyncScriptCallback)
                && loads == old(loads) + ReactionLoads(reaction)
      ensures continuation.AsyncStart? && result.Failure? ==>
                && scriptDeliveries == old(scriptDeliveries) + [Delivery(continuation.callback, result)]
                && asyncScriptCallback.None?
                && navigationDeliveries == old(navigationDeliveries)
                && navigationCallback == SlotAfter(reaction, old(navigationCallback))
                && loads == old(loads) + ReactionLoads(reaction)
      ensures !continuation.Direct? && result.Success? ==>
                && scriptDeliveries == old(scriptDeliveries) && navigationDeliveries == old(navigationDeliveries)
                && navigationCallback == old(navigationCallback) && asyncScriptCallback == old(asyncScriptCallback)
                && loads == old(loads)
      ensures evaluations == old(evaluations)
      ensures reaction.NoReaction? ==>
                navigationArmedAt == old(navigationArmedAt) && navigationArmedFor == old(navigationArmedFor)
      // A page-change failure delivered to a callback that no longer holds the slot breaks
      // the single-delivery invariant, unless the completion starts a new load.
      ensures (old(Valid()) && (!(continuation.PageChange? && result.Failure?) || reaction.LoadNext?
                                || old(navigationCallback) == Some(continuation.callback))) ==> Valid()
    {
      match continuation {
        case Direct(callback) =>
          scriptDeliveries := scriptDeliveries + [Delivery(callback, result)];
          React(reaction);
        case PageChange(callback) =>
          if result.Failure? {
            navigationDeliveries := navigationDeliveries + [Delivery(callback, Failure(result.error))];
            React(reaction);
            navigationCallback := None;
          }
        case AsyncStart(callback) =>
          if result.Failure? {
            scriptDeliveries := scriptDeliveries + [Delivery(callback, result)];
            React(reaction);
            asyncScriptCallback := None;
          }
      }
    }

    /** `runScript(functionName:params:completion:)`: parameters that cannot be serialised are
        reported at once and nothing is evaluated; otherwise the generated call is handed to
        the web view. */
    method RunScript(functionName: string, params: seq<Param>, continuation: Continuation, reaction: Reaction)
      modifies this
      ensures GenerateScript(moduleName, functionName, params).Success? ==>
                && evaluations == old(evaluations)
                                  + [Evaluation(GenerateScript(moduleName, functionName, params).value, continuation)]
                && scriptDeliveries == old(scriptDeliveries) && navigationDeliveries == old(navigationDeliveries)
                && navigationCallback == old(navigationCallback) && asyncScriptCallback == old(asyncScriptCallback)
                && loads == old(loads)
      ensures GenerateScript(moduleName, functionName, params).Failure? ==>
                evaluations == old(evaluations) && loads == old(loads) + ReactionLoads(reaction)
      ensures GenerateScript(moduleName, functionName, params).Failure? && continuation.Direct? ==>
                && scriptDeliveries == old(scriptDeliveries)
                                       + [Delivery(continuation.callback, Failure(ParameterSerialization))]
                && navigationDeliveries == old(navigationDeliveries)
                && navigationCallback == SlotAfter(reaction, old(navigationCallback))
                && asyncScriptCallback == old(asyncScriptCallback)
      ensures GenerateScript(moduleName, functionName, params).Failure? && continuation.PageChange? ==>
                && navigationDeliveries == old(navigationDeliveries)
                                           + [Delivery(continuation.callback, Failure(ParameterSerialization))]
                && navigationCallback.None?
                && scriptDeliveries == old(scriptDeliveries) && asyncScriptCallback == old(asyncScriptCallback)
      ensures GenerateScript(moduleName, functionName, params).Failure? && continuation.AsyncStart? ==>
                && scriptDeliveries == old(scriptDeliveries)
                                       + [Delivery(continuation.callback, Failure(ParameterSerialization))]
                && asyncScriptCallback.None?
                && navigationDeliveries == old(navigationDeliveries)
                && navigationCallback == SlotAfter(reaction, old(navigationCallback))
      ensures (old(Valid()) && (!continuation.PageChange? || reaction.LoadNext?
                                || old(navigationCallback) == Some(continuation.callback))) ==> Valid()
    {
      match GenerateScript(moduleName, functionName, params) {
        case Failure(_) =>
          Resume(continuation, Failure(ParameterSerialization), reaction);
        case Success(script) =>
          evaluations := evaluations + [Evaluation(script, continuation)];
      }
    }

    /** `runPageChangeScript(functionName:params:completion:)`: fills the navigation slot and
        runs the script; a failure is delivered to the completion and empties the slot, a
        success leaves the completion to the navigation events. */
    method RunPageChangeScript(functionName: string, params: seq<Param>, completion: CallbackId, reaction: Reaction)
      modifies this
      ensures var generated := GenerateScript(moduleName, functionName, params);
              && (generated.Success? ==>
                    && navigationCallback == Some(completion)
                    && evaluations == old(evaluations) + [Evaluation(generated.value, PageChange(completion))]
                    && navigationDeliveries == old(navigationDeliveries)
                    && loads == old(loads))
              && (generated.Failure? ==>
                    && navigationCallback.None? && evaluations == old(evaluations)
                    && navigationDeliveries == old(navigationDeliveries)
                                               + [Delivery(completion, Failure(ParameterSerialization))]
                    && loads == old(loads) + ReactionLoads(reaction))
      ensures asyncScriptCallback == old(asyncScriptCallback) && scriptDeliveries == old(scriptDeliveries)
      ensures Valid()
    {
      navigationCallback := Some(completion);
      navigationArmedAt := |navigationDeliveries|;
      navigationArmedFor := completion;
      RunScript(functionName, params, PageChange(completion), reaction);
    }

    /** `runAsyncScript(functionName:params:completion:)`: fills the asynchronous slot and
        runs the script; a failure is delivered to the completion and empties the slot, a
        success leaves the completion to the page's script message. */
    method RunAsyncScript(functionName: string, params: seq<Param>, completion: CallbackId, reaction: Reaction)
      modifies this
      ensures var generated := GenerateScript(moduleName, functionName, params);
              && (generated.Success? ==>
                    && asyncScriptCallback == Some(completion)
                    && evaluations == old(evaluations) + [Evaluation(generated.value, AsyncStart(completion))]
                    && scriptDeliveries == old(scriptDeliveries)
                    && navigationCallback == old(navigationCallback) && loads == old(loads))
              && (generated.Failure? ==>
                    && asyncScriptCallback.None? && evaluations == old(evaluations)
                    && scriptDeliveries == old(scriptDeliveries)
                                           + [Delivery(completion, Failure(ParameterSerialization))]
                    && navigationCallback == SlotAfter(reaction, old(navigationCallback))
                    && loads == old(loads) + ReactionLoads(reaction))
      ensures navigationDeliveries == old(navigationDeliveries)
      ensures old(Valid()) ==> Valid()
    {
      asyncScriptCallback := Some(completion);
      RunScript(functionName, params, AsyncStart(completion), reaction);
    }

    /** The web view reports the outcome of the evaluation at `index` (the closure handed to
        `evaluateJavaScript`): the outcome is classified and passed to that evaluation's
        continuation. */
    method OnEvaluationResult(index: nat, response: Option<JsonValue>, error: Option<NSError>, reaction: Reaction)
      requires index < |evaluations|
      modifies this
      ensures evaluations == old(evaluations[..index] + evaluations[index + 1..])
      ensures var continuation := old(evaluations[index].continuation);
              var result := ClassifyEvaluation(response, error);
              && (continuation.Direct? ==>
                    && scriptDeliveries == old(scriptDeliveries) + [Delivery(continuation.callback, result)]
                    && navigationDeliveries == old(navigationDeliveries)
                    && navigationCallback == SlotAfter(reaction, old(navigationCallback))
                    && asyncScriptCallback == old(asyncScriptCallback)
                    && loads == old(loads) + ReactionLoads(reaction))
              && (continuation.PageChange? && result.Failure? ==>
                    && navigationDeliveries == old(navigationDeliveries)
                                               + [Delivery(continuation.callback, Failure(result.error))]
                    && navigationCallback.None?
                    && scriptDeliveries == old(scriptDeliveries)
                    && asyncScriptCallback == old(asyncScriptCallback)
                    && loads == old(loads) + ReactionLoads(reaction))
              && (continuation.AsyncStart? && result.Failure? ==>
                    && scriptDeliveries == old(scriptDeliveries) + [Delivery(continuation.callback, result)]
                    && asyncScriptCallback.None?
                    && navigationDeliveries == old(navigationDeliveries)
                    && navigationCallback == SlotAfter(reaction, old(navigationCallback))
                    && loads == old(loads) + ReactionLoads(reaction))
              && (!continuation.Direct? && result.Success? ==>
                    && scriptDeliveries == old(scriptDeliveries)
                    && navigationDeliveries == old(navigationDeliveries)
                    && navigationCallback == old(navigationCallback)
                    && asyncScriptCallback == old(asyncScriptCallback)
                    && loads == old(loads))
      ensures reaction.NoReaction? ==>
                navigationArmedAt == old(navigationArmedAt) && navigationArmedFor == old(navigationArmedFor)
      // Only a page-change failure for a callback that no longer holds the slot breaks the
      // single-delivery invariant, and only when its completion does not start a new load.
      ensures (old(Valid()) && (!(old(evaluations[index].continuation).PageChange? && error.Some?)
                                || reaction.LoadNext?
                                || old(navigationCallback) == Some(old(evaluations[index].continuation).callback)))
              ==> Valid()
    {
      var evaluation := evaluations[index];
      evaluations := evaluations[..index] + evaluations[index + 1..];
      Resume(evaluation.continuation, ClassifyEvaluation(response, error), reaction);
    }
  }

  /** However many navigation events arrive, a load delivers one result. */
  method LoadDeliversOnce(error: NSError)
    requires !IsCancellation(error)
  {
    var browser := new Browser("StepRunnerTests");
    browser.Load("page1.html", 1);
    browser.DidFinish(NoReaction);
    browser.DidFail(error, NoReaction);
    browser.DidFailProvisionalNavigation(error, NoReaction);
    assert browser.navigationDeliveries == [Delivery(1, Success(()))];
  }

  /** A cancelled load is swallowed: the later finish is still delivered. */
  method CancelledLoadIsSwallowed(description: string)
  {
    var browser := new Browser("StepRunnerTests");
    browser.Load("page1.html", 1);
    browser.DidFail(NSError(URLErrorDomain, URLErrorCancelled, description, None), NoReaction);
    assert browser.navigationCallback == Some(1) && browser.navigationDeliveries == [];
    browser.DidFinish(NoReaction);
    assert browser.navigationDeliveries == [Delivery(1, Success(()))];
  }

  /** Messages under other names are ignored; matching ones all reach the pending callback. */
  method AsyncScriptMessages(body: JsonValue)
  {
    var browser := new Browser("StepRunnerTests");
    browser.RunAsyncScript("testAsync", [], 2, NoReaction);
    browser.DidReceiveMessage(ScriptMessage("other", body), NoReaction);
    assert browser.scriptDeliveries == [];
    browser.DidReceiveMessage(ScriptMessage(MessageHandlerName, body), NoReaction);
    browser.DidReceiveMessage(ScriptMessage(MessageHandlerName, body), NoReaction);
    assert |browser.scriptDeliveries| == 2 && browser.asyncScriptCallback == Some(2);
  }

  /** Because `callNavigationCompletion` empties the slot before invoking the completion, a
      load the completion starts keeps its callback, and its own finish is delivered. */
  method NextLoadSurvivesNavigationCompletion()
  {
    var browser := new Browser("StepRunnerTests");
    browser.Load("page1.html", 1);
    browser.DidFinish(LoadNext("page2.html", 2));
    assert browser.navigationCallback == Some(2) && browser.loads == ["page1.html", "page2.html"];
    browser.DidFinish(NoReaction);
    assert browser.navigationDeliveries == [Delivery(1, Success(())), Delivery(2, Success(()))];
  }

  /** The failure branch of `runPageChangeScript` empties the slot after invoking the
      completion: a load the completion starts loses its callback, and its finish is never
      delivered. */
  method NextLoadWipedByPageChangeFailure(error: NSError)
  {
    var browser := new Browser("StepRunnerTests");
    browser.RunPageChangeScript("submitForm", [], 1, NoReaction);
    browser.OnEvaluationResult(0, None, Some(error), LoadNext("page2.html", 2));
    assert browser.navigationCallback.None? && browser.loads == ["page2.html"];
    browser.DidFinish(NoReaction);
    assert |browser.navigationDeliveries| == 1 && browser.navigationDeliveries[0].callback == 1;
  }

  /** The failure branch of `runPageChangeScript` calls its completion directly rather than
      through the slot: when the navigation finishes before the script's error arrives,
      the same completion is invoked twice. */
  method PageChangeFailureAfterFinish(error: NSError)
  {
    var browser := new Browser("StepRunnerTests");
    browser.RunPageChangeScript("submitForm", [], 3, NoReaction);
    browser.DidFinish(NoReaction);
    browser.OnEvaluationResult(0, None, Some(error), NoReaction);
    assert |browser.navigationDeliveries| == 2;
    assert browser.navigationDeliveries[0].callback == browser.navigationDeliveries[1].callback == 3;
  }

  /** A page-change failure that arrives after a newer `load` is reported to the old
      completion and empties the newer load's slot: the newer completion is never invoked. */
  method StaleFailureEmptiesNewerLoad(error: NSError)
  {
    var browser := new Browser("StepRunnerTests");
    browser.RunPageChangeScript("submitForm", [], 1, NoReaction);
    browser.Load("page2.html", 2);
    browser.OnEvaluationResult(0, None, Some(error), NoReaction);
    assert !browser.Valid();
    browser.DidFinish(NoReaction);
    assert |browser.navigationDeliveries| == 1 && browser.navigationDeliveries[0].callback == 1;
    assert browser.navigationCallback.None?;
  }
}
