/**
 * `WaitForConditionStep`: polls a JavaScript assertion until it answers `true`, fails when
 * the assertion reports an error, and fails with `timeout` when a negative answer arrives
 * after the time limit.
 *
 * Time is an integer clock in milliseconds. The main queue is abstract: a script
 * evaluation in flight is an entry of `polls` holding the values its closure captured, a
 * refresh timer is an entry of `timers` holding its deadline, and the queue's events are
 * the methods `OnPollResult` and `Tick`.
 */
module WaitForCondition {
  import opened Wrappers
  import opened Json
  import opened ScraperError
  import opened WebBrowser

  /** The refresh interval of 0.1 seconds. */
  const RefreshInterval := 100

  /** What a step reports to the runner. Every case carries the model passed on. */
  datatype StepFlowResult =
    | Proceed(model: Model)
    | JumpToStep(index: int, model: Model)
    | Finish(model: Model)
    | Failure(error: SwiftScraperError, model: Model)

  /** What the step does with one answer of the assertion. */
  datatype PollOutcome = Satisfied | TimedOut | Reschedule | Errored(error: SwiftScraperError)

  /** `isOk as? Bool ?? false`: only a Boolean `true` satisfies the condition. */
  predicate IsTrue(response: Option<JsonValue>) {
    response == Some(JBool(true))
  }

  /** The decision the result closure of `handleTimer` takes, `elapsed` milliseconds after
      the run started. */
  function Outcome(result: ScriptResponseResult, elapsed: int, timeout: int): (o: PollOutcome)
    ensures o == Satisfied <==> result.Success? && IsTrue(result.value)
    ensures o.Errored? <==> result.Failure?
    ensures o.Errored? ==> o.error == result.error
    ensures o == TimedOut <==> result.Success? && !IsTrue(result.value) && elapsed > timeout
    ensures o == Reschedule <==> result.Success? && !IsTrue(result.value) && elapsed <= timeout
  {
    match result
    case Success(response) =>
      if IsTrue(response) then Satisfied
      else if elapsed > timeout then TimedOut
      else Reschedule
    case Failure(e) => Errored(e)
  }

  /** The result handed to the completion for an outcome, if the outcome ends the step. */
  function Verdict(o: PollOutcome, model: Model): (r: Option<StepFlowResult>)
    ensures r.None? <==> o == Reschedule
    ensures r.Some? ==> r.value.model == model
  {
    match o
    case Satisfied => Some(Proceed(model))
    case TimedOut => Some(StepFlowResult.Failure(Timeout, model))
    case Errored(e) => Some(StepFlowResult.Failure(e, model))
    case Reschedule => None
  }

  /** One answer of the assertion: when it arrived and what the browser reported. */
  datatype Answer = Answer(at: int, result: ScriptResponseResult)

  function AnswerOutcome(timeout: int, start: int, a: Answer): PollOutcome {
    Outcome(a.result, a.at - start, timeout)
  }

  /** The result a run started at `start` reports when the assertion answers `answers` in
      turn, or `None` while it is still waiting. */
  function Settle(timeout: int, start: int, model: Model, answers: seq<Answer>): Option<StepFlowResult> {
    if answers == [] then None
    else
      var v := Verdict(AnswerOutcome(timeout, start, answers[0]), model);
      if v.Some? then v else Settle(timeout, start, model, answers[1..])
  }

  /** A settled step hands on the model it was given, and always as `proceed` or `failure`. */
  lemma {:induction false} SettleKeepsModel(timeout: int, start: int, model: Model, answers: seq<Answer>)
    ensures var r := Settle(timeout, start, model, answers);
            r.Some? ==> r.value.model == model && (r.value.Proceed? || r.value.Failure?)
  {
    if answers != [] && Verdict(AnswerOutcome(timeout, start, answers[0]), model).None? {
      SettleKeepsModel(timeout, start, model, answers[1..]);
    }
  }

  /** The step keeps waiting exactly as long as every answer says to reschedule. */
  lemma {:induction false} SettleNoneIffAllReschedule(timeout: int, start: int, model: Model, answers: seq<Answer>)
    ensures Settle(timeout, start, model, answers).None? <==>
              forall j :: 0 <= j < |answers| ==> AnswerOutcome(timeout, start, answers[j]) == Reschedule
  {
    if answers != [] && AnswerOutcome(timeout, start, answers[0]) == Reschedule {
      SettleNoneIffAllReschedule(timeout, start, model, answers[1..]);
      assert forall j :: 1 <= j < |answers| ==> answers[1..][j - 1] == answers[j];
    }
  }

  /** The first answer that does not reschedule decides the result. */
  lemma {:induction false} SettleAtFirstDecisive(timeout: int, start: int, model: Model, answers: seq<Answer>, k: nat)
    requires k < |answers|
    requires forall j :: 0 <= j < k ==> AnswerOutcome(timeout, start, answers[j]) == Reschedule
    requires AnswerOutcome(timeout, start, answers[k]) != Reschedule
    ensures Settle(timeout, start, model, answers) == Verdict(AnswerOutcome(timeout, start, answers[k]), model)
  {
    if k > 0 {
      assert AnswerOutcome(timeout, start, answers[0]) == Reschedule;
      assert forall j :: 0 <= j < k - 1 ==> answers[1..][j] == answers[j + 1];
      SettleAtFirstDecisive(timeout, start, model, answers[1..], k - 1);
    }
  }

  /** The step proceeds exactly when the assertion answers `true` before any error and
      before any negative answer arrives after the time limit. */
  lemma SettleProceedsIff(timeout: int, start: int, model: Model, answers: seq<Answer>)
    ensures Settle(timeout, start, model, answers) == Some(Proceed(model)) <==>
              exists k :: 0 <= k < |answers| && answers[k].result == Success(Some(JBool(true)))
                          && forall j :: 0 <= j < k ==> AnswerOutcome(timeout, start, answers[j]) == Reschedule
  {
    var r := Settle(timeout, start, model, answers);
    if r.Some? {
      var k := FirstDecisive(timeout, start, model, answers);
      SettleAtFirstDecisive(timeout, start, model, answers, k);
      if r == Some(Proceed(model)) {
        assert answers[k].result == Success(Some(JBool(true)));
      }
    } else {
      SettleNoneIffAllReschedule(timeout, start, model, answers);
    }
    if exists k :: 0 <= k < |answers| && answers[k].result == Success(Some(JBool(true)))
                   && forall j :: 0 <= j < k ==> AnswerOutcome(timeout, start, answers[j]) == Reschedule {
      var k :| 0 <= k < |answers| && answers[k].result == Success(Some(JBool(true)))
               && forall j :: 0 <= j < k ==> AnswerOutcome(timeout, start, answers[j]) == Reschedule;
      SettleAtFirstDecisive(timeout, start, model, answers, k);
    }
  }

  /** Where a settled run was decided. */
  lemma {:induction false} FirstDecisive(timeout: int, start: int, model: Model, answers: seq<Answer>) returns (k: nat)
    requires Settle(timeout, start, model, answers).Some?
    ensures k < |answers| && AnswerOutcome(timeout, start, answers[k]) != Reschedule
    ensures forall j :: 0 <= j < k ==> AnswerOutcome(timeout, start, answers[j]) == Reschedule
  {
    if AnswerOutcome(timeout, start, answers[0]) != Reschedule {
      k := 0;
    } else {
      var k' := FirstDecisive(timeout, start, model, answers[1..]);
      k := k' + 1;
      assert forall j :: 1 <= j < k ==> answers[j] == answers[1..][j - 1];
    }
  }

  /** The browser reports only the errors `runScript` produces. */
  predicate ScriptErrorsOnly(answers: seq<Answer>) {
    forall j :: 0 <= j < |answers| && answers[j].result.Failure? ==>
      answers[j].result.error == ParameterSerialization || answers[j].result.error.JavascriptError?
  }

  /** A step fails with `timeout` only after a negative answer that arrived after the time
      limit, and never once the assertion has reported an error or `true`. */
  lemma SettleTimeoutIsLate(timeout: int, start: int, model: Model, answers: seq<Answer>)
    requires ScriptErrorsOnly(answers)
    requires Settle(timeout, start, model, answers) == Some(StepFlowResult.Failure(Timeout, model))
    ensures exists k :: 0 <= k < |answers| && answers[k].at - start > timeout
                        && answers[k].result.Success? && !IsTrue(answers[k].result.value)
                        && forall j :: 0 <= j < k ==> answers[j].result.Success? && !IsTrue(answers[j].result.value)
  {
    var k := FirstDecisive(timeout, start, model, answers);
    SettleAtFirstDecisive(timeout, start, model, answers, k);
  }

  /** When the assertion never errs and never answers `true`, the step fails with `timeout`
      at the first answer that arrives after the limit. */
  lemma SettleTimesOut(timeout: int, start: int, model: Model, answers: seq<Answer>, k: nat)
    requires forall j :: 0 <= j < |answers| ==> answers[j].result.Success? && !IsTrue(answers[j].result.value)
    requires k < |answers| && answers[k].at - start > timeout
    ensures Settle(timeout, start, model, answers) == Some(StepFlowResult.Failure(Timeout, model))
  {
    var first := EarliestLate(timeout, start, answers, k);
    SettleAtFirstDecisive(timeout, start, model, answers, first);
  }

  lemma {:induction false} EarliestLate(timeout: int, start: int, answers: seq<Answer>, k: nat) returns (first: nat)
    requires forall j :: 0 <= j < |answers| ==> answers[j].result.Success? && !IsTrue(answers[j].result.value)
    requires k < |answers| && answers[k].at - start > timeout
    ensures first <= k && AnswerOutcome(timeout, start, answers[first]) == TimedOut
    ensures forall j :: 0 <= j < first ==> AnswerOutcome(timeout, start, answers[j]) == Reschedule
  {
    var i := 0;
    while answers[i].at - start <= timeout
      invariant i <= k
      invariant forall j :: 0 <= j < i ==> AnswerOutcome(timeout, start, answers[j]) == Reschedule
      decreases k - i
    {
      i := i + 1;
    }
    first := i;
  }

  /** An error reported before the condition holds ends the step with that error. */
  lemma SettleErrorPropagates(timeout: int, start: int, model: Model, answers: seq<Answer>, k: nat, e: SwiftScraperError)
    requires k < |answers| && answers[k].result == Wrappers.Failure(e)
    requires forall j :: 0 <= j < k ==> AnswerOutcome(timeout, start, answers[j]) == Reschedule
    ensures Settle(timeout, start, model, answers) == Some(StepFlowResult.Failure(e, model))
  {
    SettleAtFirstDecisive(timeout, start, model, answers, k);
  }

  /** The values the result closure of one `runScript` call captured. */
  datatype Poll = Poll(start: int, model: Model, completion: CallbackId)

  /** Identifies a `Browser`. */
  type BrowserRef = nat

  /** A `runScript(functionName:)` call made on a browser. */
  datatype ScriptCall = ScriptCall(browser: BrowserRef, functionName: string)

  class WaitForConditionStep {
    const assertionName: string
    /** `timeoutInSeconds`, in milliseconds. */
    const timeout: int

    var startRunDate: Option<int>
    /** A weak reference: `ReleaseBrowser` models the browser going away. */
    var browser: Option<BrowserRef>
    var model: Option<Model>
    var completion: Option<CallbackId>

    /** Assertion evaluations in flight, with what their closures captured. */
    var polls: seq<Poll>
    /** Deadlines of the refresh timers scheduled on the main queue. */
    var timers: seq<int>
    /** The `runScript` calls made, in order. */
    var scriptCalls: seq<ScriptCall>
    /** Invocations of step completions, in order. */
    var deliveries: seq<Delivery<StepFlowResult>>

    /** The arguments of the latest `run` and the number of deliveries before it. */
    ghost var runStart: int
    ghost var runModel: Model
    ghost var runCompletion: CallbackId
    ghost var deliveredBeforeRun: nat

    /** All four stored properties are present: `handleTimer` gets past its guard. */
    predicate Stored()
      reads this
    {
      startRunDate.Some? && browser.Some? && model.Some? && completion.Some?
    }

    /** `reset()` has emptied the stored properties, apart from the browser, which `reset`
        also empties but which may go away on its own. */
    predicate Cleared()
      reads this
    {
      startRunDate.None? && model.None? && completion.None?
    }

    /** Nothing is in flight: no evaluation awaits its answer and no timer is scheduled. */
    predicate Idle()
      reads this
    {
      polls == [] && timers == []
    }

    /** A run has at most one evaluation or timer outstanding, all of it on behalf of the
        latest `run`; it delivers at most once, to the completion it was given and with the
        model it was given, and having delivered it is cleared and idle. */
    ghost predicate Valid()
      reads this
    {
      && |polls| + |timers| <= 1
      && (startRunDate.Some? <==> model.Some?) && (model.Some? <==> completion.Some?)
      && (startRunDate.Some? ==>
            startRunDate == Some(runStart) && model == Some(runModel) && completion == Some(runCompletion))
      && (polls != [] ==> polls[0] == Poll(runStart, runModel, runCompletion) && startRunDate.Some?)
      && (timers != [] ==> startRunDate.Some?)
      && deliveredBeforeRun <= |deliveries| <= deliveredBeforeRun + 1
      && (|deliveries| == deliveredBeforeRun + 1 ==>
            && deliveries[deliveredBeforeRun].callback == runCompletion
            && deliveries[deliveredBeforeRun].result.model == runModel
            && Idle() && Cleared())
      && (|deliveries| == deliveredBeforeRun && Idle() && startRunDate.Some? ==> browser.None?)
    }

    constructor (assertionName: string, timeout: int)
      ensures this.assertionName == assertionName && this.timeout == timeout
      ensures startRunDate.None? && browser.None? && model.None? && completion.None?
      ensures polls == [] && timers == [] && scriptCalls == [] && deliveries == []
      ensures Valid()
    {
      this.assertionName := assertionName;
      this.timeout := timeout;
      startRunDate := None;
      browser := None;
      model := None;
      completion := None;
      polls := [];
      timers := [];
      scriptCalls := [];
      deliveries := [];
      runStart := 0;
      runModel := map[];
      runCompletion := 0;
      deliveredBeforeRun := 0;
    }

    /** `run(with:model:completion:)`: stores the start time and the arguments, then polls. */
    method Run(now: int, browser: BrowserRef, model: Model, completion: CallbackId)
      modifies this
      ensures startRunDate == Some(now) && this.browser == Some(browser)
      ensures this.model == Some(model) && this.completion == Some(completion)
      ensures polls == old(polls) + [Poll(now, model, completion)]
      ensures scriptCalls == old(scriptCalls) + [ScriptCall(browser, assertionName)]
      ensures timers == old(timers) && deliveries == old(deliveries)
      ensures runStart == now && runModel == model && runCompletion == completion
      ensures old(Idle()) ==> Valid()
    {
      Store(now, browser, model, completion);
      HandleTimer();
    }

    /** The assignments `run` makes before it polls, and the start of a new run's record. */
    method Store(now: int, browser: BrowserRef, model: Model, completion: CallbackId)
      modifies this
      ensures startRunDate == Some(now) && this.browser == Some(browser)
      ensures this.model == Some(model) && this.completion == Some(completion)
      ensures polls == old(polls) && scriptCalls == old(scriptCalls)
      ensures timers == old(timers) && deliveries == old(deliveries)
      ensures runStart == now && runModel == model && runCompletion == completion
      ensures deliveredBeforeRun == |deliveries|
    {
      startRunDate := Some(now);
      this.browser := Some(browser);
      this.model := Some(model);
      this.completion := Some(completion);
      runStart := now;
      runModel := model;
      runCompletion := completion;
      deliveredBeforeRun := |deliveries|;
    }

    /** `handleTimer()`: with all four properties present, asks the browser to evaluate the
        assertion; otherwise does nothing. */
    method HandleTimer()
      modifies this
      ensures old(Stored()) ==>
                && polls == old(polls) + [Poll(old(startRunDate).value, old(model).value, old(completion).value)]
                && scriptCalls == old(scriptCalls) + [ScriptCall(old(browser).value, assertionName)]
      ensures !old(Stored()) ==> polls == old(polls) && scriptCalls == old(scriptCalls)
      ensures startRunDate == old(startRunDate) && browser == old(browser)
      ensures model == old(model) && completion == old(completion)
      ensures timers == old(timers) && deliveries == old(deliveries)
      ensures runStart == old(runStart) && runModel == old(runModel)
      ensures runCompletion == old(runCompletion) && deliveredBeforeRun == old(deliveredBeforeRun)
    {
      if !Stored() {
        return;
      }
      polls := polls + [Poll(startRunDate.value, model.value, completion.value)];
      scriptCalls := scriptCalls + [ScriptCall(browser.value, assertionName)];
    }

    /** The main queue runs the timer at `index`, no earlier than its deadline. */
    method Tick(index: nat, now: int)
      requires index < |timers| && now >= timers[index]
      modifies this
      ensures timers == old(timers[..index] + timers[index + 1..])
      ensures old(Stored()) ==>
                && polls == old(polls) + [Poll(old(startRunDate).value, old(model).value, old(completion).value)]
                && scriptCalls == old(scriptCalls) + [ScriptCall(old(browser).value, assertionName)]
      ensures !old(Stored()) ==> polls == old(polls) && scriptCalls == old(scriptCalls)
      ensures startRunDate == old(startRunDate) && browser == old(browser)
      ensures model == old(model) && completion == old(completion)
      ensures deliveries == old(deliveries)
      ensures old(Valid()) ==> Valid()
    {
      timers := timers[..index] + timers[index + 1..];
      HandleTimer();
    }

    /** The browser reports the answer of the evaluation at `index` at time `now`: a `true`
        answer proceeds, an error fails with that error, a negative answer after the limit
        fails with `timeout`, and any other answer schedules another poll. Each ending
        resets the step before invoking the captured completion with the captured model. */
    method OnPollResult(index: nat, now: int, result: ScriptResponseResult)
      requires index < |polls|
      modifies this
      ensures polls == old(polls[..index] + polls[index + 1..])
      ensures var poll := old(polls[index]);
              var verdict := Verdict(Outcome(result, now - poll.start, timeout), poll.model);
              && (verdict.Some? ==>
                    && deliveries == old(deliveries) + [Delivery(poll.completion, verdict.value)]
                    && Cleared() && browser.None? && timers == old(timers))
              && (verdict.None? ==>
                    && deliveries == old(deliveries) && timers == old(timers) + [now + RefreshInterval]
                    && startRunDate == old(startRunDate) && browser == old(browser)
                    && model == old(model) && completion == old(completion))
      ensures scriptCalls == old(scriptCalls)
      ensures old(Valid()) ==> Valid()
    {
      var poll := polls[index];
      polls := polls[..index] + polls[index + 1..];
      var verdict := Verdict(Outcome(result, now - poll.start, timeout), poll.model);
      match verdict {
        case Some(stepResult) =>
          Reset();
          deliveries := deliveries + [Delivery(poll.completion, stepResult)];
        case None =>
          timers := timers + [now + RefreshInterval];
      }
    }

    /** The browser behind the weak reference is deallocated. */
    method ReleaseBrowser()
      modifies this
      ensures browser.None?
      ensures startRunDate == old(startRunDate) && model == old(model) && completion == old(completion)
      ensures polls == old(polls) && timers == old(timers)
      ensures scriptCalls == old(scriptCalls) && deliveries == old(deliveries)
      ensures old(Valid()) ==> Valid()
    {
      browser := None;
    }

    /** `reset()`: empties the four stored properties. */
    method Reset()
      modifies this
      ensures Cleared() && browser.None?
      ensures polls == old(polls) && timers == old(timers)
      ensures scriptCalls == old(scriptCalls) && deliveries == old(deliveries)
      ensures runStart == old(runStart) && runModel == old(runModel)
      ensures runCompletion == old(runCompletion) && deliveredBeforeRun == old(deliveredBeforeRun)
    {
      startRunDate := None;
      browser := None;
      model := None;
      completion := None;
    }
  }

  /** Schedules that the main queue can produce: each answer comes after the refresh timer
      that the previous answer scheduled. */
  predicate Spaced(answers: seq<Answer>) {
    forall j :: 0 < j < |answers| ==> answers[j].at >= answers[j - 1].at + RefreshInterval
  }

  /** Runs `step` and feeds it the answers in turn, running each refresh timer when the next
      answer is due. The completion is invoked exactly when `Settle` decides, with what
      `Settle` decides, and exactly once. */
  method Drive(step: WaitForConditionStep, now: int, browser: BrowserRef, model: Model,
               completion: CallbackId, answers: seq<Answer>)
    requires step.Valid() && step.Idle()
    requires Spaced(answers)
    modifies step
    ensures step.Valid()
    ensures var r := Settle(step.timeout, now, model, answers);
            && (r.Some? ==> step.deliveries == old(step.deliveries) + [Delivery(completion, r.value)]
                            && step.Idle() && step.Cleared())
            && (r.None? ==> step.deliveries == old(step.deliveries) && !step.Idle())
  {
    step.Run(now, browser, model, completion);
    var j := 0;
    while j < |answers|
      invariant 0 <= j <= |answers|
      invariant step.Valid()
      invariant Settle(step.timeout, now, model, answers) == Settle(step.timeout, now, model, answers[j..])
      invariant step.polls == [Poll(now, model, completion)] && step.timers == []
      invariant step.startRunDate == Some(now) && step.browser == Some(browser)
      invariant step.model == Some(model) && step.completion == Some(completion)
      invariant step.deliveries == old(step.deliveries)
      decreases |answers| - j
    {
      assert answers[j..][0] == answers[j] && answers[j..][1..] == answers[j + 1..];
      step.OnPollResult(0, answers[j].at, answers[j].result);
      if Verdict(AnswerOutcome(step.timeout, now, answers[j]), model).Some? {
        return;
      }
      if j + 1 == |answers| {
        assert answers[j + 1..] == [];
        return;
      }
      step.Tick(0, answers[j + 1].at);
      j := j + 1;
    }
  }

  /** The assertion answers `false`, then `true`: the step proceeds with its model. */
  method ConditionBecomesTrue(model: Model)
  {
    var step := new WaitForConditionStep("testWaitForCondition", 2000);
    step.Run(0, 1, model, 5);
    step.OnPollResult(0, 10, Success(Some(JBool(false))));
    assert step.timers == [110] && step.deliveries == [];
    step.Tick(0, 110);
    assert |step.scriptCalls| == 2;
    step.OnPollResult(0, 120, Success(Some(JBool(true))));
    assert step.deliveries == [Delivery(5, Proceed(model))];
  }

  /** A truthy answer that is not a Boolean does not satisfy the condition. */
  method NonBooleanAnswerKeepsWaiting(model: Model)
  {
    var step := new WaitForConditionStep("testWaitForCondition", 2000);
    step.Run(0, 1, model, 5);
    step.OnPollResult(0, 10, Success(Some(JString("true"))));
    assert step.deliveries == [] && step.timers == [110];
  }

  /** If the browser goes away while the step waits for its timer, the next poll does
      nothing and the completion is never invoked. */
  method BrowserReleasedWhileWaiting(model: Model)
  {
    var step := new WaitForConditionStep("testWaitForCondition", 2000);
    step.Run(0, 1, model, 5);
    step.OnPollResult(0, 10, Success(Some(JBool(false))));
    step.ReleaseBrowser();
    step.Tick(0, 110);
    assert step.Idle() && step.deliveries == [] && |step.scriptCalls| == 1;
    assert step.Valid();
  }
}
