/** The test-lifecycle decision of the test container discoverer: how each
    state change of a host test operation is turned into a call on the
    coverage engine, what the deferred reload lambdas decide once the
    engine hands them the current options, and how exceptions raised while
    handling the event are treated. */
module Lifecycle {
  import opened Common

  /** The host's test operation states that the handler distinguishes;
      OtherState stands for every state it ignores. */
  datatype TestOperationState =
    | TestExecutionStarting
    | TestExecutionCanceling
    | TestExecutionFinished
    | OtherState

  /** The options the engine passes to a reload lambda. */
  datatype AppOptions = AppOptions(runInParallel: bool, runWhenTestsFail: bool, runWhenTestsExceed: int)

  /** What the test-operation collaborator reports for the operation of the
      event: its test counts and its coverage projects. */
  datatype TestOperation<P> = TestOperation(failedTests: int, totalTests: int, coverageProjects: seq<P>)

  /** The engine's request type: collect coverage for these projects, or not. */
  datatype ReloadCoverageRequest<P> = Cover(projects: seq<P>) | Cancel

  /** The two lambdas the handler hands to TryReloadCoverage. */
  datatype ReloadLambda = StartingLambda | FinishedLambda

  /** A call on the coverage engine made by the handler. */
  datatype EngineCall = StopCoverage | TryReloadCoverage(lambda: ReloadLambda)

  /** What a reload lambda returns, with the message it logs on the way. */
  datatype LambdaResult<P> = LambdaResult(request: ReloadCoverageRequest<P>, log: Option<string>)

  /** The calls the handler makes for one state change, in order. */
  function EngineCalls(state: TestOperationState): (calls: seq<EngineCall>)
    ensures state == TestExecutionCanceling <==> StopCoverage in calls
    ensures state == TestExecutionStarting <==> TryReloadCoverage(StartingLambda) in calls
    ensures state == TestExecutionFinished <==> TryReloadCoverage(FinishedLambda) in calls
    ensures |calls| <= 1
  {
    match state
    case TestExecutionCanceling => [StopCoverage]
    case TestExecutionStarting => [TryReloadCoverage(StartingLambda)]
    case TestExecutionFinished => [TryReloadCoverage(FinishedLambda)]
    case OtherState => []
  }

  /** The lambda handed over on TestExecutionStarting: coverage is started
      here only in parallel mode. */
  function StartingRequest<P>(options: AppOptions, operation: TestOperation<P>): (r: LambdaResult<P>)
    ensures r.request == Cancel <==> !options.runInParallel
    ensures r.request.Cover? ==> r.request.projects == operation.coverageProjects
    ensures r.log == None
  {
    if !options.runInParallel then LambdaResult(Cancel, None)
    else LambdaResult(Cover(operation.coverageProjects), None)
  }

  const FailedTestsMessage := "Skipping coverage due to failed tests.  Option RunWhenTestsFail is false"

  function TotalTestsMessage(totalTests: int, runWhenTestsExceed: int): string
  {
    "Skipping coverage as total tests (" + IntToDecimal(totalTests) + ") <= RunWhenTestsExceed ("
      + IntToDecimal(runWhenTestsExceed) + ")"
  }

  /** Whether the options skip an operation because of its failed tests. */
  predicate SkipForFailures<P>(options: AppOptions, operation: TestOperation<P>)
  {
    !options.runWhenTestsFail && operation.failedTests > 0
  }

  /** Whether the options skip an operation because too few tests ran; a
      total that is not positive is taken as "not reported" and never skips. */
  predicate SkipForThreshold<P>(options: AppOptions, operation: TestOperation<P>)
  {
    operation.totalTests > 0 && operation.totalTests <= options.runWhenTestsExceed
  }

  /** The lambda handed over on TestExecutionFinished: in serial mode,
      coverage is collected after the run unless a failure or threshold
      policy skips it. */
  function FinishedRequest<P>(options: AppOptions, operation: TestOperation<P>): (r: LambdaResult<P>)
    ensures options.runInParallel ==> r == LambdaResult(Cancel, None)
    ensures SkipForFailures(options, operation) ==> r.request == Cancel
    ensures SkipForThreshold(options, operation) ==> r.request == Cancel
    ensures r.request.Cover? <==>
      !options.runInParallel && !SkipForFailures(options, operation) && !SkipForThreshold(options, operation)
    ensures r.request.Cover? ==> r.request.projects == operation.coverageProjects
    ensures r.log.Some? <==> !options.runInParallel && r.request == Cancel
    ensures !options.runInParallel && SkipForFailures(options, operation) ==> r.log == Some(FailedTestsMessage)
    ensures !options.runInParallel && !SkipForFailures(options, operation) && SkipForThreshold(options, operation) ==>
      r.log == Some(TotalTestsMessage(operation.totalTests, options.runWhenTestsExceed))
  {
    if options.runInParallel then LambdaResult(Cancel, None)
    else if !options.runWhenTestsFail && operation.failedTests > 0 then
      LambdaResult(Cancel, Some(FailedTestsMessage))
    else if operation.totalTests > 0 && operation.totalTests <= options.runWhenTestsExceed then
      LambdaResult(Cancel, Some(TotalTestsMessage(operation.totalTests, options.runWhenTestsExceed)))
    else LambdaResult(Cover(operation.coverageProjects), None)
  }

  function RunLambda<P>(lambda: ReloadLambda, options: AppOptions, operation: TestOperation<P>): LambdaResult<P>
  {
    match lambda
    case StartingLambda => StartingRequest(options, operation)
    case FinishedLambda => FinishedRequest(options, operation)
  }

  /** The overall outcome of one event: stop the running collection, a
      reload request, or nothing. */
  datatype Response<P> = Stop | Reload(request: ReloadCoverageRequest<P>) | NoResponse

  /** The decision for one event, once the engine has run the lambda that the
      handler handed it with the current options. */
  function Respond<P>(state: TestOperationState, options: AppOptions, operation: TestOperation<P>): (r: Response<P>)
    ensures r == Stop <==> state == TestExecutionCanceling
    ensures r == NoResponse <==> state == OtherState
    ensures state == TestExecutionStarting ==>
      r == Reload(if options.runInParallel then Cover(operation.coverageProjects) else Cancel)
    ensures state == TestExecutionFinished ==> r == Reload(FinishedRequest(options, operation).request)
  {
    var calls := EngineCalls(state);
    if calls == [] then NoResponse
    else match calls[0]
      case StopCoverage => Stop
      case TryReloadCoverage(lambda) => Reload(RunLambda(lambda, options, operation).request)
  }

  /** The two kinds of exception the handler tells apart. */
  datatype HandlerException =
    | PropertyDoesNotExist(message: string)
    | OtherException(description: string)

  /** How the handler ends: normally, after its catch block swallowed an
      exception, or by raising a plain exception; with what it logged. */
  datatype HandlerOutcome =
    | Completed(calls: seq<EngineCall>)
    | Swallowed(calls: seq<EngineCall>, logs: seq<seq<string>>)
    | Raised(message: string, calls: seq<EngineCall>, logs: seq<seq<string>>)

  /** OperationState_StateChanged: the engine calls for the state, and the
      exception, if any, that the engine raised while being called. */
  function StateChanged(state: TestOperationState, raised: Option<HandlerException>): (r: HandlerOutcome)
    ensures r.calls == EngineCalls(state)
    ensures r.Raised? <==> raised.Some? && raised.value.PropertyDoesNotExist?
    ensures r.Raised? ==> r.message == raised.value.message
    ensures r.Completed? <==> raised.None?
    ensures r.Swallowed? ==> r.logs == [["Error processing unit test events", raised.value.description]]
    ensures r.Raised? ==> r.logs == [["Error test container discoverer reflection"]]
  {
    var calls := EngineCalls(state);
    match raised
    case None => Completed(calls)
    case Some(PropertyDoesNotExist(message)) =>
      Raised(message, calls, [["Error test container discoverer reflection"]])
    case Some(OtherException(description)) =>
      Swallowed(calls, [["Error processing unit test events", description]])
  }

  /** The lifecycle scenario of a parallel run: Starting starts coverage
      and the subsequent Finished cancels, whatever the counts. */
  lemma ParallelRunCoversOnStart<P>(operation: TestOperation<P>, exceed: int, failOk: bool)
    ensures Respond(TestExecutionStarting, AppOptions(true, failOk, exceed), operation)
      == Reload(Cover(operation.coverageProjects))
    ensures Respond(TestExecutionFinished, AppOptions(true, failOk, exceed), operation) == Reload(Cancel)
  {
  }

  /** A serial run: Starting cancels, and Finished with 50 passing tests
      above a threshold of 10 covers the operation's projects. */
  lemma SerialRunCoversOnFinish<P>(projects: seq<P>)
    ensures Respond(TestExecutionStarting, AppOptions(false, false, 10), TestOperation(0, 50, projects))
      == Reload(Cancel)
    ensures Respond(TestExecutionFinished, AppOptions(false, false, 10), TestOperation(0, 50, projects))
      == Reload(Cover(projects))
  {
  }
}
