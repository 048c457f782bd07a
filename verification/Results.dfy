/** The public receipt of one trial: how it is assembled, and the independent statement of
    what makes it coherent. */
module Results {
  import opened Basics
  import opened Trials
  import opened ValidationCodes
  import opened Delivery

  datatype Stage =
    | PreflightStage | ResetStage | PolicyResetStage | ObserveStage | DeliveryStage | InferStage
    | ExecuteStage | CommitStage | ValidationStage | CloseStage

  function StageName(s: Stage): string {
    match s
    case PreflightStage => "preflight"
    case ResetStage => "reset"
    case PolicyResetStage => "policy_reset"
    case ObserveStage => "observe"
    case DeliveryStage => "delivery"
    case InferStage => "infer"
    case ExecuteStage => "execute"
    case CommitStage => "commit"
    case ValidationStage => "validation"
    case CloseStage => "close"
  }

  type Action = seq<real>

  /** Bounded execution budget of one run; its constructor's rules. */
  datatype RunBudget = RunBudget(prompt: string, successPredicate: string, maxControlCycles: int,
                                 maxObservationSteps: int, executeActionSteps: int, wallTimeout: real)

  predicate BudgetOk(b: RunBudget) {
    && b.prompt != "" && b.successPredicate != ""
    && 1 <= b.maxControlCycles <= b.maxObservationSteps
    && 1 <= b.executeActionSteps <= b.maxObservationSteps
    && b.wallTimeout > 0.0
  }

  type RunSpec = b: RunBudget | BudgetOk(b) witness RunBudget("p", "s", 1, 1, 1, 1.0)

  /** A policy proposal, and the executed prefix of one that the trace keeps. */
  datatype ActionPlan = ActionPlan(actionSpec: string, sourceStep: int, actions: seq<Action>)
  datatype ActionEntry = ActionEntry(plan: Sha<ActionPlan>, sourceStep: int, actions: seq<Action>)

  datatype ResultBody = ResultBody(
    trial: Sha<TrialManifest>, pairKey: Sha<PairFields>, runSpec: Sha<RunBudget>,
    initialState: Option<string>, terminalStatus: TerminalStatus,
    executionStatus: Option<TerminalStatus>, scoreEligible: bool, scoreSuccess: Option<bool>,
    validationPassed: Option<bool>, validationCodes: seq<FailureCode>,
    cleanTrace: Sha<TraceContent>, deliveredTrace: Sha<TraceContent>,
    actionTrace: Sha<seq<ActionEntry>>, observationCount: int, controlCycleCount: int,
    failureStage: Option<Stage>, failureCode: Option<string>)

  /** The receipt seals every other field with one digest. */
  datatype TrialResult = TrialResult(body: ResultBody, terminalTrace: Sha<ResultBody>)

  predicate Normal(s: TerminalStatus) {
    s.Success? || s.TaskFailure? || s.EarlyStop? || s.Timeout?
  }

  /** The clauses every receipt satisfies, one terminal status at a time. */
  predicate Coherent(r: TrialResult) {
    var b := r.body;
    && Unique(b.validationCodes) && 0 <= b.observationCount && 0 <= b.controlCycleCount
    && (b.failureCode.Some? ==> b.failureCode.value != "")
    && r.terminalTrace == Sha(b)
    && StatusCoherent(b)
    && (Normal(b.terminalStatus) || b.terminalStatus.ValidatorRejected? ==> b.initialState.Some?)
    && (b.terminalStatus.UnsupportedContract? ==> b.initialState.None?)
  }

  predicate StatusCoherent(b: ResultBody) {
    match b.terminalStatus
    case UnsupportedContract =>
      && b.executionStatus.None? && !b.scoreEligible && b.scoreSuccess.None?
      && b.validationPassed.None? && b.validationCodes == []
      && b.failureStage == Some(PreflightStage) && b.failureCode.Some?
    case ValidatorRejected =>
      && b.executionStatus.Some? && !b.scoreEligible && b.scoreSuccess.None?
      && b.validationPassed == Some(false) && b.validationCodes != []
      && b.failureStage == Some(ValidationStage) && b.failureCode == Some("validator_rejected")
    case Crash =>
      && b.scoreEligible && b.scoreSuccess == Some(false) && b.executionStatus.Some?
      && b.failureStage.Some? && b.failureCode.Some?
      && !b.failureStage.value.PreflightStage?
      && (!b.failureStage.value.ResetStage? ==> b.initialState.Some?)
      && (b.validationPassed == Some(false) <==> b.validationCodes != [])
    case _ =>
      && b.executionStatus == Some(b.terminalStatus) && b.scoreEligible
      && b.scoreSuccess == Some(b.terminalStatus.Success?)
      && b.validationPassed == Some(true) && b.validationCodes == []
      && b.failureStage.None? && b.failureCode.None?
  }

  function Score(s: TerminalStatus): (bool, Option<bool>) {
    match s
    case Success => (true, Some(true))
    case TaskFailure | EarlyStop | Timeout | Crash => (true, Some(false))
    case _ => (false, None)
  }

  datatype Verdict = Verdict(passed: Option<bool>, codes: seq<FailureCode>)

  function TraceVerdict(f: Option<Finalization>): Verdict {
    if f.None? then Verdict(None, [])
    else if f.value.validation.None? then Verdict(Some(true), [])
    else Verdict(Some(f.value.validation.value.passed), f.value.validation.value.codes)
  }

  /** The facts of a run that a receipt reports. */
  datatype Tallies = Tallies(trial: TrialManifest, spec: RunSpec, initialState: Option<string>,
                             finalization: Option<Finalization>, entries: seq<ActionEntry>,
                             observations: int, cycles: int)

  function Body(t: Tallies, terminal: TerminalStatus, execution: Option<TerminalStatus>,
                stage: Option<Stage>, code: Option<string>, verdict: Verdict): ResultBody
  {
    var score := Score(terminal);
    ResultBody(Sha(t.trial), PairKey(t.trial), Sha(t.spec), t.initialState, terminal, execution,
               score.0, score.1, verdict.passed, verdict.codes,
               if t.finalization.None? then Sha(EmptyTrace("clean")) else t.finalization.value.cleanTrace,
               if t.finalization.None? then Sha(EmptyTrace("delivered")) else t.finalization.value.deliveredTrace,
               Sha(t.entries), t.observations, t.cycles, stage, code)
  }

  /** Assembles and checks a receipt; an incoherent one raises. */
  function BuildTrialResult(t: Tallies, terminal: TerminalStatus, execution: Option<TerminalStatus>,
                            stage: Option<Stage>, code: Option<string>, verdict: Verdict): Reply<TrialResult>
  {
    var body := Body(t, terminal, execution, stage, code, verdict);
    var result := TrialResult(body, Sha(body));
    if Coherent(result) then Returned(result) else Raised(OtherError)
  }
}
