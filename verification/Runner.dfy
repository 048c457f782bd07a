/** The closed-loop runner: drives an arbitrary backend and policy under three budgets, and
    turns every behaviour of theirs into one receipt. */
module Runner {
  import opened Basics
  import opened Trials
  import opened Records
  import opened ValidationCodes
  import opened Delivery
  import opened Results
  import opened RunnerChecks

  // ------------------------------------------------------------------ the environment

  /** Everything the environment answers in one run: any reply may be an exception.  Calls
      that repeat are numbered from zero. */
  datatype World = World(
    reset: Reply<ResetReceipt>, policyReset: Reply<()>, observe: Reply<EvaluationRecord>,
    clock: nat -> Reply<real>, infer: nat -> Reply<ActionPlan>, execute: nat -> Reply<Batch>,
    commit: nat -> Reply<()>, abort: Reply<()>, closeBackend: Reply<()>, closePolicy: Reply<()>)

  datatype BackendCall = BackendReset(context: EpisodeContext) | Observe | Execute(actions: seq<Action>) | BackendClose

  datatype PolicyCall =
    | PolicyReset(context: EpisodeContext)
    | Infer(shown: Observation)
    | Commit(plan: Sha<ActionPlan>, executed: seq<Action>, observations: seq<Observation>, signal: Signal)
    | Abort(code: string)
    | PolicyClose

  class Backend {
    const world: World
    var calls: seq<BackendCall>
    var executions: nat

    constructor (world: World)
      ensures this.world == world && calls == [] && executions == 0
    {
      this.world, calls, executions := world, [], 0;
    }

    method Reset(context: EpisodeContext) returns (reply: Reply<ResetReceipt>)
      modifies this
      ensures reply == world.reset && executions == old(executions)
      ensures calls == old(calls) + [BackendReset(context)]
    {
      calls := calls + [BackendReset(context)];
      reply := world.reset;
    }

    method Look() returns (reply: Reply<EvaluationRecord>)
      modifies this
      ensures reply == world.observe && executions == old(executions) && calls == old(calls) + [Observe]
    {
      calls := calls + [Observe];
      reply := world.observe;
    }

    method Run(actions: seq<Action>) returns (reply: Reply<Batch>)
      modifies this
      ensures reply == world.execute(old(executions)) && executions == old(executions) + 1
      ensures calls == old(calls) + [Execute(actions)]
    {
      calls := calls + [Execute(actions)];
      reply := world.execute(executions);
      executions := executions + 1;
    }

    method Close() returns (reply: Reply<()>)
      modifies this
      ensures reply == world.closeBackend && calls == old(calls) + [BackendClose]
    {
      calls := calls + [BackendClose];
      reply := world.closeBackend;
    }
  }

  class Policy {
    const world: World
    var calls: seq<PolicyCall>
    var inferences: nat
    var commits: nat

    constructor (world: World)
      ensures this.world == world && calls == [] && inferences == commits == 0
    {
      this.world, calls, inferences, commits := world, [], 0, 0;
    }

    method Reset(context: EpisodeContext) returns (reply: Reply<()>)
      modifies this
      ensures reply == world.policyReset && inferences == old(inferences) && commits == old(commits)
      ensures calls == old(calls) + [PolicyReset(context)]
    {
      calls := calls + [PolicyReset(context)];
      reply := world.policyReset;
    }

    method Propose(shown: Observation) returns (reply: Reply<ActionPlan>)
      modifies this
      ensures reply == world.infer(old(inferences)) && inferences == old(inferences) + 1
      ensures commits == old(commits) && calls == old(calls) + [Infer(shown)]
    {
      calls := calls + [Infer(shown)];
      reply := world.infer(inferences);
      inferences := inferences + 1;
    }

    method Acknowledge(call: PolicyCall) returns (reply: Reply<()>)
      modifies this
      ensures reply == world.commit(old(commits)) && commits == old(commits) + 1
      ensures inferences == old(inferences) && calls == old(calls) + [call]
    {
      calls := calls + [call];
      reply := world.commit(commits);
      commits := commits + 1;
    }

    method GiveUp(code: string) returns (reply: Reply<()>)
      modifies this
      ensures reply == world.abort && calls == old(calls) + [Abort(code)]
    {
      calls := calls + [Abort(code)];
      reply := world.abort;
    }

    method Close() returns (reply: Reply<()>)
      modifies this
      ensures reply == world.closePolicy && calls == old(calls) + [PolicyClose]
    {
      calls := calls + [PolicyClose];
      reply := world.closePolicy;
    }
  }

  class Clock {
    const world: World
    var readings: nat

    constructor (world: World)
      ensures this.world == world && readings == 0
    {
      this.world, readings := world, 0;
    }

    method Read() returns (reply: Reply<real>)
      modifies this
      ensures reply == world.clock(old(readings)) && readings == old(readings) + 1
    {
      reply := world.clock(readings);
      readings := readings + 1;
    }
  }

  // ------------------------------------------------------------- the runner, as a function

  /** The runner's local variables, and the calls made so far. */
  datatype State = State(stage: Stage, initialState: Option<string>, session: Session,
                         entries: seq<ActionEntry>, observations: int, cycles: nat, signal: Signal,
                         native: Option<nat>, current: Option<Observation>, startedAt: real,
                         entered: bool, policyCalls: seq<PolicyCall>, backendCalls: seq<BackendCall>)

  /** How a phase leaves the runner: still looping, out of the loop, or with an exception. */
  datatype Progress = Going | Halted | Broken(error: Exn)

  function Context(j: Job): EpisodeContext {
    BuildEpisodeContext(j.trial, j.spec.prompt)
  }

  function Before(j: Job): State {
    State(ResetStage, None, Opened(j.channel), [], 0, 0, Running, None, None, 0.0, false, [], [])
  }

  /** Backend reset, policy reset, and the first clock reading. */
  function Prepare(j: Job, w: World): (State, Progress) {
    var s := Before(j).(backendCalls := [BackendReset(Context(j))]);
    if w.reset.Raised? then (s, Broken(w.reset.error))
    else
      var s1 := s.(initialState := Some(w.reset.value.state));
      if !ResetMatches(w.reset.value, Context(j)) then (s1, Broken(Violation("reset_receipt_mismatch")))
      else
        var s2 := s1.(stage := PolicyResetStage, entered := true, policyCalls := [PolicyReset(Context(j))]);
        if w.policyReset.Raised? then (s2, Broken(w.policyReset.error))
        else if w.clock(0).Raised? then (s2, Broken(w.clock(0).error))
        else (s2.(startedAt := w.clock(0).value), Going)
  }

  /** The initial observation, delivered. */
  function Greet(j: Job, w: World, s: State): (State, Progress) {
    var s1 := s.(stage := ObserveStage, backendCalls := s.backendCalls + [Observe]);
    if w.observe.Raised? then (s1, Broken(w.observe.error))
    else
      var violation := CleanViolation(w.observe.value, Context(j), 0);
      if violation.Some? then (s1, Broken(Violation(violation.value)))
      else
        var (session, reply) := DeliverTo(s.session, w.observe.value);
        var s2 := s1.(stage := DeliveryStage, session := session);
        if reply.Raised? then (s2, Broken(reply.error))
        else (s2.(current := Some(reply.value.Observed()), observations := 1), Going)
  }

  /** The wall-clock, cycle and observation budgets. */
  function Poll(j: Job, w: World, s: State): (State, Progress) {
    var now := w.clock(s.cycles + 1);
    if now.Raised? then (s, Broken(now.error))
    else if now.value - s.startedAt >= j.spec.wallTimeout then (s.(signal := TimedOut), Halted)
    else if s.cycles >= j.spec.maxControlCycles || s.observations >= j.spec.maxObservationSteps
    then (s.(signal := TimedOut), Halted)
    else (s, Going)
  }

  /** Asks the policy for a plan and checks its binding to the observation shown. */
  function Consult(w: World, s: State): (State, Reply<ActionPlan>)
    requires s.current.Some?
  {
    var s1 := s.(stage := InferStage, policyCalls := s.policyCalls + [Infer(s.current.value)]);
    var plan := w.infer(s.cycles);
    if plan.Raised? then (s1, plan)
    else if plan.value.actionSpec != ACTION_SPEC
    then (s1, Raised(Violation("action_plan_action_spec_mismatch")))
    else if plan.value.sourceStep != s.current.value.stepIndex
    then (s1, Raised(Violation("action_plan_source_step_mismatch")))
    else (s1, plan)
  }

  function Requested(j: Job, s: State, plan: ActionPlan): int {
    Min(j.spec.executeActionSteps, Min(j.spec.maxObservationSteps - s.observations, |plan.actions|))
  }

  /** Executes the requested prefix and validates the batch that comes back. */
  function Act(j: Job, w: World, s: State, plan: ActionPlan): (State, Reply<Batch>)
    requires 1 <= Requested(j, s, plan)
  {
    var requested := Requested(j, s, plan);
    var s1 := s.(stage := ExecuteStage, cycles := s.cycles + 1,
                 backendCalls := s.backendCalls + [Execute(plan.actions[..requested])]);
    var batch := w.execute(s.cycles);
    if batch.Raised? then (s1, batch)
    else
      var verdict := BatchVerdict(batch.value, requested, Context(j), s.observations, s.native);
      if verdict.Raised? then (s1, Raised(verdict.error)) else (s1.(native := Some(verdict.value)), batch)
  }

  /** Delivers the first n transitions, stopping at the first failure. */
  function DeliverFirst(s: Session, ts: seq<Transition>, n: nat): (Session, Reply<Trace>)
    requires n <= |ts|
  {
    if n == 0 then (s, Returned([]))
    else
      var (before, sofar) := DeliverFirst(s, ts, n - 1);
      if sofar.Raised? then (before, sofar)
      else
        var (after, reply) := DeliverTo(before, ts[n - 1].clean);
        if reply.Raised? then (after, Raised(reply.error))
        else (after, Returned(sofar.value + [reply.value]))
  }

  function Observed(trace: Trace): seq<Observation> {
    seq(|trace|, i requires 0 <= i < |trace| => trace[i].Observed())
  }

  /** Records the executed prefix and the observations it produced. */
  function Bookkeep(s: State, plan: ActionPlan, b: Batch, delivered: Trace): State
    requires 1 <= |delivered| == |b.transitions| <= |plan.actions|
  {
    var n := |delivered|;
    s.(entries := s.entries + [ActionEntry(Sha(plan), plan.sourceStep, plan.actions[..n])],
       signal := b.transitions[n - 1].signal, observations := s.observations + n,
       current := Some(delivered[n - 1].Observed()), stage := CommitStage,
       policyCalls := s.policyCalls + [Commit(Sha(plan), plan.actions[..n], Observed(delivered),
                                              b.transitions[n - 1].signal)])
  }

  /** Delivers a valid batch and commits it to the policy. */
  function Hand(w: World, s: State, plan: ActionPlan, b: Batch): (State, Progress)
    requires 1 <= |b.transitions| <= |plan.actions| && 1 <= s.cycles
  {
    var (session, reply) := DeliverFirst(s.session, b.transitions, |b.transitions|);
    var s1 := s.(stage := DeliveryStage, session := session);
    if reply.Raised? then (s1, Broken(reply.error))
    else
      DeliverCount(s.session, b.transitions, |b.transitions|);
      var s2 := Bookkeep(s1, plan, b, reply.value);
      var answer := w.commit(s.cycles - 1);
      if answer.Raised? then (s2, Broken(answer.error))
      else if !s2.signal.Running? then (s2, Halted)
      else (s2, Going)
  }

  lemma {:induction false} DeliverCount(s: Session, ts: seq<Transition>, n: nat)
    requires n <= |ts|
    ensures DeliverFirst(s, ts, n).1.Returned? ==> |DeliverFirst(s, ts, n).1.value| == n
  {
    if n > 0 { DeliverCount(s, ts, n - 1); }
  }

  /** One pass of the control loop. */
  function Cycle(j: Job, w: World, s: State): (r: (State, Progress))
    requires s.current.Some?
    ensures r.1.Going? ==> r.0.cycles == s.cycles + 1 <= j.spec.maxControlCycles && r.0.current.Some?
  {
    var (polled, budget) := Poll(j, w, s);
    if !budget.Going? then (polled, budget)
    else
      var (consulted, plan) := Consult(w, polled);
      if plan.Raised? then (consulted, Broken(plan.error))
      else if Requested(j, consulted, plan.value) < 1 then (consulted.(signal := TimedOut), Halted)
      else
        var (acted, batch) := Act(j, w, consulted, plan.value);
        if batch.Raised? then (acted, Broken(batch.error))
        else
          BatchVerdictExact(batch.value, Requested(j, consulted, plan.value), Context(j),
                            consulted.observations, consulted.native);
          Hand(w, acted, plan.value, batch.value)
  }

  /** The control loop: at most one pass per cycle of the budget. */
  function Loop(j: Job, w: World, s: State): (State, Progress)
    requires s.current.Some?
    decreases j.spec.maxControlCycles - s.cycles
  {
    var (next, progress) := Cycle(j, w, s);
    if progress.Going? then Loop(j, w, next) else (next, progress)
  }

  /** Everything between the first reset and the end of the control loop. */
  function Attempt(j: Job, w: World): (State, Progress) {
    var (prepared, p) := Prepare(j, w);
    if !p.Going? then (prepared, p)
    else
      var (greeted, q) := Greet(j, w, prepared);
      if !q.Going? then (greeted, q) else Loop(j, w, greeted)
  }

  // ------------------------------------------------------------------------- receipts

  function TalliesOf(j: Job, s: State, f: Option<Finalization>): Tallies {
    Tallies(j.trial, j.spec, s.initialState, f, s.entries, s.observations, s.cycles)
  }

  /** A restored trial must have delivered an observation at its restoration index. */
  predicate RestorationSeen(t: TrialManifest, f: Finalization) {
    t.condition.Restored? ==> exists r <- f.delivered :: Some(r.Observed().stepIndex) == t.restorationIndex
  }

  /** The codes that override the delivery verdict, or none. */
  function RejectionCodes(t: TrialManifest, f: Finalization): seq<FailureCode> {
    var report := if f.validation.None? then [] else f.validation.value.codes;
    if RestorationSeen(t, f) then report else Note(report, true, RestorationNotObserved)
  }

  predicate Rejected(t: TrialManifest, f: Finalization) {
    !RestorationSeen(t, f) || (f.validation.Some? && !f.validation.value.passed)
  }

  /** Finalizes the session and assembles the receipt of a run whose loop ended. */
  function Conclude(j: Job, s: State): (State, Option<Finalization>, Reply<TrialResult>)
    requires Schedulable(s.session.channel) && !s.signal.Running?
  {
    var (session, reply) := Finalize(s.session);
    var s1 := s.(stage := ValidationStage, session := session);
    if reply.Raised? then (s1, None, Raised(reply.error))
    else
      var f := reply.value;
      var status := StatusOf(s.signal);
      var built :=
        if Rejected(j.trial, f)
        then BuildTrialResult(TalliesOf(j, s1, Some(f)), ValidatorRejected, Some(status), Some(ValidationStage),
                              Some("validator_rejected"), Verdict(Some(false), RejectionCodes(j.trial, f)))
        else BuildTrialResult(TalliesOf(j, s1, Some(f)), status, Some(status), None, None,
                              TraceVerdict(Some(f)));
      (s1, Some(f), built)
  }

  /** The code of a crash: the violation's own, or one named after the stage. */
  function CrashCode(stage: Stage, error: Exn): string {
    if error.Violation? then error.code else StageName(stage) + "_failed"
  }

  /** The handler of every exception after reset: abort, finalize what there is, report. */
  function Crashed(j: Job, s: State, error: Exn): (State, Option<Finalization>, Reply<TrialResult>)
    requires Schedulable(s.session.channel)
  {
    var code := CrashCode(s.stage, error);
    var (session, reply) := Finalize(s.session);
    var f := if reply.Returned? then Some(reply.value) else None;
    var s1 := s.(session := session,
                 policyCalls := if s.entered then s.policyCalls + [Abort(code)] else s.policyCalls);
    (s1, f, BuildTrialResult(TalliesOf(j, s1, f), Crash, Some(Crash), Some(s.stage), Some(code), TraceVerdict(f)))
  }

  /** What both close calls leave behind. */
  function CloseCodes(w: World): seq<string> {
    (if w.closeBackend.Raised? then ["backend_close_failed"] else [])
    + (if w.closePolicy.Raised? then ["policy_close_failed"] else [])
  }

  /** Turns a finished run into a crash when closing a resource failed. */
  function Closed(j: Job, w: World, s: State, f: Option<Finalization>, normal: TrialResult): Reply<TrialResult> {
    var codes := CloseCodes(w);
    if codes == [] then Returned(normal)
    else BuildTrialResult(TalliesOf(j, s, f), Crash, normal.body.executionStatus, Some(CloseStage),
                          Some(if |codes| == 1 then codes[0] else "multiple_close_failures"),
                          Verdict(normal.body.validationPassed, normal.body.validationCodes))
  }

  /** Everything a run leaves behind: its receipt or the exception that escapes, the
      evaluator's evidence, and every call made to the policy and to the backend. */
  datatype RunReport = RunReport(outcome: Reply<TrialResult>, finalization: Option<Finalization>,
                                 entries: seq<ActionEntry>, policyCalls: seq<PolicyCall>,
                                 backendCalls: seq<BackendCall>)

  function ReportOf(s: State, f: Option<Finalization>, outcome: Reply<TrialResult>): RunReport {
    RunReport(outcome, f, s.entries, s.policyCalls + [PolicyClose], s.backendCalls + [BackendClose])
  }

  function UnsupportedResult(j: Job): Reply<TrialResult> {
    BuildTrialResult(TalliesOf(j, Before(j), None), UnsupportedContract, None, Some(PreflightStage),
                     Some("structural_absence_unsupported"), TraceVerdict(None))
  }

  /** Everything after the first reset, given how the loop ended. */
  function Settle(j: Job, w: World, s: State, p: Progress): RunReport
    requires Schedulable(s.session.channel) && !p.Going? && (p.Halted? ==> !s.signal.Running?)
  {
    if p.Broken? then var (t, f, r) := Crashed(j, s, p.error); ReportOf(t, f, r)
    else
      var (t, f, r) := Conclude(j, s);
      if r.Raised? then var (u, g, crash) := Crashed(j, t, r.error); ReportOf(u, g, crash)
      else ReportOf(t, f, Closed(j, w, t, f, r.value))
  }

  lemma {:induction false} LoopEnds(j: Job, w: World, s: State)
    requires s.current.Some?
    ensures var (t, p) := Loop(j, w, s);
            !p.Going? && t.session.channel == s.session.channel && (p.Halted? ==> !t.signal.Running?)
    decreases j.spec.maxControlCycles - s.cycles
  {
    CycleChannel(j, w, s);
    if Cycle(j, w, s).1.Going? { LoopEnds(j, w, Cycle(j, w, s).0); }
  }

  lemma {:induction false} CycleChannel(j: Job, w: World, s: State)
    requires s.current.Some?
    ensures Cycle(j, w, s).0.session.channel == s.session.channel
    ensures Cycle(j, w, s).1.Halted? ==> !Cycle(j, w, s).0.signal.Running?
  {
    var (consulted, plan) := Consult(w, Poll(j, w, s).0);
    if plan.Returned? && Requested(j, consulted, plan.value) >= 1 {
      var (acted, batch) := Act(j, w, consulted, plan.value);
      if batch.Returned? {
        BatchVerdictExact(batch.value, Requested(j, consulted, plan.value), Context(j), consulted.observations,
                          consulted.native);
        HandChannel(w, acted, plan.value, batch.value);
      }
    }
  }

  lemma {:induction false} HandChannel(w: World, s: State, plan: ActionPlan, b: Batch)
    requires 1 <= |b.transitions| <= |plan.actions| && 1 <= s.cycles
    ensures Hand(w, s, plan, b).0.session.channel == s.session.channel
    ensures Hand(w, s, plan, b).1.Halted? ==> !Hand(w, s, plan, b).0.signal.Running?
  {
    DeliverChannel(s.session, b.transitions, |b.transitions|);
  }

  lemma {:induction false} DeliverChannel(s: Session, ts: seq<Transition>, n: nat)
    requires n <= |ts|
    ensures DeliverFirst(s, ts, n).0.channel == s.channel
  {
    if n > 0 { DeliverChannel(s, ts, n - 1); }
  }

  lemma {:induction false} AttemptEnds(j: Job, w: World)
    ensures var (s, p) := Attempt(j, w);
            !p.Going? && s.session.channel == j.channel && (p.Halted? ==> !s.signal.Running?)
  {
    var (prepared, p) := Prepare(j, w);
    if p.Going? && Greet(j, w, prepared).1.Going? { LoopEnds(j, w, Greet(j, w, prepared).0); }
  }

  /** One requested trial from start to finish. */
  function RunTrial(j: Job, w: World): RunReport
    requires Schedulable(j.channel)
  {
    if !Preflight(j) then ReportOf(Before(j), None, Raised(OtherError))
    else if Unsupported(j) then ReportOf(Before(j), None, UnsupportedResult(j))
    else if !j.sessionReady then ReportOf(Before(j), None, Raised(OtherError))
    else
      AttemptEnds(j, w);
      Settle(j, w, Attempt(j, w).0, Attempt(j, w).1)
  }
}
