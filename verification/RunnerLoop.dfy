/** The runner as it runs: local variables updated in place, calls answered by the
    environment, and one exit for every exception.  Proved equal to `Runner.RunTrial`. */
module RunnerLoop {
  import opened Basics
  import opened Trials
  import opened Records
  import opened ValidationCodes
  import opened Delivery
  import opened Results
  import opened RunnerChecks
  import opened Runner

  class TrialRun {
    const job: Job
    const backend: Backend
    const policy: Policy
    const clock: Clock
    const session: DeliverySession

    var stage: Stage
    var initialState: Option<string>
    var entries: seq<ActionEntry>
    var observations: int
    var cycles: nat
    var signal: Signal
    var native: Option<nat>
    var current: Option<Observation>
    var startedAt: real
    var entered: bool

    function World(): World { backend.world }

    ghost const Repr: set<object> := {this, backend, policy, clock, session}

    /** The objects share one environment. */
    ghost predicate Valid() {
      policy.world == clock.world == backend.world && session.channel == job.channel && JobOk(job)
    }

    function View(): State
      reads this, policy, backend, session
    {
      State(stage, initialState, session.View(), entries, observations, cycles, signal, native, current,
            startedAt, entered, policy.calls, backend.calls)
    }

    /** Call counters agree with the cycle count between two cycles. */
    ghost predicate InStep()
      reads this, policy, backend, clock
    {
      clock.readings == cycles + 1 && policy.inferences == policy.commits == backend.executions == cycles
    }

    constructor (job: Job, world: World)
      requires JobOk(job)
      ensures Valid() && fresh(Repr) && View() == Before(job) && World() == world
      ensures this.job == job && clock.readings == 0 && policy.inferences == policy.commits == backend.executions == 0
    {
      this.job := job;
      backend := new Backend(world);
      policy := new Policy(world);
      clock := new Clock(world);
      session := new DeliverySession(job.channel);
      stage, initialState, entries, observations, cycles := ResetStage, None, [], 0, 0;
      signal, native, current, startedAt, entered := Running, None, None, 0.0, false;
    }

    method SetUp() returns (p: Progress)
      requires Valid() && View() == Before(job) && clock.readings == 0
      requires policy.inferences == policy.commits == backend.executions == 0
      modifies Repr
      ensures (View(), p) == Prepare(job, World())
      ensures p.Going? ==> InStep()
    {
      var receipt := backend.Reset(Context(job));
      assert [] + [BackendReset(Context(job))] == [BackendReset(Context(job))];
      if receipt.Raised? { return Broken(receipt.error); }
      initialState := Some(receipt.value.state);
      if !ResetMatches(receipt.value, Context(job)) { return Broken(Violation("reset_receipt_mismatch")); }
      stage := PolicyResetStage;
      entered := true;
      var answer := policy.Reset(Context(job));
      assert [] + [PolicyReset(Context(job))] == [PolicyReset(Context(job))];
      if answer.Raised? { return Broken(answer.error); }
      var now := clock.Read();
      if now.Raised? { return Broken(now.error); }
      startedAt := now.value;
      return Going;
    }

    method FirstObservation() returns (p: Progress)
      requires Valid() && InStep()
      modifies Repr
      ensures (View(), p) == Greet(job, World(), old(View()))
      ensures p.Going? ==> InStep() && current.Some?
    {
      stage := ObserveStage;
      var seen := backend.Look();
      if seen.Raised? { return Broken(seen.error); }
      var violation := CleanViolation(seen.value, Context(job), 0);
      if violation.Some? { return Broken(Violation(violation.value)); }
      stage := DeliveryStage;
      var delivered := session.Deliver(seen.value);
      if delivered.Raised? { return Broken(delivered.error); }
      current, observations := Some(delivered.value.Observed()), 1;
      return Going;
    }

    method CheckBudgets() returns (p: Progress)
      requires Valid() && clock.readings == cycles + 1
      modifies this, clock
      ensures (View(), p) == Poll(job, World(), old(View()))
      ensures clock.readings == old(clock.readings) + 1 && cycles == old(cycles) && current == old(current)
    {
      var now := clock.Read();
      if now.Raised? { return Broken(now.error); }
      if now.value - startedAt >= job.spec.wallTimeout {
        signal := TimedOut;
        return Halted;
      }
      if cycles >= job.spec.maxControlCycles || observations >= job.spec.maxObservationSteps {
        signal := TimedOut;
        return Halted;
      }
      return Going;
    }

    method AskPolicy() returns (plan: Reply<ActionPlan>)
      requires Valid() && current.Some? && policy.inferences == cycles
      modifies this, policy
      ensures (View(), plan) == Consult(World(), old(View()))
      ensures policy.inferences == cycles + 1 && policy.commits == old(policy.commits)
      ensures cycles == old(cycles) && current == old(current) && observations == old(observations)
    {
      stage := InferStage;
      plan := policy.Propose(current.value);
      if plan.Raised? { return; }
      if plan.value.actionSpec != ACTION_SPEC {
        return Raised(Violation("action_plan_action_spec_mismatch"));
      }
      if plan.value.sourceStep != current.value.stepIndex {
        return Raised(Violation("action_plan_source_step_mismatch"));
      }
    }

    method ExecutePrefix(plan: ActionPlan, requested: int) returns (batch: Reply<Batch>)
      requires Valid() && backend.executions == cycles && 1 <= requested == Requested(job, View(), plan)
      modifies this, backend
      ensures (View(), batch) == Act(job, World(), old(View()), plan)
      ensures backend.executions == cycles == old(cycles) + 1
      ensures batch.Returned? ==> BatchOk(batch.value, requested, Context(job), observations, old(native))
    {
      stage := ExecuteStage;
      cycles := cycles + 1;
      batch := backend.Run(plan.actions[..requested]);
      if batch.Raised? { return; }
      var last := ValidateBatch(batch.value, requested, Context(job), observations, native);
      BatchVerdictExact(batch.value, requested, Context(job), observations, native);
      if last.Raised? { return Raised(last.error); }
      native := Some(last.value);
    }

    method DeliverBatch(ts: seq<Transition>) returns (delivered: Reply<Trace>)
      requires Valid()
      modifies this`stage, session
      ensures stage == DeliveryStage
      ensures (session.View(), delivered) == DeliverFirst(old(session.View()), ts, |ts|)
    {
      stage := DeliveryStage;
      ghost var first := session.View();
      var trace: Trace := [];
      var n := 0;
      while n < |ts|
        invariant 0 <= n <= |ts| && stage == DeliveryStage
        invariant (session.View(), Returned(trace)) == DeliverFirst(first, ts, n)
      {
        ghost var before := session.View();
        var reply := session.Deliver(ts[n].clean);
        DeliverNext(first, ts, n, before, trace, session.View(), reply);
        if reply.Raised? {
          FailureSticks(first, ts, n + 1, |ts|);
          return Raised(reply.error);
        }
        trace := trace + [reply.value];
        n := n + 1;
      }
      return Returned(trace);
    }

    method DeliverAndCommit(plan: ActionPlan, batch: Batch) returns (p: Progress)
      requires Valid() && 1 <= |batch.transitions| <= |plan.actions| && 1 <= cycles
      requires policy.commits == cycles - 1
      modifies this, policy, session
      ensures (View(), p) == Hand(World(), old(View()), plan, batch)
      ensures cycles == old(cycles) && policy.inferences == old(policy.inferences)
      ensures p.Going? ==> policy.commits == cycles && current.Some?
    {
      ghost var before := View();
      var delivered := DeliverBatch(batch.transitions);
      if delivered.Raised? { return Broken(delivered.error); }
      DeliverCount(before.session, batch.transitions, |batch.transitions|);
      var answer := CommitBatch(plan, batch, delivered.value);
      if answer.Raised? { return Broken(answer.error); }
      return if signal.Running? then Going else Halted;
    }

    method CommitBatch(plan: ActionPlan, batch: Batch, delivered: Trace) returns (answer: Reply<()>)
      requires Valid() && 1 <= |delivered| == |batch.transitions| <= |plan.actions|
      modifies this, policy
      ensures View() == Bookkeep(old(View()), plan, batch, delivered)
      ensures answer == World().commit(old(policy.commits))
      ensures policy.commits == old(policy.commits) + 1 && policy.inferences == old(policy.inferences)
    {
      var ts := batch.transitions;
      var executed := plan.actions[..|ts|];
      entries := entries + [ActionEntry(Sha(plan), plan.sourceStep, executed)];
      signal := ts[|ts| - 1].signal;
      observations := observations + |ts|;
      current := Some(delivered[|ts| - 1].Observed());
      stage := CommitStage;
      answer := policy.Acknowledge(Commit(Sha(plan), executed, Observed(delivered), signal));
    }

    method ControlLoop() returns (p: Progress)
      requires Valid() && InStep() && current.Some?
      modifies Repr
      ensures (View(), p) == Loop(job, World(), old(View()))
    {
      p := Going;
      while p.Going?
        invariant p.Going? ==> InStep() && current.Some?
        invariant Loop(job, World(), old(View()))
                  == if p.Going? then Loop(job, World(), View()) else (View(), p)
        decreases p.Going?, job.spec.maxControlCycles - cycles
      {
        p := OneCycle();
      }
    }

    method OneCycle() returns (p: Progress)
      requires Valid() && InStep() && current.Some?
      modifies Repr
      ensures (View(), p) == Cycle(job, World(), old(View()))
      ensures p.Going? ==> InStep()
    {
      p := CheckBudgets();
      if !p.Going? { return; }
      var plan := AskPolicy();
      if plan.Raised? { return Broken(plan.error); }
      var requested := Requested(job, View(), plan.value);
      if requested < 1 {
        signal := TimedOut;
        return Halted;
      }
      var batch := ExecutePrefix(plan.value, requested);
      if batch.Raised? { return Broken(batch.error); }
      p := DeliverAndCommit(plan.value, batch.value);
    }

    method Attempt() returns (p: Progress)
      requires Valid() && View() == Before(job) && clock.readings == 0
      requires policy.inferences == policy.commits == backend.executions == 0
      modifies Repr
      ensures (View(), p) == Runner.Attempt(job, World())
    {
      p := SetUp();
      if !p.Going? { return; }
      p := FirstObservation();
      if !p.Going? { return; }
      p := ControlLoop();
    }

    method Assemble() returns (f: Option<Finalization>, result: Reply<TrialResult>)
      requires Valid() && !signal.Running?
      modifies this`stage, session
      ensures (View(), f, result) == Conclude(job, old(View()))
    {
      stage := ValidationStage;
      var reply := session.Finish();
      if reply.Raised? { return None, Raised(reply.error); }
      f := Some(reply.value);
      var status := StatusOf(signal);
      var terminal, failure, code, verdict := status, None, None, TraceVerdict(f);
      if Rejected(job.trial, reply.value) {
        terminal, failure, code := ValidatorRejected, Some(ValidationStage), Some("validator_rejected");
        verdict := Verdict(Some(false), RejectionCodes(job.trial, reply.value));
      }
      result := BuildTrialResult(TalliesOf(job, View(), f), terminal, Some(status), failure, code, verdict);
    }

    method HandleCrash(error: Exn) returns (f: Option<Finalization>, result: Reply<TrialResult>)
      requires Valid()
      modifies policy, session
      ensures (View(), f, result) == Crashed(job, old(View()), error)
    {
      var code := CrashCode(stage, error);
      if entered { var _ := policy.GiveUp(code); }
      var reply := session.Finish();
      f := if reply.Returned? then Some(reply.value) else None;
      result := BuildTrialResult(TalliesOf(job, View(), f), Crash, Some(Crash), Some(stage), Some(code),
                                 TraceVerdict(f));
    }

    method CloseResources() returns (codes: seq<string>)
      requires Valid()
      modifies policy, backend
      ensures codes == CloseCodes(World())
      ensures policy.calls == old(policy.calls) + [PolicyClose]
      ensures backend.calls == old(backend.calls) + [BackendClose]
    {
      codes := [];
      var first := backend.Close();
      if first.Raised? { codes := codes + ["backend_close_failed"]; }
      var second := policy.Close();
      if second.Raised? { codes := codes + ["policy_close_failed"]; }
    }
  }

  lemma {:induction false} DeliverNext(s: Session, ts: seq<Transition>, n: nat, before: Session, trace: Trace,
                                       after: Session, reply: Reply<EvaluationRecord>)
    requires n < |ts| && DeliverFirst(s, ts, n) == (before, Returned(trace))
    requires (after, reply) == DeliverTo(before, ts[n].clean)
    ensures DeliverFirst(s, ts, n + 1)
            == (after, if reply.Raised? then Raised(reply.error) else Returned(trace + [reply.value]))
  {
  }

  lemma {:induction false} FailureSticks(s: Session, ts: seq<Transition>, n: nat, m: nat)
    requires n <= m <= |ts| && DeliverFirst(s, ts, n).1.Raised?
    ensures DeliverFirst(s, ts, m) == DeliverFirst(s, ts, n)
  {
    if n < m { FailureSticks(s, ts, n, m - 1); }
  }

  /** The runner, statement by statement. */
  method RunClosedLoopTrial(j: Job, w: World) returns (report: RunReport)
    requires JobOk(j)
    ensures report == RunTrial(j, w)
  {
    var run := new TrialRun(j, w);
    var finalization: Option<Finalization> := None;
    var outcome: Reply<TrialResult> := Raised(OtherError);
    var resetAttempted, primaryCrash, normal := false, false, false;
    if Preflight(j) {
      if Unsupported(j) {
        outcome := UnsupportedResult(j);
      } else if j.sessionReady {
        resetAttempted := true;
        AttemptEnds(j, w);
        var p := run.Attempt();
        var error: Option<Exn> := if p.Broken? then Some(p.error) else None;
        if p.Halted? {
          finalization, outcome := run.Assemble();
          if outcome.Raised? { error := Some(outcome.error); }
        }
        if error.Some? {
          primaryCrash := true;
          finalization, outcome := run.HandleCrash(error.value);
        } else {
          normal := true;
        }
      }
    }
    var codes := run.CloseResources();
    if codes != [] && !primaryCrash && resetAttempted && normal {
      outcome := Closed(j, w, run.View(), finalization, outcome.value);
    }
    report := RunReport(outcome, finalization, run.entries, run.policy.calls, run.backend.calls);
  }
}
