/** What a run is started with: which jobs pass the preflight, and when the policy is met at all. */
module RunnerStarts {
  import opened Basics
  import opened OperatorParameters
  import opened Manifests
  import opened Trials
  import opened Delivery
  import opened Results
  import opened RunnerChecks
  import opened Runner
  import opened RunnerProperties
  import opened RunnerCycles

  // ------------------------------------------------------------------ the preflight

  /** The trial of a grid for a condition. */
  function TrialFor(g: Grid, condition: Condition): TrialManifest {
    match condition
    case Clean => g.clean
    case Faulted => g.faulted
    case NoTouch => g.noTouch
    case Restored => g.restored
  }

  /** The policy and the backend are the ones the pair was frozen with; the control has a policy of its
      own, which is blind to touch as no other is. */
  predicate Staffed(j: Job, clean: TrialManifest, condition: Condition, control: Control) {
    && (if condition.NoTouch?
        then j.policy.systemId == control.systemId && j.policy.checkpoint == control.checkpoint
             && j.policy.config == control.config && !j.policy.consumesTactile
        else j.policy.systemId == clean.baseSystemId && j.policy.checkpoint == clean.checkpoint
             && j.policy.config == clean.config && j.policy.consumesTactile)
    && j.policy.actionSpec == j.backend.actionSpec == "qpos8_next_step"
    && j.backend.successPredicate == j.spec.successPredicate
  }

  /** Each condition has its own channel: none for the baselines, the pair's fault or its restored twin
      for the others; rest frames come only with a fault that needs them. */
  predicate Channeled(j: Job, faulted: FaultManifest, restored: FaultManifest, condition: Condition) {
    && (match condition
        case Clean => j.channel.Identity?
        case NoTouch => j.channel.Identity?
        case Faulted => j.channel.Online? && j.channel.manifest == faulted
        case Restored => j.channel.Online? && j.channel.manifest == restored)
    && (j.restSupplied ==> j.channel.Online? && NeedsRest(j.channel.manifest.instance.op))
  }

  /** Exactly which jobs pass: each of the four trials of a grid can only be run by its own policy, on its
      own channel. */
  lemma {:induction false} PreflightExactly(clean: TrialManifest, faulted: FaultManifest, restored: FaultManifest,
                                            index: int, mode: RestorationMode, control: Control,
                                            condition: Condition, j: Job)
    requires TrialOk(clean)
    requires BuildPairedTrialGrid(clean, faulted, restored, index, mode, control).Returned?
    requires j.trial == TrialFor(BuildPairedTrialGrid(clean, faulted, restored, index, mode, control).value, condition)
    ensures Preflight(j) <==> Staffed(j, clean, condition, control) && Channeled(j, faulted, restored, condition)
  {
    GridTrials(clean, faulted, restored, index, mode, control);
  }

  lemma {:induction false} GridTrials(clean: TrialManifest, faulted: FaultManifest, restored: FaultManifest,
                                      index: int, mode: RestorationMode, control: Control)
    requires BuildPairedTrialGrid(clean, faulted, restored, index, mode, control).Returned?
    ensures BuildPairedTrialGrid(clean, faulted, restored, index, mode, control).value
            == Grid(clean, FaultedTrial(clean, faulted), NoTouchTrial(clean, control),
                    RestoredTrial(clean, restored, index, mode))
    ensures clean.condition.Clean? && restored.instance.stop == index
  {
  }

  // ------------------------------------------------------------------ the reset receipt

  /** The backend's receipt is for this trial's episode and both its seeds. */
  predicate Receipted(j: Job, w: World) {
    && w.reset.Returned? && w.reset.value.episodeId == Sha(j.trial)
    && w.reset.value.initialSeed == j.trial.initialSeed && w.reset.value.exogenousSeed == j.trial.exogenousSeed
  }

  lemma {:induction false} PrepareMeets(j: Job, w: World)
    ensures Prepare(j, w).0.entered <==> Receipted(j, w)
    ensures Prepare(j, w).0.policyCalls == if Receipted(j, w) then [PolicyReset(Context(j))] else []
    ensures !Receipted(j, w) ==> Prepare(j, w).1.Broken?
  {
  }

  lemma {:induction false} HandGrows(w: World, s: State, plan: ActionPlan, b: Batch)
    requires 1 <= |b.transitions| <= |plan.actions| && 1 <= s.cycles
    ensures s.policyCalls <= Hand(w, s, plan, b).0.policyCalls
  {
  }

  lemma {:induction false} CycleGrows(j: Job, w: World, s: State)
    requires s.current.Some?
    ensures s.policyCalls <= Cycle(j, w, s).0.policyCalls
  {
    var (consulted, plan) := Consult(w, Poll(j, w, s).0);
    if plan.Returned? && Requested(j, consulted, plan.value) >= 1 {
      var (acted, batch) := Act(j, w, consulted, plan.value);
      if batch.Returned? {
        BatchVerdictExact(batch.value, Requested(j, consulted, plan.value), Context(j), consulted.observations,
                          consulted.native);
        HandGrows(w, acted, plan.value, batch.value);
      }
    }
  }

  lemma {:induction false} LoopGrows(j: Job, w: World, s: State)
    requires s.current.Some?
    ensures s.policyCalls <= Loop(j, w, s).0.policyCalls
    decreases j.spec.maxControlCycles - s.cycles
  {
    CycleGrows(j, w, s);
    if Cycle(j, w, s).1.Going? { LoopGrows(j, w, Cycle(j, w, s).0); }
  }

  lemma {:induction false} AttemptGrows(j: Job, w: World)
    ensures Prepare(j, w).0.policyCalls <= Attempt(j, w).0.policyCalls
    ensures Prepare(j, w).1.Broken? ==> Attempt(j, w) == Prepare(j, w)
  {
    if Prepare(j, w).1.Going? && Greet(j, w, Prepare(j, w).0).1.Going? {
      LoopGrows(j, w, Greet(j, w, Prepare(j, w).0).0);
    }
  }

  /** The policy is met if and only if the backend was reset to this very episode: then its first call is
      the reset with the trial's context, and otherwise it is only closed. */
  lemma {:induction false} PolicyMetExactly(j: Job, w: World)
    requires Schedulable(j.channel) && Attempted(j)
    ensures var calls := RunTrial(j, w).policyCalls;
            if Receipted(j, w)
            then calls != [] && calls[0] == PolicyReset(EpisodeContext(Sha(j.trial), j.trial.task, j.trial.initialSeed,
                                                                       j.trial.exogenousSeed, j.spec.prompt,
                                                                       j.trial.actionSpec))
            else calls == [PolicyClose]
  {
    PrepareMeets(j, w);
    AttemptGrows(j, w);
    LogStarts(j, w);
    AttemptEnds(j, w);
  }
}
