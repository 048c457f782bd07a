/** Preflight and backend-contract checks of the closed-loop runner. */
module RunnerChecks {
  import opened Basics
  import opened OperatorParameters
  import opened Manifests
  import opened Trials
  import opened Records
  import opened Delivery
  import opened Results

  datatype EpisodeContext = EpisodeContext(episodeId: EpisodeId, task: string, initialSeed: int,
                                           exogenousSeed: int, instruction: string, actionSpec: string)

  function BuildEpisodeContext(trial: TrialManifest, prompt: string): EpisodeContext {
    EpisodeContext(Sha(trial), trial.task, trial.initialSeed, trial.exogenousSeed, prompt, trial.actionSpec)
  }

  datatype PolicyIdentity = PolicyIdentity(systemId: string, checkpoint: string, config: string,
                                           actionSpec: string, consumesTactile: bool,
                                           supportsAbsence: bool)
  datatype BackendIdentity = BackendIdentity(actionSpec: string, successPredicate: string)

  /** Everything the runner is started with. */
  datatype Job = Job(trial: TrialManifest, spec: RunSpec, policy: PolicyIdentity, backend: BackendIdentity,
                     restSupplied: bool, sessionReady: bool, channel: Channel)
  {
    function Manifest(): Option<FaultManifest> {
      if channel.Identity? then None else Some(channel.manifest)
    }
  }

  /** The trial and the fault manifest of a job have passed their constructors. */
  ghost predicate JobOk(j: Job) {
    ChannelOk(j.channel) && TrialOk(j.trial)
  }

  /** The configuration is consistent; otherwise the run is refused before any reset. */
  predicate Preflight(j: Job) {
    var t, manifest := j.trial, j.Manifest();
    var faulted := t.condition.Faulted? || t.condition.Restored?;
    && j.policy.systemId == t.executedSystemId && j.policy.checkpoint == t.checkpoint
    && j.policy.config == t.config && j.policy.actionSpec == t.actionSpec
    && j.backend.actionSpec == t.actionSpec && j.backend.successPredicate == j.spec.successPredicate
    && (faulted <==> manifest.Some?)
    && (manifest.Some? ==> t.faultManifest == Some(Sha(manifest.value)))
    && (j.restSupplied ==> manifest.Some? && NeedsRest(manifest.value.instance.op))
    && (t.condition.Restored? && manifest.Some? ==>
          t.restorationIndex == Some(manifest.value.instance.stop))
    && (t.condition.NoTouch? <==> !j.policy.consumesTactile)
  }

  /** Structural absence that the policy cannot consume ends the trial as unsupported. */
  predicate Unsupported(j: Job) {
    j.channel.Online? && IsAvailability(j.channel.manifest.instance.op) && !j.policy.supportsAbsence
  }

  datatype ResetReceipt = ResetReceipt(episodeId: EpisodeId, initialSeed: int, exogenousSeed: int, state: string)

  predicate ResetMatches(r: ResetReceipt, c: EpisodeContext) {
    r.episodeId == c.episodeId && r.initialSeed == c.initialSeed && r.exogenousSeed == c.exogenousSeed
  }

  /** The violation a clean record commits, if any. */
  function CleanViolation(r: EvaluationRecord, c: EpisodeContext, step: int): Option<string> {
    var o := r.Observed();
    if o.episodeId != c.episodeId || o.task != c.task || o.seed != c.initialSeed
    then Some("clean_record_identity_mismatch")
    else if o.stepIndex != step then Some("clean_record_step_mismatch")
    else if !FaultFree(r) then Some("clean_record_contains_fault")
    else if !HashesFresh(r) then Some("clean_record_hash_mismatch")
    else None
  }

  datatype Signal = Running | Succeeded | Failed | StoppedEarly | TimedOut

  function StatusOf(s: Signal): TerminalStatus
    requires !s.Running?
  {
    match s
    case Succeeded => Success
    case Failed => TaskFailure
    case StoppedEarly => EarlyStop
    case TimedOut => Timeout
  }

  datatype Transition = Transition(clean: EvaluationRecord, signal: Signal, nativeStep: nat)

  /** Whatever a backend hands back as one executed batch. */
  datatype Batch = Batch(transitions: seq<Transition>, executed: int)

  /** The contract of a batch, clause by clause. */
  predicate BatchOk(b: Batch, requested: int, c: EpisodeContext, step: int, native: Option<nat>) {
    var ts := b.transitions;
    && 1 <= b.executed == |ts| <= requested
    && (b.executed < requested ==> !ts[|ts| - 1].signal.Running?)
    && (forall i :: 0 <= i < |ts| - 1 ==> ts[i].signal.Running?)
    && (native.Some? ==> native.value < ts[0].nativeStep)
    && (forall i :: 0 < i < |ts| ==> ts[i - 1].nativeStep < ts[i].nativeStep)
    && (forall i :: 0 <= i < |ts| ==> CleanViolation(ts[i].clean, c, step + i).None?)
  }

  /** The first violation found by walking the transitions from position i. */
  function WalkBatch(ts: seq<Transition>, i: nat, c: EpisodeContext, step: int, terminal: bool,
                     native: Option<nat>): Reply<Option<nat>>
    requires i <= |ts|
    decreases |ts| - i
  {
    if i == |ts| then Returned(native)
    else if terminal then Raised(Violation("terminal_transition_followed"))
    else if native.Some? && ts[i].nativeStep <= native.value
    then Raised(Violation("native_step_id_not_monotonic"))
    else
      var violation := CleanViolation(ts[i].clean, c, step + i);
      if violation.Some? then Raised(Violation(violation.value))
      else WalkBatch(ts, i + 1, c, step, !ts[i].signal.Running?, Some(ts[i].nativeStep))
  }

  /** The runner's verdict on a batch: its last native step, or the first violation.  A short
      batch without transitions fails on reading its last signal. */
  function BatchVerdict(b: Batch, requested: int, c: EpisodeContext, step: int, native: Option<nat>): Reply<nat> {
    if b.executed > requested || |b.transitions| != b.executed
    then Raised(Violation("transition_action_count_mismatch"))
    else if b.executed < requested && b.transitions == [] then Raised(OtherError)
    else if b.executed < requested && b.transitions[|b.transitions| - 1].signal.Running?
    then Raised(Violation("running_partial_batch"))
    else
      var last :- WalkBatch(b.transitions, 0, c, step, false, native);
      if last.None? then Raised(Violation("empty_execution_batch")) else Returned(last.value)
  }

  lemma {:induction false} WalkExact(ts: seq<Transition>, i: nat, c: EpisodeContext, step: int, terminal: bool,
                                     native: Option<nat>)
    requires i <= |ts|
    ensures WalkBatch(ts, i, c, step, terminal, native).Returned? <==>
            && (terminal ==> i == |ts|)
            && (forall k :: i <= k < |ts| - 1 ==> ts[k].signal.Running?)
            && (i < |ts| && native.Some? ==> native.value < ts[i].nativeStep)
            && (forall k :: i < k < |ts| ==> ts[k - 1].nativeStep < ts[k].nativeStep)
            && (forall k :: i <= k < |ts| ==> CleanViolation(ts[k].clean, c, step + k).None?)
    ensures WalkBatch(ts, i, c, step, terminal, native).Returned? && i < |ts| ==>
            WalkBatch(ts, i, c, step, terminal, native).value == Some(ts[|ts| - 1].nativeStep)
    decreases |ts| - i
  {
    if i < |ts| {
      WalkExact(ts, i + 1, c, step, !ts[i].signal.Running?, Some(ts[i].nativeStep));
    }
  }

  /** A requested batch is accepted exactly when it meets the contract, and then the last
      native step is returned. */
  lemma {:induction false} BatchVerdictExact(b: Batch, requested: int, c: EpisodeContext, step: int,
                                             native: Option<nat>)
    requires 1 <= requested
    ensures BatchVerdict(b, requested, c, step, native).Returned? <==> BatchOk(b, requested, c, step, native)
    ensures BatchOk(b, requested, c, step, native) ==>
            BatchVerdict(b, requested, c, step, native)
            == Returned(b.transitions[|b.transitions| - 1].nativeStep)
  {
    WalkMeans(b.transitions, c, step, native);
    if b.transitions != [] && WalkBatch(b.transitions, 0, c, step, false, native).Returned? {
      WalkEnds(b.transitions, c, step, native);
    }
    if BatchVerdict(b, requested, c, step, native).Returned? {
      assert b.executed == |b.transitions| <= requested;
      assert BatchOk(b, requested, c, step, native);
    }
  }

  lemma {:induction false} WalkEnds(ts: seq<Transition>, c: EpisodeContext, step: int, native: Option<nat>)
    requires ts != [] && WalkBatch(ts, 0, c, step, false, native).Returned?
    ensures WalkBatch(ts, 0, c, step, false, native).value == Some(ts[|ts| - 1].nativeStep)
  {
    WalkExact(ts, 0, c, step, false, native);
  }

  /** Walking from the first transition. */
  lemma {:induction false} WalkMeans(ts: seq<Transition>, c: EpisodeContext, step: int, native: Option<nat>)
    ensures WalkBatch(ts, 0, c, step, false, native).Returned? <==>
            && (forall k :: 0 <= k < |ts| - 1 ==> ts[k].signal.Running?)
            && (0 < |ts| && native.Some? ==> native.value < ts[0].nativeStep)
            && (forall k :: 0 < k < |ts| ==> ts[k - 1].nativeStep < ts[k].nativeStep)
            && (forall k :: 0 <= k < |ts| ==> CleanViolation(ts[k].clean, c, step + k).None?)
  {
    WalkExact(ts, 0, c, step, false, native);
  }

  method ValidateBatch(b: Batch, requested: int, c: EpisodeContext, step: int, native: Option<nat>)
    returns (r: Reply<nat>)
    ensures r == BatchVerdict(b, requested, c, step, native)
  {
    var ts := b.transitions;
    if b.executed > requested || |ts| != b.executed {
      return Raised(Violation("transition_action_count_mismatch"));
    }
    if b.executed < requested {
      if ts == [] { return Raised(OtherError); }
      if ts[|ts| - 1].signal.Running? { return Raised(Violation("running_partial_batch")); }
    }
    var terminalSeen, previous, offset := false, native, 0;
    while offset < |ts|
      invariant 0 <= offset <= |ts|
      invariant WalkBatch(ts, 0, c, step, false, native)
                == WalkBatch(ts, offset, c, step, terminalSeen, previous)
    {
      if terminalSeen { return Raised(Violation("terminal_transition_followed")); }
      if previous.Some? && ts[offset].nativeStep <= previous.value {
        return Raised(Violation("native_step_id_not_monotonic"));
      }
      var violation := CleanViolation(ts[offset].clean, c, step + offset);
      if violation.Some? { return Raised(Violation(violation.value)); }
      terminalSeen, previous := !ts[offset].signal.Running?, Some(ts[offset].nativeStep);
      offset := offset + 1;
    }
    if previous.None? { return Raised(Violation("empty_execution_batch")); }
    return Returned(previous.value);
  }
}
