/** Whole-run theorems about the runner, over every behaviour of its environment. */
module RunnerProperties {
  import opened Basics
  import opened Trials
  import opened Records
  import opened ValidationCodes
  import opened Delivery
  import opened Results
  import opened RunnerChecks
  import opened Runner
  import opened RunnerInvariant

  /** The backend is asked to reset. */
  predicate Attempted(j: Job) {
    Preflight(j) && !Unsupported(j) && j.sessionReady
  }

  /** The exception that reaches the runner's handler, if one does. */
  function Caught(j: Job, w: World): Option<Exn>
    requires Schedulable(j.channel)
  {
    AttemptEnds(j, w);
    var (s, p) := Attempt(j, w);
    if p.Broken? then Some(p.error)
    else
      var reply := Conclude(j, s).2;
      if reply.Raised? then Some(reply.error) else None
  }

  /** The observations delivered in a run. */
  function Stream(j: Job, w: World): seq<Observation> {
    if Attempted(j) then Observed(Attempt(j, w).0.session.delivered) else []
  }

  // ------------------------------------------------------------------- receipts always come

  lemma {:induction false} StageNamed(s: Stage)
    ensures StageName(s) + "_failed" != ""
  {
  }

  lemma {:induction false} VerdictCoherent(f: Option<Finalization>)
    requires f.Some? && f.value.validation.Some? ==> ReportOk(f.value.validation.value)
    ensures var v := TraceVerdict(f);
            Unique(v.codes) && (v.passed == Some(false) <==> v.codes != [])
  {
  }

  /** The handler's receipt is coherent unless the crash carries an empty code. */
  lemma {:induction false} CrashReports(j: Job, s: State, error: Exn)
    requires ChannelOk(s.session.channel) && Schedulable(s.session.channel) && 0 <= s.observations
    requires !s.stage.PreflightStage? && (!s.stage.ResetStage? ==> s.initialState.Some?)
    ensures Crashed(j, s, error).2.Returned? <==> error != Violation("")
  {
    var f := Crashed(j, s, error).1;
    if f.Some? { FinalizeSound(s.session); }
    VerdictCoherent(f);
    StageNamed(s.stage);
  }

  lemma {:induction false} NoteUnique(codes: seq<FailureCode>)
    requires Unique(codes)
    ensures Unique(Note(codes, true, RestorationNotObserved)) && Note(codes, true, RestorationNotObserved) != []
  {
    assert RestorationNotObserved in Note(codes, true, RestorationNotObserved);
  }

  /** A loop that ended yields a coherent receipt as soon as the session finalizes. */
  lemma {:induction false} ConcludeReports(j: Job, s: State)
    requires ChannelOk(s.session.channel) && Schedulable(s.session.channel)
    requires !s.signal.Running? && s.initialState.Some? && 0 <= s.observations
    ensures Conclude(j, s).2.Returned? <==> Finalize(s.session).1.Returned?
    ensures Conclude(j, s).2.Raised? ==> Conclude(j, s).2.error == Finalize(s.session).1.error
  {
    if Finalize(s.session).1.Returned? {
      FinalizeSound(s.session);
      var f := Finalize(s.session).1.value;
      var t := TalliesOf(j, s.(stage := ValidationStage, session := Finalize(s.session).0), Some(f));
      if Rejected(j.trial, f) {
        RejectionReports(t, StatusOf(s.signal), f);
      } else {
        VerdictReports(t, StatusOf(s.signal), f);
      }
    }
  }

  lemma {:induction false} RejectionReports(t: Tallies, status: TerminalStatus, f: Finalization)
    requires t.initialState.Some? && 0 <= t.observations && 0 <= t.cycles && Rejected(t.trial, f)
    requires f.validation.Some? ==> ReportOk(f.validation.value)
    ensures BuildTrialResult(t, ValidatorRejected, Some(status), Some(ValidationStage), Some("validator_rejected"),
                             Verdict(Some(false), RejectionCodes(t.trial, f))).Returned?
  {
    if f.validation.None? { NoteUnique([]); } else { NoteUnique(f.validation.value.codes); }
  }

  lemma {:induction false} VerdictReports(t: Tallies, status: TerminalStatus, f: Finalization)
    requires t.initialState.Some? && 0 <= t.observations && 0 <= t.cycles && !Rejected(t.trial, f)
    requires (f.validation.Some? ==> ReportOk(f.validation.value)) && Normal(status)
    ensures BuildTrialResult(t, status, Some(status), None, None, TraceVerdict(Some(f))).Returned?
  {
    VerdictCoherent(Some(f));
  }

  lemma {:induction false} UnsupportedReports(j: Job)
    ensures UnsupportedResult(j).Returned?
  {
  }

  /** Rebuilding a coherent completed receipt as a close failure gives a coherent receipt. */
  lemma {:induction false} ClosedReports(j: Job, w: World, s: State, f: Option<Finalization>, normal: TrialResult)
    requires Coherent(normal) && (Normal(normal.body.terminalStatus) || normal.body.terminalStatus.ValidatorRejected?)
    requires s.initialState.Some? && 0 <= s.observations
    ensures Closed(j, w, s, f, normal).Returned?
  {
  }

  lemma {:induction false} EndsNamed(j: Job, w: World)
    ensures var s := Attempt(j, w).0;
            && !s.stage.PreflightStage? && (!s.stage.ResetStage? ==> s.initialState.Some?) && 0 <= s.observations
  {
    AttemptKeeps(j, w);
    AttemptEnds(j, w);
  }

  /** The receipt of a run whose loop ended, whatever finalizing and closing do. */
  lemma {:induction false} SettleReports(j: Job, w: World, s: State)
    requires ChannelOk(s.session.channel) && Schedulable(s.session.channel)
    requires !s.signal.Running? && s.initialState.Some? && 0 <= s.observations
    ensures Settle(j, w, s, Halted).outcome.Returned? <==>
            (Conclude(j, s).2.Raised? ==> Conclude(j, s).2.error != Violation(""))
  {
    var (t, f, r) := Conclude(j, s);
    if r.Raised? {
      CrashReports(j, t, r.error);
    } else {
      ClosedReports(j, w, t, f, r.value);
    }
  }

  /** Totality.  Once reset is attempted, every run ends in one coherent receipt, except exactly
      when the exception that reaches the handler is a runner violation with an empty code; a run
      refused before that raises, and an unsupported contract is itself a receipt. */
  lemma {:induction false} RunAlwaysReports(j: Job, w: World)
    requires JobOk(j)
    ensures RunTrial(j, w).outcome.Returned? <==>
            Preflight(j) && (Unsupported(j) || (j.sessionReady && Caught(j, w) != Some(Violation(""))))
    ensures RunTrial(j, w).outcome.Returned? ==> Coherent(RunTrial(j, w).outcome.value)
  {
    if RunTrial(j, w).outcome.Returned? { ReportedCoherent(j, w); }
    if Attempted(j) {
      AttemptEnds(j, w);
      EndsNamed(j, w);
      var (s, p) := Attempt(j, w);
      if p.Broken? {
        CrashReports(j, s, p.error);
      } else {
        AttemptKeeps(j, w);
        SettleReports(j, w, s);
      }
    } else {
      UnsupportedReports(j);
    }
  }

  predicate Named<T>(reply: Reply<T>) {
    reply != Raised(Violation(""))
  }

  /** Nothing in the environment raises a runner violation with an empty code. */
  ghost predicate WellNamed(j: Job, w: World) {
    && Named(w.reset) && Named(w.policyReset) && Named(w.observe)
    && (forall n: nat :: Named(w.clock(n)) && Named(w.infer(n)) && Named(w.execute(n)) && Named(w.commit(n)))
    && (j.channel.Online? ==>
          && (forall a, r :: Named(j.channel.stream(a, r)))
          && (forall a, b :: Named(j.channel.validate(a, b))))
  }

  lemma {:induction false} DeliverNamed(s: Session, ts: seq<Transition>, n: nat)
    requires n <= |ts|
    requires s.channel.Online? ==> forall a, r :: Named(s.channel.stream(a, r))
    ensures DeliverFirst(s, ts, n).1 != Raised(Violation(""))
  {
    if n > 0 {
      DeliverNamed(s, ts, n - 1);
      DeliverChannel(s, ts, n - 1);
    }
  }

  lemma {:induction false} WalkNamed(ts: seq<Transition>, i: nat, c: EpisodeContext, step: int, terminal: bool,
                                     native: Option<nat>)
    requires i <= |ts|
    ensures WalkBatch(ts, i, c, step, terminal, native) != Raised(Violation(""))
    decreases |ts| - i
  {
    if i < |ts| { WalkNamed(ts, i + 1, c, step, !ts[i].signal.Running?, Some(ts[i].nativeStep)); }
  }

  lemma {:induction false} CycleNamed(j: Job, w: World, s: State)
    requires WellNamed(j, w) && s.current.Some? && s.session.channel == j.channel
    ensures Cycle(j, w, s).1 != Broken(Violation(""))
  {
    var (asked, plan) := Consult(w, s);
    if plan.Returned? && Requested(j, asked, plan.value) >= 1 {
      ActNamed(j, w, asked, plan.value);
      var (acted, batch) := Act(j, w, asked, plan.value);
      if batch.Returned? {
        BatchVerdictExact(batch.value, Requested(j, asked, plan.value), Context(j), asked.observations, asked.native);
        HandNamed(j, w, acted, plan.value, batch.value);
      }
    }
  }

  lemma {:induction false} ActNamed(j: Job, w: World, s: State, plan: ActionPlan)
    requires WellNamed(j, w) && 1 <= Requested(j, s, plan)
    ensures Act(j, w, s, plan).1 != Raised(Violation(""))
    ensures Act(j, w, s, plan).0.session == s.session && Act(j, w, s, plan).0.cycles == s.cycles + 1
  {
    var executed := w.execute(s.cycles);
    if executed.Returned? {
      WalkNamed(executed.value.transitions, 0, Context(j), s.observations, false, s.native);
    }
  }

  lemma {:induction false} HandNamed(j: Job, w: World, s: State, plan: ActionPlan, b: Batch)
    requires WellNamed(j, w) && s.session.channel == j.channel
    requires 1 <= |b.transitions| <= |plan.actions| && 1 <= s.cycles
    ensures Hand(w, s, plan, b).1 != Broken(Violation(""))
  {
    DeliverNamed(s.session, b.transitions, |b.transitions|);
  }

  lemma {:induction false} LoopNamed(j: Job, w: World, s: State)
    requires WellNamed(j, w) && s.current.Some? && s.session.channel == j.channel
    ensures Loop(j, w, s).1 != Broken(Violation(""))
    decreases j.spec.maxControlCycles - s.cycles
  {
    CycleNamed(j, w, s);
    CycleChannel(j, w, s);
    if Cycle(j, w, s).1.Going? { LoopNamed(j, w, Cycle(j, w, s).0); }
  }

  lemma {:induction false} CaughtNamed(j: Job, w: World)
    requires JobOk(j) && WellNamed(j, w)
    ensures Caught(j, w) != Some(Violation(""))
  {
    AttemptNamed(j, w);
    AttemptEnds(j, w);
    var (s, q) := Attempt(j, w);
    if q.Halted? {
      EndsNamed(j, w);
      AttemptKeeps(j, w);
      ConcludeReports(j, s);
      FinalizeNamed(s.session);
    }
  }

  lemma {:induction false} FinalizeNamed(s: Session)
    requires Schedulable(s.channel)
    requires s.channel.Online? ==> forall a, b :: Named(s.channel.validate(a, b))
    ensures Finalize(s).1 != Raised(Violation(""))
  {
    if s.channel.Online? { assert Named(s.channel.validate(s.clean, s.delivered)); }
  }

  lemma {:induction false} AttemptNamed(j: Job, w: World)
    requires WellNamed(j, w)
    ensures Attempt(j, w).1 != Broken(Violation(""))
  {
    var (prepared, p) := Prepare(j, w);
    if p.Going? && Greet(j, w, prepared).1.Going? { LoopNamed(j, w, Greet(j, w, prepared).0); }
  }

  /** Under an environment that names its violations, every attempted run is reported. */
  lemma {:induction false} WellNamedRunsReport(j: Job, w: World)
    requires JobOk(j) && Attempted(j) && WellNamed(j, w)
    ensures RunTrial(j, w).outcome.Returned? && Coherent(RunTrial(j, w).outcome.value)
  {
    CaughtNamed(j, w);
    RunAlwaysReports(j, w);
  }

  /** Whatever is reported is coherent. */
  lemma {:induction false} ReportedCoherent(j: Job, w: World)
    requires Schedulable(j.channel) && RunTrial(j, w).outcome.Returned?
    ensures Coherent(RunTrial(j, w).outcome.value)
  {
    AttemptEnds(j, w);
    if Attempted(j) { SettleCoherent(j, w, Attempt(j, w).0, Attempt(j, w).1); }
  }

  lemma {:induction false} SettleCoherent(j: Job, w: World, s: State, p: Progress)
    requires Schedulable(s.session.channel) && !p.Going? && (p.Halted? ==> !s.signal.Running?)
    requires Settle(j, w, s, p).outcome.Returned?
    ensures Coherent(Settle(j, w, s, p).outcome.value)
  {
    if p.Halted? {
      ConcludeCoherent(j, s);
      var (t, f, r) := Conclude(j, s);
      if r.Raised? { CrashCoherent(j, t, r.error); } else { ClosedCoherent(j, w, t, f, r.value); }
    } else {
      CrashCoherent(j, s, p.error);
    }
  }

  lemma {:induction false} CrashCoherent(j: Job, s: State, error: Exn)
    requires Schedulable(s.session.channel)
    ensures Crashed(j, s, error).2.Returned? ==> Coherent(Crashed(j, s, error).2.value)
  {
  }

  lemma {:induction false} ConcludeCoherent(j: Job, s: State)
    requires Schedulable(s.session.channel) && !s.signal.Running?
    ensures Conclude(j, s).2.Returned? ==> Coherent(Conclude(j, s).2.value)
  {
  }

  lemma {:induction false} ClosedCoherent(j: Job, w: World, s: State, f: Option<Finalization>, normal: TrialResult)
    requires Coherent(normal)
    ensures Closed(j, w, s, f, normal).Returned? ==> Coherent(Closed(j, w, s, f, normal).value)
  {
  }

  /** The code the totality theorem excludes: a reset that raises a violation with an empty
      code escapes the runner without any receipt. */
  lemma {:induction false} SilentViolationEscapes(j: Job, w: World)
    requires JobOk(j) && Attempted(j) && w.reset == Raised(Violation(""))
    ensures RunTrial(j, w).outcome.Raised?
  {
    RunAlwaysReports(j, w);
  }
}
