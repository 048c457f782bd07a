/** Runs of the UniVTAC backend under a channel that delivers everything this backend makes: what
    becomes of their evidence, and when the validator rejects them. */
module DependableRuns {
  import opened Basics
  import opened Manifests
  import opened Trials
  import opened Records
  import opened ValidationCodes
  import opened PixelReference
  import opened Validators
  import opened DeliveryProperties
  import opened StreamingProperties
  import opened Delivery
  import opened Results
  import opened RunnerChecks
  import opened Runner
  import opened RunnerInvariant
  import opened RunnerProperties
  import opened RunnerReplies
  import opened RunnerSafety
  import opened Chronology
  import opened RunnerChronology
  import opened BackendRunner
  import opened BackendRuns
  import B = Backend

  // ------------------------------------------------------------------ the validator

  /** The contract of the validator. */
  ghost predicate Judges(r: Reply<Report>, g: Gauge, clean: Trace, delivered: Trace, m: FaultManifest,
                         rest: Option<RestBundle>)
    requires ManifestOk(m)
  {
    && (r.Returned? <==> (|clean| == |delivered| ==> Measurable(clean, m, rest)))
    && (r.Returned? ==>
          && ReportOk(r.value)
          && (forall c :: c in r.value.codes <==> c in Findings(g, clean, delivered, m, rest))
          && (|clean| == |delivered| ==> r.value.affected == Tally(ChangedTest(clean, delivered, m), 0, |clean|)))
  }

  /** A channel under a fault whose deliveries are judged by the validator. */
  ghost predicate Validates(channel: Channel, g: Gauge, rest: Option<RestBundle>) {
    && channel.Online? && ManifestOk(channel.manifest)
    && (forall a: Trace, b: Trace :: Judges(channel.validate(a, b), g, a, b, channel.manifest, rest))
  }

  ghost function Listed(found: set<FailureCode>): (codes: seq<FailureCode>)
    ensures Unique(codes) && forall c :: c in codes <==> c in found
  {
    if found == {} then []
    else
      var c :| c in found;
      Listed(found - {c}) + [c]
  }

  ghost function Judgement(g: Gauge, clean: Trace, delivered: Trace, m: FaultManifest, rest: Option<RestBundle>)
    : (r: Reply<Report>)
    requires ManifestOk(m)
    ensures Judges(r, g, clean, delivered, m, rest)
  {
    if |clean| == |delivered| && !Measurable(clean, m, rest) then Raised(OtherError)
    else
      var codes := Listed(Findings(g, clean, delivered, m, rest));
      var affected := if |clean| == |delivered| then Tally(ChangedTest(clean, delivered, m), 0, |clean|) else 0;
      Returned(Report(codes == [], codes, affected))
  }

  /** An A2 fault erases the last frame of a trace, or one it does not reach. */
  predicate NeverResumes(m: FaultManifest, n: int)
    requires ManifestOk(m)
  {
    m.instance.op.A2? && m.instance.start + m.parameters.erased[|m.parameters.erased| - 1] >= n - 1
  }

  /** A restored trial that ends before its restoration. */
  predicate EndsEarly(t: TrialManifest, n: int)
    requires TrialOk(t)
  {
    t.condition.Restored? && n <= t.restorationIndex.value
  }

  lemma {:induction false} NothingReported(report: Report, found: set<FailureCode>)
    requires ReportOk(report) && forall c :: c in report.codes <==> c in found
    ensures report.passed <==> found == {}
  {
    if report.codes != [] { assert report.codes[0] in found; }
  }

  lemma {:induction false} ResumeVerdict(m: FaultManifest, report: Report, clean: Trace)
    requires ManifestOk(m) && ReportOk(report)
    ensures WithA2Resume(m, report, clean).passed <==> report.passed && !NeverResumes(m, |clean|)
  {
  }

  /** The digests of two paired traces are their own. */
  predicate Sealed(clean: Trace, delivered: Trace)
    requires |clean| == |delivered|
  {
    forall i :: 0 <= i < |clean| ==>
      && HashesFresh(clean[i])
      && delivered[i].deliveredHash == Sha(delivered[i].content)
      && delivered[i].cleanHash == Sha(clean[i].content)
  }

  lemma {:induction false} SealedFinalizes(s: Session)
    requires Schedulable(s.channel) && s.channel.Online? && !s.finalized && s.clean != []
    requires |s.clean| == |s.delivered| && Sealed(s.clean, s.delivered)
    requires s.channel.validate(s.clean, s.delivered).Returned?
    ensures Finalize(s).1.Returned?
    ensures var f := Finalize(s).1.value;
            && f.clean == s.clean && f.delivered == s.delivered && f.manifest == Some(Sha(s.channel.manifest))
            && f.validation == Some(WithA2Resume(s.channel.manifest,
                                                 s.channel.validate(s.clean, s.delivered).value, s.clean))
  {
  }

  /** A session in which every record of the backend has its delivery. */
  ghost predicate WholeSession(s: Session, c: B.Config, sim: B.Simulator, e: EpisodeContext) {
    Traced(s) && |s.clean| == |s.delivered| && MadeTrace(c, sim, e, s.clean)
  }

  /** Whole sessions of a channel can be judged and sealed. */
  ghost predicate Gated(channel: Channel, c: B.Config, sim: B.Simulator, e: EpisodeContext, rest: Option<RestBundle>)
    requires channel.Online? && ManifestOk(channel.manifest)
  {
    forall s: Session :: s.channel == channel && WholeSession(s, c, sim, e) ==>
      Sealed(s.clean, s.delivered) && Measurable(s.clean, channel.manifest, rest)
  }

  /** A whole session finalizes, with this verdict. */
  lemma {:induction false} SessionVerdict(s: Session, c: B.Config, sim: B.Simulator, e: EpisodeContext, g: Gauge,
                                          rest: Option<RestBundle>)
    requires Validates(s.channel, g, rest) && Gated(s.channel, c, sim, e, rest) && WholeSession(s, c, sim, e)
    requires Schedulable(s.channel) && !s.finalized && s.clean != []
    ensures Finalize(s).1.Returned?
    ensures var (f, m) := (Finalize(s).1.value, s.channel.manifest);
            && f.validation.Some? && f.delivered == s.delivered
            && (f.validation.value.passed <==>
                  Passes(g, s.clean, s.delivered, m, rest) && !NeverResumes(m, |s.clean|))
  {
    var m, raw := s.channel.manifest, s.channel.validate(s.clean, s.delivered);
    assert Judges(raw, g, s.clean, s.delivered, m, rest);
    NothingReported(raw.value, Findings(g, s.clean, s.delivered, m, rest));
    SealedFinalizes(s);
    ResumeVerdict(m, raw.value, s.clean);
  }

  // ------------------------------------------------------------------ delivery never raises

  /** An open session with whole deliveries, of records that this backend made. */
  ghost predicate Smooth(s: Session, c: B.Config, sim: B.Simulator, e: EpisodeContext) {
    && !s.finalized && |s.clean| == |s.delivered| && MadeTrace(c, sim, e, s.clean)
    && (s.identity.Some? ==> s.identity.value == IdentityFor(c, e))
  }

  lemma {:induction false} MadeNextTrace(c: B.Config, sim: B.Simulator, e: EpisodeContext, clean: Trace,
                                         r: EvaluationRecord)
    requires MadeTrace(c, sim, e, clean) && Made(c, sim, e, r, |clean|)
    ensures MadeTrace(c, sim, e, clean + [r]) && CleanTraceOk(clean + [r])
  {
    MadeClean(c, sim, e, clean + [r]);
  }

  /** What a session that never fails has become after n deliveries. */
  ghost predicate SmoothAfter(s: Session, n: nat, t: Session, c: B.Config, sim: B.Simulator, e: EpisodeContext) {
    Smooth(t, c, sim, e) && t.channel == s.channel && |t.clean| == |s.clean| + n
  }

  /** A channel that delivers every record of the backend. */
  ghost predicate Dependable(channel: Channel, c: B.Config, sim: B.Simulator, e: EpisodeContext) {
    forall s: Session, r: EvaluationRecord ::
      s.channel == channel && Smooth(s, c, sim, e) && Made(c, sim, e, r, |s.clean|) ==>
        DeliverTo(s, r).1.Returned? && SmoothAfter(s, 1, DeliverTo(s, r).0, c, sim, e)
  }

  /** The first n deliveries of a batch all succeed. */
  ghost predicate Delivers(s: Session, c: B.Config, sim: B.Simulator, e: EpisodeContext, ts: seq<Transition>, n: nat)
    requires n <= |ts|
  {
    DeliverFirst(s, ts, n).1.Returned? && SmoothAfter(s, n, DeliverFirst(s, ts, n).0, c, sim, e)
  }

  lemma {:induction false} DeliversNone(s: Session, c: B.Config, sim: B.Simulator, e: EpisodeContext,
                                        ts: seq<Transition>)
    requires Smooth(s, c, sim, e)
    ensures Delivers(s, c, sim, e, ts, 0)
  {
  }

  lemma {:induction false} DeliversOneMore(s: Session, c: B.Config, sim: B.Simulator, e: EpisodeContext,
                                           ts: seq<Transition>, n: nat)
    requires Dependable(s.channel, c, sim, e) && MadeFrom(c, sim, e, ts, |s.clean|)
    requires n < |ts| && Delivers(s, c, sim, e, ts, n)
    ensures Delivers(s, c, sim, e, ts, n + 1)
  {
    var t := DeliverFirst(s, ts, n).0;
    assert Made(c, sim, e, ts[n].clean, |t.clean|);
    assert DeliverTo(t, ts[n].clean).1.Returned?;
  }

  /** So is a whole batch. */
  lemma {:induction false} DeliversBatch(s: Session, c: B.Config, sim: B.Simulator, e: EpisodeContext,
                                         ts: seq<Transition>, n: nat)
    requires Dependable(s.channel, c, sim, e) && Smooth(s, c, sim, e)
    requires MadeFrom(c, sim, e, ts, |s.clean|) && n <= |ts|
    ensures Delivers(s, c, sim, e, ts, n)
  {
    if n == 0 {
      DeliversNone(s, c, sim, e, ts);
    } else {
      DeliversBatch(s, c, sim, e, ts, n - 1);
      DeliversOneMore(s, c, sim, e, ts, n - 1);
    }
  }

  /** A cycle ends at the delivery stage when its own delivery failed, or when the clock did
      before it began. */
  lemma {:induction false} CycleStage(j: Job, w: World, s: State)
    requires s.current.Some?
    ensures var (t, p) := Cycle(j, w, s);
            t.stage.DeliveryStage? ==>
              || (s.stage.DeliveryStage? && t.cycles == s.cycles
                  && (p.Broken? ==> w.clock(s.cycles + 1) == Raised(p.error)))
              || (Asks(j, w, s).Some? && w.execute(s.cycles).Returned?
                  && var ts := w.execute(s.cycles).value.transitions;
                     DeliverFirst(s.session, ts, |ts|).1.Raised?)
  {
    var (asked, plan) := Consult(w, s);
    if Asks(j, w, s).Some? {
      var (acted, batch) := Act(j, w, asked, plan.value);
      if batch.Returned? {
        BatchVerdictExact(batch.value, Requested(j, asked, plan.value), Context(j), s.observations, s.native);
        assert Cycle(j, w, s) == Hand(w, acted, plan.value, batch.value);
        HandStage(w, acted, plan.value, batch.value);
      }
    }
  }

  lemma {:induction false} HandStage(w: World, s: State, plan: ActionPlan, b: Batch)
    requires 1 <= |b.transitions| <= |plan.actions| && 1 <= s.cycles
    ensures Hand(w, s, plan, b).0.stage.DeliveryStage? ==>
              DeliverFirst(s.session, b.transitions, |b.transitions|).1.Raised?
  {
  }

  /** Only the clock, before the first cycle, can fail at the delivery stage. */
  predicate Punctual(w: World, r: (State, Progress)) {
    r.0.stage.DeliveryStage? ==> r.0.cycles == 0 && (r.1.Broken? ==> w.clock(1) == Raised(r.1.error))
  }

  lemma {:induction false} CycleSmooth(c: B.Config, sim: B.Simulator, j: Job, w: World, s: State, b: B.State)
    requires B.ConfigOk(c) && s.current.Some? && Backed(c, sim, j, w, s, b) && Linked(j, s, b) && b.step >= 0
    requires Complete(s.session, s.observations) && (s.stage.DeliveryStage? ==> s.cycles == 0)
    requires Dependable(s.session.channel, c, sim, Context(j)) && Smooth(s.session, c, sim, Context(j))
    ensures Smooth(Cycle(j, w, s).0.session, c, sim, Context(j)) && Punctual(w, Cycle(j, w, s))
  {
    CycleDelivers(j, w, s);
    CycleStage(j, w, s);
    if Asks(j, w, s).Some? && w.execute(s.cycles).Returned? {
      ExecutedMade(c, sim, j, w, s, b);
      var ts := w.execute(s.cycles).value.transitions;
      DeliversBatch(s.session, c, sim, Context(j), ts, |ts|);
    }
  }

  lemma {:induction false} LoopSmooth(c: B.Config, sim: B.Simulator, j: Job, w: World, s: State, b: B.State)
    requires B.ConfigOk(c) && s.current.Some? && Backed(c, sim, j, w, s, b) && Linked(j, s, b) && b.step >= 0
    requires Steady(j, w, s) && !s.stage.InferStage? && s.signal.Running?
    requires Dependable(j.channel, c, sim, Context(j)) && Smooth(s.session, c, sim, Context(j))
    ensures Punctual(w, Loop(j, w, s))
    decreases j.spec.maxControlCycles - s.cycles
  {
    CycleSmooth(c, sim, j, w, s, b);
    var r := Cycle(j, w, s);
    if r.1.Going? {
      CycleKeeps(j, w, s);
      GoingAsks(j, w, s);
      LinkedCycle(c, sim, j, w, s, b);
      LoopSmooth(c, sim, j, w, r.0, B.ExecuteTo(c, sim, b, Asks(j, w, s).value).0);
    }
  }

  /** The initial record is delivered. */
  lemma {:induction false} GreetSmooth(c: B.Config, sim: B.Simulator, j: Job, w: World)
    requires B.ConfigOk(c) && Backs(c, sim, j, w) && Prepare(j, w).1.Going?
    requires Dependable(j.channel, c, sim, Context(j))
    ensures var (t, p) := Greet(j, w, Prepare(j, w).0);
            Smooth(t.session, c, sim, Context(j)) && (p.Broken? ==> !t.stage.DeliveryStage?)
  {
    var s := Prepare(j, w).0;
    if sim.frame(0).Returned? { ConvertedMade(c, sim, 0, Context(j), 0, B.Initially().contact); }
    if w.observe.Returned? {
      var r := w.observe.value;
      assert s.session == Opened(j.channel) && Smooth(s.session, c, sim, Context(j)) && Made(c, sim, Context(j), r, 0);
      assert DeliverTo(s.session, r).1.Returned?;
    }
  }

  lemma {:induction false} GreetedSmooth(c: B.Config, sim: B.Simulator, j: Job, w: World)
    requires B.ConfigOk(c) && Backs(c, sim, j, w) && Dependable(j.channel, c, sim, Context(j))
    requires Prepare(j, w).1.Going? && Greet(j, w, Prepare(j, w).0).1.Going?
    ensures Greet(j, w, Prepare(j, w).0).0.current.Some?
    ensures Punctual(w, Loop(j, w, Greet(j, w, Prepare(j, w).0).0))
  {
    ResetLinks(c, sim, j, w);
    GreetSmooth(c, sim, j, w);
    GreetLinks(j, w, Prepare(j, w).0);
    GreetSteady(j, w);
    LoopSmooth(c, sim, j, w, Greet(j, w, Prepare(j, w).0).0, Ready(c, sim, j));
  }

  lemma {:induction false} PrepareStage(j: Job, w: World)
    ensures !Prepare(j, w).0.stage.DeliveryStage?
  {
  }

  /** Under such a channel, no run of this backend fails in delivery: whatever breaks it at that
      stage is the reading of the clock before the first cycle. */
  lemma {:induction false} DependableDelivery(c: B.Config, sim: B.Simulator, j: Job, w: World)
    requires B.ConfigOk(c) && Backs(c, sim, j, w) && Dependable(j.channel, c, sim, Context(j))
    ensures var (s, p) := Attempt(j, w);
            p.Broken? && s.stage.DeliveryStage? ==> s.cycles == 0 && w.clock(1) == Raised(p.error)
  {
    PrepareStage(j, w);
    if Prepare(j, w).1.Going? {
      GreetSmooth(c, sim, j, w);
      if Greet(j, w, Prepare(j, w).0).1.Going? { GreetedSmooth(c, sim, j, w); }
    }
  }

  // ------------------------------------------------------------------ evidence and verdict

  /** The run crashed in the middle of a cycle, as its receipt tells. */
  predicate MidCycle(b: ResultBody) {
    && b.terminalStatus.Crash?
    && (b.failureStage == Some(ExecuteStage) || (b.failureStage == Some(DeliveryStage) && b.controlCycleCount >= 1))
  }

  /** The last execute that a run asked for raised. */
  predicate LostExecute(w: World, cycles: int) {
    cycles >= 1 && w.execute(cycles - 1).Raised?
  }

  /** The evidence of such a run is rejected exactly when the last execute it asked for raised. */
  lemma {:induction false} DependableEvidence(c: B.Config, sim: B.Simulator, j: Job, w: World)
    requires B.ConfigOk(c) && Backs(c, sim, j, w) && JobOk(j) && Attempted(j)
    requires Dependable(j.channel, c, sim, Context(j)) && Faithful(j.channel, Context(j))
    requires RunTrial(j, w).finalization.Some? && RunTrial(j, w).outcome.Returned?
    ensures var r := RunTrial(j, w);
            var b := r.outcome.value.body;
            Accepts(j.trial, j.spec, b, r.finalization.value, r.entries) <==> !LostExecute(w, b.controlCycleCount)
  {
    BackedEvidenceAccepted(c, sim, j, w);
    ReceiptTellsOf(j, w);
    AttemptBreaks(c, sim, j, w);
    MidCycleMeans(w, RunTrial(j, w).outcome.value.body, Attempt(j, w));
  }

  /** A receipt that tells of an attempt. */
  predicate TellsOf(b: ResultBody, r: (State, Progress)) {
    && b.controlCycleCount == r.0.cycles
    && (b.terminalStatus.Crash? && b.failureStage == Some(ExecuteStage) <==> r.1.Broken? && r.0.stage.ExecuteStage?)
    && (b.terminalStatus.Crash? && b.failureStage == Some(DeliveryStage) <==> r.1.Broken? && r.0.stage.DeliveryStage?)
  }

  /** Where an attempt breaks off: never in a delivery, and in execute exactly if that raised. */
  predicate Breaks(w: World, r: (State, Progress)) {
    && (r.1.Broken? && r.0.stage.DeliveryStage? ==> r.0.cycles == 0)
    && (r.1.Broken? && r.0.stage.ExecuteStage? <==> LostExecute(w, r.0.cycles))
  }

  lemma {:induction false} MidCycleMeans(w: World, b: ResultBody, r: (State, Progress))
    requires TellsOf(b, r) && Breaks(w, r)
    ensures MidCycle(b) <==> LostExecute(w, b.controlCycleCount)
  {
  }

  lemma {:induction false} AttemptBreaks(c: B.Config, sim: B.Simulator, j: Job, w: World)
    requires B.ConfigOk(c) && Backs(c, sim, j, w) && Dependable(j.channel, c, sim, Context(j))
    ensures Breaks(w, Attempt(j, w))
  {
    DependableDelivery(c, sim, j, w);
    ExecuteCrash(c, sim, j, w);
  }

  /** A run of this backend crashes in execute exactly when the last execute raised. */
  lemma {:induction false} ExecuteCrash(c: B.Config, sim: B.Simulator, j: Job, w: World)
    requires B.ConfigOk(c) && Backs(c, sim, j, w)
    ensures var (s, p) := Attempt(j, w);
            p.Broken? && s.stage.ExecuteStage? <==> LostExecute(w, s.cycles)
  {
    BackendNeverViolates(c, sim, j, w);
    AttemptExecutes(j, w);
  }

  lemma {:induction false} ReceiptTellsOf(j: Job, w: World)
    requires JobOk(j) && Attempted(j) && RunTrial(j, w).outcome.Returned?
    ensures TellsOf(RunTrial(j, w).outcome.value.body, Attempt(j, w))
  {
    AttemptEnds(j, w);
    SettleStages(j, w, Attempt(j, w).0, Attempt(j, w).1);
    ReceiptTells(j, w);
  }

  /** What the verdict depends on: what the validator finds, and what the run saw of the end. */
  ghost predicate Refuses(g: Gauge, m: FaultManifest, t: TrialManifest, clean: Trace, delivered: Trace,
                          rest: Option<RestBundle>)
    requires ManifestOk(m) && TrialOk(t)
  {
    !Passes(g, clean, delivered, m, rest) || NeverResumes(m, |clean|) || EndsEarly(t, |clean|)
  }

  /** A channel whose sessions, whole, are faithful, judged and sealed. */
  ghost predicate Governed(channel: Channel, c: B.Config, sim: B.Simulator, e: EpisodeContext, g: Gauge,
                           rest: Option<RestBundle>)
  {
    Validates(channel, g, rest) && Gated(channel, c, sim, e, rest) && Faithful(channel, e)
  }

  /** A run that left its loop without an exception has a whole session. */
  lemma {:induction false} HaltedWhole(c: B.Config, sim: B.Simulator, j: Job, w: World)
    requires B.ConfigOk(c) && Backs(c, sim, j, w) && Attempt(j, w).1.Halted?
    ensures var s := Attempt(j, w).0.session;
            WholeSession(s, c, sim, Context(j)) && s.channel == j.channel && !s.finalized && s.clean != []
  {
    AttemptKeeps(j, w);
    AttemptTraced(j, w);
    RunMade(c, sim, j, w);
  }

  /** A whole session is refused exactly for these reasons. */
  lemma {:induction false} SessionRefused(s: Session, c: B.Config, sim: B.Simulator, e: EpisodeContext,
                                          t: TrialManifest, g: Gauge, rest: Option<RestBundle>)
    requires Governed(s.channel, c, sim, e, g, rest) && WholeSession(s, c, sim, e)
    requires Schedulable(s.channel) && !s.finalized && s.clean != [] && TrialOk(t)
    ensures Finalize(s).1.Returned?
    ensures Rejected(t, Finalize(s).1.value) <==> Refuses(g, s.channel.manifest, t, s.clean, s.delivered, rest)
  {
    SessionVerdict(s, c, sim, e, g, rest);
    assert forall i :: 0 <= i < |s.clean| ==> Made(c, sim, e, s.clean[i], i);
    FaithfulTrace(s, e);
    if t.condition.Restored? { RestorationSeenExactly(t, Finalize(s).1.value, e); }
  }

  /** How a receipt comes to be a rejection. */
  lemma {:induction false} SettleRejects(j: Job, w: World, s: State, p: Progress)
    requires Schedulable(s.session.channel) && !p.Going? && (p.Halted? ==> !s.signal.Running?)
    ensures var o := Settle(j, w, s, p).outcome;
            (o.Returned? && o.value.body.terminalStatus.ValidatorRejected?) <==>
            && p.Halted? && Conclude(j, s).2.Returned? && CloseCodes(w) == []
            && Rejected(j.trial, Finalize(s.session).1.value)
  {
  }

  /** A run that left its loop without an exception concludes, with this verdict. */
  lemma {:induction false} HaltedConcludes(c: B.Config, sim: B.Simulator, j: Job, w: World, s: State, g: Gauge,
                                           rest: Option<RestBundle>)
    requires B.ConfigOk(c) && Backs(c, sim, j, w) && JobOk(j) && Attempt(j, w) == (s, Halted)
    requires Governed(j.channel, c, sim, Context(j), g, rest)
    ensures s.session.channel == j.channel && !s.signal.Running? && Conclude(j, s).2.Returned?
    ensures Finalize(s.session).1.Returned?
    ensures Rejected(j.trial, Finalize(s.session).1.value)
            <==> Refuses(g, j.channel.manifest, j.trial, s.session.clean, s.session.delivered, rest)
  {
    HaltedWhole(c, sim, j, w);
    SessionRefused(s.session, c, sim, Context(j), j.trial, g, rest);
    EndsNamed(j, w);
    AttemptKeeps(j, w);
    ConcludeReports(j, s);
  }

  /** Under such a channel, a run of this backend is rejected by the validator if and only if no
      exception reached the runner, everything closed, and the validator found something, the fault
      never resumed, or was to be restored after the end. */
  lemma {:induction false} DependableVerdict(c: B.Config, sim: B.Simulator, j: Job, w: World, g: Gauge,
                                             rest: Option<RestBundle>)
    requires B.ConfigOk(c) && Backs(c, sim, j, w) && JobOk(j) && Attempted(j)
    requires Governed(j.channel, c, sim, Context(j), g, rest)
    ensures var (o, s) := (RunTrial(j, w).outcome, Attempt(j, w).0.session);
            (o.Returned? && o.value.body.terminalStatus.ValidatorRejected?) <==>
            && Caught(j, w).None? && CloseCodes(w) == []
            && Refuses(g, j.channel.manifest, j.trial, s.clean, s.delivered, rest)
    ensures Caught(j, w).Some? <==> Attempt(j, w).1.Broken?
  {
    var (s, p) := Attempt(j, w);
    AttemptEnds(j, w);
    SettleRejects(j, w, s, p);
    if p.Halted? { HaltedConcludes(c, sim, j, w, s, g, rest); }
  }
}
