/** The runner against the independent checker of its evidence. */
module RunnerChronology {
  import opened Basics
  import opened Trials
  import opened Records
  import opened ValidationCodes
  import opened Delivery
  import opened Results
  import opened RunnerChecks
  import opened Runner
  import opened RunnerInvariant
  import opened RunnerProperties
  import opened RunnerSafety
  import opened Chronology

  /** A trace handed to the evaluator is the one finalized from the session of the attempt. */
  lemma {:induction false} EvidenceIsSession(j: Job, w: World)
    requires JobOk(j) && Attempted(j) && RunTrial(j, w).finalization.Some?
    ensures var (s, f) := (Attempt(j, w).0, RunTrial(j, w).finalization.value);
            && f.clean == s.session.clean && f.delivered == s.session.delivered && FinalizationOk(f)
  {
    AttemptEnds(j, w);
    SettleEvidence(j, w, Attempt(j, w).0, Attempt(j, w).1);
  }

  lemma {:induction false} SettleEvidence(j: Job, w: World, s: State, p: Progress)
    requires ChannelOk(s.session.channel) && Schedulable(s.session.channel)
    requires !p.Going? && (p.Halted? ==> !s.signal.Running?) && Settle(j, w, s, p).finalization.Some?
    ensures var f := Settle(j, w, s, p).finalization.value;
            && f.clean == s.session.clean && f.delivered == s.session.delivered && FinalizationOk(f)
  {
    if Finalize(s.session).1.Returned? {
      FinalizeSound(s.session);
    }
  }

  /** The books of a run whose evidence exists say that it delivered something; they balance
      exactly when its last cycle is complete. */
  lemma {:induction false} EvidenceBalances(j: Job, w: World)
    requires JobOk(j) && Attempted(j) && RunTrial(j, w).finalization.Some?
    ensures var s := Attempt(j, w).0;
            if s.cycles == |s.entries| then Steady(j, w, s) else Broke(j, w, s)
  {
    EvidenceIsSession(j, w);
    AttemptKeeps(j, w);
    AttemptEnds(j, w);
  }

  lemma {:induction false} SteadyInOrder(j: Job, w: World, s: State)
    requires Steady(j, w, s)
    ensures InOrder(j.spec, s.entries, s.session.delivered)
  {
    var stream := Observed(s.session.delivered);
    forall k | 0 <= k < |s.entries|
      ensures EntryInOrder(j.spec, s.entries[k], Executed(s.entries[..k]), s.session.delivered)
    {
      assert EntryFits(j, w, s.entries[k], k, stream[Executed(s.entries[..k])]);
    }
  }

  lemma {:induction false} CleanIdentified(c: EpisodeContext, clean: Trace)
    requires CleanStream(c, clean)
    ensures TraceOk(clean, c, true) <==> forall i :: 0 <= i < |clean| ==> RecordShaped(clean[i], i)
  {
    forall i | 0 <= i < |clean| ensures RecordIdentified(clean[i], i, c) && FaultFree(clean[i]) {
      assert CleanViolation(clean[i], c, i).None?;
    }
  }

  /** Evidence with complete cycles, as the checker sees it. */
  lemma {:induction false} BalancedAccepted(j: Job, w: World, s: State, b: ResultBody, f: Finalization)
    requires Steady(j, w, s) && f.clean == s.session.clean && f.delivered == s.session.delivered
    requires b.controlCycleCount == s.cycles && b.observationCount == s.observations
    ensures Accepts(j.trial, j.spec, b, f, s.entries) <==>
            TraceOk(f.clean, Context(j), true) && TraceOk(f.delivered, Context(j), false)
  {
    SteadyInOrder(j, w, s);
  }

  /** The runner against the checker, whatever the environment: evidence of an attempted run
      is accepted exactly when the last cycle is complete and each record, by itself, carries
      what only backend and delivery can provide: slot order, dense delivery indices, digests
      of the payloads, and (delivered) the identity of the clean record. */
  lemma {:induction false} EvidenceAcceptedExactly(j: Job, w: World)
    requires JobOk(j) && Attempted(j)
    requires RunTrial(j, w).finalization.Some? && RunTrial(j, w).outcome.Returned?
    ensures var (r, f) := (RunTrial(j, w), RunTrial(j, w).finalization.value);
            Accepts(j.trial, j.spec, r.outcome.value.body, f, r.entries) <==>
            && r.outcome.value.body.controlCycleCount == |r.entries|
            && (forall i :: 0 <= i < |f.clean| ==> RecordShaped(f.clean[i], i))
            && TraceOk(f.delivered, Context(j), false)
  {
    EvidenceIsSession(j, w);
    EvidenceBalances(j, w);
    ReceiptTells(j, w);
    var s, f := Attempt(j, w).0, RunTrial(j, w).finalization.value;
    CleanIdentified(Context(j), s.session.clean);
    if s.cycles == |s.entries| { BalancedAccepted(j, w, s, RunTrial(j, w).outcome.value.body, f); }
  }

  /** A last cycle is left incomplete exactly by an exception in execute, or in the delivery of
      the batch it returned; every run that ends otherwise, crash or not, has complete cycles. */
  lemma {:induction false} IncompleteExactly(j: Job, w: World)
    requires JobOk(j) && Attempted(j)
    requires RunTrial(j, w).finalization.Some? && RunTrial(j, w).outcome.Returned?
    ensures var (b, n) := (RunTrial(j, w).outcome.value.body, |RunTrial(j, w).entries|);
            && n <= b.controlCycleCount <= n + 1
            && (b.controlCycleCount == n + 1 <==>
                  && b.terminalStatus.Crash?
                  && (b.failureStage == Some(ExecuteStage)
                      || (b.failureStage == Some(DeliveryStage) && b.controlCycleCount >= 1)))
  {
    EvidenceBalances(j, w);
    ReceiptTells(j, w);
    AttemptKeeps(j, w);
    AttemptEnds(j, w);
    var (s, p) := Attempt(j, w);
    SettleStages(j, w, s, p);
  }

  /** Which stage a receipt names as failed. */
  lemma {:induction false} SettleStages(j: Job, w: World, s: State, p: Progress)
    requires Schedulable(s.session.channel) && !p.Going? && (p.Halted? ==> !s.signal.Running?)
    requires Settle(j, w, s, p).outcome.Returned?
    ensures var b := Settle(j, w, s, p).outcome.value.body;
            if p.Broken? then b.terminalStatus.Crash? && b.failureStage == Some(s.stage)
            else b.terminalStatus.Crash? ==>
                   b.failureStage == Some(ValidationStage) || b.failureStage == Some(CloseStage)
  {
  }

  // ------------------------------------------------------------------- faithful delivery

  /** A streaming step that turns well-formed histories into well-formed records of the same
      episode and step. */
  ghost predicate Faithful(channel: Channel, c: EpisodeContext) {
    channel.Online? ==>
      forall before: Trace, r: EvaluationRecord ::
        channel.stream(before, r).Returned? && TraceOk(before + [r], c, true) ==>
          RecordOk(channel.stream(before, r).value, |before|, c, false)
  }

  lemma {:induction false} FaithfulTrace(session: Session, c: EpisodeContext)
    requires Traced(session) && Faithful(session.channel, c) && TraceOk(session.clean, c, true)
    ensures TraceOk(session.delivered, c, false)
  {
    forall i | 0 <= i < |session.delivered| ensures RecordOk(session.delivered[i], i, c, false) {
      var before, r := session.clean[..i], session.clean[i];
      assert before + [r] == session.clean[..i + 1];
      assert DeliveredAs(session.channel, before, r, session.delivered[i]);
    }
  }

  /** With a faithful channel and a backend whose clean records are well-formed, evidence is
      accepted exactly when the run did not crash inside a cycle's execution or delivery; in
      particular every run that ends without a crash, and every crash on infer or on commit,
      is accepted, and every crash on execute is rejected. */
  lemma {:induction false} FaithfulEvidenceAccepted(j: Job, w: World)
    requires JobOk(j) && Attempted(j) && Faithful(j.channel, Context(j))
    requires RunTrial(j, w).finalization.Some? && RunTrial(j, w).outcome.Returned?
    requires forall i :: 0 <= i < |RunTrial(j, w).finalization.value.clean| ==>
               RecordShaped(RunTrial(j, w).finalization.value.clean[i], i)
    ensures var r := RunTrial(j, w);
            var b := r.outcome.value.body;
            Accepts(j.trial, j.spec, b, r.finalization.value, r.entries) <==>
            !(b.terminalStatus.Crash?
              && (b.failureStage == Some(ExecuteStage)
                  || (b.failureStage == Some(DeliveryStage) && b.controlCycleCount >= 1)))
  {
    EvidenceAcceptedExactly(j, w);
    IncompleteExactly(j, w);
    EvidenceIsSession(j, w);
    EvidenceClean(j, w);
    AttemptTraced(j, w);
    AttemptEnds(j, w);
    var s := Attempt(j, w).0;
    CleanIdentified(Context(j), s.session.clean);
    FaithfulTrace(s.session, Context(j));
  }

  lemma {:induction false} EvidenceClean(j: Job, w: World)
    requires JobOk(j) && Attempted(j) && RunTrial(j, w).finalization.Some?
    ensures CleanStream(Context(j), Attempt(j, w).0.session.clean)
  {
    EvidenceBalances(j, w);
  }

  /** A restored trial that is delivered faithfully sees its restoration exactly when it
      observes past the restoration index. */
  lemma {:induction false} RestorationSeenExactly(t: TrialManifest, f: Finalization, c: EpisodeContext)
    requires TrialOk(t) && t.condition.Restored? && TraceOk(f.delivered, c, false)
    ensures RestorationSeen(t, f) <==> t.restorationIndex.value < |f.delivered|
  {
    if t.restorationIndex.value < |f.delivered| {
      var r := f.delivered[t.restorationIndex.value];
      assert r in f.delivered && RecordOk(r, t.restorationIndex.value, c, false);
    }
  }
}
