/** From a run to its published bundle: which runs of the UniVTAC backend can be published. */
module PublishedRuns {
  import opened Basics
  import opened OperatorParameters
  import opened Manifests
  import opened Trials
  import opened ValidationCodes
  import opened Validators
  import opened Delivery
  import opened Results
  import opened RunnerChecks
  import opened Runner
  import opened RunnerInvariant
  import opened RunnerProperties
  import opened RunnerSafety
  import opened Chronology
  import opened BackendRunner
  import opened BackendRuns
  import opened DependableRuns
  import opened ArtifactLoading
  import opened RootReceipts
  import opened BundleArtifacts
  import opened BundlePublication
  import B = Backend

  /** What a reported run hands to the evaluator. */
  function ExecutionOf(r: RunReport): Execution
    requires r.outcome.Returned?
  {
    Execution(r.outcome.value, r.finalization, r.entries)
  }

  // ------------------------------------------------------------------ where the evidence comes from

  lemma {:induction false} SettleFinalizes(j: Job, w: World, s: State, p: Progress)
    requires Schedulable(s.session.channel) && !p.Going? && (p.Halted? ==> !s.signal.Running?)
    requires Settle(j, w, s, p).finalization.Some?
    ensures Finalize(s.session).1 == Returned(Settle(j, w, s, p).finalization.value)
  {
    if p.Halted? { ReceiptOnce(s.session); }
  }

  /** A session that has been finalized is not finalized again. */
  lemma {:induction false} ReceiptOnce(s: Session)
    requires Schedulable(s.channel) && Finalize(s).1.Returned?
    ensures Finalize(s).0 == s.(finalized := true) && Finalize(Finalize(s).0).1.Raised?
  {
  }

  /** The evidence of a run is what finalizing its whole session gives. */
  lemma {:induction false} EvidenceWhole(c: B.Config, sim: B.Simulator, j: Job, w: World, s: Session)
    requires B.ConfigOk(c) && Backs(c, sim, j, w) && JobOk(j) && Attempted(j) && s == Attempt(j, w).0.session
    requires RunTrial(j, w).finalization.Some?
    ensures s.channel == j.channel && Finalize(s).1 == Returned(RunTrial(j, w).finalization.value)
    ensures WholeSession(s, c, sim, Context(j)) && !s.finalized && s.clean != []
  {
    AttemptEnds(j, w);
    SettleFinalizes(j, w, Attempt(j, w).0, Attempt(j, w).1);
    FinalizeSound(s);
    AttemptTraced(j, w);
    RunMade(c, sim, j, w);
  }

  /** A finalized session is judged: if its report passes, it is the validator's own. */
  lemma {:induction false} FinalAgreed(s: Session, c: B.Config, sim: B.Simulator, e: EpisodeContext, g: Gauge,
                                       f: Finalization)
    requires Validates(s.channel, g, None) && Gated(s.channel, c, sim, e, None) && WholeSession(s, c, sim, e)
    requires Schedulable(s.channel) && !s.finalized && s.clean != [] && Finalize(s).1 == Returned(f)
    ensures f.clean == s.clean && f.delivered == s.delivered && f.manifest == Some(Sha(s.channel.manifest))
    ensures f.validation.Some?
    ensures f.validation.value.passed ==> Agreed(g, f.clean, f.delivered, s.channel.manifest, f.validation.value)
  {
    var m, raw := s.channel.manifest, s.channel.validate(s.clean, s.delivered);
    assert Judges(raw, g, s.clean, s.delivered, m, None);
    SealedFinalizes(s);
    if WithA2Resume(m, raw.value, s.clean).passed { PassedAgrees(g, m, raw.value, s.clean, s.delivered); }
  }

  /** A report that passes the A2 check is the validator's, untouched. */
  lemma {:induction false} PassedAgrees(g: Gauge, m: FaultManifest, report: Report, clean: Trace, delivered: Trace)
    requires ManifestOk(m) && |clean| == |delivered| && Measurable(clean, m, None)
    requires Judges(Returned(report), g, clean, delivered, m, None) && WithA2Resume(m, report, clean).passed
    ensures Agreed(g, clean, delivered, m, WithA2Resume(m, report, clean))
  {
    NothingReported(report, Findings(g, clean, delivered, m, None));
  }

  // ------------------------------------------------------------------ what a receipt claims

  /** A result and its evidence name each other, and a pass on record is the validator's. */
  ghost predicate Bound(g: Gauge, t: TrialManifest, spec: RunSpec, fault: FaultManifest, b: ResultBody,
                        f: Finalization, report: Report, entries: seq<ActionEntry>)
    requires ManifestOk(fault)
  {
    && (t.condition.Faulted? || t.condition.Restored?) && t.faultManifest == Some(Sha(fault))
    && b.trial == Sha(t) && b.pairKey == PairKey(t) && b.runSpec == Sha(spec) && b.actionTrace == Sha(entries)
    && b.cleanTrace == f.cleanTrace && b.deliveredTrace == f.deliveredTrace
    && f.validation == Some(report) && f.manifest == Some(Sha(fault))
    && (b.validationPassed == Some(true) ==>
          report.passed && b.validationCodes == report.codes && Agreed(g, f.clean, f.delivered, fault, report))
  }

  /** The caps of a bundle and of its loader hold the evidence. */
  ghost predicate Storable(l: Lengths, t: TrialManifest, spec: RunSpec, fault: FaultManifest, result: TrialResult,
                           f: Finalization, report: Report, entries: seq<ActionEntry>)
  {
    var contents := StoredContents(t, spec, fault, result, f, report, entries);
    CapsOk(l, contents, l.root(ReceiptOf(l, t, spec, fault, result, contents))) && EvidenceLoadable(entries, f)
  }

  lemma {:induction false} BoundWritable(g: Gauge, t: TrialManifest, spec: RunSpec, fault: FaultManifest,
                                         ev: Execution, f: Finalization, report: Report)
    requires ManifestOk(fault) && ev.finalization == Some(f)
    requires Bound(g, t, spec, fault, ev.result.body, f, report, ev.entries)
    ensures Writable(t, spec, fault, ev) <==>
            && ev.result.body.validationPassed == Some(true) && !NeedsRest(fault.instance.op)
            && Accepts(t, spec, ev.result.body, f, ev.entries)
  {
  }

  lemma {:induction false} BoundLinked(g: Gauge, t: TrialManifest, spec: RunSpec, fault: FaultManifest,
                                       ev: Execution, f: Finalization, report: Report)
    requires ManifestOk(fault) && Bound(g, t, spec, fault, ev.result.body, f, report, ev.entries)
    requires ev.result.body.validationPassed == Some(true)
    ensures Agreed(g, f.clean, f.delivered, fault, report)
    ensures CrossLinked(t, spec, fault, ev.result, Evidence(ev.entries, f), ReportDocOf(f, report),
                   LinksOf(t, spec, fault, ev.result))
  {
  }

  lemma {:induction false} BoundPublishes(l: Lengths, g: Gauge, t: TrialManifest, spec: RunSpec, fault: FaultManifest,
                                          ev: Execution, f: Finalization, report: Report)
    requires ManifestOk(fault) && ev.finalization == Some(f)
    requires Bound(g, t, spec, fault, ev.result.body, f, report, ev.entries)
    ensures Publishable(l, g, t, spec, fault, ev) <==>
            Writable(t, spec, fault, ev) && Storable(l, t, spec, fault, ev.result, f, report, ev.entries)
  {
    if Writable(t, spec, fault, ev) { BoundLinked(g, t, spec, fault, ev, f, report); }
  }

  /** A coherent receipt that says validated lists no code. */
  lemma {:induction false} ValidatedCodes(r: TrialResult)
    requires Coherent(r) && r.body.validationPassed == Some(true)
    ensures r.body.validationCodes == []
  {
  }

  /** The receipt and the evidence of a run are bound to each other. */
  lemma {:induction false} RunBound(c: B.Config, sim: B.Simulator, j: Job, w: World, g: Gauge, r: RunReport,
                                    f: Finalization)
    requires B.ConfigOk(c) && Backs(c, sim, j, w) && JobOk(j) && Attempted(j)
    requires Governed(j.channel, c, sim, Context(j), g, None)
    requires r == RunTrial(j, w) && r.finalization == Some(f) && r.outcome.Returned?
    ensures f.validation.Some?
    ensures Bound(g, j.trial, j.spec, j.channel.manifest, r.outcome.value.body, f, f.validation.value, r.entries)
  {
    var s := Attempt(j, w).0.session;
    EvidenceWhole(c, sim, j, w, s);
    FinalAgreed(s, c, sim, Context(j), g, f);
    ReceiptTells(j, w);
    RunAlwaysReports(j, w);
    if r.outcome.value.body.validationPassed == Some(true) {
      ValidatedCodes(r.outcome.value);
      FinalizeSound(s);
    }
  }

  // ------------------------------------------------------------------ the theorem

  /** The evidence of a run can be published if and only if its receipt says validated, the operator
      needs no rest frames, the chronology is accepted, and the caps hold it. */
  lemma {:induction false} RunPublishes(l: Lengths, c: B.Config, sim: B.Simulator, j: Job, w: World, g: Gauge,
                                        ev: Execution, f: Finalization)
    requires B.ConfigOk(c) && Backs(c, sim, j, w) && JobOk(j) && Attempted(j)
    requires Governed(j.channel, c, sim, Context(j), g, None)
    requires RunTrial(j, w).outcome.Returned? && ev == ExecutionOf(RunTrial(j, w)) && ev.finalization == Some(f)
    ensures f.validation.Some?
    ensures Publishable(l, g, j.trial, j.spec, j.channel.manifest, ev) <==>
            && ev.result.body.validationPassed == Some(true) && !NeedsRest(j.channel.manifest.instance.op)
            && Accepts(j.trial, j.spec, ev.result.body, f, ev.entries)
            && Storable(l, j.trial, j.spec, j.channel.manifest, ev.result, f, f.validation.value, ev.entries)
  {
    RunBound(c, sim, j, w, g, RunTrial(j, w), f);
    BoundWritable(g, j.trial, j.spec, j.channel.manifest, ev, f, f.validation.value);
    BoundPublishes(l, g, j.trial, j.spec, j.channel.manifest, ev, f, f.validation.value);
  }

  /** From the run to the published bundle: under a channel that delivers and judges everything
      this backend makes, the evidence of a run is published if and only if its receipt says
      validated, the operator needs no rest frames, the last execute did not raise, and the caps of
      the bundle and of its loader hold it.  Chronology, digests, cross-links and the second
      validation refuse nothing else. */
  lemma {:induction false} PublishedExactly(l: Lengths, c: B.Config, sim: B.Simulator, j: Job, w: World, g: Gauge,
                                            ev: Execution, f: Finalization)
    requires B.ConfigOk(c) && Backs(c, sim, j, w) && JobOk(j) && Attempted(j)
    requires Governed(j.channel, c, sim, Context(j), g, None) && Dependable(j.channel, c, sim, Context(j))
    requires RunTrial(j, w).outcome.Returned? && ev == ExecutionOf(RunTrial(j, w)) && ev.finalization == Some(f)
    ensures f.validation.Some?
    ensures Publishable(l, g, j.trial, j.spec, j.channel.manifest, ev) <==>
            && ev.result.body.validationPassed == Some(true) && !NeedsRest(j.channel.manifest.instance.op)
            && !LostExecute(w, ev.result.body.controlCycleCount)
            && Storable(l, j.trial, j.spec, j.channel.manifest, ev.result, f, f.validation.value, ev.entries)
  {
    RunPublishes(l, c, sim, j, w, g, ev, f);
    DependableEvidence(c, sim, j, w);
  }
}
