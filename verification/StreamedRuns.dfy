/** Runs of the UniVTAC backend under a streamed fault: when the validator rejects them. */
module StreamedRuns {
  import opened Basics
  import opened Manifests
  import opened Records
  import opened ValidationCodes
  import opened PixelReference
  import opened Validators
  import opened DeliveryProperties
  import opened Streaming
  import opened StreamingProperties
  import opened Delivery
  import opened RunnerChecks
  import opened Runner
  import opened RunnerInvariant
  import opened RunnerProperties
  import opened Chronology
  import opened RunnerChronology
  import opened StreamingFaithful
  import opened BackendRunner
  import opened BackendRuns
  import opened DependableRuns
  import B = Backend

  /** The channel of a streamed fault: its reference session, judged by the validator. */
  ghost predicate Streams(channel: Channel, g: Gauge, rest: Option<RestBundle>) {
    && Validates(channel, g, rest) && Streamed(channel.manifest.instance.op)
    && (forall r :: channel.calibrated(r))
    && (forall before: Trace, r ::
          channel.stream(before, r) == StreamAt(channel.manifest, before + [r], |before|))
  }

  /** Every streamed fault has such a channel. */
  lemma {:induction false} ChannelExists(m: FaultManifest, g: Gauge, rest: Option<RestBundle>)
    returns (channel: Channel)
    requires ManifestOk(m) && Streamed(m.instance.op)
    ensures channel.Online? && channel.manifest == m && Streams(channel, g, rest) && ChannelOk(channel)
  {
    channel := Online(m, r => true, (before: Trace, r: EvaluationRecord) => StreamAt(m, before + [r], |before|),
                      (a: Trace, b: Trace) => Judgement(g, a, b, m, rest));
    forall a: Trace, b: Trace ensures channel.validate(a, b) == Judgement(g, a, b, m, rest) {}
  }

  /** What is delivered at an index reads nothing later. */
  lemma {:induction false} StreamReadsPast(m: FaultManifest, clean: Trace, i: nat)
    requires ManifestOk(m) && Streamed(m.instance.op) && i < |clean|
    ensures StreamAt(m, clean[..i] + [clean[i]], i) == StreamAt(m, clean, i)
  {
    assert (clean[..i] + [clean[i]])[..i + 1] == clean[..i + 1];
  }

  lemma {:induction false} StreamOne(s: Session, g: Gauge, rest: Option<RestBundle>, i: nat)
    requires Streams(s.channel, g, rest) && i < |s.clean|
    ensures s.channel.stream(s.clean[..i], s.clean[i]) == StreamAt(s.channel.manifest, s.clean, i)
  {
    StreamReadsPast(s.channel.manifest, s.clean, i);
  }

  /** What a session has delivered under a streamed fault is the reference delivery. */
  lemma {:induction false} SessionStreams(s: Session, g: Gauge, rest: Option<RestBundle>)
    requires Streams(s.channel, g, rest) && Traced(s) && |s.clean| == |s.delivered|
    ensures StreamedTrace(s.channel.manifest, s.clean, s.delivered)
  {
    forall i | 0 <= i < |s.clean| ensures StreamAt(s.channel.manifest, s.clean, i) == Returned(s.delivered[i]) {
      StreamOne(s, g, rest, i);
      assert DeliveredAs(s.channel, s.clean[..i], s.clean[i], s.delivered[i]);
    }
  }

  lemma {:induction false} StreamSealed(m: FaultManifest, clean: Trace, delivered: Trace)
    requires ManifestOk(m) && Streamed(m.instance.op) && CleanTraceOk(clean) && StreamedTrace(m, clean, delivered)
    ensures Sealed(clean, delivered)
  {
    forall i | 0 <= i < |clean|
      ensures HashesFresh(clean[i]) && delivered[i].deliveredHash == Sha(delivered[i].content)
      ensures delivered[i].cleanHash == Sha(clean[i].content)
    {
      StreamShape(m, clean, i);
      assert CleanRecordOk(clean[i], i) && StreamAt(m, clean, i) == Returned(delivered[i]);
    }
  }

  /** A record of the backend is always delivered. */
  lemma {:induction false} DeliversMade(s: Session, c: B.Config, sim: B.Simulator, e: EpisodeContext, g: Gauge,
                                        rest: Option<RestBundle>, r: EvaluationRecord)
    requires Streams(s.channel, g, rest) && Smooth(s, c, sim, e) && Made(c, sim, e, r, |s.clean|)
    ensures var (t, d) := DeliverTo(s, r);
            d.Returned? && Smooth(t, c, sim, e) && t.channel == s.channel && |t.clean| == |s.clean| + 1
  {
    var m := s.channel.manifest;
    MadeNextTrace(c, sim, e, s.clean, r);
    StreamShape(m, s.clean + [r], |s.clean|);
    assert s.channel.stream(s.clean, r) == StreamAt(m, s.clean + [r], |s.clean|);
  }

  lemma {:induction false} StreamsDependable(channel: Channel, c: B.Config, sim: B.Simulator, e: EpisodeContext,
                                             g: Gauge, rest: Option<RestBundle>)
    requires Streams(channel, g, rest)
    ensures Dependable(channel, c, sim, e)
  {
    forall s: Session, r: EvaluationRecord
      | s.channel == channel && Smooth(s, c, sim, e) && Made(c, sim, e, r, |s.clean|)
      ensures DeliverTo(s, r).1.Returned? && SmoothAfter(s, 1, DeliverTo(s, r).0, c, sim, e)
    {
      DeliversMade(s, c, sim, e, g, rest, r);
    }
  }

  lemma {:induction false} StreamsFaithful(channel: Channel, e: EpisodeContext, g: Gauge, rest: Option<RestBundle>)
    requires Streams(channel, g, rest)
    ensures Faithful(channel, e)
  {
    StreamedFaultsAreFaithful(channel, e);
  }

  /** Whole sessions are the reference deliveries: they can be judged, and are sealed. */
  lemma {:induction false} StreamsGoverned(channel: Channel, c: B.Config, sim: B.Simulator, e: EpisodeContext, g: Gauge,
                                           rest: Option<RestBundle>)
    requires Streams(channel, g, rest)
    ensures Governed(channel, c, sim, e, g, rest)
  {
    StreamsFaithful(channel, e, g, rest);
    forall s: Session | s.channel == channel && WholeSession(s, c, sim, e)
      ensures Sealed(s.clean, s.delivered) && Measurable(s.clean, channel.manifest, rest)
    {
      WholeSealed(s, c, sim, e, g, rest);
    }
  }

  lemma {:induction false} WholeSealed(s: Session, c: B.Config, sim: B.Simulator, e: EpisodeContext, g: Gauge,
                                       rest: Option<RestBundle>)
    requires Streams(s.channel, g, rest) && WholeSession(s, c, sim, e)
    ensures Sealed(s.clean, s.delivered) && CleanTraceOk(s.clean)
    ensures StreamedTrace(s.channel.manifest, s.clean, s.delivered)
  {
    MadeClean(c, sim, e, s.clean);
    SessionStreams(s, g, rest);
    StreamSealed(s.channel.manifest, s.clean, s.delivered);
  }

  /** Under a streamed fault, no run of this backend fails in delivery: whatever breaks it at that
      stage is the reading of the clock before the first cycle. */
  lemma {:induction false} DeliveryNeverBreaks(c: B.Config, sim: B.Simulator, j: Job, w: World, g: Gauge,
                                               rest: Option<RestBundle>)
    requires B.ConfigOk(c) && Backs(c, sim, j, w) && Streams(j.channel, g, rest)
    ensures var (s, p) := Attempt(j, w);
            p.Broken? && s.stage.DeliveryStage? ==> s.cycles == 0 && w.clock(1) == Raised(p.error)
  {
    StreamsDependable(j.channel, c, sim, Context(j), g, rest);
    DependableDelivery(c, sim, j, w);
  }

  /** The evidence of such a run is rejected exactly when the last execute it asked for raised. */
  lemma {:induction false} StreamedEvidenceAccepted(c: B.Config, sim: B.Simulator, j: Job, w: World, g: Gauge,
                                                    rest: Option<RestBundle>)
    requires B.ConfigOk(c) && Backs(c, sim, j, w) && Streams(j.channel, g, rest) && JobOk(j) && Attempted(j)
    requires RunTrial(j, w).finalization.Some? && RunTrial(j, w).outcome.Returned?
    ensures var r := RunTrial(j, w);
            var b := r.outcome.value.body;
            Accepts(j.trial, j.spec, b, r.finalization.value, r.entries) <==> !LostExecute(w, b.controlCycleCount)
  {
    StreamsDependable(j.channel, c, sim, Context(j), g, rest);
    StreamsFaithful(j.channel, Context(j), g, rest);
    DependableEvidence(c, sim, j, w);
  }

  /** Under a streamed fault, a run of this backend is rejected by the validator if and only if no
      exception reached the runner, everything closed, and the fault did not take effect on the
      clean trace, never resumed, or was to be restored after the end. */
  lemma {:induction false} RejectedExactly(c: B.Config, sim: B.Simulator, j: Job, w: World, g: Gauge,
                                           rest: Option<RestBundle>)
    requires B.ConfigOk(c) && Backs(c, sim, j, w) && Streams(j.channel, g, rest) && JobOk(j) && Attempted(j)
    ensures var (o, m, clean) := (RunTrial(j, w).outcome, j.channel.manifest, Attempt(j, w).0.session.clean);
            (o.Returned? && o.value.body.terminalStatus.ValidatorRejected?) <==>
            && Caught(j, w).None? && CloseCodes(w) == []
            && (!Effective(m, clean) || NeverResumes(m, |clean|) || EndsEarly(j.trial, |clean|))
    ensures Caught(j, w).Some? <==> Attempt(j, w).1.Broken?
  {
    StreamsGoverned(j.channel, c, sim, Context(j), g, rest);
    DependableVerdict(c, sim, j, w, g, rest);
    if Attempt(j, w).1.Halted? {
      HaltedWhole(c, sim, j, w);
      EffectPasses(Attempt(j, w).0.session, c, sim, Context(j), g, rest);
    }
    AttemptEnds(j, w);
  }

  lemma {:induction false} EffectPasses(s: Session, c: B.Config, sim: B.Simulator, e: EpisodeContext, g: Gauge,
                                        rest: Option<RestBundle>)
    requires Streams(s.channel, g, rest) && WholeSession(s, c, sim, e)
    ensures Passes(g, s.clean, s.delivered, s.channel.manifest, rest)
            <==> Effective(s.channel.manifest, s.clean)
  {
    WholeSealed(s, c, sim, e, g, rest);
    StreamAccepted(g, s.channel.manifest, s.clean, s.delivered, rest);
  }
}
