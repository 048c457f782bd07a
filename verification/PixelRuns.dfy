/** Runs of the UniVTAC backend under a pixel fault: delivery, evidence and verdict. */
module PixelRuns {
  import opened Basics
  import opened OperatorParameters
  import opened Manifests
  import opened Records
  import opened PixelReference
  import opened PixelProperties
  import opened ValidationCodes
  import opened Validators
  import opened DeliveryProperties
  import opened StreamingProperties
  import opened PixelStreaming
  import opened PixelStreamingProperties
  import opened Delivery
  import opened RunnerChecks
  import opened Runner
  import opened RunnerInvariant
  import opened RunnerProperties
  import opened Chronology
  import opened RunnerChronology
  import opened StreamingFaithful
  import opened BackendRunner
  import opened BackendRuns
  import opened DependableRuns
  import B = Backend

  /** The channel of a pixel fault: its session, gated by the rest frames' calibration and judged by
      the validator. */
  ghost predicate PixelStreams(channel: Channel, g: Gauge, rest: Option<RestBundle>) {
    && Validates(channel, g, rest) && IsPixel(channel.manifest.instance.op)
    && (forall r :: channel.calibrated(r) <==> Calibrated(channel.manifest, rest, r))
    && (forall before: Trace, r ::
          channel.stream(before, r) == PixelStreamAt(g.kernels, channel.manifest, rest, before + [r], |before|))
  }

  /** A picture that the fault can be painted on: of the rest frame's shape, and large enough for
      the F5 map and the F7 filter. */
  predicate Paintable(m: FaultManifest, rest: Option<RestBundle>, slot: Slot, p: Picture)
    requires ParametersFit(m.instance.op, m.parameters)
  {
    && (NeedsBaseline(m.instance.op) ==> rest.Some? && SameShape(p, rest.value.payloads.At(slot)))
    && (m.instance.op.F5? ==> ShortSide(p) > 5 * m.parameters.displacement)
    && (m.instance.op.F7? ==> AnchorRadius(p) >= 1)
  }

  /** The rest frames are those of the manifest and of this backend's calibration, and the cameras
      of the simulator see only paintable pictures. */
  ghost predicate Suits(c: B.Config, sim: B.Simulator, m: FaultManifest, rest: Option<RestBundle>)
    requires ParametersFit(m.instance.op, m.parameters)
  {
    && (NeedsRest(m.instance.op) ==>
          rest.Some? && forall s <- m.instance.slots :: rest.value.calibration.At(s) == c.calibration)
    && (NeedsBaseline(m.instance.op) ==> rest.Some? && rest.value.address == m.parameters.rest)
    && forall n: nat, s: Slot :: sim.frame(n).Returned? && s in m.instance.slots ==>
         Paintable(m, rest, s, sim.frame(n).value.touch.At(s).pixels)
  }

  lemma {:induction false} PaintableReads(m: FaultManifest, rest: Option<RestBundle>, clean: Trace, i: nat, slot: Slot,
                                          p: Picture)
    requires ManifestOk(m) && IsPixel(m.instance.op) && i < |clean| && clean[i].Sensor(slot).payload == Some(p)
    requires Paintable(m, rest, slot, p)
    requires NeedsBaseline(m.instance.op) ==> rest.Some? && rest.value.address == m.parameters.rest
    ensures FrameReadable(clean, m, rest, i, slot) && FilterFits(clean, m, i, slot)
  {
    if m.instance.op.F5? { WarpNeverFoldsOrLeaves(p, m); }
  }

  /** Whatever this backend makes of suitable frames can be read, and is large enough. */
  lemma {:induction false} SuitedTrace(c: B.Config, sim: B.Simulator, e: EpisodeContext, m: FaultManifest,
                                       rest: Option<RestBundle>, clean: Trace)
    requires ManifestOk(m) && IsPixel(m.instance.op) && Suits(c, sim, m, rest) && MadeTrace(c, sim, e, clean)
    ensures Measurable(clean, m, rest) && forall i :: 0 <= i < |clean| ==> FramesFit(clean, m, i)
  {
    forall i, s | 0 <= i < |clean| && s in m.instance.slots
      ensures FrameReadable(clean, m, rest, i, s) && FilterFits(clean, m, i, s)
    {
      SuitedFrame(c, sim, e, m, rest, clean, i, s);
    }
  }

  lemma {:induction false} SuitedFrame(c: B.Config, sim: B.Simulator, e: EpisodeContext, m: FaultManifest,
                                       rest: Option<RestBundle>, clean: Trace, i: nat, slot: Slot)
    requires ManifestOk(m) && IsPixel(m.instance.op) && Suits(c, sim, m, rest) && MadeTrace(c, sim, e, clean)
    requires i < |clean| && slot in m.instance.slots
    ensures FrameReadable(clean, m, rest, i, slot) && FilterFits(clean, m, i, slot)
  {
    assert Made(c, sim, e, clean[i], i);
    var n: nat :| sim.frame(n).Returned? && ShowsTouch(sim.frame(n).value, clean[i]);
    PaintableReads(m, rest, clean, i, slot, sim.frame(n).value.touch.At(slot).pixels);
  }

  /** A record of this backend bears its calibration. */
  lemma {:induction false} MadeCalibrated(c: B.Config, sim: B.Simulator, e: EpisodeContext, m: FaultManifest,
                                          rest: Option<RestBundle>, r: EvaluationRecord, step: nat)
    requires ManifestOk(m) && Suits(c, sim, m, rest) && Made(c, sim, e, r, step)
    ensures Calibrated(m, rest, r)
  {
    assert IdentityOf(r) == IdentityFor(c, e);
    forall s: Slot ensures r.Prov(s).calibrationHash == c.calibration {
      assert SlotIdentityOf(r, s) == SlotIdentityFor(c, s);
    }
  }

  /** The delivery of the next record of this backend. */
  lemma {:induction false} NextPainted(c: B.Config, sim: B.Simulator, e: EpisodeContext, k: Kernels, m: FaultManifest,
                                       rest: Option<RestBundle>, clean: Trace, r: EvaluationRecord)
    requires ManifestOk(m) && IsPixel(m.instance.op) && Suits(c, sim, m, rest)
    requires MadeTrace(c, sim, e, clean) && Made(c, sim, e, r, |clean|)
    ensures PixelStreamAt(k, m, rest, clean + [r], |clean|).Returned?
  {
    var now := clean + [r];
    MadeNextTrace(c, sim, e, clean, r);
    SuitedTrace(c, sim, e, m, rest, now);
    assert FramesFit(now, m, |clean|);
    MadeCalibrated(c, sim, e, m, rest, r, |clean|);
    PixelRecord(k, m, rest, now, |clean|);
  }

  lemma {:induction false} DeliversPainted(s: Session, c: B.Config, sim: B.Simulator, e: EpisodeContext, g: Gauge,
                                           rest: Option<RestBundle>, r: EvaluationRecord)
    requires PixelStreams(s.channel, g, rest) && Suits(c, sim, s.channel.manifest, rest)
    requires Smooth(s, c, sim, e) && Made(c, sim, e, r, |s.clean|)
    ensures DeliverTo(s, r).1.Returned? && SmoothAfter(s, 1, DeliverTo(s, r).0, c, sim, e)
  {
    var m := s.channel.manifest;
    NextPainted(c, sim, e, g.kernels, m, rest, s.clean, r);
    MadeCalibrated(c, sim, e, m, rest, r, |s.clean|);
    MadeNextTrace(c, sim, e, s.clean, r);
    assert s.channel.stream(s.clean, r) == PixelStreamAt(g.kernels, m, rest, s.clean + [r], |s.clean|);
  }

  lemma {:induction false} PixelDependable(channel: Channel, c: B.Config, sim: B.Simulator, e: EpisodeContext,
                                           g: Gauge, rest: Option<RestBundle>)
    requires PixelStreams(channel, g, rest) && Suits(c, sim, channel.manifest, rest)
    ensures Dependable(channel, c, sim, e)
  {
    forall s: Session, r: EvaluationRecord
      | s.channel == channel && Smooth(s, c, sim, e) && Made(c, sim, e, r, |s.clean|)
      ensures DeliverTo(s, r).1.Returned? && SmoothAfter(s, 1, DeliverTo(s, r).0, c, sim, e)
    {
      DeliversPainted(s, c, sim, e, g, rest, r);
    }
  }

  // ------------------------------------------------------------------ whole sessions

  /** What is painted on a record reads nothing later. */
  lemma {:induction false} RepaintReadsPast(k: Kernels, m: FaultManifest, rest: Option<RestBundle>, clean: Trace,
                                            i: nat, output: EvaluationRecord, slots: seq<Slot>)
    requires ManifestOk(m) && IsPixel(m.instance.op) && i < |clean|
    ensures Repaint(k, m, rest, clean[..i] + [clean[i]], i, output, slots)
            == Repaint(k, m, rest, clean, i, output, slots)
    decreases |slots|
  {
    if slots != [] {
      PictureReadsPast(k, m, rest, clean, i, slots[0]);
      var p := SlotPicture(k, m, rest, clean, i, slots[0]);
      if p.Returned? {
        var next := PaintOver(m, clean[i], output, slots[0], p.value);
        if next.Returned? { RepaintReadsPast(k, m, rest, clean, i, next.value, slots[1..]); }
      }
    }
  }

  lemma {:induction false} PictureReadsPast(k: Kernels, m: FaultManifest, rest: Option<RestBundle>, clean: Trace,
                                            i: nat, slot: Slot)
    requires ManifestOk(m) && IsPixel(m.instance.op) && i < |clean|
    ensures SlotPicture(k, m, rest, clean[..i] + [clean[i]], i, slot) == SlotPicture(k, m, rest, clean, i, slot)
  {
    var past := clean[..i] + [clean[i]];
    assert past[i] == clean[i] && past == clean[..i + 1];
    if m.instance.op.F6? && m.Active(i) && rest.Some? {
      ImprintCausal(clean, i + 1, rest.value.payloads.At(slot), slot, m, i);
    }
  }

  lemma {:induction false} PixelReadsPast(k: Kernels, m: FaultManifest, rest: Option<RestBundle>, clean: Trace, i: nat)
    requires ManifestOk(m) && IsPixel(m.instance.op) && i < |clean|
    ensures PixelStreamAt(k, m, rest, clean[..i] + [clean[i]], i) == PixelStreamAt(k, m, rest, clean, i)
  {
    RepaintReadsPast(k, m, rest, clean, i, clean[i], m.instance.slots);
  }

  /** What a session has delivered under a pixel fault is the reference delivery. */
  lemma {:induction false} SessionPaints(s: Session, g: Gauge, rest: Option<RestBundle>)
    requires PixelStreams(s.channel, g, rest) && Traced(s) && |s.clean| == |s.delivered|
    ensures PixelStreamed(g.kernels, s.channel.manifest, rest, s.clean, s.delivered)
  {
    var m := s.channel.manifest;
    forall i | 0 <= i < |s.clean| ensures PixelStreamAt(g.kernels, m, rest, s.clean, i) == Returned(s.delivered[i]) {
      PixelReadsPast(g.kernels, m, rest, s.clean, i);
      assert DeliveredAs(s.channel, s.clean[..i], s.clean[i], s.delivered[i]);
    }
  }

  lemma {:induction false} PaintedSealed(k: Kernels, m: FaultManifest, rest: Option<RestBundle>, clean: Trace,
                                         delivered: Trace)
    requires ManifestOk(m) && IsPixel(m.instance.op) && CleanTraceOk(clean) && TraceReadable(clean, m, rest)
    requires PixelStreamed(k, m, rest, clean, delivered)
    ensures Sealed(clean, delivered)
  {
    forall i | 0 <= i < |clean|
      ensures HashesFresh(clean[i]) && delivered[i].deliveredHash == Sha(delivered[i].content)
      ensures delivered[i].cleanHash == Sha(clean[i].content)
    {
      PixelRecord(k, m, rest, clean, i);
      assert CleanRecordOk(clean[i], i) && PixelStreamAt(k, m, rest, clean, i) == Returned(delivered[i]);
    }
  }

  lemma {:induction false} WholePainted(s: Session, c: B.Config, sim: B.Simulator, e: EpisodeContext, g: Gauge,
                                        rest: Option<RestBundle>)
    requires PixelStreams(s.channel, g, rest) && Suits(c, sim, s.channel.manifest, rest)
    requires WholeSession(s, c, sim, e)
    ensures Sealed(s.clean, s.delivered) && CleanTraceOk(s.clean) && Measurable(s.clean, s.channel.manifest, rest)
    ensures PixelStreamed(g.kernels, s.channel.manifest, rest, s.clean, s.delivered)
  {
    MadeClean(c, sim, e, s.clean);
    SessionPaints(s, g, rest);
    SuitedTrace(c, sim, e, s.channel.manifest, rest, s.clean);
    PaintedSealed(g.kernels, s.channel.manifest, rest, s.clean, s.delivered);
  }

  lemma {:induction false} PixelFaithful(channel: Channel, e: EpisodeContext, g: Gauge, rest: Option<RestBundle>)
    requires PixelStreams(channel, g, rest)
    ensures Faithful(channel, e)
  {
    PixelFaultsAreFaithful(channel, g.kernels, rest, e);
  }

  lemma {:induction false} PixelGoverned(channel: Channel, c: B.Config, sim: B.Simulator, e: EpisodeContext, g: Gauge,
                                         rest: Option<RestBundle>)
    requires PixelStreams(channel, g, rest) && Suits(c, sim, channel.manifest, rest)
    ensures Governed(channel, c, sim, e, g, rest)
  {
    PixelFaithful(channel, e, g, rest);
    forall s: Session | s.channel == channel && WholeSession(s, c, sim, e)
      ensures Sealed(s.clean, s.delivered) && Measurable(s.clean, channel.manifest, rest)
    {
      WholePainted(s, c, sim, e, g, rest);
    }
  }

  // ------------------------------------------------------------------ the theorems

  /** Under a pixel fault whose rest frames and cameras suit it, no run of this backend fails in
      delivery, but for the reading of the clock before the first cycle. */
  lemma {:induction false} PixelDeliveryNeverBreaks(c: B.Config, sim: B.Simulator, j: Job, w: World, g: Gauge,
                                                    rest: Option<RestBundle>)
    requires B.ConfigOk(c) && Backs(c, sim, j, w)
    requires PixelStreams(j.channel, g, rest) && Suits(c, sim, j.channel.manifest, rest)
    ensures var (s, p) := Attempt(j, w);
            p.Broken? && s.stage.DeliveryStage? ==> s.cycles == 0 && w.clock(1) == Raised(p.error)
  {
    PixelDependable(j.channel, c, sim, Context(j), g, rest);
    DependableDelivery(c, sim, j, w);
  }

  /** The evidence of such a run is rejected exactly when the last execute it asked for raised. */
  lemma {:induction false} PixelEvidenceAccepted(c: B.Config, sim: B.Simulator, j: Job, w: World, g: Gauge,
                                                 rest: Option<RestBundle>)
    requires B.ConfigOk(c) && Backs(c, sim, j, w) && JobOk(j) && Attempted(j)
    requires PixelStreams(j.channel, g, rest) && Suits(c, sim, j.channel.manifest, rest)
    requires RunTrial(j, w).finalization.Some? && RunTrial(j, w).outcome.Returned?
    ensures var r := RunTrial(j, w);
            var b := r.outcome.value.body;
            Accepts(j.trial, j.spec, b, r.finalization.value, r.entries) <==> !LostExecute(w, b.controlCycleCount)
  {
    PixelDependable(j.channel, c, sim, Context(j), g, rest);
    PixelFaithful(j.channel, Context(j), g, rest);
    DependableEvidence(c, sim, j, w);
  }

  /** Such a run is rejected by the validator if and only if no exception reached the runner,
      everything closed, and the fault did not take effect on the clean trace, a dose diagnostic
      spoke, or the fault was to be restored after the end. */
  lemma {:induction false} PixelRejectedExactly(c: B.Config, sim: B.Simulator, j: Job, w: World, g: Gauge,
                                                rest: Option<RestBundle>)
    requires B.ConfigOk(c) && Backs(c, sim, j, w) && JobOk(j) && Attempted(j)
    requires PixelStreams(j.channel, g, rest) && Suits(c, sim, j.channel.manifest, rest)
    ensures var (o, m, s) := (RunTrial(j, w).outcome, j.channel.manifest, Attempt(j, w).0.session);
            (o.Returned? && o.value.body.terminalStatus.ValidatorRejected?) <==>
            && Caught(j, w).None? && CloseCodes(w) == []
            && (!PixelEffective(m, s.clean) || g.dose(s.clean, s.delivered, m) != [] || EndsEarly(j.trial, |s.clean|))
    ensures Caught(j, w).Some? <==> Attempt(j, w).1.Broken?
  {
    PixelGoverned(j.channel, c, sim, Context(j), g, rest);
    DependableVerdict(c, sim, j, w, g, rest);
    if Attempt(j, w).1.Halted? {
      HaltedWhole(c, sim, j, w);
      PaintPasses(Attempt(j, w).0.session, c, sim, Context(j), g, rest);
    }
    AttemptEnds(j, w);
  }

  lemma {:induction false} PaintPasses(s: Session, c: B.Config, sim: B.Simulator, e: EpisodeContext, g: Gauge,
                                       rest: Option<RestBundle>)
    requires PixelStreams(s.channel, g, rest) && Suits(c, sim, s.channel.manifest, rest)
    requires WholeSession(s, c, sim, e)
    ensures Passes(g, s.clean, s.delivered, s.channel.manifest, rest) <==>
            PixelEffective(s.channel.manifest, s.clean) && g.dose(s.clean, s.delivered, s.channel.manifest) == []
    ensures !NeverResumes(s.channel.manifest, |s.clean|)
  {
    WholePainted(s, c, sim, e, g, rest);
    PixelStreamAccepted(g, s.channel.manifest, s.clean, s.delivered, rest);
  }

  /** Every pixel fault has such a channel. */
  lemma {:induction false} PixelChannelExists(m: FaultManifest, g: Gauge, rest: Option<RestBundle>)
    returns (channel: Channel)
    requires ManifestOk(m) && IsPixel(m.instance.op)
    ensures channel.Online? && channel.manifest == m && PixelStreams(channel, g, rest) && ChannelOk(channel)
  {
    channel := Online(m, r => Calibrated(m, rest, r),
                      (before: Trace, r: EvaluationRecord) => PixelStreamAt(g.kernels, m, rest, before + [r], |before|),
                      (a: Trace, b: Trace) => Judgement(g, a, b, m, rest));
    forall a: Trace, b: Trace ensures channel.validate(a, b) == Judgement(g, a, b, m, rest) {}
  }
}
