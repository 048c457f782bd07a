/** Delivery sessions: a gated clean stream, one delivery per record, one audited receipt. */
module Delivery {
  import opened Basics
  import opened Manifests
  import opened Records
  import opened ValidationCodes

  /** How records are delivered: untouched, or through a fault whose streaming step and
      validation are given. */
  datatype Channel =
    | Identity
    | Online(manifest: FaultManifest, calibrated: EvaluationRecord -> bool,
             stream: (Trace, EvaluationRecord) -> Reply<EvaluationRecord>,
             validate: (Trace, Trace) -> Reply<Report>)

  /** What trace digests cover. */
  datatype TraceContent =
    | CleanRecords(records: seq<Content>)
    | FaultRecords(manifest: Sha<FaultManifest>, records: seq<Content>)
    | EmptyTrace(kind: string)

  datatype Finalization = Finalization(clean: Trace, delivered: Trace, validation: Option<Report>,
                                       cleanTrace: Sha<TraceContent>, deliveredTrace: Sha<TraceContent>,
                                       manifest: Option<Sha<FaultManifest>>)

  function Contents(trace: Trace): seq<Content> {
    seq(|trace|, i requires 0 <= i < |trace| => trace[i].content)
  }

  /** The receipt's own checks. */
  predicate FinalizationOk(f: Finalization) {
    && 0 < |f.clean| == |f.delivered|
    && (forall i :: 0 <= i < |f.clean| ==>
          && HashesFresh(f.clean[i])
          && f.delivered[i].deliveredHash == Sha(f.delivered[i].content)
          && f.delivered[i].cleanHash == Sha(f.clean[i].content))
    && f.cleanTrace == Sha(CleanRecords(Contents(f.clean)))
    && (if f.validation.None?
        then f.manifest.None? && f.deliveredTrace == Sha(CleanRecords(Contents(f.delivered)))
             && f.clean == f.delivered
        else f.manifest.Some?
             && f.deliveredTrace == Sha(FaultRecords(f.manifest.value, Contents(f.delivered))))
  }

  /** What must not change between the records of one stream. */
  datatype StreamIdentity = StreamIdentity(episodeId: EpisodeId, task: string, seed: int,
                                           sensorsLeftFirst: bool, slots: PerSlot<SlotIdentity>)
  datatype SlotIdentity = SlotIdentity(physicalSource: string, frameId: string, calibrationId: string,
                                       calibration: Sha<string>)

  function SlotIdentityOf(r: EvaluationRecord, s: Slot): SlotIdentity {
    SlotIdentity(r.Prov(s).physicalSource, r.Sensor(s).frameId, r.Sensor(s).calibrationId,
                 r.Prov(s).calibrationHash)
  }

  function IdentityOf(r: EvaluationRecord): StreamIdentity {
    var o := r.Observed();
    StreamIdentity(o.episodeId, o.task, o.seed, o.tactile.leftFirst,
                   PerSlot(SlotIdentityOf(r, Left), SlotIdentityOf(r, Right), r.content.provenance.leftFirst))
  }

  datatype Session = Session(channel: Channel, clean: Trace, delivered: Trace,
                             identity: Option<StreamIdentity>, finalized: bool)

  function Opened(channel: Channel): Session {
    Session(channel, [], [], None, false)
  }

  /** The gate every clean record passes before delivery. */
  predicate Admits(s: Session, r: EvaluationRecord) {
    && !s.finalized
    && (s.channel.Online? && s.clean == [] ==> s.channel.calibrated(r))
    && r.Observed().stepIndex == |s.clean| && HashesFresh(r) && FaultFree(r)
    && (s.identity.Some? ==> IdentityOf(r) == s.identity.value)
  }

  /** One delivery; a failing streaming step still leaves the clean record appended. */
  function DeliverTo(s: Session, r: EvaluationRecord): (Session, Reply<EvaluationRecord>) {
    if !Admits(s, r) then (s, Raised(OtherError))
    else
      var appended := s.(clean := s.clean + [r], identity := Some(IdentityOf(r)));
      var step := if s.channel.Identity? then Returned(r) else s.channel.stream(s.clean, r);
      if step.Raised? then (appended, step)
      else (appended.(delivered := s.delivered + [step.value]), step)
  }

  /** Adds the missing-resume code to an A2 report whose last erasure ends the trace. */
  function WithA2Resume(m: FaultManifest, report: Report, clean: Trace): Report
    requires m.instance.op.A2? ==> m.parameters.FrameErasure? && m.parameters.erased != []
  {
    if !m.instance.op.A2? then report
    else
      var last := m.instance.start + m.parameters.erased[|m.parameters.erased| - 1];
      if last < |clean| - 1 || A2ResumeMissing in report.codes then report
      else Report(false, report.codes + [A2ResumeMissing], report.affected)
  }

  ghost predicate ChannelOk(c: Channel) {
    c.Online? ==> ManifestOk(c.manifest)
                  && forall a, b :: c.validate(a, b).Returned? ==> ReportOk(c.validate(a, b).value)
  }

  /** Manifests of a usable channel always have an A2 schedule to look at. */
  predicate Schedulable(c: Channel) {
    c.Online? && c.manifest.instance.op.A2? ==>
      c.manifest.parameters.FrameErasure? && c.manifest.parameters.erased != []
  }

  function Receipt(s: Session, report: Option<Report>): Finalization {
    var cleanTrace := Sha(CleanRecords(Contents(s.clean)));
    if s.channel.Identity? then Finalization(s.clean, s.delivered, None, cleanTrace, cleanTrace, None)
    else Finalization(s.clean, s.delivered, report, cleanTrace,
                      Sha(FaultRecords(Sha(s.channel.manifest), Contents(s.delivered))),
                      Some(Sha(s.channel.manifest)))
  }

  /** Closes a session with its receipt; a refused receipt leaves it open. */
  function Finalize(s: Session): (Session, Reply<Finalization>)
    requires Schedulable(s.channel)
  {
    if s.finalized || s.clean == [] then (s, Raised(OtherError))
    else
      var report: Reply<Option<Report>> :=
        if s.channel.Identity? then Returned(None)
        else
          var raw := s.channel.validate(s.clean, s.delivered);
          if raw.Raised? then Raised(raw.error)
          else Returned(Some(WithA2Resume(s.channel.manifest, raw.value, s.clean)));
      if report.Raised? then (s, Raised(report.error))
      else
        var f := Receipt(s, report.value);
        if FinalizationOk(f) then (s.(finalized := true), Returned(f)) else (s, Raised(OtherError))
  }

  /** A receipt, once issued, covers the whole session and reports coherently. */
  lemma {:induction false} FinalizeSound(s: Session)
    requires ChannelOk(s.channel) && Schedulable(s.channel) && Finalize(s).1.Returned?
    ensures var f := Finalize(s).1.value;
            && FinalizationOk(f) && f.clean == s.clean && f.delivered == s.delivered
            && (f.validation.None? <==> s.channel.Identity?)
            && (f.validation.Some? ==> ReportOk(f.validation.value))
            && Finalize(s).0.finalized
  {
    if s.channel.Online? {
      var raw := s.channel.validate(s.clean, s.delivered);
      assert raw.Returned? && ReportOk(raw.value);
    }
  }

  /** The session object the runner drives. */
  class DeliverySession {
    const channel: Channel
    var clean: Trace
    var delivered: Trace
    var identity: Option<StreamIdentity>
    var finalized: bool

    function View(): Session
      reads this
    {
      Session(channel, clean, delivered, identity, finalized)
    }

    constructor (channel: Channel)
      ensures View() == Opened(channel) && this.channel == channel
    {
      this.channel, clean, delivered, identity, finalized := channel, [], [], None, false;
    }

    method Deliver(r: EvaluationRecord) returns (reply: Reply<EvaluationRecord>)
      modifies this
      ensures (View(), reply) == DeliverTo(old(View()), r)
    {
      if finalized || (channel.Online? && clean == [] && !channel.calibrated(r)) { return Raised(OtherError); }
      if r.Observed().stepIndex != |clean| || !HashesFresh(r) || !FaultFree(r) { return Raised(OtherError); }
      if identity.Some? && IdentityOf(r) != identity.value { return Raised(OtherError); }
      var before := clean;
      identity := Some(IdentityOf(r));
      clean := clean + [r];
      if channel.Identity? {
        reply := Returned(r);
      } else {
        reply := channel.stream(before, r);
        if reply.Raised? { return; }
      }
      delivered := delivered + [reply.value];
    }

    method Finish() returns (reply: Reply<Finalization>)
      requires Schedulable(channel)
      modifies this
      ensures (View(), reply) == Finalize(old(View()))
    {
      if finalized || clean == [] { return Raised(OtherError); }
      var report: Option<Report> := None;
      if channel.Online? {
        var raw := channel.validate(clean, delivered);
        if raw.Raised? { return Raised(raw.error); }
        report := Some(WithA2Resume(channel.manifest, raw.value, clean));
      }
      var receipt := Receipt(View(), report);
      if !FinalizationOk(receipt) { return Raised(OtherError); }
      finalized := true;
      return Returned(receipt);
    }
  }
}
