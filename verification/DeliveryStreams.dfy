/** What a delivery session admits: one fault-free stream, from its first record on. */
module DeliveryStreams {
  import opened Basics
  import opened Records
  import opened Delivery
  import opened ValidationCodes

  /** A clean record at its own step, with fresh digests and no fault on either slot. */
  predicate Sound(r: EvaluationRecord, step: int) {
    && r.content.observation.stepIndex == step
    && r.cleanHash == Sha(r.content) && r.deliveredHash == Sha(r.content)
    && forall s: Slot :: r.content.provenance.At(s).faults == []
  }

  /** Two records of one stream: the same episode, sensors and calibrations, in the same order. */
  predicate Alike(a: EvaluationRecord, b: EvaluationRecord) {
    var (o, q) := (a.content.observation, b.content.observation);
    && o.episodeId == q.episodeId && o.task == q.task && o.seed == q.seed
    && o.tactile.leftFirst == q.tactile.leftFirst
    && a.content.provenance.leftFirst == b.content.provenance.leftFirst
    && forall s: Slot :: SlotAlike(a, b, s)
  }

  predicate SlotAlike(a: EvaluationRecord, b: EvaluationRecord, s: Slot) {
    && a.Sensor(s).frameId == b.Sensor(s).frameId && a.Sensor(s).calibrationId == b.Sensor(s).calibrationId
    && a.Prov(s).physicalSource == b.Prov(s).physicalSource && a.Prov(s).calibrationHash == b.Prov(s).calibrationHash
  }

  predicate OneStream(clean: Trace) {
    forall i :: 0 <= i < |clean| ==> Sound(clean[i], i) && Alike(clean[i], clean[0])
  }

  lemma {:induction false} AlikeExactly(a: EvaluationRecord, b: EvaluationRecord)
    ensures IdentityOf(a) == IdentityOf(b) <==> Alike(a, b)
  {
    if Alike(a, b) { assert SlotAlike(a, b, Left) && SlotAlike(a, b, Right); }
  }

  lemma {:induction false} SoundExactly(r: EvaluationRecord, step: int)
    ensures Sound(r, step) <==> r.Observed().stepIndex == step && HashesFresh(r) && FaultFree(r)
  {
  }

  /** An open session of one stream. */
  predicate Streaming(s: Session) {
    && !s.finalized && |s.delivered| <= |s.clean| && OneStream(s.clean)
    && (s.channel.Online? && s.clean != [] ==> s.channel.calibrated(s.clean[0]))
    && s.identity == if s.clean == [] then None else Some(IdentityOf(s.clean[0]))
  }

  /** A session after any number of deliveries, refused ones included. */
  function DeliverAll(channel: Channel, records: seq<EvaluationRecord>): Session {
    if records == [] then Opened(channel)
    else DeliverTo(DeliverAll(channel, records[..|records| - 1]), records[|records| - 1]).0
  }

  /** A record is admitted if and only if the stream with it is still one stream, whose first record the
      channel was calibrated for. */
  lemma {:induction false} AdmitsExactly(s: Session, r: EvaluationRecord)
    requires Streaming(s)
    ensures Admits(s, r) <==>
              OneStream(s.clean + [r]) && (s.channel.Online? ==> s.channel.calibrated((s.clean + [r])[0]))
  {
    var next := s.clean + [r];
    SoundExactly(r, |s.clean|);
    if s.clean != [] { AlikeExactly(r, s.clean[0]); }
    assert next[|s.clean|] == r;
    if Admits(s, r) {
      forall i | 0 <= i < |next| ensures Sound(next[i], i) && Alike(next[i], next[0]) {
        if i < |s.clean| { assert next[i] == s.clean[i] && next[0] == s.clean[0]; }
      }
    }
  }

  lemma {:induction false} DeliverStreams(s: Session, r: EvaluationRecord)
    requires Streaming(s)
    ensures Streaming(DeliverTo(s, r).0)
  {
    AdmitsExactly(s, r);
    if s.clean != [] && Admits(s, r) { AlikeExactly(r, s.clean[0]); }
  }

  /** Whatever is offered to a session, what it holds is one fault-free stream of one calibration, and a
      record is taken up exactly if it continues that stream. */
  lemma {:induction false} SessionsStream(channel: Channel, records: seq<EvaluationRecord>, r: EvaluationRecord)
    ensures var s := DeliverAll(channel, records);
            && Streaming(s) && s.channel == channel
            && DeliverTo(s, r).0.clean
               == if OneStream(s.clean + [r]) && (channel.Online? ==> channel.calibrated((s.clean + [r])[0]))
                  then s.clean + [r] else s.clean
  {
    SessionHolds(channel, records);
    AdmitsExactly(DeliverAll(channel, records), r);
  }

  lemma {:induction false} SessionHolds(channel: Channel, records: seq<EvaluationRecord>)
    ensures Streaming(DeliverAll(channel, records)) && DeliverAll(channel, records).channel == channel
  {
    if records != [] {
      SessionHolds(channel, records[..|records| - 1]);
      DeliverStreams(DeliverAll(channel, records[..|records| - 1]), records[|records| - 1]);
    }
  }
}
