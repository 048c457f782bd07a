/** What passing the delivery gate says of a record besides its payloads, field by field: what must
    be the clean record's own, and what the operator must have written. */
module DeliveryFields {
  import opened Basics
  import opened OperatorParameters
  import opened Manifests
  import opened Records
  import opened PixelReference
  import opened ValidationCodes
  import opened OperatorValidators
  import opened Validators
  import opened DeliveryProperties

  /** Nothing but touch was rewritten: who, what, when, the cameras and the joints are the clean ones. */
  predicate Bystanders(c: EvaluationRecord, d: EvaluationRecord) {
    var (clean, seen) := (c.content.observation, d.content.observation);
    && seen.episodeId == clean.episodeId && seen.task == clean.task && seen.seed == clean.seed
    && seen.stepIndex == clean.stepIndex
    && seen.vision == clean.vision
    && seen.proprio == clean.proprio
  }

  /** The slot carries the clean sensor and the clean provenance. */
  predicate Untouched(c: EvaluationRecord, d: EvaluationRecord, slot: Slot) {
    && d.content.observation.tactile.At(slot) == c.content.observation.tactile.At(slot)
    && d.content.provenance.At(slot) == c.content.provenance.At(slot)
  }

  /** The frames at which an availability operator withholds a payload. */
  predicate Withholds(m: FaultManifest, index: int) {
    var offset := index - m.instance.start;
    || (m.instance.op.A1? && m.parameters.StreamAbsence? && offset in m.parameters.affected)
    || (m.instance.op.A2? && m.parameters.FrameErasure? && offset in m.parameters.erased)
  }

  /** A slot that carries the operator's id confesses exactly as the observability mode says: flagged
      invalid if declared; else the clean validity with a payload, and none without one. */
  predicate Confesses(m: FaultManifest, clean: Sensor, seen: Sensor) {
    match m.observability
    case Declared => seen.validity == Some(false)
    case Blind => seen.validity == if seen.payload.Some? then clean.validity else None
  }

  /** A withheld payload is gone, with every trace of its source. */
  predicate Gone(m: FaultManifest, seen: Sensor, prov: Provenance) {
    && seen.payload.None?
    && prov.sourceIndex.None? && prov.sourceTime.None? && prov.payloadHash.None?
    && seen.validity == (match m.observability case Declared => Some(false) case Blind => None)
  }

  /** What a declared slot must be inside the window. */
  predicate Declares(m: FaultManifest, c: EvaluationRecord, d: EvaluationRecord, index: int, slot: Slot) {
    var seen, prov := d.content.observation.tactile.At(slot), d.content.provenance.At(slot);
    && (Untouched(c, d, slot) || m.instance.op in prov.faults)
    && (m.instance.op in prov.faults ==> Confesses(m, c.content.observation.tactile.At(slot), seen))
    && (prov.sourceIndex.Some? ==> prov.sourceIndex.value <= index)
    && (seen.payload.Some? ==> prov.payloadHash == Some(Sha(seen.payload.value)))
    && (if Withholds(m, index) then Gone(m, seen, prov)
        else if m.instance.op.A1? || m.instance.op.A2? then Untouched(c, d, slot)
        else seen.payload.Some?)
  }

  /** What an in-window record must be. */
  predicate Discloses(m: FaultManifest, c: EvaluationRecord, d: EvaluationRecord, index: int) {
    && Bystanders(c, d)
    && (forall slot: Slot :: slot !in m.instance.slots ==> Untouched(c, d, slot))
    && (forall slot: Slot :: slot in m.instance.slots ==> Declares(m, c, d, index, slot))
  }

  /** What a delivered record must be: honestly hashed, and the clean one outside the window. */
  predicate Keeps(m: FaultManifest, c: EvaluationRecord, d: EvaluationRecord, index: int) {
    && d.cleanHash == Sha(c.content) && d.deliveredHash == Sha(d.content)
    && (if m.instance.start <= index < m.instance.stop then Discloses(m, c, d, index) else d.content == c.content)
  }

  // --------------------------------------------------------------- codes and fields

  lemma {:induction false} DeclaresExactly(m: FaultManifest, c: EvaluationRecord, d: EvaluationRecord, index: int,
                                           slot: Slot)
    requires ParametersFit(m.instance.op, m.parameters)
    ensures SlotFindings(m, c, d, index, slot) == {} <==> Declares(m, c, d, index, slot)
  {
    if SlotFindings(m, c, d, index, slot) == {} {
      SlotPassed(m, c, d, index, slot);
      NoProvenanceCode(m, c, d, index, slot);
      NoPresenceCode(m, c, d, index, slot);
    }
    if Declares(m, c, d, index, slot) {
      DeclaredProvenance(m, c, d, index, slot);
      DeclaredPresence(m, c, d, index, slot);
    }
  }

  lemma {:induction false} NoProvenanceCode(m: FaultManifest, c: EvaluationRecord, d: EvaluationRecord, index: int,
                                            slot: Slot)
    requires forall code :: !ProvenanceViolates(code, m, c, d, index, slot)
    ensures var (seen, prov) := (d.Sensor(slot), d.Prov(slot));
            && (Untouched(c, d, slot) || m.instance.op in prov.faults)
            && (m.instance.op in prov.faults ==> Confesses(m, c.Sensor(slot), seen))
            && (prov.sourceIndex.Some? ==> prov.sourceIndex.value <= index)
            && (seen.payload.Some? ==> prov.payloadHash == Some(Sha(seen.payload.value)))
  {
    assert !ProvenanceViolates(MissingFaultProvenance, m, c, d, index, slot);
    assert !ProvenanceViolates(ObservabilityMismatch, m, c, d, index, slot);
    assert !ProvenanceViolates(FutureSource, m, c, d, index, slot);
    assert !ProvenanceViolates(SourcePayloadMismatch, m, c, d, index, slot);
  }

  lemma {:induction false} NoPresenceCode(m: FaultManifest, c: EvaluationRecord, d: EvaluationRecord, index: int,
                                          slot: Slot)
    requires ParametersFit(m.instance.op, m.parameters)
    requires forall code :: !PresenceViolates(code, m, c, d, index, slot)
    ensures if Withholds(m, index) then Gone(m, d.Sensor(slot), d.Prov(slot))
            else if m.instance.op.A1? || m.instance.op.A2? then Untouched(c, d, slot)
            else d.Sensor(slot).payload.Some?
  {
    assert !PresenceViolates(AbsenceNotStructural, m, c, d, index, slot);
    assert !PresenceViolates(AbsenceSourceNotNull, m, c, d, index, slot);
    assert !PresenceViolates(ObservabilityMismatch, m, c, d, index, slot);
    assert !PresenceViolates(NativeFootprintViolation, m, c, d, index, slot);
    assert !PresenceViolates(NonAvailabilityRemovedPayload, m, c, d, index, slot);
  }

  lemma {:induction false} DeclaredProvenance(m: FaultManifest, c: EvaluationRecord, d: EvaluationRecord,
                                              index: int, slot: Slot)
    requires Declares(m, c, d, index, slot)
    ensures forall code :: !ProvenanceViolates(code, m, c, d, index, slot)
  {
    forall code ensures !ProvenanceViolates(code, m, c, d, index, slot) {}
  }

  lemma {:induction false} DeclaredPresence(m: FaultManifest, c: EvaluationRecord, d: EvaluationRecord,
                                            index: int, slot: Slot)
    requires ParametersFit(m.instance.op, m.parameters) && Declares(m, c, d, index, slot)
    ensures forall code :: !PresenceViolates(code, m, c, d, index, slot)
  {
    forall code ensures !PresenceViolates(code, m, c, d, index, slot) {}
  }

  /** The codes of a record as a whole. */
  predicate Headed(m: FaultManifest, c: EvaluationRecord, d: EvaluationRecord, index: int) {
    && d.cleanHash == Sha(c.content) && d.deliveredHash == Sha(d.content)
    && (if m.instance.start <= index < m.instance.stop
        then Bystanders(c, d) && forall slot: Slot :: slot !in m.instance.slots ==> Untouched(c, d, slot)
        else d.content == c.content)
  }

  lemma {:induction false} HeadedExactly(m: FaultManifest, c: EvaluationRecord, d: EvaluationRecord, index: int)
    ensures (forall code :: !HeaderViolates(code, m, c, d, index)) <==> Headed(m, c, d, index)
  {
    if forall code :: !HeaderViolates(code, m, c, d, index) {
      assert !HeaderViolates(CleanReferenceMismatch, m, c, d, index);
      assert !HeaderViolates(StaleDeliveredHash, m, c, d, index);
      assert !HeaderViolates(OutsideWindowChanged, m, c, d, index);
      assert !HeaderViolates(WriteSetViolation, m, c, d, index);
    }
    if Headed(m, c, d, index) {
      forall code ensures !HeaderViolates(code, m, c, d, index) {}
    }
  }

  lemma {:induction false} SlotsClear(found: Slot -> set<FailureCode>, slots: seq<Slot>)
    ensures OverSlots(found, slots) == {} <==> forall s :: s in slots ==> found(s) == {}
  {
    if OverSlots(found, slots) == {} {
      forall s | s in slots ensures found(s) == {} { OverSlotsNothing(found, slots, s); }
    }
    if forall s :: s in slots ==> found(s) == {} {
      forall code ensures code !in OverSlots(found, slots) { OverSlotsMember(found, slots, code); }
    }
  }

  lemma {:induction false} RangeClear(found: int -> set<FailureCode>, lo: int, hi: int)
    ensures Over(found, lo, hi) == {} <==> forall i :: lo <= i < hi ==> found(i) == {}
  {
    if Over(found, lo, hi) == {} {
      forall i | lo <= i < hi ensures found(i) == {} { OverNothing(found, lo, hi, i); }
    }
    if forall i :: lo <= i < hi ==> found(i) == {} {
      forall code ensures code !in Over(found, lo, hi) { OverMember(found, lo, hi, code); }
    }
  }

  lemma {:induction false} KeepsExactly(m: FaultManifest, c: EvaluationRecord, d: EvaluationRecord, index: int)
    requires ParametersFit(m.instance.op, m.parameters)
    ensures RecordFindings(m, c, d, index) == {} <==> Keeps(m, c, d, index)
  {
    var header := set code: FailureCode | HeaderViolates(code, m, c, d, index);
    HeadedExactly(m, c, d, index);
    assert header == {} <==> forall code :: !HeaderViolates(code, m, c, d, index) by {
      if header == {} {
        forall code ensures !HeaderViolates(code, m, c, d, index) { assert code !in header; }
      }
    }
    if m.Active(index) {
      var found := s => SlotFindings(m, c, d, index, s);
      SlotsClear(found, m.instance.slots);
      forall s: Slot ensures found(s) == {} <==> Declares(m, c, d, index, s) {
        DeclaresExactly(m, c, d, index, s);
      }
      assert RecordFindings(m, c, d, index) == header + OverSlots(found, m.instance.slots);
    }
  }

  // --------------------------------------------------------------- whole deliveries

  predicate KeptAt(m: FaultManifest, clean: Trace, delivered: Trace, index: int) {
    0 <= index < |clean| && index < |delivered| && Keeps(m, clean[index], delivered[index], index)
  }

  /** Some in-window record differs from the clean one. */
  predicate ChangedAt(m: FaultManifest, clean: Trace, delivered: Trace, index: int) {
    && 0 <= index < |clean| && index < |delivered|
    && m.instance.start <= index < m.instance.stop && delivered[index].content != clean[index].content
  }

  /** The gate, field by field: a delivery passes if and only if it has the clean one's length, its
      signature can be measured, every record is what it must be, some in-window record is changed, and
      its operator finds nothing more. */
  lemma {:induction false} PassesExactly(g: Gauge, clean: Trace, delivered: Trace, m: FaultManifest,
                                         rest: Option<RestBundle>)
    requires ManifestOk(m)
    ensures Passes(g, clean, delivered, m, rest) <==>
              && |clean| == |delivered| && Measurable(clean, m, rest)
              && (forall i :: 0 <= i < |clean| ==> KeptAt(m, clean, delivered, i))
              && (exists i :: ChangedAt(m, clean, delivered, i))
              && OperatorFindings(g, clean, delivered, m, rest) == {}
  {
    if |clean| != |delivered| {
      assert LengthMismatch in Findings(g, clean, delivered, m, rest);
    } else if Measurable(clean, m, rest) {
      RecordsKept(clean, delivered, m);
      ChangedExactly(clean, delivered, m);
      FindingsClear(g, clean, delivered, m, rest);
    }
  }

  lemma {:induction false} FindingsClear(g: Gauge, clean: Trace, delivered: Trace, m: FaultManifest,
                                         rest: Option<RestBundle>)
    requires ManifestOk(m) && |clean| == |delivered| && Measurable(clean, m, rest)
    ensures Findings(g, clean, delivered, m, rest) == {} <==>
              && Over(RecordRow(clean, delivered, m), 0, |clean|) == {}
              && Anywhere(ChangedTest(clean, delivered, m), 0, |clean|)
              && OperatorFindings(g, clean, delivered, m, rest) == {}
  {
    if !Anywhere(ChangedTest(clean, delivered, m), 0, |clean|) {
      assert InactiveOperator in Findings(g, clean, delivered, m, rest);
    }
  }

  lemma {:induction false} RecordsKept(clean: Trace, delivered: Trace, m: FaultManifest)
    requires ManifestOk(m) && |clean| == |delivered|
    ensures Over(RecordRow(clean, delivered, m), 0, |clean|) == {} <==>
            forall i :: 0 <= i < |clean| ==> KeptAt(m, clean, delivered, i)
  {
    RangeClear(RecordRow(clean, delivered, m), 0, |clean|);
    forall i | 0 <= i < |clean|
      ensures RecordRow(clean, delivered, m)(i) == {} <==> KeptAt(m, clean, delivered, i)
    {
      KeepsExactly(m, clean[i], delivered[i], i);
    }
  }

  lemma {:induction false} ChangedExactly(clean: Trace, delivered: Trace, m: FaultManifest)
    requires |clean| == |delivered|
    ensures Anywhere(ChangedTest(clean, delivered, m), 0, |clean|)
            <==> exists i :: ChangedAt(m, clean, delivered, i)
  {
    AnywhereMeans(ChangedTest(clean, delivered, m), 0, |clean|);
    forall i ensures ChangedAt(m, clean, delivered, i) <==> 0 <= i < |clean| && ChangedTest(clean, delivered, m)(i) {}
  }

  /** A passing delivery leaves everything but declared touch alone, at every index. */
  lemma {:induction false} PassedBystanders(g: Gauge, clean: Trace, delivered: Trace, m: FaultManifest,
                                            rest: Option<RestBundle>, index: nat)
    requires ManifestOk(m) && Passes(g, clean, delivered, m, rest) && index < |clean|
    ensures |clean| == |delivered| && Bystanders(clean[index], delivered[index])
    ensures forall slot: Slot :: slot !in m.instance.slots ==> Untouched(clean[index], delivered[index], slot)
  {
    PassesExactly(g, clean, delivered, m, rest);
    assert KeptAt(m, clean, delivered, index);
  }

  /** The provenance of a routed slot: the frame it shows, and where and when that frame was sensed. */
  predicate Sourced(seen: Provenance, source: Provenance, frame: int) {
    && seen.sourceIndex == Some(frame) && seen.sourceTime == source.sourceTime
    && seen.payloadHash == source.payloadHash && seen.physicalSource == source.physicalSource
  }

  lemma {:induction false} RoutedSourced(clean: Trace, delivered: Trace, index: int, slot: Slot, frame: int,
                                         from: Slot)
    requires 0 <= index < |delivered| && 0 <= frame < |clean|
    requires RoutedTo(clean, delivered, index, slot, frame, from) == {}
    ensures Sourced(delivered[index].Prov(slot), clean[frame].Prov(from), frame)
  {
    assert SourcePayloadMismatch !in RoutedTo(clean, delivered, index, slot, frame, from);
    assert SourceIndexMismatch !in RoutedTo(clean, delivered, index, slot, frame, from);
    assert SourceTimeMismatch !in RoutedTo(clean, delivered, index, slot, frame, from);
    assert SourceIdentityMismatch !in RoutedTo(clean, delivered, index, slot, frame, from);
  }

  /** In a passing delivery a routed slot carries its source's provenance, and a slot that a freeze or a
      misrouting leaves alone is the clean one. */
  lemma {:induction false} PassedSource(g: Gauge, clean: Trace, delivered: Trace, m: FaultManifest,
                                        rest: Option<RestBundle>, index: nat, slot: Slot)
    requires ManifestOk(m) && Passes(g, clean, delivered, m, rest) && index < |clean|
    ensures |clean| == |delivered|
    ensures var source := RoutedSource(m, index, slot);
            if source.Some? then
              && 0 <= source.value.0 <= index
              && Sourced(delivered[index].Prov(slot), clean[source.value.0].Prov(source.value.1), source.value.0)
            else m.instance.op.T2? || m.instance.op.C1? ==> Untouched(clean[index], delivered[index], slot)
  {
    PassesExactly(g, clean, delivered, m, rest);
    assert KeptAt(m, clean, delivered, index);
    if RoutedSource(m, index, slot).Some? {
      RoutedSlotSourced(g, clean, delivered, m, rest, index, slot);
    } else if (m.instance.op.T2? || m.instance.op.C1?) && m.Active(index) && slot in m.instance.slots {
      UnroutedSlotPassed(g, clean, delivered, m, rest, index, slot);
    }
  }

  lemma {:induction false} RoutedSlotSourced(g: Gauge, clean: Trace, delivered: Trace, m: FaultManifest,
                                             rest: Option<RestBundle>, index: nat, slot: Slot)
    requires Paired(clean, delivered, m) && Measurable(clean, m, rest) && index < |clean|
    requires OperatorFindings(g, clean, delivered, m, rest) == {} && RoutedSource(m, index, slot).Some?
    ensures var source := RoutedSource(m, index, slot).value;
            && 0 <= source.0 <= index
            && Sourced(delivered[index].Prov(slot), clean[source.0].Prov(source.1), source.0)
  {
    if m.instance.op.C1? {
      SwappedSlotPassed(g, clean, delivered, m, rest, index, slot);
      RoutedSourced(clean, delivered, index, slot, index, Other(slot));
    } else {
      RoutedFrameExists(m, |clean|, index, slot);
      if m.instance.op.T1? {
        DelayedSlotPassed(g, clean, delivered, m, rest, index, slot);
      } else if m.instance.op.T2? {
        HeldSlotPassed(g, clean, delivered, m, rest, index, slot);
      } else {
        SkewedSlotPassed(g, clean, delivered, m, rest, index, slot);
      }
      RoutedSourced(clean, delivered, index, slot, RoutedFrame(m.instance, slot, index), slot);
    }
  }

  /** Two passing deliveries of one clean trace under one manifest agree on everything but touch, on
      undeclared slots, on the sources of routed slots, and on the validity of slots both rewrote. */
  lemma {:induction false} FieldsUnique(g: Gauge, clean: Trace, first: Trace, second: Trace, m: FaultManifest,
                                        rest: Option<RestBundle>, index: nat, slot: Slot)
    requires ManifestOk(m) && index < |clean|
    requires Passes(g, clean, first, m, rest) && Passes(g, clean, second, m, rest)
    ensures |first| == |second| == |clean|
    ensures Bystanders(first[index], second[index])
    ensures slot !in m.instance.slots || !m.Active(index) ==> Untouched(first[index], second[index], slot)
    ensures RoutedSource(m, index, slot).Some? ==>
              Sourced(second[index].Prov(slot), first[index].Prov(slot), RoutedSource(m, index, slot).value.0)
    ensures m.instance.op in first[index].Prov(slot).faults && m.instance.op in second[index].Prov(slot).faults ==>
              first[index].Sensor(slot).validity == second[index].Sensor(slot).validity
  {
    PassedBystanders(g, clean, first, m, rest, index);
    PassedBystanders(g, clean, second, m, rest, index);
    PassedSource(g, clean, first, m, rest, index, slot);
    PassedSource(g, clean, second, m, rest, index, slot);
    PassesExactly(g, clean, first, m, rest);
    PassesExactly(g, clean, second, m, rest);
    assert KeptAt(m, clean, first, index) && KeptAt(m, clean, second, index);
    DeliveryUnique(g, clean, first, second, m, rest);
  }
}
