/** Soundness and uniqueness of delivery validation: a passing delivery is the one the
    manifest dictates, payload by payload. */
module DeliveryProperties {
  import opened Basics
  import opened OperatorParameters
  import opened Manifests
  import opened Records
  import opened PixelReference
  import opened ValidationCodes
  import opened OperatorValidators
  import opened Validators

  /** Validation runs to completion and finds nothing. */
  ghost predicate Passes(g: Gauge, clean: Trace, delivered: Trace, m: FaultManifest, rest: Option<RestBundle>)
    requires ManifestOk(m)
  {
    && (|clean| == |delivered| ==> Measurable(clean, m, rest))
    && Findings(g, clean, delivered, m, rest) == {}
  }

  /** Clean payloads are present and their provenance digests are their own. */
  ghost predicate PayloadsBound(clean: Trace) {
    forall i, s: Slot :: 0 <= i < |clean| ==>
      clean[i].Sensor(s).payload.Some?
      && clean[i].Prov(s).payloadHash == Some(Sha(clean[i].Sensor(s).payload.value))
  }

  /** The clean frame and slot a routing fault must show here, if any. */
  function RoutedSource(m: FaultManifest, index: int, slot: Slot): Option<(int, Slot)>
    requires InstanceOk(m.instance) && ParametersFit(m.instance.op, m.parameters)
  {
    if !m.Active(index) || slot !in m.instance.slots then None
    else if m.instance.op.T1? || m.instance.op.T3? || (m.instance.op.T2? && index < FreezeStop(m))
    then Some((RoutedFrame(m.instance, slot, index), slot))
    else if m.instance.op.C1? && Misrouted(m, index) then Some((index, Other(slot)))
    else None
  }

  /** The payload the manifest dictates at an index and slot. */
  ghost function Dictated(g: Gauge, clean: Trace, m: FaultManifest, rest: Option<RestBundle>, index: nat, slot: Slot)
    : Option<Picture>
    requires ManifestOk(m) && Measurable(clean, m, rest) && index < |clean|
  {
    var source := RoutedSource(m, index, slot);
    if source.Some? then
      (if 0 <= source.value.0 < |clean| then clean[source.value.0].Sensor(source.value.1).payload else None)
    else if m.Active(index) && slot in m.instance.slots && IsPixel(m.instance.op)
    then Some(ExpectedPicture(g.kernels, clean, m, rest, index, slot))
    else if m.Active(index) && slot in m.instance.slots && Absent(m, index) then None
    else clean[index].Sensor(slot).payload
  }

  lemma {:induction false} OverNothing(found: int -> set<FailureCode>, lo: int, hi: int, i: int)
    requires Over(found, lo, hi) == {} && lo <= i < hi
    ensures found(i) == {}
  {
    forall code ensures code !in found(i) { OverMember(found, lo, hi, code); }
  }

  lemma {:induction false} OverSlotsNothing(found: Slot -> set<FailureCode>, slots: seq<Slot>, s: Slot)
    requires OverSlots(found, slots) == {} && s in slots
    ensures found(s) == {}
  {
    forall code ensures code !in found(s) { OverSlotsMember(found, slots, code); }
  }

  /** What a passing record satisfies, whatever the operator. */
  lemma {:induction false} RecordPassed(m: FaultManifest, clean: Trace, delivered: Trace, index: int, slot: Slot)
    requires Paired(clean, delivered, m) && 0 <= index < |clean|
    requires Over(RecordRow(clean, delivered, m), 0, |clean|) == {}
    ensures !m.Active(index) ==> delivered[index].content == clean[index].content
    ensures m.Active(index) && slot !in m.instance.slots ==> SlotMatches(clean[index], delivered[index], slot)
    ensures m.Active(index) && slot in m.instance.slots ==>
              && (Absent(m, index) ==> delivered[index].Sensor(slot).payload.None?)
              && (!Absent(m, index) && IsAvailability(m.instance.op) ==>
                    SlotMatches(clean[index], delivered[index], slot))
              && (!IsAvailability(m.instance.op) ==>
                    && delivered[index].Sensor(slot).payload.Some?
                    && delivered[index].Prov(slot).payloadHash
                       == Some(Sha(delivered[index].Sensor(slot).payload.value)))
  {
    var c, d := clean[index], delivered[index];
    OverNothing(RecordRow(clean, delivered, m), 0, |clean|, index);
    assert RecordFindings(m, c, d, index) == {};
    assert forall code :: !HeaderViolates(code, m, c, d, index) by {
      forall code ensures !HeaderViolates(code, m, c, d, index) {
        assert code !in RecordFindings(m, c, d, index);
      }
    }
    assert !HeaderViolates(OutsideWindowChanged, m, c, d, index);
    assert !HeaderViolates(WriteSetViolation, m, c, d, index);
    if m.Active(index) && slot in m.instance.slots {
      OverSlotsNothing(s => SlotFindings(m, c, d, index, s), m.instance.slots, slot);
      SlotPassed(m, c, d, index, slot);
    }
  }

  lemma {:induction false} SlotPassed(m: FaultManifest, c: EvaluationRecord, d: EvaluationRecord, index: int,
                                      slot: Slot)
    requires ParametersFit(m.instance.op, m.parameters)
    requires SlotFindings(m, c, d, index, slot) == {}
    ensures forall code :: !ProvenanceViolates(code, m, c, d, index, slot)
    ensures forall code :: !PresenceViolates(code, m, c, d, index, slot)
    ensures Absent(m, index) ==> d.Sensor(slot).payload.None?
    ensures !Absent(m, index) && IsAvailability(m.instance.op) ==> SlotMatches(c, d, slot)
    ensures !IsAvailability(m.instance.op) ==>
              d.Sensor(slot).payload.Some? && d.Prov(slot).payloadHash == Some(Sha(d.Sensor(slot).payload.value))
  {
    forall code
      ensures !ProvenanceViolates(code, m, c, d, index, slot)
      ensures !PresenceViolates(code, m, c, d, index, slot)
    {
      assert code !in SlotFindings(m, c, d, index, slot);
      assert !SlotViolates(code, m, c, d, index, slot);
    }
    assert !ProvenanceViolates(SourcePayloadMismatch, m, c, d, index, slot);
    assert !PresenceViolates(AbsenceNotStructural, m, c, d, index, slot);
    assert !PresenceViolates(NativeFootprintViolation, m, c, d, index, slot);
    assert !PresenceViolates(NonAvailabilityRemovedPayload, m, c, d, index, slot);
  }

  lemma {:induction false} RoutedPassed(clean: Trace, delivered: Trace, index: int, slot: Slot, frame: int,
                                        from: Slot)
    requires 0 <= index < |delivered| && 0 <= frame < |clean|
    requires RoutedTo(clean, delivered, index, slot, frame, from) == {}
    ensures delivered[index].Prov(slot).payloadHash == clean[frame].Prov(from).payloadHash
    ensures delivered[index].Prov(slot).sourceIndex == Some(frame)
  {
    assert SourcePayloadMismatch !in RoutedTo(clean, delivered, index, slot, frame, from);
    assert SourceIndexMismatch !in RoutedTo(clean, delivered, index, slot, frame, from);
  }

  /** A passing delayed slot matches the frame its map names. */
  lemma {:induction false} DelayedSlotPassed(g: Gauge, clean: Trace, delivered: Trace, m: FaultManifest,
                                             rest: Option<RestBundle>, index: nat, slot: Slot)
    requires Paired(clean, delivered, m) && index < |clean| && m.instance.op.T1?
    requires OperatorFindings(g, clean, delivered, m, rest) == {}
    requires RoutedSource(m, index, slot).Some? && 0 <= RoutedFrame(m.instance, slot, index) < |clean|
    ensures RoutedTo(clean, delivered, index, slot, RoutedFrame(m.instance, slot, index), slot) == {}
  {
    OverNothing(DelayRow(clean, delivered, m), m.instance.start, Min(m.instance.stop, |clean|), index);
    OverSlotsNothing(s => DelayAt(clean, delivered, m, index, s), m.instance.slots, slot);
  }

  /** So does a held one. */
  lemma {:induction false} HeldSlotPassed(g: Gauge, clean: Trace, delivered: Trace, m: FaultManifest,
                                          rest: Option<RestBundle>, index: nat, slot: Slot)
    requires Paired(clean, delivered, m) && index < |clean| && m.instance.op.T2?
    requires OperatorFindings(g, clean, delivered, m, rest) == {}
    requires RoutedSource(m, index, slot).Some? && 0 <= RoutedFrame(m.instance, slot, index) < |clean|
    ensures RoutedTo(clean, delivered, index, slot, RoutedFrame(m.instance, slot, index), slot) == {}
  {
    OverSlotsNothing(HeldSlot(clean, delivered, m), m.instance.slots, slot);
    OverNothing(HeldRow(clean, delivered, m, slot), m.instance.start, Min(m.instance.stop, |clean|), index);
  }

  /** So does a skewed one. */
  lemma {:induction false} SkewedSlotPassed(g: Gauge, clean: Trace, delivered: Trace, m: FaultManifest,
                                            rest: Option<RestBundle>, index: nat, slot: Slot)
    requires Paired(clean, delivered, m) && index < |clean| && m.instance.op.T3?
    requires OperatorFindings(g, clean, delivered, m, rest) == {}
    requires RoutedSource(m, index, slot).Some? && 0 <= RoutedFrame(m.instance, slot, index) < |clean|
    ensures RoutedTo(clean, delivered, index, slot, RoutedFrame(m.instance, slot, index), slot) == {}
  {
    OverNothing(SkewRow(clean, delivered, m), m.instance.start, Min(m.instance.stop, |clean|), index);
    SkewFramePassed(clean, delivered, m, index);
    OverSlotsNothing(s => SkewAt(clean, delivered, m, index, s), m.instance.slots, slot);
  }

  lemma {:induction false} SkewFramePassed(clean: Trace, delivered: Trace, m: FaultManifest, index: nat)
    requires Paired(clean, delivered, m) && m.instance.op.T3? && Reached(m, |clean|, index)
    requires SkewRow(clean, delivered, m)(index) == {}
    ensures OverSlots(s => SkewAt(clean, delivered, m, index, s), m.instance.slots) == {}
  {
    assert SourceIndexMismatch !in SkewFrame(clean, delivered, m, index);
  }

  /** A passing misrouted slot matches the other one. */
  lemma {:induction false} SwappedSlotPassed(g: Gauge, clean: Trace, delivered: Trace, m: FaultManifest,
                                             rest: Option<RestBundle>, index: nat, slot: Slot)
    requires Paired(clean, delivered, m) && index < |clean| && m.instance.op.C1?
    requires OperatorFindings(g, clean, delivered, m, rest) == {} && RoutedSource(m, index, slot).Some?
    ensures RoutedTo(clean, delivered, index, slot, index, Other(slot)) == {}
  {
    OverNothing(RouteRow(clean, delivered, m), m.instance.start, Min(m.instance.stop, |clean|), index);
    OverSlotsNothing(s => RouteAt(clean, delivered, m, index, s), m.instance.slots, slot);
  }

  /** A passing routed slot carries the digest its source carries. */
  lemma {:induction false} RoutedSlotPassed(g: Gauge, clean: Trace, delivered: Trace, m: FaultManifest,
                                            rest: Option<RestBundle>, index: nat, slot: Slot)
    requires Paired(clean, delivered, m) && Measurable(clean, m, rest) && index < |clean|
    requires OperatorFindings(g, clean, delivered, m, rest) == {}
    requires RoutedSource(m, index, slot).Some?
    ensures var source := RoutedSource(m, index, slot).value;
            && 0 <= source.0 <= index
            && delivered[index].Prov(slot).payloadHash == clean[source.0].Prov(source.1).payloadHash
  {
    if m.instance.op.C1? {
      SwappedSlotPassed(g, clean, delivered, m, rest, index, slot);
      RoutedPassed(clean, delivered, index, slot, index, Other(slot));
    } else {
      RoutedFrameExists(m, |clean|, index, slot);
      if m.instance.op.T1? {
        DelayedSlotPassed(g, clean, delivered, m, rest, index, slot);
      } else if m.instance.op.T2? {
        HeldSlotPassed(g, clean, delivered, m, rest, index, slot);
      } else {
        SkewedSlotPassed(g, clean, delivered, m, rest, index, slot);
      }
      RoutedPassed(clean, delivered, index, slot, RoutedFrame(m.instance, slot, index), slot);
    }
  }

  /** A passing temporal or context slot that is not routed here is untouched. */
  lemma {:induction false} UnroutedSlotPassed(g: Gauge, clean: Trace, delivered: Trace, m: FaultManifest,
                                              rest: Option<RestBundle>, index: nat, slot: Slot)
    requires Paired(clean, delivered, m) && Measurable(clean, m, rest) && index < |clean|
    requires OperatorFindings(g, clean, delivered, m, rest) == {}
    requires m.Active(index) && slot in m.instance.slots && RoutedSource(m, index, slot).None?
    requires m.instance.op.T2? || m.instance.op.C1?
    ensures SlotMatches(clean[index], delivered[index], slot)
  {
    var lo, hi := m.instance.start, Min(m.instance.stop, |clean|);
    if m.instance.op.C1? {
      OverNothing(RouteRow(clean, delivered, m), lo, hi, index);
      OverSlotsNothing(s => RouteAt(clean, delivered, m, index, s), m.instance.slots, slot);
    } else {
      OverSlotsNothing(HeldSlot(clean, delivered, m), m.instance.slots, slot);
      OverNothing(HeldRow(clean, delivered, m, slot), lo, hi, index);
    }
    assert Footprint(clean[index], delivered[index], slot) == {};
  }

  /** What passing says about one payload: a routed one hashes to its source's digest, and
      every other one is exactly the dictated one. */
  lemma {:induction false} PassedPayload(g: Gauge, clean: Trace, delivered: Trace, m: FaultManifest,
                                         rest: Option<RestBundle>, index: nat, slot: Slot)
    requires ManifestOk(m) && Passes(g, clean, delivered, m, rest) && index < |clean|
    ensures |clean| == |delivered|
    ensures var source, payload := RoutedSource(m, index, slot), delivered[index].Sensor(slot).payload;
            if source.Some? then
              && 0 <= source.value.0 <= index && payload.Some?
              && Some(Sha(payload.value)) == clean[source.value.0].Prov(source.value.1).payloadHash
            else payload == Dictated(g, clean, m, rest, index, slot)
  {
    RecordPassed(m, clean, delivered, index, slot);
    assert OperatorFindings(g, clean, delivered, m, rest) == {};
    if m.Active(index) && slot in m.instance.slots {
      if RoutedSource(m, index, slot).Some? {
        RoutedSlotPassed(g, clean, delivered, m, rest, index, slot);
      } else if m.instance.op.T2? || m.instance.op.C1? {
        UnroutedSlotPassed(g, clean, delivered, m, rest, index, slot);
      } else if IsPixel(m.instance.op) {
        SignaturePassed(g, clean, delivered, m, rest);
        assert InWindow(clean, m, index, slot);
      }
    }
  }

  lemma {:induction false} SignaturePassed(g: Gauge, clean: Trace, delivered: Trace, m: FaultManifest,
                                           rest: Option<RestBundle>)
    requires Paired(clean, delivered, m) && Measurable(clean, m, rest) && IsPixel(m.instance.op)
    requires OperatorFindings(g, clean, delivered, m, rest) == {}
    ensures SignatureMatches(g, clean, delivered, m, rest)
  {
    assert OperatorSignatureMismatch !in OperatorFindings(g, clean, delivered, m, rest);
  }

  /** Soundness: when validation passes, every payload at every index and slot is the one the
      manifest dictates (clean outside the window and on undeclared slots, withheld at the
      registered offsets, the routed frame, or the reference picture). */
  lemma {:induction false} DeliverySound(g: Gauge, clean: Trace, delivered: Trace, m: FaultManifest,
                                         rest: Option<RestBundle>)
    requires ManifestOk(m) && Passes(g, clean, delivered, m, rest) && PayloadsBound(clean)
    ensures |clean| == |delivered|
    ensures forall i, s: Slot :: 0 <= i < |clean| ==>
              delivered[i].Sensor(s).payload == Dictated(g, clean, m, rest, i, s)
  {
    assert LengthMismatch !in Findings(g, clean, delivered, m, rest);
    forall i, s: Slot | 0 <= i < |clean|
      ensures delivered[i].Sensor(s).payload == Dictated(g, clean, m, rest, i, s)
    {
      PassedPayload(g, clean, delivered, m, rest, i, s);
    }
  }

  /** Uniqueness: any two deliveries of one clean trace that pass under one manifest carry
      identical payloads, with no assumption on the clean trace. */
  lemma {:induction false} DeliveryUnique(g: Gauge, clean: Trace, first: Trace, second: Trace, m: FaultManifest,
                                          rest: Option<RestBundle>)
    requires ManifestOk(m) && Passes(g, clean, first, m, rest) && Passes(g, clean, second, m, rest)
    ensures |first| == |second|
    ensures forall i, s: Slot :: 0 <= i < |first| ==> first[i].Sensor(s).payload == second[i].Sensor(s).payload
  {
    assert LengthMismatch !in Findings(g, clean, first, m, rest);
    assert LengthMismatch !in Findings(g, clean, second, m, rest);
    forall i, s: Slot | 0 <= i < |first| ensures first[i].Sensor(s).payload == second[i].Sensor(s).payload {
      PassedPayload(g, clean, first, m, rest, i, s);
      PassedPayload(g, clean, second, m, rest, i, s);
    }
  }
}
