/** What a streamed fault writes into a slot, field by field: whose picture it is, where and when that
    was sensed, and what the slot keeps of its own. */
module StreamedSlots {
  import opened Basics
  import opened OperatorParameters
  import opened Manifests
  import opened Records
  import opened PixelReference
  import opened ValidationCodes
  import opened DeliveryFields
  import opened Streaming
  import opened StreamingProperties
  import opened PixelStreaming
  import opened PixelStreamingProperties

  /** The slot is delivered when the clean one was. */
  predicate OnTime(here: Sensor, seen: Sensor) {
    seen.deliveryIndex == here.deliveryIndex && seen.deliveryTime == here.deliveryTime
  }

  /** The validity a rewritten slot with a picture declares. */
  predicate Announces(m: FaultManifest, here: Sensor, seen: Sensor) {
    match m.observability
    case Declared => seen.validity == Some(false)
    case Blind => seen.validity == here.validity
  }

  /** A withheld slot: no picture and nothing of where it came from; everything else is the clean one's. */
  predicate Withdrawn(m: FaultManifest, c: EvaluationRecord, d: EvaluationRecord, slot: Slot) {
    var (here, seen, was, prov) := (c.Sensor(slot), d.Sensor(slot), c.Prov(slot), d.Prov(slot));
    && OnTime(here, seen) && Gone(m, seen, prov) && seen.visibleSourceTime.None?
    && seen.frameId == here.frameId && seen.calibrationId == here.calibrationId
    && prov.physicalSource == was.physicalSource && prov.calibrationHash == was.calibrationHash
    && prov.phase == was.phase && prov.faults == [m.instance.op]
  }

  /** A slot that shows what another one sensed: picture, sensing time and provenance are the source's. */
  predicate ShowsOther(m: FaultManifest, here: Sensor, source: Sensor, from: Provenance, seen: Sensor,
                       prov: Provenance)
  {
    && OnTime(here, seen) && Announces(m, here, seen)
    && seen.payload == source.payload && seen.visibleSourceTime == source.visibleSourceTime
    && prov.physicalSource == from.physicalSource && prov.sourceIndex == from.sourceIndex
    && prov.sourceTime == from.sourceTime && prov.payloadHash == from.payloadHash
    && prov.calibrationHash == from.calibrationHash && prov.phase == from.phase
    && prov.faults == [m.instance.op]
  }

  /** A repainted slot: only the picture, its digest, the validity and, for C2, the calibration are new. */
  predicate Recolored(m: FaultManifest, c: EvaluationRecord, d: EvaluationRecord, slot: Slot, p: Picture) {
    var (here, seen, was, prov) := (c.Sensor(slot), d.Sensor(slot), c.Prov(slot), d.Prov(slot));
    && OnTime(here, seen) && Announces(m, here, seen)
    && seen.payload == Some(p) && prov.payloadHash == Some(Sha(p))
    && seen.visibleSourceTime == here.visibleSourceTime && seen.frameId == here.frameId
    && prov.physicalSource == was.physicalSource && prov.sourceIndex == was.sourceIndex
    && prov.sourceTime == was.sourceTime && prov.phase == was.phase && prov.faults == [m.instance.op]
    && (if m.instance.op.C2?
        then here.calibrationId < seen.calibrationId && prov.calibrationHash == Sha(seen.calibrationId)
        else seen.calibrationId == here.calibrationId && prov.calibrationHash == was.calibrationHash)
  }

  /** Every availability, routing or misrouting fault, at every index it rewrites, on every declared slot:
      a withheld slot, the slot of the frame it is routed from, or the other slot's picture under its
      own name and calibration. */
  lemma {:induction false} StreamedSlot(m: FaultManifest, clean: Trace, index: nat, slot: Slot)
    requires ManifestOk(m) && Streamed(m.instance.op) && CleanTraceOk(clean) && index < |clean|
    requires Rewrites(m, index) && slot in m.instance.slots
    ensures m.Active(index) && StreamAt(m, clean, index).Returned?
    ensures var (c, d) := (clean[index], StreamAt(m, clean, index).value);
            var here, seen, prov := c.Sensor(slot), d.Sensor(slot), d.Prov(slot);
            if IsAvailability(m.instance.op) then Withdrawn(m, c, d, slot)
            else if m.instance.op.C1? then
              && ShowsOther(m, here, c.Sensor(Other(slot)), c.Prov(Other(slot)), seen, prov)
              && seen.frameId == here.frameId && seen.calibrationId == here.calibrationId
            else
              var frame := RoutedFrame(m.instance, slot, index);
              && 0 <= frame <= index
              && ShowsOther(m, here, clean[frame].Sensor(slot), clean[frame].Prov(slot), seen, prov)
              && seen.frameId == clean[frame].Sensor(slot).frameId
              && seen.calibrationId == clean[frame].Sensor(slot).calibrationId
  {
    RewritesInWindow(m, index);
    StreamShape(m, clean, index);
    AlwaysDeliverable(m, clean, index, slot);
    var c, d := clean[index], StreamAt(m, clean, index).value;
    if IsAvailability(m.instance.op) {
      WithheldFields(m, c, d, slot);
    } else if m.instance.op.C1? {
      SwappedFields(m, c, index, slot);
    } else {
      RoutedFields(m, c, clean[RoutedFrame(m.instance, slot, index)], d, slot);
    }
  }

  lemma {:induction false} WithheldFields(m: FaultManifest, c: EvaluationRecord, d: EvaluationRecord, slot: Slot)
    requires Withheld(m, c, slot) == Delivery(d.Sensor(slot), d.Prov(slot))
    ensures Withdrawn(m, c, d, slot)
  {
  }

  lemma {:induction false} RoutedFields(m: FaultManifest, c: EvaluationRecord, source: EvaluationRecord,
                                        d: EvaluationRecord, slot: Slot)
    requires Routed(m, c, source, slot) == Delivery(d.Sensor(slot), d.Prov(slot))
    ensures ShowsOther(m, c.Sensor(slot), source.Sensor(slot), source.Prov(slot), d.Sensor(slot), d.Prov(slot))
    ensures d.Sensor(slot).frameId == source.Sensor(slot).frameId
    ensures d.Sensor(slot).calibrationId == source.Sensor(slot).calibrationId
  {
  }

  lemma {:induction false} SwappedFields(m: FaultManifest, c: EvaluationRecord, index: nat, slot: Slot)
    requires CleanRecordOk(c, index)
    ensures var d := Swapped(m, c, slot);
            && ShowsOther(m, c.Sensor(slot), c.Sensor(Other(slot)), c.Prov(Other(slot)), d.sensor, d.prov)
            && d.sensor.frameId == c.Sensor(slot).frameId && d.sensor.calibrationId == c.Sensor(slot).calibrationId
  {
    assert CleanSlotOk(c, index, Other(slot));
  }

  /** Every pixel fault, on every declared slot of every frame the session delivers: the clean slot where
      the fault does not act, and the reference picture on an otherwise unchanged slot where it does. */
  lemma {:induction false} PixelSlot(k: Kernels, m: FaultManifest, rest: Option<RestBundle>, clean: Trace, index: nat,
                                     slot: Slot)
    requires ManifestOk(m) && IsPixel(m.instance.op) && CleanTraceOk(clean) && index < |clean|
    requires TraceReadable(clean, m, rest) && slot in m.instance.slots
    requires PixelStreamAt(k, m, rest, clean, index).Returned?
    ensures var (c, d) := (clean[index], PixelStreamAt(k, m, rest, clean, index).value);
            if m.Active(index) && (m.instance.op.F5? || m.instance.op.F7? ==> ContactActive(c.Prov(slot).phase))
            then Recolored(m, c, d, slot, ExpectedPicture(k, clean, m, rest, index, slot))
            else Untouched(c, d, slot)
  {
    PixelRecord(k, m, rest, clean, index);
    assert FrameReadable(clean, m, rest, index, slot);
    SlotPictureIsExpected(k, m, rest, clean, index, slot);
    ActsOn(k, m, rest, clean, index, slot);
    DealtFields(m, clean[index], PixelStreamAt(k, m, rest, clean, index).value, slot,
                SlotPicture(k, m, rest, clean, index, slot).value);
  }

  /** A pixel fault paints exactly where it acts. */
  lemma {:induction false} ActsOn(k: Kernels, m: FaultManifest, rest: Option<RestBundle>, clean: Trace, index: nat,
                                  slot: Slot)
    requires ManifestOk(m) && IsPixel(m.instance.op) && index < |clean|
    requires SlotPicture(k, m, rest, clean, index, slot).Returned?
    ensures SlotPicture(k, m, rest, clean, index, slot).value.Some? <==>
            m.Active(index)
            && (m.instance.op.F5? || m.instance.op.F7? ==> ContactActive(clean[index].Prov(slot).phase))
  {
  }

  lemma {:induction false} DealtFields(m: FaultManifest, c: EvaluationRecord, d: EvaluationRecord, slot: Slot,
                                       p: Option<Picture>)
    requires ManifestOk(m) && Dealt(m, c, c, d, slot, p)
    ensures if p.Some? then Recolored(m, c, d, slot, p.value) else Untouched(c, d, slot)
  {
  }
}
