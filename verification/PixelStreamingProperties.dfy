/** The streamed pixel faults against the reference and the delivery gate. */
module PixelStreamingProperties {
  import opened Basics
  import opened OperatorParameters
  import opened Manifests
  import opened Records
  import opened PixelReference
  import opened ValidationCodes
  import opened OperatorValidators
  import opened Validators
  import opened DeliveryProperties
  import opened Streaming
  import opened StreamingProperties
  import opened PixelStreaming

  // ------------------------------------------------------------------ one picture

  lemma {:induction false} RawPaintsItself(p: Picture, ink: (int, int, int) -> int)
    requires forall y, x, c :: Inside(p, y, x) && 0 <= c < 3 ==> ink(y, x, c) == Raw(p, y, x, c)
    ensures Paint(p, ink) == p
  {
    var q := Paint(p, ink);
    forall y | 0 <= y < |q| ensures q[y] == p[y] {
      forall x | 0 <= x < |q[y]| ensures q[y][x] == p[y][x] {
        assert Inside(p, y, x);
        assert ink(y, x, 0) == p[y][x].r && ink(y, x, 1) == p[y][x].g && ink(y, x, 2) == p[y][x].b;
      }
    }
  }

  /** A warp that touches no pixel paints the frame itself. */
  lemma {:induction false} UntouchedWarp(p: Picture, w: Warp)
    requires w.radius > 0.0 && !AnySupport(p, w)
    ensures WarpBy(p, w) == p
  {
    RawPaintsItself(p, WarpInk(p, w));
  }

  /** What the session needs besides a readable frame: in contact, F7 refuses one too small for
      its filter, where the reference goes on with a filter of radius 0. */
  predicate FilterFits(clean: seq<EvaluationRecord>, m: FaultManifest, index: int, slot: Slot)
    requires 0 <= index < |clean|
  {
    var payload := clean[index].Sensor(slot).payload;
    m.instance.op.F7? && m.Active(index) && ContactActive(clean[index].Prov(slot).phase) && payload.Some? ==>
      AnchorRadius(payload.value) >= 1
  }

  /** The picture a slot shows once painted, or left alone. */
  function Shown(clean: EvaluationRecord, slot: Slot, p: Option<Picture>): Option<Picture> {
    if p.Some? then p else clean.Sensor(slot).payload
  }

  /** The session paints exactly what the reference expects, or refuses. */
  ghost predicate Agrees(k: Kernels, m: FaultManifest, rest: Option<RestBundle>, clean: seq<EvaluationRecord>,
                         index: nat, slot: Slot)
    requires ManifestOk(m) && IsPixel(m.instance.op) && index < |clean|
    requires FrameReadable(clean, m, rest, index, slot)
  {
    var p := SlotPicture(k, m, rest, clean, index, slot);
    && (p.Returned? <==> FilterFits(clean, m, index, slot))
    && (p.Returned? ==>
          if m.Active(index)
          then Shown(clean[index], slot, p.value) == Some(ExpectedPicture(k, clean, m, rest, index, slot))
          else p.value == None)
  }

  lemma {:induction false} ImprintAgrees(k: Kernels, m: FaultManifest, rest: Option<RestBundle>,
                                         clean: seq<EvaluationRecord>, index: nat, slot: Slot)
    requires ManifestOk(m) && m.instance.op.F6? && index < |clean|
    requires FrameReadable(clean, m, rest, index, slot)
    ensures Agrees(k, m, rest, clean, index, slot)
  {
  }

  lemma {:induction false} IdleAgrees(k: Kernels, m: FaultManifest, rest: Option<RestBundle>,
                                      clean: seq<EvaluationRecord>, index: nat, slot: Slot)
    requires ManifestOk(m) && IsPixel(m.instance.op) && !m.instance.op.F6? && index < |clean| && !m.Active(index)
    requires FrameReadable(clean, m, rest, index, slot)
    ensures Agrees(k, m, rest, clean, index, slot)
  {
  }

  lemma {:induction false} ContactAgrees(k: Kernels, m: FaultManifest, rest: Option<RestBundle>,
                                         clean: seq<EvaluationRecord>, index: nat, slot: Slot)
    requires ManifestOk(m) && ContactOnly(m.instance.op) && index < |clean| && m.Active(index)
    requires FrameReadable(clean, m, rest, index, slot)
    ensures Agrees(k, m, rest, clean, index, slot)
  {
    if m.instance.op.F7? {
      KneePositive(m);
    } else if ContactActive(clean[index].Prov(slot).phase) {
      WarpedPicture(clean[index].Sensor(slot).payload.value, m);
    }
  }

  lemma {:induction false} PlainAgrees(k: Kernels, m: FaultManifest, rest: Option<RestBundle>,
                                       clean: seq<EvaluationRecord>, index: nat, slot: Slot)
    requires ManifestOk(m) && IsPixel(m.instance.op) && !m.instance.op.F6? && !ContactOnly(m.instance.op)
    requires index < |clean| && m.Active(index) && FrameReadable(clean, m, rest, index, slot)
    ensures Agrees(k, m, rest, clean, index, slot)
  {
  }

  /** On a readable frame, the session paints exactly what the reference expects, or refuses. */
  lemma {:induction false} SlotPictureIsExpected(k: Kernels, m: FaultManifest, rest: Option<RestBundle>,
                                                 clean: seq<EvaluationRecord>, index: nat, slot: Slot)
    requires ManifestOk(m) && IsPixel(m.instance.op) && index < |clean|
    requires FrameReadable(clean, m, rest, index, slot)
    ensures Agrees(k, m, rest, clean, index, slot)
  {
    if m.instance.op.F6? {
      ImprintAgrees(k, m, rest, clean, index, slot);
    } else if !m.Active(index) {
      IdleAgrees(k, m, rest, clean, index, slot);
    } else if ContactOnly(m.instance.op) {
      ContactAgrees(k, m, rest, clean, index, slot);
    } else {
      PlainAgrees(k, m, rest, clean, index, slot);
    }
  }

  lemma {:induction false} KneePositive(m: FaultManifest)
    requires ManifestOk(m) && m.instance.op.F7?
    ensures m.parameters.knee > 0.0
  {
  }

  lemma {:induction false} WarpedPicture(p: Picture, m: FaultManifest)
    requires m.parameters.ShapeDistortion?
    requires WarpInFrame(WarpOf(p, m), Height(p), Width(p)) && WarpUnfolded(WarpOf(p, m), Height(p), Width(p))
    ensures CompactHorizontalWarp(p, WarpOf(p, m)) == Returned(WarpPicture(p, m))
  {
    if !AnySupport(p, WarpOf(p, m)) { UntouchedWarp(p, WarpOf(p, m)); }
  }

  // ------------------------------------------------------------------ one record

  /** A slot after its turn: painted, or as it was. */
  predicate Dealt(m: FaultManifest, clean: EvaluationRecord, before: EvaluationRecord, after: EvaluationRecord,
                  slot: Slot, p: Option<Picture>)
    requires ManifestOk(m)
  {
    if p.None? then SlotMatches(before, after, slot)
    else Painted(m, clean, slot, p.value) == Delivery(after.Sensor(slot), after.Prov(slot))
  }

  lemma {:induction false} PaintOverDeals(m: FaultManifest, clean: EvaluationRecord, output: EvaluationRecord,
                                          slot: Slot, p: Option<Picture>)
    requires ManifestOk(m) && Causal(clean.content) && Causal(output.content)
    requires output.deliveredHash == Sha(output.content)
    ensures var r := PaintOver(m, clean, output, slot, p);
            && r.Returned? && Causal(r.value.content) && r.value.deliveredHash == Sha(r.value.content)
            && NonTactileMatches(output, r.value) && r.value.cleanHash == output.cleanHash
            && Dealt(m, clean, output, r.value, slot, p) && SlotMatches(output, r.value, Other(slot))
  {
    if p.Some? {
      var d := Painted(m, clean, slot, p.value);
      assert SlotCausal(clean.Sensor(slot), clean.Prov(slot));
      assert SlotCausal(output.Sensor(Other(slot)), output.Prov(Other(slot)));
      var o := output.content.observation;
      var content := Content(o.(tactile := o.tactile.With(slot, d.sensor)),
                             output.content.provenance.With(slot, d.prov));
      forall s: Slot ensures SlotCausal(content.observation.tactile.At(s), content.provenance.At(s)) {
        assert s == slot || s == Other(slot);
      }
    }
  }

  predicate Paints(k: Kernels, m: FaultManifest, rest: Option<RestBundle>, clean: Trace, index: nat, slot: Slot)
    requires ManifestOk(m) && IsPixel(m.instance.op) && index < |clean|
  {
    SlotPicture(k, m, rest, clean, index, slot).Returned?
  }

  /** What a whole delivery makes of a record. */
  ghost predicate Repainted(k: Kernels, m: FaultManifest, rest: Option<RestBundle>, clean: Trace, index: nat,
                            before: EvaluationRecord, after: EvaluationRecord, slots: seq<Slot>)
    requires ManifestOk(m) && IsPixel(m.instance.op) && index < |clean|
  {
    && NonTactileMatches(before, after) && after.cleanHash == before.cleanHash
    && after.deliveredHash == Sha(after.content)
    && (forall s: Slot :: s in slots ==>
          Paints(k, m, rest, clean, index, s)
          && Dealt(m, clean[index], before, after, s, SlotPicture(k, m, rest, clean, index, s).value))
    && (forall s: Slot :: s !in slots ==> SlotMatches(before, after, s))
  }

  lemma {:induction false} RepaintShape(k: Kernels, m: FaultManifest, rest: Option<RestBundle>, clean: Trace,
                                        index: nat, output: EvaluationRecord, slots: seq<Slot>)
    requires ManifestOk(m) && IsPixel(m.instance.op) && index < |clean|
    requires Causal(clean[index].content) && Causal(output.content) && output.deliveredHash == Sha(output.content)
    requires forall i, j :: 0 <= i < j < |slots| ==> slots[i] != slots[j]
    ensures var r := Repaint(k, m, rest, clean, index, output, slots);
            && (r.Returned? <==> forall s: Slot :: s in slots ==> Paints(k, m, rest, clean, index, s))
            && (r.Returned? ==> Repainted(k, m, rest, clean, index, output, r.value, slots))
    decreases |slots|
  {
    if slots != [] {
      var p := SlotPicture(k, m, rest, clean, index, slots[0]);
      assert slots[0] in slots;
      if p.Returned? {
        PaintOverDeals(m, clean[index], output, slots[0], p.value);
        var next := PaintOver(m, clean[index], output, slots[0], p.value).value;
        RepaintShape(k, m, rest, clean, index, next, slots[1..]);
        SlotsSplit(slots);
        var r := Repaint(k, m, rest, clean, index, next, slots[1..]);
        if r.Returned? { RepaintedNext(k, m, rest, clean, index, output, next, r.value, slots); }
      }
    }
  }

  lemma {:induction false} SlotsSplit(slots: seq<Slot>)
    requires slots != [] && forall i, j :: 0 <= i < j < |slots| ==> slots[i] != slots[j]
    ensures slots[0] !in slots[1..] && forall s: Slot :: s in slots <==> s == slots[0] || s in slots[1..]
  {
    assert slots == [slots[0]] + slots[1..];
  }

  lemma {:induction false} RepaintedNext(k: Kernels, m: FaultManifest, rest: Option<RestBundle>, clean: Trace,
                                         index: nat, before: EvaluationRecord, next: EvaluationRecord,
                                         after: EvaluationRecord, slots: seq<Slot>)
    requires ManifestOk(m) && IsPixel(m.instance.op) && index < |clean| && slots != []
    requires forall i, j :: 0 <= i < j < |slots| ==> slots[i] != slots[j]
    requires Paints(k, m, rest, clean, index, slots[0])
    requires Dealt(m, clean[index], before, next, slots[0], SlotPicture(k, m, rest, clean, index, slots[0]).value)
    requires NonTactileMatches(before, next) && next.cleanHash == before.cleanHash
    requires SlotMatches(before, next, Other(slots[0]))
    requires Repainted(k, m, rest, clean, index, next, after, slots[1..])
    ensures Repainted(k, m, rest, clean, index, before, after, slots)
  {
    SlotsSplit(slots);
    forall s: Slot | s in slots ensures Paints(k, m, rest, clean, index, s)
      && Dealt(m, clean[index], before, after, s, SlotPicture(k, m, rest, clean, index, s).value)
    {
      if s != slots[0] { assert s == Other(slots[0]); }
    }
    forall s: Slot | s !in slots ensures SlotMatches(before, after, s) {
      assert s == Other(slots[0]);
    }
  }

  // ------------------------------------------------------------------ whole traces

  lemma {:induction false} CleanCausal(r: EvaluationRecord, index: nat)
    requires CleanRecordOk(r, index)
    ensures Causal(r.content) && r.deliveredHash == Sha(r.content) == r.cleanHash
  {
    assert CleanSlotOk(r, index, Left) && CleanSlotOk(r, index, Right);
  }

  /** The session's delivery of a whole clean trace. */
  ghost predicate PixelStreamed(k: Kernels, m: FaultManifest, rest: Option<RestBundle>, clean: Trace,
                                delivered: Trace)
    requires ManifestOk(m) && IsPixel(m.instance.op)
  {
    |clean| == |delivered|
    && forall i :: 0 <= i < |clean| ==> PixelStreamAt(k, m, rest, clean, i) == Returned(delivered[i])
  }

  /** What becomes of one record of a readable trace. */
  lemma {:induction false} PixelRecord(k: Kernels, m: FaultManifest, rest: Option<RestBundle>, clean: Trace,
                                       index: nat)
    requires ManifestOk(m) && IsPixel(m.instance.op) && CleanTraceOk(clean) && index < |clean|
    requires TraceReadable(clean, m, rest)
    ensures var r := PixelStreamAt(k, m, rest, clean, index);
            && (r.Returned? <==> (index == 0 ==> Calibrated(m, rest, clean[0]))
                                 && forall s: Slot :: s in m.instance.slots ==> FilterFits(clean, m, index, s))
            && (r.Returned? ==> Repainted(k, m, rest, clean, index, clean[index], r.value, m.instance.slots))
  {
    assert CleanRecordOk(clean[index], index);
    CleanCausal(clean[index], index);
    RepaintShape(k, m, rest, clean, index, clean[index], m.instance.slots);
    forall s: Slot | s in m.instance.slots
      ensures Paints(k, m, rest, clean, index, s) <==> FilterFits(clean, m, index, s)
    {
      SlotPictureIsExpected(k, m, rest, clean, index, s);
    }
  }

  predicate FramesFit(clean: Trace, m: FaultManifest, index: int)
    requires 0 <= index < |clean|
  {
    forall s: Slot :: s in m.instance.slots ==> FilterFits(clean, m, index, s)
  }

  /** Which readable traces the session delivers whole: exactly those taken under the rest
      frames' calibration whose frames are never too small for the F7 filter in contact. */
  lemma {:induction false} PixelStreamDelivers(k: Kernels, m: FaultManifest, rest: Option<RestBundle>, clean: Trace)
    requires ManifestOk(m) && IsPixel(m.instance.op) && CleanTraceOk(clean) && TraceReadable(clean, m, rest)
    ensures (forall i :: 0 <= i < |clean| ==> PixelStreamAt(k, m, rest, clean, i).Returned?) <==>
            && (clean != [] && NeedsRest(m.instance.op) && rest.Some? ==>
                  forall s :: s in m.instance.slots ==>
                    clean[0].Prov(s).calibrationHash == rest.value.calibration.At(s))
            && (forall i :: 0 <= i < |clean| ==> FramesFit(clean, m, i))
  {
    forall i | 0 <= i < |clean|
      ensures PixelStreamAt(k, m, rest, clean, i).Returned? <==>
              (i == 0 ==> Calibrated(m, rest, clean[0])) && FramesFit(clean, m, i)
    {
      PixelRecord(k, m, rest, clean, i);
    }
    if clean != [] && PixelStreamAt(k, m, rest, clean, 0).Returned? { assert Calibrated(m, rest, clean[0]); }
  }

  /** The delivered payload of a declared slot is the reference picture inside the window. */
  lemma {:induction false} PixelPayload(k: Kernels, m: FaultManifest, rest: Option<RestBundle>, clean: Trace,
                                        delivered: Trace, index: nat, slot: Slot)
    requires ManifestOk(m) && IsPixel(m.instance.op) && CleanTraceOk(clean) && TraceReadable(clean, m, rest)
    requires PixelStreamed(k, m, rest, clean, delivered) && index < |clean| && slot in m.instance.slots
    ensures Agrees(k, m, rest, clean, index, slot) && Paints(k, m, rest, clean, index, slot)
    ensures var p := SlotPicture(k, m, rest, clean, index, slot).value;
            && Dealt(m, clean[index], clean[index], delivered[index], slot, p)
            && delivered[index].Sensor(slot).payload == Shown(clean[index], slot, p)
  {
    PixelRecord(k, m, rest, clean, index);
    SlotPictureIsExpected(k, m, rest, clean, index, slot);
  }

  /** The session against the independent reference: what it delivers always matches, so the gate
      never finds the operator signature mismatched. */
  lemma {:induction false} PixelStreamMatches(g: Gauge, m: FaultManifest, clean: Trace, delivered: Trace,
                                              rest: Option<RestBundle>)
    requires ManifestOk(m) && IsPixel(m.instance.op) && CleanTraceOk(clean) && TraceReadable(clean, m, rest)
    requires PixelStreamed(g.kernels, m, rest, clean, delivered)
    ensures SignatureMatches(g, clean, delivered, m, rest)
  {
    forall i, s | InWindow(clean, m, i, s)
      ensures delivered[i].Sensor(s).payload == Some(ExpectedPicture(g.kernels, clean, m, rest, i, s))
    {
      PixelPayload(g.kernels, m, rest, clean, delivered, i, s);
    }
  }

  lemma {:induction false} PaintedSlotPasses(m: FaultManifest, c: EvaluationRecord, d: EvaluationRecord, index: nat,
                                             slot: Slot, p: Option<Picture>)
    requires ManifestOk(m) && IsPixel(m.instance.op) && CleanRecordOk(c, index) && Dealt(m, c, c, d, slot, p)
    ensures SlotFindings(m, c, d, index, slot) == {}
  {
    assert CleanSlotOk(c, index, slot);
    forall code ensures !SlotViolates(code, m, c, d, index, slot) {}
  }

  /** Where no slot is painted, the record is delivered as it is. */
  lemma {:induction false} RepaintIdle(k: Kernels, m: FaultManifest, rest: Option<RestBundle>, clean: Trace,
                                       index: nat, output: EvaluationRecord, slots: seq<Slot>)
    requires ManifestOk(m) && IsPixel(m.instance.op) && index < |clean|
    requires forall s: Slot :: s in slots ==> SlotPicture(k, m, rest, clean, index, s) == Returned(None)
    ensures Repaint(k, m, rest, clean, index, output, slots) == Returned(output)
    decreases |slots|
  {
    if slots != [] {
      assert slots[0] in slots && forall s: Slot :: s in slots[1..] ==> s in slots;
      RepaintIdle(k, m, rest, clean, index, output, slots[1..]);
    }
  }

  /** Outside the window nothing changes. */
  lemma {:induction false} IdleRecord(k: Kernels, m: FaultManifest, rest: Option<RestBundle>, clean: Trace,
                                      delivered: Trace, index: nat)
    requires ManifestOk(m) && IsPixel(m.instance.op) && CleanTraceOk(clean) && TraceReadable(clean, m, rest)
    requires PixelStreamed(k, m, rest, clean, delivered) && index < |clean| && !m.Active(index)
    ensures delivered[index] == clean[index]
  {
    forall s: Slot | s in m.instance.slots ensures SlotPicture(k, m, rest, clean, index, s) == Returned(None) {
      PixelPayload(k, m, rest, clean, delivered, index, s);
    }
    RepaintIdle(k, m, rest, clean, index, clean[index], m.instance.slots);
  }

  /** No record of the delivery is at fault by itself. */
  lemma {:induction false} PixelRecordPasses(k: Kernels, m: FaultManifest, rest: Option<RestBundle>, clean: Trace,
                                             delivered: Trace, index: nat)
    requires ManifestOk(m) && IsPixel(m.instance.op) && CleanTraceOk(clean) && TraceReadable(clean, m, rest)
    requires PixelStreamed(k, m, rest, clean, delivered) && index < |clean|
    ensures RecordFindings(m, clean[index], delivered[index], index) == {}
  {
    var c, d := clean[index], delivered[index];
    assert CleanRecordOk(c, index);
    CleanCausal(c, index);
    PixelRecord(k, m, rest, clean, index);
    if m.Active(index) {
      forall s | s in m.instance.slots ensures SlotFindings(m, c, d, index, s) == {} {
        PixelPayload(k, m, rest, clean, delivered, index, s);
        PaintedSlotPasses(m, c, d, index, s, SlotPicture(k, m, rest, clean, index, s).value);
      }
      OverSlotsEmpty(s => SlotFindings(m, c, d, index, s), m.instance.slots);
    } else {
      IdleRecord(k, m, rest, clean, delivered, index);
    }
    HeaderPasses(k, m, rest, clean, d, index);
  }

  lemma {:induction false} HeaderPasses(k: Kernels, m: FaultManifest, rest: Option<RestBundle>, clean: Trace,
                                        d: EvaluationRecord, index: nat)
    requires ManifestOk(m) && IsPixel(m.instance.op) && index < |clean| && CleanRecordOk(clean[index], index)
    requires Repainted(k, m, rest, clean, index, clean[index], d, m.instance.slots)
    requires !m.Active(index) ==> d == clean[index]
    ensures forall code :: !HeaderViolates(code, m, clean[index], d, index)
  {
    CleanCausal(clean[index], index);
  }

  /** What the gate finds in a streamed pixel delivery: whether anything changed at all, what the
      dose diagnostics say, and for C2 whether the calibration changed with the pixels. */
  lemma {:induction false} PixelStreamFindings(g: Gauge, m: FaultManifest, clean: Trace, delivered: Trace,
                                               rest: Option<RestBundle>)
    requires ManifestOk(m) && IsPixel(m.instance.op) && CleanTraceOk(clean) && Measurable(clean, m, rest)
    requires PixelStreamed(g.kernels, m, rest, clean, delivered)
    ensures Findings(g, clean, delivered, m, rest)
         == (if Anywhere(ChangedTest(clean, delivered, m), 0, |clean|) then {} else {InactiveOperator})
            + (set c <- g.dose(clean, delivered, m))
            + (if m.instance.op.C2? && !CalibrationChanged(clean, delivered, m)
               then {CalibrationProvenanceUnchanged} else {})
  {
    var row := Validators.RecordRow(clean, delivered, m);
    forall i | 0 <= i < |clean| ensures row(i) == {} {
      PixelRecordPasses(g.kernels, m, rest, clean, delivered, i);
    }
    OverEmpty(row, 0, |clean|);
    PixelStreamMatches(g, m, clean, delivered, rest);
  }

  // ------------------------------------------------------------------ when the gate passes

  /** A pixel fault touches a slot of a record: inside the window, and for F5 and F7 in contact. */
  predicate Touches(m: FaultManifest, r: EvaluationRecord, index: int, slot: Slot) {
    m.Active(index) && slot in m.instance.slots
    && (ContactOnly(m.instance.op) ==> ContactActive(r.Prov(slot).phase))
  }

  /** The calibration digest of a relabelled slot is not the one it had. */
  predicate Recalibrates(m: FaultManifest, r: EvaluationRecord, slot: Slot)
    requires ManifestOk(m) && m.instance.op.C2?
  {
    r.Prov(slot).calibrationHash != Sha(Relabelled(m, r.Sensor(slot).calibrationId))
  }

  predicate TouchesAny(m: FaultManifest, clean: Trace) {
    exists i, s: Slot :: 0 <= i < |clean| && Touches(m, clean[i], i, s)
  }

  ghost predicate RecalibratesAny(m: FaultManifest, clean: Trace)
    requires ManifestOk(m) && m.instance.op.C2?
  {
    exists i, s: Slot :: 0 <= i < |clean| && Touches(m, clean[i], i, s) && Recalibrates(m, clean[i], s)
  }

  /** When a pixel fault takes effect on a clean trace: it touches some slot, and C2 gives it a
      calibration digest of its own. */
  ghost predicate PixelEffective(m: FaultManifest, clean: Trace)
    requires ManifestOk(m) && IsPixel(m.instance.op)
  {
    if m.instance.op.C2? then RecalibratesAny(m, clean) else TouchesAny(m, clean)
  }

  /** A fault that does not wait for contact takes effect as soon as its window is reached. */
  lemma {:induction false} ReachedTouches(m: FaultManifest, clean: Trace)
    requires ManifestOk(m) && IsPixel(m.instance.op) && !ContactOnly(m.instance.op)
    ensures TouchesAny(m, clean) <==> m.instance.start < |clean|
  {
    if m.instance.start < |clean| {
      assert Touches(m, clean[m.instance.start], m.instance.start, m.instance.slots[0]);
    }
  }

  /** What the session makes of a slot it touches, and of every other. */
  lemma {:induction false} TouchedSlot(k: Kernels, m: FaultManifest, rest: Option<RestBundle>, clean: Trace,
                                       delivered: Trace, index: nat, slot: Slot)
    requires ManifestOk(m) && IsPixel(m.instance.op) && CleanTraceOk(clean) && TraceReadable(clean, m, rest)
    requires PixelStreamed(k, m, rest, clean, delivered) && index < |clean| && slot in m.instance.slots
    ensures var p := SlotPicture(k, m, rest, clean, index, slot);
            p.Returned? && (p.value.Some? <==> Touches(m, clean[index], index, slot))
    ensures Touches(m, clean[index], index, slot) ==> delivered[index].Prov(slot).faults == [m.instance.op]
    ensures Touches(m, clean[index], index, slot) && m.instance.op.C2? ==>
              delivered[index].Prov(slot).calibrationHash == Sha(Relabelled(m, clean[index].Sensor(slot).calibrationId))
  {
    PixelPayload(k, m, rest, clean, delivered, index, slot);
  }

  /** A record changes exactly when one of its slots is touched. */
  lemma {:induction false} ChangesWhereTouched(k: Kernels, m: FaultManifest, rest: Option<RestBundle>, clean: Trace,
                                               delivered: Trace, index: nat)
    requires ManifestOk(m) && IsPixel(m.instance.op) && CleanTraceOk(clean) && TraceReadable(clean, m, rest)
    requires PixelStreamed(k, m, rest, clean, delivered) && index < |clean|
    ensures ChangedTest(clean, delivered, m)(index) <==> exists s: Slot :: Touches(m, clean[index], index, s)
  {
    assert CleanRecordOk(clean[index], index);
    if s: Slot :| Touches(m, clean[index], index, s) {
      TouchedSlot(k, m, rest, clean, delivered, index, s);
      assert CleanSlotOk(clean[index], index, s);
    } else {
      forall s: Slot | s in m.instance.slots ensures SlotPicture(k, m, rest, clean, index, s) == Returned(None) {
        TouchedSlot(k, m, rest, clean, delivered, index, s);
      }
      RepaintIdle(k, m, rest, clean, index, clean[index], m.instance.slots);
    }
  }

  lemma {:induction false} ChangedAnywhere(k: Kernels, m: FaultManifest, rest: Option<RestBundle>, clean: Trace,
                                           delivered: Trace)
    requires ManifestOk(m) && IsPixel(m.instance.op) && CleanTraceOk(clean) && TraceReadable(clean, m, rest)
    requires PixelStreamed(k, m, rest, clean, delivered)
    ensures Anywhere(ChangedTest(clean, delivered, m), 0, |clean|) <==> TouchesAny(m, clean)
  {
    var test := ChangedTest(clean, delivered, m);
    AnywhereMeans(test, 0, |clean|);
    forall i | 0 <= i < |clean| ensures test(i) <==> exists s: Slot :: Touches(m, clean[i], i, s) {
      ChangesWhereTouched(k, m, rest, clean, delivered, i);
    }
    if i, s: Slot :| 0 <= i < |clean| && Touches(m, clean[i], i, s) { assert test(i); }
  }

  lemma {:induction false} RecalibratedAnywhere(k: Kernels, m: FaultManifest, rest: Option<RestBundle>, clean: Trace,
                                                delivered: Trace)
    requires ManifestOk(m) && m.instance.op.C2? && CleanTraceOk(clean) && TraceReadable(clean, m, rest)
    requires PixelStreamed(k, m, rest, clean, delivered)
    ensures CalibrationChanged(clean, delivered, m) <==> RecalibratesAny(m, clean)
  {
    forall i, s: Slot | 0 <= i < |clean| && s in m.instance.slots && m.Active(i)
      ensures delivered[i].Prov(s).calibrationHash != clean[i].Prov(s).calibrationHash <==>
              Touches(m, clean[i], i, s) && Recalibrates(m, clean[i], s)
    {
      TouchedSlot(k, m, rest, clean, delivered, i, s);
    }
    if i, s: Slot :| 0 <= i < |clean| && Touches(m, clean[i], i, s) && Recalibrates(m, clean[i], s) {
      assert Reached(m, |clean|, i);
    }
  }

  /** Completeness for pixel faults: a streamed delivery passes the gate if and only if the fault
      takes effect on the clean trace and the dose diagnostics are silent.  Nothing else can refuse
      it; in particular never the pixel match. */
  lemma {:induction false} PixelStreamAccepted(g: Gauge, m: FaultManifest, clean: Trace, delivered: Trace,
                                               rest: Option<RestBundle>)
    requires ManifestOk(m) && IsPixel(m.instance.op) && CleanTraceOk(clean) && Measurable(clean, m, rest)
    requires PixelStreamed(g.kernels, m, rest, clean, delivered)
    ensures Passes(g, clean, delivered, m, rest) <==>
            PixelEffective(m, clean) && g.dose(clean, delivered, m) == []
  {
    PixelStreamFindings(g, m, clean, delivered, rest);
    ChangedAnywhere(g.kernels, m, rest, clean, delivered);
    if m.instance.op.C2? { RecalibratedAnywhere(g.kernels, m, rest, clean, delivered); }
    NothingFound(Anywhere(ChangedTest(clean, delivered, m), 0, |clean|), g.dose(clean, delivered, m),
                 m.instance.op.C2? && !CalibrationChanged(clean, delivered, m));
  }

  lemma {:induction false} NothingFound(changed: bool, dose: seq<FailureCode>, kept: bool)
    ensures (if changed then {} else {InactiveOperator}) + (set c <- dose)
            + (if kept then {CalibrationProvenanceUnchanged} else {}) == {} <==>
            changed && dose == [] && !kept
  {
    var found := (if changed then {} else {InactiveOperator}) + (set c <- dose)
                 + (if kept then {CalibrationProvenanceUnchanged} else {});
    assert !changed ==> InactiveOperator in found;
    assert kept ==> CalibrationProvenanceUnchanged in found;
    assert dose != [] ==> dose[0] in found;
  }
}
