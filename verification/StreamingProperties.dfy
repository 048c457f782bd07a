/** The streamed faults meet their own gate: validation accepts the reference delivery exactly
    when the fault takes effect on the trace. */
module StreamingProperties {
  import opened Basics
  import opened OperatorParameters
  import opened Manifests
  import opened Records
  import opened PixelReference
  import opened ValidationCodes
  import opened OperatorValidators
  import opened Validators
  import opened DeliveryProperties
  import opened Streaming

  /** A clean record as the backend builds it: fresh digests, no faults, both payloads present
      and taken from this very step. */
  predicate CleanSlotOk(r: EvaluationRecord, index: nat, s: Slot) {
    var sensor, prov := r.Sensor(s), r.Prov(s);
    && sensor.payload.Some? && prov.payloadHash == Some(Sha(sensor.payload.value))
    && prov.sourceIndex == Some(index) && sensor.deliveryIndex == index
    && prov.faults == []
    && (prov.sourceTime.Some? ==> prov.sourceTime.value <= sensor.deliveryTime)
    && (sensor.visibleSourceTime.Some? ==> sensor.visibleSourceTime.value <= sensor.deliveryTime)
    && sensor.deliveryTime == r.Sensor(Left).deliveryTime
  }

  predicate CleanRecordOk(r: EvaluationRecord, index: nat) {
    && r.Observed().stepIndex == index && HashesFresh(r)
    && CleanSlotOk(r, index, Left) && CleanSlotOk(r, index, Right)
  }

  ghost predicate CleanTraceOk(clean: Trace) {
    && (forall i :: 0 <= i < |clean| ==> CleanRecordOk(clean[i], i))
    && (forall i, j :: 0 <= i <= j < |clean| ==>
          clean[i].Sensor(Left).deliveryTime <= clean[j].Sensor(Left).deliveryTime)
  }

  /** The whole reference delivery. */
  ghost predicate StreamedTrace(m: FaultManifest, clean: Trace, delivered: Trace)
    requires ManifestOk(m) && Streamed(m.instance.op)
  {
    |clean| == |delivered| && forall i :: 0 <= i < |clean| ==> StreamAt(m, clean, i) == Returned(delivered[i])
  }

  // ------------------------------------------------------------- shape of a delivery

  ghost predicate Deliverable(m: FaultManifest, clean: Trace, index: nat, slot: Slot)
    requires ManifestOk(m) && Streamed(m.instance.op) && index < |clean|
  {
    var delivery := Deliver(m, clean[index], FullHistory(clean[..index + 1]), index, slot);
    delivery.Returned? && SlotCausal(delivery.value.sensor, delivery.value.prov)
  }

  lemma {:induction false} AlwaysDeliverable(m: FaultManifest, clean: Trace, index: nat, slot: Slot)
    requires ManifestOk(m) && Streamed(m.instance.op) && CleanTraceOk(clean) && index < |clean|
    requires IsRouting(m.instance.op) ==> m.Active(index) && slot in m.instance.slots
    ensures Deliverable(m, clean, index, slot)
    ensures IsRouting(m.instance.op) ==>
              && RegisteredFrame(m, index, slot) == RoutedFrame(m.instance, slot, index)
              && 0 <= RoutedFrame(m.instance, slot, index) <= index
              && Deliver(m, clean[index], FullHistory(clean[..index + 1]), index, slot)
                 == Returned(Routed(m, clean[index], clean[RoutedFrame(m.instance, slot, index)], slot))
  {
    assert CleanRecordOk(clean[index], index);
    if IsRouting(m.instance.op) {
      RoutedFrameExists(m, |clean|, index, slot);
      var frame := RoutedFrame(m.instance, slot, index);
      assert CleanRecordOk(clean[frame], frame);
      assert clean[..index + 1][frame] == clean[frame];
    }
  }

  /** Rewriting replaces exactly the visited slots. */
  lemma {:induction false} RewriteShape(m: FaultManifest, clean: Trace, index: nat, output: EvaluationRecord,
                                        slots: seq<Slot>)
    requires ManifestOk(m) && Streamed(m.instance.op) && index < |clean|
    requires forall s :: s in slots ==> Deliverable(m, clean, index, s)
    requires Causal(output.content)
    requires forall i, j :: 0 <= i < j < |slots| ==> slots[i] != slots[j]
    ensures var lookup := FullHistory(clean[..index + 1]);
            var r := Rewrite(m, clean[index], lookup, index, output, slots);
            && r.Returned? && NonTactileMatches(output, r.value) && r.value.cleanHash == output.cleanHash
            && (slots != [] ==> r.value.deliveredHash == Sha(r.value.content))
            && (forall s :: s in slots ==>
                  Deliver(m, clean[index], lookup, index, s) == Returned(Delivery(r.value.Sensor(s), r.value.Prov(s))))
            && (forall s: Slot :: s !in slots ==> SlotMatches(output, r.value, s))
    decreases |slots|
  {
    if slots != [] {
      assert slots[0] in slots;
      var lookup := FullHistory(clean[..index + 1]);
      var delivery := Deliver(m, clean[index], lookup, index, slots[0]).value;
      var next := ReplaceDelivery(output, slots[0], delivery.sensor, delivery.prov);
      var content := Content(output.content.observation.(
                               tactile := output.content.observation.tactile.With(slots[0], delivery.sensor)),
                             output.content.provenance.With(slots[0], delivery.prov));
      assert Causal(content) by {
        forall s: Slot ensures SlotCausal(content.observation.tactile.At(s), content.provenance.At(s)) {
          assert SlotCausal(output.content.observation.tactile.At(s), output.content.provenance.At(s));
        }
      }
      RewriteShape(m, clean, index, next.value, slots[1..]);
      assert slots[0] !in slots[1..];
    }
  }

  lemma {:induction false} VisitedDistinct(m: FaultManifest)
    requires ManifestOk(m) && Streamed(m.instance.op)
    ensures forall s: Slot :: s in Visited(m) <==> s in m.instance.slots
    ensures forall i, j :: 0 <= i < j < |Visited(m)| ==> Visited(m)[i] != Visited(m)[j]
    ensures Visited(m) != []
  {
    if m.instance.op.C1? {
      var covered := set s <- m.instance.slots;
      assert Left in covered && Right in covered;
    }
  }

  lemma {:induction false} RewritesInWindow(m: FaultManifest, index: int)
    requires ManifestOk(m) && Streamed(m.instance.op) && Rewrites(m, index)
    ensures m.Active(index)
  {
  }

  /** What the stream delivers at an index: the clean record, or a record in which exactly the
      declared slots carry the operator's delivery. */
  lemma {:induction false} StreamShape(m: FaultManifest, clean: Trace, index: nat)
    requires ManifestOk(m) && Streamed(m.instance.op) && CleanTraceOk(clean) && index < |clean|
    ensures StreamAt(m, clean, index).Returned?
    ensures var d := StreamAt(m, clean, index).value;
            if !Rewrites(m, index) then d == clean[index]
            else
              && NonTactileMatches(clean[index], d) && d.cleanHash == clean[index].cleanHash
              && d.deliveredHash == Sha(d.content)
              && (forall s: Slot :: s in m.instance.slots ==>
                    Deliver(m, clean[index], FullHistory(clean[..index + 1]), index, s)
                    == Returned(Delivery(d.Sensor(s), d.Prov(s))))
              && (forall s: Slot :: s !in m.instance.slots ==> SlotMatches(clean[index], d, s))
  {
    if Rewrites(m, index) {
      RewritesInWindow(m, index);
      VisitedDistinct(m);
      forall s | s in Visited(m) ensures Deliverable(m, clean, index, s) {
        AlwaysDeliverable(m, clean, index, s);
      }
      assert CleanRecordOk(clean[index], index);
      RewriteShape(m, clean, index, clean[index], Visited(m));
    }
  }

  // ---------------------------------------------------------------- no record finding

  lemma {:induction false} CleanSlotPasses(m: FaultManifest, c: EvaluationRecord, index: nat, slot: Slot)
    requires ParametersFit(m.instance.op, m.parameters) && CleanRecordOk(c, index) && !Absent(m, index)
    ensures SlotFindings(m, c, c, index, slot) == {}
  {
    assert CleanSlotOk(c, index, slot);
  }

  lemma {:induction false} DeliveredSlotPasses(m: FaultManifest, clean: Trace, d: EvaluationRecord, index: nat,
                                               slot: Slot)
    requires ManifestOk(m) && Streamed(m.instance.op) && CleanTraceOk(clean) && index < |clean|
    requires Rewrites(m, index) && m.Active(index) && slot in m.instance.slots
    requires Deliver(m, clean[index], FullHistory(clean[..index + 1]), index, slot)
             == Returned(Delivery(d.Sensor(slot), d.Prov(slot)))
    ensures SlotFindings(m, clean[index], d, index, slot) == {}
    ensures d.Prov(slot).faults == [m.instance.op]
  {
    AlwaysDeliverable(m, clean, index, slot);
    assert CleanSlotOk(clean[index], index, slot) && CleanSlotOk(clean[index], index, Other(slot));
    if IsRouting(m.instance.op) {
      var frame := RoutedFrame(m.instance, slot, index);
      assert CleanRecordOk(clean[frame], frame);
      assert CleanSlotOk(clean[frame], frame, slot);
    }
    forall code ensures !SlotViolates(code, m, clean[index], d, index, slot) {}
  }

  lemma {:induction false} OverSlotsEmpty(found: Slot -> set<FailureCode>, slots: seq<Slot>)
    requires forall s :: s in slots ==> found(s) == {}
    ensures OverSlots(found, slots) == {}
  {
    forall code ensures code !in OverSlots(found, slots) { OverSlotsMember(found, slots, code); }
  }

  lemma {:induction false} OverEmpty(found: int -> set<FailureCode>, lo: int, hi: int)
    requires forall i :: lo <= i < hi ==> found(i) == {}
    ensures Over(found, lo, hi) == {}
  {
    forall code ensures code !in Over(found, lo, hi) { OverMember(found, lo, hi, code); }
  }

  lemma {:induction false} StreamRecordPasses(m: FaultManifest, clean: Trace, index: nat)
    requires ManifestOk(m) && Streamed(m.instance.op) && CleanTraceOk(clean) && index < |clean|
    ensures StreamAt(m, clean, index).Returned?
    ensures RecordFindings(m, clean[index], StreamAt(m, clean, index).value, index) == {}
    ensures Rewrites(m, index) <==> StreamAt(m, clean, index).value.content != clean[index].content
  {
    StreamShape(m, clean, index);
    var c, d := clean[index], StreamAt(m, clean, index).value;
    assert CleanRecordOk(c, index);
    if Rewrites(m, index) { RewritesInWindow(m, index); }
    forall s | s in m.instance.slots && m.Active(index)
      ensures SlotFindings(m, c, d, index, s) == {}
      ensures Rewrites(m, index) ==> d.Prov(s) != c.Prov(s)
    {
      if Rewrites(m, index) {
        DeliveredSlotPasses(m, clean, d, index, s);
        assert CleanSlotOk(c, index, s);
      } else {
        CleanSlotPasses(m, c, index, s);
      }
    }
    if m.Active(index) { OverSlotsEmpty(s => SlotFindings(m, c, d, index, s), m.instance.slots); }
    forall code ensures !HeaderViolates(code, m, c, d, index) {}
    if Rewrites(m, index) { assert m.instance.slots[0] in m.instance.slots; }
  }

  // -------------------------------------------------------------- operator findings

  /** A routed slot of the reference delivery agrees with the frame it comes from. */
  lemma {:induction false} RoutedMatches(m: FaultManifest, clean: Trace, delivered: Trace, index: nat, slot: Slot)
    requires ManifestOk(m) && IsRouting(m.instance.op) && CleanTraceOk(clean)
    requires StreamedTrace(m, clean, delivered)
    requires index < |clean| && m.Active(index) && slot in m.instance.slots
    ensures var frame := RoutedFrame(m.instance, slot, index);
            && 0 <= frame <= index
            && RoutedTo(clean, delivered, index, slot, frame, slot) == {}
            && delivered[index].Prov(slot).sourceIndex == Some(frame)
  {
    StreamShape(m, clean, index);
    AlwaysDeliverable(m, clean, index, slot);
    var frame := RoutedFrame(m.instance, slot, index);
    assert CleanRecordOk(clean[frame], frame) && CleanSlotOk(clean[frame], frame, slot);
    if !Rewrites(m, index) {
      SameSource(m, index, slot);
      assert frame == index;
    }
  }

  /** A T2 index is left alone exactly when every slot would show its own frame. */
  lemma {:induction false} SameSource(m: FaultManifest, index: nat, slot: Slot)
    requires ManifestOk(m) && IsRouting(m.instance.op) && m.Active(index) && slot in m.instance.slots
    requires !Rewrites(m, index)
    ensures m.instance.op.T2? && RoutedFrame(m.instance, slot, index) == index
  {
    SourceMapsCausal(m.instance, m.parameters, m.instance.slots[0]);
    assert m.instance.start + (index - m.instance.start) == index;
  }

  lemma {:induction false} DelayFindsNothing(m: FaultManifest, clean: Trace, delivered: Trace)
    requires ManifestOk(m) && m.instance.op.T1? && CleanTraceOk(clean) && StreamedTrace(m, clean, delivered)
    ensures Over(DelayRow(clean, delivered, m), m.instance.start, Min(m.instance.stop, |clean|)) == {}
  {
    forall i | m.instance.start <= i < Min(m.instance.stop, |clean|)
      ensures DelayRow(clean, delivered, m)(i) == {}
    {
      forall s | s in m.instance.slots ensures DelayAt(clean, delivered, m, i, s) == {} {
        RoutedMatches(m, clean, delivered, i, s);
      }
      OverSlotsEmpty(s => DelayAt(clean, delivered, m, i, s), m.instance.slots);
    }
    OverEmpty(DelayRow(clean, delivered, m), m.instance.start, Min(m.instance.stop, |clean|));
  }

  lemma {:induction false} HeldFrame(m: FaultManifest, index: int, slot: Slot)
    requires ManifestOk(m) && m.instance.op.T2? && m.Active(index)
    ensures index < FreezeStop(m) <==> index < m.instance.start + Steps(T2, m.instance.level)
    ensures RoutedFrame(m.instance, slot, index) ==
            if index < FreezeStop(m) then Max(0, m.instance.start - 1) else index
  {
  }

  /** T2 finds nothing but, possibly, an unreached freeze. */
  lemma {:induction false} HeldFindsNothing(m: FaultManifest, clean: Trace, delivered: Trace, slot: Slot)
    requires ManifestOk(m) && m.instance.op.T2? && CleanTraceOk(clean) && StreamedTrace(m, clean, delivered)
    requires slot in m.instance.slots
    ensures HeldSlot(clean, delivered, m)(slot) == if m.instance.start < |clean| then {} else {FreezeNotHeld}
  {
    HeldRowEmpty(m, clean, delivered, slot);
    HeldShown(m, clean, delivered, slot);
  }

  lemma {:induction false} HeldRowEmpty(m: FaultManifest, clean: Trace, delivered: Trace, slot: Slot)
    requires ManifestOk(m) && m.instance.op.T2? && CleanTraceOk(clean) && StreamedTrace(m, clean, delivered)
    requires slot in m.instance.slots
    ensures Over(HeldRow(clean, delivered, m, slot), m.instance.start, Min(m.instance.stop, |clean|)) == {}
  {
    var lo, hi := m.instance.start, Min(m.instance.stop, |clean|);
    var found := HeldRow(clean, delivered, m, slot);
    forall i | lo <= i < hi ensures found(i) == {} {
      RoutedMatches(m, clean, delivered, i, slot);
      HeldFrame(m, i, slot);
      if i >= FreezeStop(m) {
        StreamShape(m, clean, i);
        ResumesClean(m, i);
      }
    }
    OverEmpty(found, lo, hi);
  }

  /** The freeze shows one frame, unless it is never reached. */
  lemma {:induction false} HeldShown(m: FaultManifest, clean: Trace, delivered: Trace, slot: Slot)
    requires ManifestOk(m) && m.instance.op.T2? && CleanTraceOk(clean) && StreamedTrace(m, clean, delivered)
    requires slot in m.instance.slots
    ensures |ShownFrames(delivered, slot, m.instance.start, Min(FreezeStop(m), |delivered|))|
            == if m.instance.start < |clean| then 1 else 0
  {
    var lo := m.instance.start;
    var shown := ShownFrames(delivered, slot, lo, Min(FreezeStop(m), |delivered|));
    forall i | lo <= i < Min(FreezeStop(m), |delivered|)
      ensures delivered[i].Prov(slot).sourceIndex == Some(Max(0, lo - 1))
    {
      RoutedMatches(m, clean, delivered, i, slot);
      HeldFrame(m, i, slot);
    }
    if lo < |clean| {
      assert delivered[lo].Prov(slot).sourceIndex in shown;
      assert shown == {Some(Max(0, lo - 1))};
    } else {
      assert shown == {};
    }
  }

  lemma {:induction false} ResumesClean(m: FaultManifest, index: int)
    requires ManifestOk(m) && m.instance.op.T2? && m.Active(index) && FreezeStop(m) <= index
    ensures !Rewrites(m, index)
  {
    SourceMapsCausal(m.instance, m.parameters, m.instance.slots[0]);
    HeldFrame(m, index, m.instance.slots[0]);
    assert m.instance.start + (index - m.instance.start) == index;
  }

  lemma {:induction false} SkewFindsNothing(m: FaultManifest, clean: Trace, delivered: Trace)
    requires ManifestOk(m) && m.instance.op.T3? && CleanTraceOk(clean) && StreamedTrace(m, clean, delivered)
    ensures Over(SkewRow(clean, delivered, m), m.instance.start, Min(m.instance.stop, |clean|)) == {}
  {
    forall i | m.instance.start <= i < Min(m.instance.stop, |clean|)
      ensures SkewRow(clean, delivered, m)(i) == {}
    {
      forall s | s in m.instance.slots
        ensures SkewAt(clean, delivered, m, i, s) == {}
        ensures delivered[i].Prov(s).sourceIndex.Some?
      {
        RoutedMatches(m, clean, delivered, i, s);
      }
      OverSlotsEmpty(s => SkewAt(clean, delivered, m, i, s), m.instance.slots);
    }
    OverEmpty(SkewRow(clean, delivered, m), m.instance.start, Min(m.instance.stop, |clean|));
  }

  /** T3 shows a skew at an index exactly when both slots are declared and the index is not
      the first frame. */
  lemma {:induction false} SkewVisible(m: FaultManifest, clean: Trace, delivered: Trace, index: nat)
    requires ManifestOk(m) && m.instance.op.T3? && CleanTraceOk(clean) && StreamedTrace(m, clean, delivered)
    requires index < |clean| && m.Active(index)
    ensures Skewed(delivered[index], m.instance.slots) <==> |m.instance.slots| == 2 && 1 <= index
  {
    var slots := m.instance.slots;
    forall s | s in slots
      ensures 0 <= RoutedFrame(m.instance, s, index)
      ensures delivered[index].Prov(s).sourceIndex == Some(RoutedFrame(m.instance, s, index) as nat)
    {
      SkewSource(m, clean, delivered, index, s);
    }
    FramesDiffer(m.instance, index);
    SkewMeans(delivered[index], m.instance, index);
  }

  /** Two declared slots are meant to show different frames exactly past the first one. */
  lemma {:induction false} FramesDiffer(k: Instance, index: nat)
    requires InstanceOk(k) && k.op.T3?
    ensures (exists s, t :: s in k.slots && t in k.slots && RoutedFrame(k, s, index) != RoutedFrame(k, t, index)) <==>
            |k.slots| == 2 && 1 <= index
  {
    AtMostTwoSlots(k.slots);
    if |k.slots| == 2 {
      assert k.slots[0] in k.slots && k.slots[1] in k.slots && k.slots[0] != k.slots[1];
    } else {
      assert forall s :: s in k.slots ==> s == k.slots[0];
    }
  }

  lemma {:induction false} SkewMeans(d: EvaluationRecord, k: Instance, index: nat)
    requires InstanceOk(k) && k.op.T3? && forall s :: s in k.slots ==> 0 <= RoutedFrame(k, s, index)
    requires forall s :: s in k.slots ==> d.Prov(s).sourceIndex == Some(RoutedFrame(k, s, index) as nat)
    ensures Skewed(d, k.slots) <==>
            exists s, t :: s in k.slots && t in k.slots && RoutedFrame(k, s, index) != RoutedFrame(k, t, index)
  {
  }

  lemma {:induction false} SkewSource(m: FaultManifest, clean: Trace, delivered: Trace, index: nat, s: Slot)
    requires ManifestOk(m) && m.instance.op.T3? && CleanTraceOk(clean) && StreamedTrace(m, clean, delivered)
    requires index < |clean| && m.Active(index) && s in m.instance.slots
    ensures 0 <= RoutedFrame(m.instance, s, index)
    ensures delivered[index].Prov(s).sourceIndex == Some(RoutedFrame(m.instance, s, index) as nat)
  {
    RoutedMatches(m, clean, delivered, index, s);
  }

  lemma {:induction false} AtMostTwoSlots(slots: seq<Slot>)
    requires forall i, j :: 0 <= i < j < |slots| ==> slots[i] != slots[j]
    ensures |slots| <= 2
  {
    if |slots| > 2 { Pigeonhole(slots[0], slots[1], slots[2]); }
  }

  lemma {:induction false} Pigeonhole(a: Slot, b: Slot, c: Slot)
    ensures a == b || b == c || a == c
  {
  }

  lemma {:induction false} RouteFindsNothing(m: FaultManifest, clean: Trace, delivered: Trace)
    requires ManifestOk(m) && m.instance.op.C1? && CleanTraceOk(clean) && StreamedTrace(m, clean, delivered)
    ensures Over(RouteRow(clean, delivered, m), m.instance.start, Min(m.instance.stop, |clean|)) == {}
  {
    forall i | m.instance.start <= i < Min(m.instance.stop, |clean|)
      ensures RouteRow(clean, delivered, m)(i) == {}
    {
      StreamShape(m, clean, i);
      assert CleanSlotOk(clean[i], i, Left) && CleanSlotOk(clean[i], i, Right);
      OverSlotsEmpty(s => RouteAt(clean, delivered, m, i, s), m.instance.slots);
    }
    OverEmpty(RouteRow(clean, delivered, m), m.instance.start, Min(m.instance.stop, |clean|));
  }

  // --------------------------------------------------------------------- the theorem

  /** Swapping the slots of this record shows a source that is not named after its slot. */
  predicate SwapShows(r: EvaluationRecord) {
    exists s: Slot :: r.Prov(Other(s)).physicalSource != SlotName(s)
  }

  /** When a streamed fault takes effect on a clean trace: the trace reaches the exposure, and
      the exposure shows. */
  ghost predicate Effective(m: FaultManifest, clean: Trace)
    requires ManifestOk(m) && Streamed(m.instance.op)
  {
    var k, n := m.instance, |clean|;
    match k.op
    case A2 => k.start + m.parameters.erased[0] < n
    case T2 => Max(k.start, 1) < Min(FreezeStop(m), n)
    case T3 => |k.slots| == 2 && Max(k.start, 1) < Min(k.stop, n)
    case C1 =>
      exists i :: k.start <= i < n && 0 <= i && Misrouted(m, i) && SwapShows(clean[i])
    case _ => k.start < n
  }

  /** The frames a fault can rewrite, within reach of a trace of length n. */
  ghost predicate RewriteReached(m: FaultManifest, n: int)
    requires ManifestOk(m) && Streamed(m.instance.op)
  {
    match m.instance.op
    case A2 => m.instance.start + m.parameters.erased[0] < n
    case T2 => Max(m.instance.start, 1) < Min(FreezeStop(m), n)
    case _ => m.instance.start < n
  }

  lemma {:induction false} FirstRewrite(m: FaultManifest, n: nat) returns (i: nat)
    requires ManifestOk(m) && Streamed(m.instance.op) && RewriteReached(m, n)
    ensures i < n && Rewrites(m, i)
  {
    var k := m.instance;
    if k.op.A2? {
      assert m.parameters.erased[0] in m.parameters.erased;
      i := k.start + m.parameters.erased[0];
    } else if k.op.T2? {
      i := Max(k.start, 1);
      SourceMapsCausal(k, m.parameters, k.slots[0]);
      HeldFrame(m, i, k.slots[0]);
      assert k.start + (i - k.start) == i;
    } else {
      i := k.start;
      if k.op.A1? || k.op.C1? { assert m.parameters.affected[0] == 0; }
    }
  }

  lemma {:induction false} RewriteReaches(m: FaultManifest, n: nat, i: nat)
    requires ManifestOk(m) && Streamed(m.instance.op) && i < n && Rewrites(m, i)
    ensures RewriteReached(m, n)
  {
    RewritesInWindow(m, i);
    if m.instance.op.T2? {
      SourceMapsCausal(m.instance, m.parameters, m.instance.slots[0]);
      HeldFrame(m, i, m.instance.slots[0]);
      assert m.instance.start + (i - m.instance.start) == i;
    }
  }

  lemma {:induction false} StreamFindings(g: Gauge, m: FaultManifest, clean: Trace, delivered: Trace,
                                          rest: Option<RestBundle>)
    requires ManifestOk(m) && Streamed(m.instance.op) && CleanTraceOk(clean) && StreamedTrace(m, clean, delivered)
    ensures Findings(g, clean, delivered, m, rest) ==
            (if RewriteReached(m, |clean|) then {} else {InactiveOperator})
            + OperatorFindings(g, clean, delivered, m, rest)
  {
    StreamRows(m, clean, delivered);
    StreamChanges(m, clean, delivered);
  }

  /** No record of the stream is at fault by itself, and it changes where it is rewritten. */
  lemma {:induction false} StreamRecord(m: FaultManifest, clean: Trace, delivered: Trace, i: nat)
    requires ManifestOk(m) && Streamed(m.instance.op) && CleanTraceOk(clean) && StreamedTrace(m, clean, delivered)
    requires i < |clean|
    ensures Validators.RecordRow(clean, delivered, m)(i) == {}
    ensures ChangedTest(clean, delivered, m)(i) <==> Rewrites(m, i)
  {
    StreamRecordPasses(m, clean, i);
    if Rewrites(m, i) { RewritesInWindow(m, i); }
  }

  lemma {:induction false} StreamRows(m: FaultManifest, clean: Trace, delivered: Trace)
    requires ManifestOk(m) && Streamed(m.instance.op) && CleanTraceOk(clean) && StreamedTrace(m, clean, delivered)
    ensures Over(Validators.RecordRow(clean, delivered, m), 0, |clean|) == {}
  {
    var rows := Validators.RecordRow(clean, delivered, m);
    forall i | 0 <= i < |clean| ensures rows(i) == {} { StreamRecord(m, clean, delivered, i); }
    OverEmpty(rows, 0, |clean|);
  }

  lemma {:induction false} StreamChanges(m: FaultManifest, clean: Trace, delivered: Trace)
    requires ManifestOk(m) && Streamed(m.instance.op) && CleanTraceOk(clean) && StreamedTrace(m, clean, delivered)
    ensures Anywhere(ChangedTest(clean, delivered, m), 0, |clean|) <==> RewriteReached(m, |clean|)
  {
    var changed := ChangedTest(clean, delivered, m);
    AnywhereMeans(changed, 0, |clean|);
    if RewriteReached(m, |clean|) {
      var i := FirstRewrite(m, |clean|);
      StreamRecord(m, clean, delivered, i);
    } else if Anywhere(changed, 0, |clean|) {
      var i :| 0 <= i < |clean| && changed(i);
      StreamRecord(m, clean, delivered, i);
      RewriteReaches(m, |clean|, i);
    }
  }

  lemma {:induction false} HeldFindings(g: Gauge, m: FaultManifest, clean: Trace, delivered: Trace,
                                        rest: Option<RestBundle>)
    requires ManifestOk(m) && m.instance.op.T2? && CleanTraceOk(clean) && StreamedTrace(m, clean, delivered)
    ensures OperatorFindings(g, clean, delivered, m, rest) ==
            if m.instance.start < |clean| then {} else {FreezeNotHeld}
  {
    var found, slots := HeldSlot(clean, delivered, m), m.instance.slots;
    forall s | s in slots ensures found(s) == if m.instance.start < |clean| then {} else {FreezeNotHeld} {
      HeldFindsNothing(m, clean, delivered, s);
    }
    forall code ensures code in OverSlots(found, slots) <==>
                        code.FreezeNotHeld? && m.instance.start >= |clean|
    {
      OverSlotsMember(found, slots, code);
      assert slots[0] in slots;
    }
  }

  lemma {:induction false} SkewFindings(m: FaultManifest, clean: Trace, delivered: Trace)
    requires ManifestOk(m) && m.instance.op.T3? && CleanTraceOk(clean) && StreamedTrace(m, clean, delivered)
    ensures SomeSkew(delivered, m) <==> Effective(m, clean)
  {
    var test, k := SkewTest(delivered, m), m.instance;
    var hi := Min(k.stop, |clean|);
    AnywhereMeans(test, k.start, hi);
    forall i | k.start <= i < hi ensures test(i) <==> |k.slots| == 2 && 1 <= i {
      SkewVisible(m, clean, delivered, i);
    }
    if Effective(m, clean) { assert test(Max(k.start, 1)); }
  }

  lemma {:induction false} RouteShows(m: FaultManifest, clean: Trace, delivered: Trace, index: nat)
    requires ManifestOk(m) && m.instance.op.C1? && CleanTraceOk(clean) && StreamedTrace(m, clean, delivered)
    requires index < |clean| && Misrouted(m, index)
    ensures Foreigner(delivered[index], m.instance.slots) <==> SwapShows(clean[index])
  {
    VisitedDistinct(m);
    assert Left in Visited(m) && Right in Visited(m);
    StreamShape(m, clean, index);
    assert forall s: Slot :: delivered[index].Prov(s).physicalSource == clean[index].Prov(Other(s)).physicalSource;
  }

  lemma {:induction false} RouteFindings(m: FaultManifest, clean: Trace, delivered: Trace)
    requires ManifestOk(m) && m.instance.op.C1? && CleanTraceOk(clean) && StreamedTrace(m, clean, delivered)
    ensures SomeMisrouting(delivered, m) <==> Effective(m, clean)
  {
    var test, k := RouteTest(delivered, m), m.instance;
    var hi := Min(k.stop, |clean|);
    AnywhereMeans(test, k.start, hi);
    forall i | k.start <= i < hi ensures test(i) <==> Misrouted(m, i) && SwapShows(clean[i]) {
      if Misrouted(m, i) { RouteShows(m, clean, delivered, i); }
    }
    forall i | k.start <= i < |clean| && Misrouted(m, i) ensures i < hi {
      RewritesInWindow(m, i);
    }
  }

  /** Completeness, exactly: on a well-formed clean trace, the reference delivery of a
      streamed fault passes validation if and only if the fault takes effect there.  For T1,
      A1 and T2 windows that start after frame 0 this is reaching the window; a T2 freeze from
      frame 0 shows nothing until frame 1; T3 needs both slots and a frame after the first;
      C1 needs an exposed slot whose swapped source is not named after it. */
  lemma {:induction false} StreamAccepted(g: Gauge, m: FaultManifest, clean: Trace, delivered: Trace,
                                          rest: Option<RestBundle>)
    requires ManifestOk(m) && Streamed(m.instance.op) && CleanTraceOk(clean) && StreamedTrace(m, clean, delivered)
    ensures Passes(g, clean, delivered, m, rest) <==> Effective(m, clean)
  {
    StreamFindings(g, m, clean, delivered, rest);
    PassesMeans(g, m, clean, delivered, rest);
    SemanticsAccept(g, m, clean, delivered, rest);
  }

  lemma {:induction false} SemanticsAccept(g: Gauge, m: FaultManifest, clean: Trace, delivered: Trace,
                                           rest: Option<RestBundle>)
    requires ManifestOk(m) && Streamed(m.instance.op) && CleanTraceOk(clean) && StreamedTrace(m, clean, delivered)
    ensures RewriteReached(m, |clean|) && OperatorFindings(g, clean, delivered, m, rest) == {}
            <==> Effective(m, clean)
  {
    if m.instance.op.T1? {
      DelayFindsNothing(m, clean, delivered);
    } else if m.instance.op.T2? {
      HeldFindings(g, m, clean, delivered, rest);
    } else if m.instance.op.T3? {
      SkewAccept(g, m, clean, delivered, rest);
    } else if m.instance.op.C1? {
      RouteAccept(g, m, clean, delivered, rest);
    }
  }

  lemma {:induction false} SkewAccept(g: Gauge, m: FaultManifest, clean: Trace, delivered: Trace,
                                      rest: Option<RestBundle>)
    requires ManifestOk(m) && m.instance.op.T3? && CleanTraceOk(clean) && StreamedTrace(m, clean, delivered)
    ensures RewriteReached(m, |clean|) && OperatorFindings(g, clean, delivered, m, rest) == {}
            <==> Effective(m, clean)
  {
    SkewFindsNothing(m, clean, delivered);
    SkewFindings(m, clean, delivered);
    if !SomeSkew(delivered, m) {
      assert NoInterSensorSkew in OperatorFindings(g, clean, delivered, m, rest);
    }
  }

  lemma {:induction false} RouteAccept(g: Gauge, m: FaultManifest, clean: Trace, delivered: Trace,
                                       rest: Option<RestBundle>)
    requires ManifestOk(m) && m.instance.op.C1? && CleanTraceOk(clean) && StreamedTrace(m, clean, delivered)
    ensures RewriteReached(m, |clean|) && OperatorFindings(g, clean, delivered, m, rest) == {}
            <==> Effective(m, clean)
  {
    RouteFindsNothing(m, clean, delivered);
    RouteFindings(m, clean, delivered);
    if !SomeMisrouting(delivered, m) {
      assert NoIdentityMisrouting in OperatorFindings(g, clean, delivered, m, rest);
    }
  }

  /** No finding at all: neither an inactive operator nor an operator finding. */
  lemma {:induction false} PassesMeans(g: Gauge, m: FaultManifest, clean: Trace, delivered: Trace,
                                       rest: Option<RestBundle>)
    requires ManifestOk(m) && Streamed(m.instance.op) && |clean| == |delivered|
    requires Findings(g, clean, delivered, m, rest) ==
             (if RewriteReached(m, |clean|) then {} else {InactiveOperator})
             + OperatorFindings(g, clean, delivered, m, rest)
    ensures Passes(g, clean, delivered, m, rest) <==>
            RewriteReached(m, |clean|) && OperatorFindings(g, clean, delivered, m, rest) == {}
  {
    if !RewriteReached(m, |clean|) { assert InactiveOperator in Findings(g, clean, delivered, m, rest); }
  }
}
