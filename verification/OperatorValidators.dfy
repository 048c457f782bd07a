/** The operator-specific delivery predicates. */
module OperatorValidators {
  import opened Basics
  import opened OperatorParameters
  import opened Manifests
  import opened Records
  import opened ValidationCodes

  /** A paired trace: the loops run only once both lengths agree. */
  ghost predicate Paired(clean: Trace, delivered: Trace, m: FaultManifest) {
    |clean| == |delivered| && ManifestOk(m)
  }

  /** The in-window indices a trace of length n reaches. */
  predicate Reached(m: FaultManifest, n: int, index: int) {
    m.instance.start <= index < Min(m.instance.stop, n)
  }

  function Footprint(c: EvaluationRecord, d: EvaluationRecord, slot: Slot): set<FailureCode> {
    if SlotMatches(c, d, slot) then {} else {NativeFootprintViolation}
  }

  /** The routed frame always exists: it is causal and non-negative. */
  lemma {:induction false} RoutedFrameExists(m: FaultManifest, n: int, index: int, slot: Slot)
    requires ManifestOk(m) && IsRouting(m.instance.op) && slot in m.instance.slots
    requires Reached(m, n, index)
    ensures 0 <= RoutedFrame(m.instance, slot, index) <= index < n
    ensures |SourceMap(m.parameters, slot)| == Window(m.instance)
    ensures SourceMap(m.parameters, slot)[index - m.instance.start] == RoutedFrame(m.instance, slot, index)
  {
    SourceMapsCausal(m.instance, m.parameters, slot);
    assert m.instance.start + (index - m.instance.start) == index;
  }

  ghost function RoutedTo(clean: Trace, delivered: Trace, index: int, slot: Slot, frame: int, from: Slot)
    : set<FailureCode>
    requires 0 <= index < |delivered| && 0 <= frame < |clean|
  {
    RoutedFindings(delivered[index].Prov(slot), clean[frame].Prov(from), frame)
  }

  method ValidateRoutedSource(clean: Trace, delivered: Trace, index: int, slot: Slot, frame: int, from: Slot,
                              before: seq<FailureCode>) returns (codes: seq<FailureCode>)
    requires 0 <= index < |delivered| && 0 <= frame < |clean|
    ensures Adds(before, codes, RoutedTo(clean, delivered, index, slot, frame, from))
  {
    var actual, source := delivered[index].Prov(slot), clean[frame].Prov(from);
    codes := Note(before, actual.sourceIndex != Some(frame), SourceIndexMismatch);
    codes := Note(codes, actual.sourceTime != source.sourceTime, SourceTimeMismatch);
    codes := Note(codes, actual.payloadHash != source.payloadHash, SourcePayloadMismatch);
    codes := Note(codes, actual.physicalSource != source.physicalSource, SourceIdentityMismatch);
  }

  // ------------------------------------------------------------------------- T1

  ghost function DelayAt(clean: Trace, delivered: Trace, m: FaultManifest, index: int, slot: Slot)
    : set<FailureCode>
    requires Paired(clean, delivered, m) && m.instance.op.T1?
  {
    if !Reached(m, |clean|, index) || slot !in m.instance.slots then {}
    else
      RoutedFrameExists(m, |clean|, index, slot);
      var frame := RoutedFrame(m.instance, slot, index);
      if delivered[index].Prov(slot).sourceIndex != Some(frame) then {SourcePayloadMismatch}
      else RoutedTo(clean, delivered, index, slot, frame, slot)
  }

  ghost function DelayRow(clean: Trace, delivered: Trace, m: FaultManifest): int -> set<FailureCode>
    requires Paired(clean, delivered, m) && m.instance.op.T1?
  {
    i => OverSlots(s => DelayAt(clean, delivered, m, i, s), m.instance.slots)
  }

  method ValidateFixedDelayRow(clean: Trace, delivered: Trace, m: FaultManifest, index: int,
                               before: seq<FailureCode>) returns (codes: seq<FailureCode>)
    requires Paired(clean, delivered, m) && m.instance.op.T1? && Reached(m, |clean|, index)
    ensures Adds(before, codes, DelayRow(clean, delivered, m)(index))
  {
    codes := before;
    var slots, n := m.instance.slots, 0;
    ghost var found := s => DelayAt(clean, delivered, m, index, s);
    while n < |slots|
      invariant 0 <= n <= |slots|
      invariant Adds(before, codes, OverSlots(found, slots[..n]))
    {
      var slot := slots[n];
      OverSlotsStep(found, slots, n);
      RoutedFrameExists(m, |clean|, index, slot);
      var frame := m.parameters.source[index - m.instance.start];
      if delivered[index].Prov(slot).sourceIndex != Some(frame) {
        codes := Note(codes, true, SourcePayloadMismatch);
      } else {
        codes := ValidateRoutedSource(clean, delivered, index, slot, frame, slot, codes);
      }
      n := n + 1;
    }
    assert slots[..n] == slots;
  }

  method ValidateFixedDelay(clean: Trace, delivered: Trace, m: FaultManifest, before: seq<FailureCode>)
    returns (codes: seq<FailureCode>)
    requires Paired(clean, delivered, m) && m.instance.op.T1?
    ensures Adds(before, codes,
                 Over(DelayRow(clean, delivered, m), m.instance.start, Min(m.instance.stop, |clean|)))
  {
    codes := before;
    var index := m.instance.start;
    while index < Min(m.instance.stop, |delivered|)
      invariant m.instance.start <= index
      invariant index <= Max(m.instance.start, Min(m.instance.stop, |clean|))
      invariant Adds(before, codes, Over(DelayRow(clean, delivered, m), m.instance.start, index))
    {
      var next := ValidateFixedDelayRow(clean, delivered, m, index, codes);
      AddsOver(before, codes, next, DelayRow(clean, delivered, m), m.instance.start, index);
      codes, index := next, index + 1;
    }
  }

  // ------------------------------------------------------------------------- T2

  /** Where the freeze ends. */
  function FreezeStop(m: FaultManifest): int
    requires m.parameters.HeldLast?
  {
    Min(m.instance.stop, m.instance.start + m.parameters.duration)
  }

  ghost function HeldAt(clean: Trace, delivered: Trace, m: FaultManifest, index: int, slot: Slot)
    : set<FailureCode>
    requires Paired(clean, delivered, m) && m.instance.op.T2?
  {
    if !Reached(m, |clean|, index) then {}
    else if index < FreezeStop(m) then RoutedTo(clean, delivered, index, slot, Max(0, m.instance.start - 1), slot)
    else Footprint(clean[index], delivered[index], slot)
  }

  /** The source indices shown on a slot over a range of frames. */
  function ShownFrames(delivered: Trace, slot: Slot, lo: int, hi: int): set<Option<nat>>
    requires 0 <= lo && hi <= |delivered|
  {
    set i | lo <= i < hi :: delivered[i].Prov(slot).sourceIndex
  }

  ghost function HeldRow(clean: Trace, delivered: Trace, m: FaultManifest, slot: Slot): int -> set<FailureCode>
    requires Paired(clean, delivered, m) && m.instance.op.T2?
  {
    i => HeldAt(clean, delivered, m, i, slot)
  }

  ghost function HeldSlot(clean: Trace, delivered: Trace, m: FaultManifest): Slot -> set<FailureCode>
    requires Paired(clean, delivered, m) && m.instance.op.T2?
  {
    slot =>
      (if |ShownFrames(delivered, slot, m.instance.start, Min(FreezeStop(m), |delivered|))| != 1
       then {FreezeNotHeld} else {})
      + Over(HeldRow(clean, delivered, m, slot), m.instance.start, Min(m.instance.stop, |clean|))
  }

  method ValidateHeldFrames(clean: Trace, delivered: Trace, m: FaultManifest, slot: Slot,
                            before: seq<FailureCode>) returns (codes: seq<FailureCode>)
    requires Paired(clean, delivered, m) && m.instance.op.T2?
    ensures Adds(before, codes, Over(HeldRow(clean, delivered, m, slot), m.instance.start,
                                     Min(FreezeStop(m), |clean|)))
  {
    codes := before;
    ghost var found := HeldRow(clean, delivered, m, slot);
    var index := m.instance.start;
    while index < Min(FreezeStop(m), |delivered|)
      invariant m.instance.start <= index <= Max(m.instance.start, Min(FreezeStop(m), |clean|))
      invariant Adds(before, codes, Over(found, m.instance.start, index))
    {
      var next := ValidateRoutedSource(clean, delivered, index, slot, m.parameters.held, slot, codes);
      AddsOver(before, codes, next, found, m.instance.start, index);
      codes, index := next, index + 1;
    }
  }

  method ValidateResumedFrames(clean: Trace, delivered: Trace, m: FaultManifest, slot: Slot,
                               before: seq<FailureCode>) returns (codes: seq<FailureCode>)
    requires Paired(clean, delivered, m) && m.instance.op.T2?
    ensures Adds(before, codes, Over(HeldRow(clean, delivered, m, slot), FreezeStop(m),
                                     Min(m.instance.stop, |clean|)))
  {
    codes := before;
    ghost var found := HeldRow(clean, delivered, m, slot);
    var index := FreezeStop(m);
    while index < Min(m.instance.stop, |delivered|)
      invariant FreezeStop(m) <= index <= Max(FreezeStop(m), Min(m.instance.stop, |clean|))
      invariant Adds(before, codes, Over(found, FreezeStop(m), index))
    {
      var next := Note(codes, !SlotMatches(clean[index], delivered[index], slot), NativeFootprintViolation);
      AddsOver(before, codes, next, found, FreezeStop(m), index);
      codes, index := next, index + 1;
    }
  }

  method ValidateHeldSlot(clean: Trace, delivered: Trace, m: FaultManifest, slot: Slot,
                          before: seq<FailureCode>) returns (codes: seq<FailureCode>)
    requires Paired(clean, delivered, m) && m.instance.op.T2?
    ensures Adds(before, codes, HeldSlot(clean, delivered, m)(slot))
  {
    HeldSplits(clean, delivered, m, slot);
    var shown := ShownFrames(delivered, slot, m.instance.start, Min(FreezeStop(m), |delivered|));
    codes := Note(before, |shown| != 1, FreezeNotHeld);
    codes := ValidateHeldFrames(clean, delivered, m, slot, codes);
    codes := ValidateResumedFrames(clean, delivered, m, slot, codes);
  }

  lemma {:induction false} HeldSplits(clean: Trace, delivered: Trace, m: FaultManifest, slot: Slot)
    requires Paired(clean, delivered, m) && m.instance.op.T2?
    ensures var row := HeldRow(clean, delivered, m, slot);
            Over(row, m.instance.start, Min(m.instance.stop, |clean|))
            == Over(row, m.instance.start, Min(FreezeStop(m), |clean|))
               + Over(row, FreezeStop(m), Min(m.instance.stop, |clean|))
  {
    OverSplit(HeldRow(clean, delivered, m, slot), m.instance.start, FreezeStop(m), |clean|, m.instance.stop);
  }

  method ValidateHeldLast(clean: Trace, delivered: Trace, m: FaultManifest, before: seq<FailureCode>)
    returns (codes: seq<FailureCode>)
    requires Paired(clean, delivered, m) && m.instance.op.T2?
    ensures Adds(before, codes, OverSlots(HeldSlot(clean, delivered, m), m.instance.slots))
  {
    codes := before;
    var slots, n := m.instance.slots, 0;
    while n < |slots|
      invariant 0 <= n <= |slots|
      invariant Adds(before, codes, OverSlots(HeldSlot(clean, delivered, m), slots[..n]))
    {
      OverSlotsStep(HeldSlot(clean, delivered, m), slots, n);
      codes := ValidateHeldSlot(clean, delivered, m, slots[n], codes);
      n := n + 1;
    }
    assert slots[..n] == slots;
  }

  // ------------------------------------------------------------------------- T3

  /** All declared slots name a source frame at this index. */
  predicate Concrete(d: EvaluationRecord, slots: seq<Slot>) {
    forall s <- slots :: d.Prov(s).sourceIndex.Some?
  }

  /** Some two declared slots show different source frames at this index. */
  predicate Skewed(d: EvaluationRecord, slots: seq<Slot>) {
    && Concrete(d, slots)
    && exists s, t :: s in slots && t in slots && d.Prov(s).sourceIndex != d.Prov(t).sourceIndex
  }

  ghost function SkewAt(clean: Trace, delivered: Trace, m: FaultManifest, index: int, slot: Slot)
    : set<FailureCode>
    requires Paired(clean, delivered, m) && m.instance.op.T3?
  {
    if !Reached(m, |clean|, index) || slot !in m.instance.slots then {}
    else
      RoutedFrameExists(m, |clean|, index, slot);
      RoutedTo(clean, delivered, index, slot, RoutedFrame(m.instance, slot, index), slot)
  }

  ghost function SkewFrame(clean: Trace, delivered: Trace, m: FaultManifest, index: int): set<FailureCode>
    requires Paired(clean, delivered, m) && m.instance.op.T3?
  {
    if !Reached(m, |clean|, index) then {}
    else if !Concrete(delivered[index], m.instance.slots) then {SourceIndexMismatch}
    else OverSlots(s => SkewAt(clean, delivered, m, index, s), m.instance.slots)
  }

  ghost function SkewRow(clean: Trace, delivered: Trace, m: FaultManifest): int -> set<FailureCode>
    requires Paired(clean, delivered, m) && m.instance.op.T3?
  {
    i => SkewFrame(clean, delivered, m, i)
  }

  function SkewTest(delivered: Trace, m: FaultManifest): int -> bool {
    i => 0 <= i < |delivered| && Skewed(delivered[i], m.instance.slots)
  }

  /** Some in-window record shows a skew. */
  predicate SomeSkew(delivered: Trace, m: FaultManifest) {
    Anywhere(SkewTest(delivered, m), m.instance.start, Min(m.instance.stop, |delivered|))
  }

  /** max - min of the concrete source indices of a record. */
  method Gap(d: EvaluationRecord, slots: seq<Slot>) returns (gap: nat)
    requires Concrete(d, slots) && slots != []
    ensures gap > 0 <==> Skewed(d, slots)
  {
    var least, most, n := d.Prov(slots[0]).sourceIndex.value, d.Prov(slots[0]).sourceIndex.value, 0;
    while n < |slots|
      invariant 0 <= n <= |slots|
      invariant least <= most
      invariant forall s <- slots[..n] :: least <= d.Prov(s).sourceIndex.value <= most
      invariant exists s <- slots :: d.Prov(s).sourceIndex.value == least
      invariant exists s <- slots :: d.Prov(s).sourceIndex.value == most
    {
      assert slots[..n + 1] == slots[..n] + [slots[n]];
      var value := d.Prov(slots[n]).sourceIndex.value;
      least, most := Min(least, value), Max(most, value);
      n := n + 1;
    }
    assert slots[..n] == slots;
    gap := most - least;
  }

  method ValidateSkewRow(clean: Trace, delivered: Trace, m: FaultManifest, index: int, before: seq<FailureCode>)
    returns (codes: seq<FailureCode>)
    requires Paired(clean, delivered, m) && m.instance.op.T3? && Reached(m, |clean|, index)
    ensures Adds(before, codes, OverSlots(s => SkewAt(clean, delivered, m, index, s), m.instance.slots))
  {
    codes := before;
    var slots, n := m.instance.slots, 0;
    ghost var found := s => SkewAt(clean, delivered, m, index, s);
    while n < |slots|
      invariant 0 <= n <= |slots|
      invariant Adds(before, codes, OverSlots(found, slots[..n]))
    {
      OverSlotsStep(found, slots, n);
      RoutedFrameExists(m, |clean|, index, slots[n]);
      var frame := m.parameters.sources.At(slots[n])[index - m.instance.start];
      codes := ValidateRoutedSource(clean, delivered, index, slots[n], frame, slots[n], codes);
      n := n + 1;
    }
    assert slots[..n] == slots;
  }

  method ValidateSkewFrame(clean: Trace, delivered: Trace, m: FaultManifest, index: int, before: seq<FailureCode>)
    returns (codes: seq<FailureCode>, gap: nat)
    requires Paired(clean, delivered, m) && m.instance.op.T3? && Reached(m, |clean|, index)
    ensures Adds(before, codes, SkewFrame(clean, delivered, m, index))
    ensures gap > 0 <==> Skewed(delivered[index], m.instance.slots)
  {
    gap := 0;
    if !Concrete(delivered[index], m.instance.slots) {
      codes := Note(before, true, SourceIndexMismatch);
    } else {
      gap := Gap(delivered[index], m.instance.slots);
      codes := ValidateSkewRow(clean, delivered, m, index, before);
    }
  }

  method ValidateNextSkew(clean: Trace, delivered: Trace, m: FaultManifest, index: nat,
                          ghost first: seq<FailureCode>, before: seq<FailureCode>)
    returns (codes: seq<FailureCode>, gap: nat)
    requires Paired(clean, delivered, m) && m.instance.op.T3?
    requires m.instance.start <= index < Min(m.instance.stop, |delivered|)
    requires Adds(first, before, Over(SkewRow(clean, delivered, m), m.instance.start, index))
    ensures Adds(first, codes, Over(SkewRow(clean, delivered, m), m.instance.start, index + 1))
    ensures gap > 0 <==> SkewTest(delivered, m)(index)
  {
    codes, gap := ValidateSkewFrame(clean, delivered, m, index, before);
    AddsOver(first, before, codes, SkewRow(clean, delivered, m), m.instance.start, index);
  }

  method ValidateSkewFrames(clean: Trace, delivered: Trace, m: FaultManifest, before: seq<FailureCode>)
    returns (codes: seq<FailureCode>, widest: nat)
    requires Paired(clean, delivered, m) && m.instance.op.T3?
    ensures Adds(before, codes,
                 Over(SkewRow(clean, delivered, m), m.instance.start, Min(m.instance.stop, |clean|)))
    ensures widest > 0 <==> SomeSkew(delivered, m)
  {
    codes, widest := before, 0;
    ghost var found, test := SkewRow(clean, delivered, m), SkewTest(delivered, m);
    var start, hi := m.instance.start, Min(m.instance.stop, |delivered|);
    var index := start;
    while index < hi
      invariant start <= index <= Max(start, hi)
      invariant widest > 0 <==> Anywhere(test, start, index)
      invariant Adds(before, codes, Over(found, start, index))
    {
      var gap;
      codes, gap := ValidateNextSkew(clean, delivered, m, index, before, codes);
      widest, index := Max(widest, gap), index + 1;
    }
    assert index == Max(start, hi);
    assert Over(found, start, index) == Over(found, start, hi);
    assert Anywhere(test, start, index) == Anywhere(test, start, hi);
  }

  method ValidateInterSensorSkew(clean: Trace, delivered: Trace, m: FaultManifest, before: seq<FailureCode>)
    returns (codes: seq<FailureCode>)
    requires Paired(clean, delivered, m) && m.instance.op.T3?
    ensures Adds(before, codes,
                 Over(SkewRow(clean, delivered, m), m.instance.start, Min(m.instance.stop, |clean|))
                 + (if SomeSkew(delivered, m) then {} else {NoInterSensorSkew}))
  {
    var widest;
    codes, widest := ValidateSkewFrames(clean, delivered, m, before);
    codes := Note(codes, widest <= 0, NoInterSensorSkew);
  }

  // ------------------------------------------------------------------------- C1

  predicate Misrouted(m: FaultManifest, index: int)
    requires m.parameters.Misrouting?
  {
    index - m.instance.start in m.parameters.affected
  }

  ghost function RouteAt(clean: Trace, delivered: Trace, m: FaultManifest, index: int, slot: Slot)
    : set<FailureCode>
    requires Paired(clean, delivered, m) && m.instance.op.C1?
  {
    if !Reached(m, |clean|, index) then {}
    else if Misrouted(m, index) then RoutedTo(clean, delivered, index, slot, index, Other(slot))
    else Footprint(clean[index], delivered[index], slot)
  }

  ghost function RouteRow(clean: Trace, delivered: Trace, m: FaultManifest): int -> set<FailureCode>
    requires Paired(clean, delivered, m) && m.instance.op.C1?
  {
    i => OverSlots(s => RouteAt(clean, delivered, m, i, s), m.instance.slots)
  }

  /** A slot that shows a physical source not named after it. */
  predicate Foreigner(d: EvaluationRecord, slots: seq<Slot>) {
    exists s :: s in slots && d.Prov(s).physicalSource != SlotName(s)
  }

  function RouteTest(delivered: Trace, m: FaultManifest): int -> bool
    requires m.parameters.Misrouting?
  {
    i => 0 <= i < |delivered| && Misrouted(m, i) && Foreigner(delivered[i], m.instance.slots)
  }

  /** Some exposed record shows a foreign source. */
  predicate SomeMisrouting(delivered: Trace, m: FaultManifest)
    requires m.parameters.Misrouting?
  {
    Anywhere(RouteTest(delivered, m), m.instance.start, Min(m.instance.stop, |delivered|))
  }

  method ValidateRouteRow(clean: Trace, delivered: Trace, m: FaultManifest, index: int, before: seq<FailureCode>)
    returns (codes: seq<FailureCode>, mismatches: nat)
    requires Paired(clean, delivered, m) && m.instance.op.C1? && Reached(m, |clean|, index)
    ensures Adds(before, codes, RouteRow(clean, delivered, m)(index))
    ensures mismatches > 0 <==> Misrouted(m, index) && Foreigner(delivered[index], m.instance.slots)
  {
    codes, mismatches := before, 0;
    var slots, n := m.instance.slots, 0;
    ghost var found := s => RouteAt(clean, delivered, m, index, s);
    while n < |slots|
      invariant 0 <= n <= |slots|
      invariant Adds(before, codes, OverSlots(found, slots[..n]))
      invariant mismatches > 0 <==> Misrouted(m, index) && Foreigner(delivered[index], slots[..n])
    {
      var slot := slots[n];
      OverSlotsStep(found, slots, n);
      assert slots[..n + 1] == slots[..n] + [slot];
      if Misrouted(m, index) {
        if delivered[index].Prov(slot).physicalSource != SlotName(slot) { mismatches := mismatches + 1; }
        codes := ValidateRoutedSource(clean, delivered, index, slot, index, Other(slot), codes);
      } else {
        codes := Note(codes, !SlotMatches(clean[index], delivered[index], slot), NativeFootprintViolation);
      }
      n := n + 1;
    }
    assert slots[..n] == slots;
  }

  /** The source visits the exposed indices first and the others second; both passes are
      taken here in one, which finds the same codes. */
  method ValidateRouteFrames(clean: Trace, delivered: Trace, m: FaultManifest, before: seq<FailureCode>)
    returns (codes: seq<FailureCode>, mismatches: nat)
    requires Paired(clean, delivered, m) && m.instance.op.C1?
    ensures Adds(before, codes,
                 Over(RouteRow(clean, delivered, m), m.instance.start, Min(m.instance.stop, |clean|)))
    ensures mismatches > 0 <==> SomeMisrouting(delivered, m)
  {
    codes, mismatches := before, 0;
    ghost var found, test := RouteRow(clean, delivered, m), RouteTest(delivered, m);
    var start, hi := m.instance.start, Min(m.instance.stop, |delivered|);
    var index := start;
    while index < hi
      invariant start <= index <= Max(start, hi)
      invariant mismatches > 0 <==> Anywhere(test, start, index)
      invariant Adds(before, codes, Over(found, start, index))
    {
      var next, more := ValidateRouteRow(clean, delivered, m, index, codes);
      AddsOver(before, codes, next, found, start, index);
      codes, mismatches, index := next, mismatches + more, index + 1;
    }
    assert index == Max(start, hi);
    assert Over(found, start, index) == Over(found, start, hi);
    assert Anywhere(test, start, index) == Anywhere(test, start, hi);
  }

  method ValidateIdentityMisrouting(clean: Trace, delivered: Trace, m: FaultManifest, before: seq<FailureCode>)
    returns (codes: seq<FailureCode>)
    requires Paired(clean, delivered, m) && m.instance.op.C1?
    ensures Adds(before, codes,
                 Over(RouteRow(clean, delivered, m), m.instance.start, Min(m.instance.stop, |clean|))
                 + (if SomeMisrouting(delivered, m) then {} else {NoIdentityMisrouting}))
  {
    var mismatches;
    codes, mismatches := ValidateRouteFrames(clean, delivered, m, before);
    codes := Note(codes, mismatches == 0, NoIdentityMisrouting);
  }
}
