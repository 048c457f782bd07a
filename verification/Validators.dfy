/**
 Delivery validation: the hard gate before scoring.  Loops over the paired traces accumulate
 failure codes; each method is tied to the set of codes the traces deserve.
 */
module Validators {
  import opened Basics
  import opened OperatorParameters
  import opened Manifests
  import opened Records
  import opened PixelReference
  import opened ValidationCodes
  import opened OperatorValidators

  predicate NonTactileMatches(c: EvaluationRecord, d: EvaluationRecord) {
    var a, b := c.Observed(), d.Observed();
    && a.episodeId == b.episodeId && a.task == b.task && a.seed == b.seed
    && a.stepIndex == b.stepIndex && a.vision == b.vision && a.proprio == b.proprio
  }

  /** The registered offsets at which an availability operator withholds the payload. */
  function AbsentOffsets(m: FaultManifest): seq<int>
    requires ParametersFit(m.instance.op, m.parameters)
  {
    if m.instance.op.A1? then m.parameters.affected
    else if m.instance.op.A2? then m.parameters.erased
    else []
  }

  predicate Absent(m: FaultManifest, index: int)
    requires ParametersFit(m.instance.op, m.parameters)
  {
    index - m.instance.start in AbsentOffsets(m)
  }

  function FlaggedValidity(m: FaultManifest, clean: Sensor, delivered: Sensor): Option<bool> {
    if m.observability.Declared? then Some(false)
    else if delivered.payload.Some? then clean.validity
    else None
  }

  function AbsentValidity(m: FaultManifest): Option<bool> {
    if m.observability.Declared? then Some(false) else None
  }

  /** Provenance and observability of a declared slot. */
  predicate ProvenanceViolates(code: FailureCode, m: FaultManifest, c: EvaluationRecord,
                               d: EvaluationRecord, index: int, slot: Slot)
  {
    var sensor, prov := d.Sensor(slot), d.Prov(slot);
    var flagged := m.instance.op in prov.faults;
    match code
    case MissingFaultProvenance => !SlotMatches(c, d, slot) && !flagged
    case ObservabilityMismatch => flagged && sensor.validity != FlaggedValidity(m, c.Sensor(slot), sensor)
    case FutureSource => prov.sourceIndex.Some? && prov.sourceIndex.value > index
    case SourcePayloadMismatch => sensor.payload.Some? && prov.payloadHash != Some(Sha(sensor.payload.value))
    case _ => false
  }

  /** Presence of the payload: withheld exactly where an availability operator says so. */
  predicate PresenceViolates(code: FailureCode, m: FaultManifest, c: EvaluationRecord,
                             d: EvaluationRecord, index: int, slot: Slot)
    requires ParametersFit(m.instance.op, m.parameters)
  {
    var sensor, prov, absent := d.Sensor(slot), d.Prov(slot), Absent(m, index);
    match code
    case AbsenceNotStructural => absent && sensor.payload.Some?
    case AbsenceSourceNotNull =>
      absent && (prov.sourceIndex.Some? || prov.sourceTime.Some? || prov.payloadHash.Some?)
    case ObservabilityMismatch => absent && sensor.validity != AbsentValidity(m)
    case NativeFootprintViolation => !absent && IsAvailability(m.instance.op) && !SlotMatches(c, d, slot)
    case NonAvailabilityRemovedPayload => !IsAvailability(m.instance.op) && sensor.payload.None?
    case _ => false
  }

  predicate SlotViolates(code: FailureCode, m: FaultManifest, c: EvaluationRecord, d: EvaluationRecord,
                         index: int, slot: Slot)
    requires ParametersFit(m.instance.op, m.parameters)
  {
    ProvenanceViolates(code, m, c, d, index, slot) || PresenceViolates(code, m, c, d, index, slot)
  }

  /** Codes that concern a record as a whole. */
  predicate HeaderViolates(code: FailureCode, m: FaultManifest, c: EvaluationRecord, d: EvaluationRecord,
                           index: int)
  {
    match code
    case CleanReferenceMismatch => d.cleanHash != Sha(c.content)
    case StaleDeliveredHash => d.deliveredHash != Sha(d.content)
    case OutsideWindowChanged => !m.Active(index) && d.content != c.content
    case WriteSetViolation =>
      m.Active(index) && (!NonTactileMatches(c, d)
                          || exists slot: Slot :: slot !in m.instance.slots && !SlotMatches(c, d, slot))
    case _ => false
  }

  function SlotFindings(m: FaultManifest, c: EvaluationRecord, d: EvaluationRecord, index: int, slot: Slot)
    : set<FailureCode>
    requires ParametersFit(m.instance.op, m.parameters)
  {
    set code: FailureCode | SlotViolates(code, m, c, d, index, slot)
  }

  function RecordFindings(m: FaultManifest, c: EvaluationRecord, d: EvaluationRecord, index: int)
    : set<FailureCode>
    requires ParametersFit(m.instance.op, m.parameters)
  {
    (set code: FailureCode | HeaderViolates(code, m, c, d, index))
    + (if m.Active(index) then OverSlots(s => SlotFindings(m, c, d, index, s), m.instance.slots) else {})
  }

  // ------------------------------------------------------------ validate_delivery

  method CheckProvenance(m: FaultManifest, c: EvaluationRecord, d: EvaluationRecord, index: int, slot: Slot,
                         before: seq<FailureCode>) returns (codes: seq<FailureCode>)
    ensures forall code :: code in codes <==> code in before || ProvenanceViolates(code, m, c, d, index, slot)
    ensures Unique(before) ==> Unique(codes)
  {
    var sensor, prov := d.Sensor(slot), d.Prov(slot);
    var flagged := m.instance.op in prov.faults;
    codes := Note(before, !SlotMatches(c, d, slot) && !flagged, MissingFaultProvenance);
    codes := Note(codes, flagged && sensor.validity != FlaggedValidity(m, c.Sensor(slot), sensor),
                  ObservabilityMismatch);
    codes := Note(codes, prov.sourceIndex.Some? && prov.sourceIndex.value > index, FutureSource);
    codes := Note(codes, sensor.payload.Some? && prov.payloadHash != Some(Sha(sensor.payload.value)),
                  SourcePayloadMismatch);
  }

  method CheckPresence(m: FaultManifest, c: EvaluationRecord, d: EvaluationRecord, index: int, slot: Slot,
                       before: seq<FailureCode>) returns (codes: seq<FailureCode>)
    requires ParametersFit(m.instance.op, m.parameters)
    ensures forall code :: code in codes <==> code in before || PresenceViolates(code, m, c, d, index, slot)
    ensures Unique(before) ==> Unique(codes)
  {
    var sensor, prov := d.Sensor(slot), d.Prov(slot);
    if Absent(m, index) {
      codes := Note(before, sensor.payload.Some?, AbsenceNotStructural);
      codes := Note(codes, prov.sourceIndex.Some? || prov.sourceTime.Some? || prov.payloadHash.Some?,
                    AbsenceSourceNotNull);
      codes := Note(codes, sensor.validity != AbsentValidity(m), ObservabilityMismatch);
    } else if IsAvailability(m.instance.op) {
      codes := Note(before, !SlotMatches(c, d, slot), NativeFootprintViolation);
    } else {
      codes := Note(before, sensor.payload.None?, NonAvailabilityRemovedPayload);
    }
  }

  method CheckSlot(m: FaultManifest, c: EvaluationRecord, d: EvaluationRecord, index: int, slot: Slot,
                   before: seq<FailureCode>) returns (codes: seq<FailureCode>)
    requires ParametersFit(m.instance.op, m.parameters)
    ensures Adds(before, codes, SlotFindings(m, c, d, index, slot))
  {
    codes := CheckProvenance(m, c, d, index, slot, before);
    codes := CheckPresence(m, c, d, index, slot, codes);
  }

  /** The declared slots of one in-window record. */
  method CheckSlots(m: FaultManifest, c: EvaluationRecord, d: EvaluationRecord, index: int,
                    before: seq<FailureCode>) returns (codes: seq<FailureCode>)
    requires ParametersFit(m.instance.op, m.parameters)
    ensures Adds(before, codes, OverSlots(s => SlotFindings(m, c, d, index, s), m.instance.slots))
  {
    codes := before;
    var slots, n := m.instance.slots, 0;
    ghost var found := s => SlotFindings(m, c, d, index, s);
    while n < |slots|
      invariant 0 <= n <= |slots|
      invariant Adds(before, codes, OverSlots(found, slots[..n]))
    {
      OverSlotsStep(found, slots, n);
      codes := CheckSlot(m, c, d, index, slots[n], codes);
      n := n + 1;
    }
    assert slots[..n] == slots;
  }

  method CheckHeader(m: FaultManifest, c: EvaluationRecord, d: EvaluationRecord, index: int,
                     before: seq<FailureCode>) returns (codes: seq<FailureCode>)
    ensures forall code :: code in codes <==> code in before || HeaderViolates(code, m, c, d, index)
    ensures Unique(before) ==> Unique(codes)
  {
    codes := Note(before, d.cleanHash != Sha(c.content), CleanReferenceMismatch);
    codes := Note(codes, d.deliveredHash != Sha(d.content), StaleDeliveredHash);
    if !m.Active(index) {
      codes := Note(codes, d.content != c.content, OutsideWindowChanged);
    } else {
      codes := Note(codes, !NonTactileMatches(c, d), WriteSetViolation);
      codes := Note(codes, Left !in m.instance.slots && !SlotMatches(c, d, Left), WriteSetViolation);
      codes := Note(codes, Right !in m.instance.slots && !SlotMatches(c, d, Right), WriteSetViolation);
    }
  }

  method CheckRecord(m: FaultManifest, c: EvaluationRecord, d: EvaluationRecord, index: int,
                     before: seq<FailureCode>) returns (codes: seq<FailureCode>)
    requires ParametersFit(m.instance.op, m.parameters)
    ensures Adds(before, codes, RecordFindings(m, c, d, index))
  {
    codes := CheckHeader(m, c, d, index, before);
    if m.Active(index) {
      codes := CheckSlots(m, c, d, index, codes);
    }
  }

  // --------------------------------------------------------------- pixel signature

  /** What the validator takes from outside: the transcendental kernels, and the dose
      diagnostics of the achieved signature. */
  datatype Gauge = Gauge(kernels: Kernels, dose: (Trace, Trace, FaultManifest) -> seq<FailureCode>)

  ghost predicate SignatureMatches(g: Gauge, clean: Trace, delivered: Trace, m: FaultManifest,
                                   rest: Option<RestBundle>)
    requires Paired(clean, delivered, m) && IsPixel(m.instance.op) && TraceReadable(clean, m, rest)
  {
    forall i, s :: InWindow(clean, m, i, s) ==>
      delivered[i].Sensor(s).payload == Some(ExpectedPicture(g.kernels, clean, m, rest, i, s))
  }

  predicate CalibrationChanged(clean: Trace, delivered: Trace, m: FaultManifest)
    requires |clean| == |delivered|
  {
    exists i, s: Slot :: 0 <= i < |clean| && Reached(m, |clean|, i) && s in m.instance.slots
                         && delivered[i].Prov(s).calibrationHash != clean[i].Prov(s).calibrationHash
  }

  ghost function PixelFindings(g: Gauge, clean: Trace, delivered: Trace, m: FaultManifest,
                               rest: Option<RestBundle>): set<FailureCode>
    requires Paired(clean, delivered, m) && IsPixel(m.instance.op) && TraceReadable(clean, m, rest)
  {
    (if SignatureMatches(g, clean, delivered, m, rest) then {} else {OperatorSignatureMismatch})
    + (set c <- g.dose(clean, delivered, m))
    + (if m.instance.op.C2? && !CalibrationChanged(clean, delivered, m) then {CalibrationProvenanceUnchanged}
       else {})
  }

  /** Compares every expected picture with the delivered payload, stopping at the first miss. */
  method MatchPictures(expected: Pictures, delivered: Trace) returns (matched: bool)
    requires forall key :: key in expected ==> 0 <= key.0 < |delivered|
    ensures matched <==> forall key :: key in expected ==>
              delivered[key.0].Sensor(key.1).payload == Some(expected[key])
  {
    var left := expected.Keys;
    while left != {}
      invariant left <= expected.Keys
      invariant forall key :: key in expected && key !in left ==>
                  delivered[key.0].Sensor(key.1).payload == Some(expected[key])
      decreases left
    {
      var key :| key in left;
      if delivered[key.0].Sensor(key.1).payload != Some(expected[key]) { return false; }
      left := left - {key};
    }
    return true;
  }

  method NoteAll(more: seq<FailureCode>, before: seq<FailureCode>) returns (codes: seq<FailureCode>)
    ensures Adds(before, codes, set c <- more)
  {
    codes := before;
    var n := 0;
    while n < |more|
      invariant 0 <= n <= |more|
      invariant Adds(before, codes, set c <- more[..n])
    {
      assert more[..n + 1] == more[..n] + [more[n]];
      codes := Note(codes, true, more[n]);
      n := n + 1;
    }
    assert more[..n] == more;
  }

  /** When the signature can be measured; otherwise validation itself raises. */
  predicate Measurable(clean: Trace, m: FaultManifest, rest: Option<RestBundle>)
    requires ParametersFit(m.instance.op, m.parameters)
  {
    IsPixel(m.instance.op) ==>
      (NeedsRest(m.instance.op) ==> rest.Some?) && TraceReadable(clean, m, rest)
  }

  method MeasureSignature(g: Gauge, clean: Trace, delivered: Trace, m: FaultManifest,
                          rest: Option<RestBundle>) returns (r: Reply<bool>)
    requires Paired(clean, delivered, m) && IsPixel(m.instance.op)
    ensures r.Returned? <==> Measurable(clean, m, rest)
    ensures r.Returned? ==> (r.value <==> SignatureMatches(g, clean, delivered, m, rest))
  {
    if NeedsRest(m.instance.op) && rest.None? { return Raised(OtherError); }
    var reference := ExpectedPixelPayloads(g.kernels, clean, m, rest);
    if reference.Raised? { return Raised(reference.error); }
    assert forall key :: key in reference.value ==> InWindow(clean, m, key.0, key.1);
    MatchedMeans(g, clean, delivered, m, rest, reference.value);
    var matched := MatchPictures(reference.value, delivered);
    return Returned(matched);
  }

  method ValidatePixelSignature(g: Gauge, clean: Trace, delivered: Trace, m: FaultManifest,
                                rest: Option<RestBundle>, before: seq<FailureCode>)
    returns (r: Reply<seq<FailureCode>>)
    requires Paired(clean, delivered, m) && IsPixel(m.instance.op)
    ensures r.Returned? <==> Measurable(clean, m, rest)
    ensures r.Returned? ==> Adds(before, r.value, PixelFindings(g, clean, delivered, m, rest))
  {
    var matched := MeasureSignature(g, clean, delivered, m, rest);
    if matched.Raised? { return Raised(matched.error); }
    var codes := NoteSignature(before, !matched.value, g.dose(clean, delivered, m),
                               m.instance.op.C2? && !CalibrationChanged(clean, delivered, m));
    return Returned(codes);
  }

  method NoteSignature(before: seq<FailureCode>, mismatched: bool, dose: seq<FailureCode>, same: bool)
    returns (codes: seq<FailureCode>)
    ensures Adds(before, codes, (if mismatched then {OperatorSignatureMismatch} else {}) + (set c <- dose)
                                + (if same then {CalibrationProvenanceUnchanged} else {}))
  {
    codes := Note(before, mismatched, OperatorSignatureMismatch);
    codes := NoteAll(dose, codes);
    codes := Note(codes, same, CalibrationProvenanceUnchanged);
  }

  lemma {:induction false} MatchedMeans(g: Gauge, clean: Trace, delivered: Trace, m: FaultManifest,
                                        rest: Option<RestBundle>, expected: Pictures)
    requires Paired(clean, delivered, m) && IsPixel(m.instance.op) && TraceReadable(clean, m, rest)
    requires Recorded(expected, g.kernels, clean, m, rest, |clean|, [])
    requires forall key :: key in expected ==> 0 <= key.0 < |delivered|
    ensures SignatureMatches(g, clean, delivered, m, rest) <==>
            forall key :: key in expected ==> delivered[key.0].Sensor(key.1).payload == Some(expected[key])
  {
    forall i, s ensures (i, s) in expected <==> InWindow(clean, m, i, s)
                ensures InWindow(clean, m, i, s) ==>
                  expected[(i, s)] == ExpectedPicture(g.kernels, clean, m, rest, i, s)
    {
      RecordedWhole(expected, g.kernels, clean, m, rest, i, s);
    }
    forall key | key in expected ensures key == (key.0, key.1) {}
  }

  // ---------------------------------------------------------------- the whole gate

  ghost function OperatorFindings(g: Gauge, clean: Trace, delivered: Trace, m: FaultManifest,
                                  rest: Option<RestBundle>): set<FailureCode>
    requires Paired(clean, delivered, m) && Measurable(clean, m, rest)
  {
    var lo, hi := m.instance.start, Min(m.instance.stop, |clean|);
    if IsPixel(m.instance.op) then PixelFindings(g, clean, delivered, m, rest)
    else if m.instance.op.T1? then Over(DelayRow(clean, delivered, m), lo, hi)
    else if m.instance.op.T2? then OverSlots(HeldSlot(clean, delivered, m), m.instance.slots)
    else if m.instance.op.T3? then
      Over(SkewRow(clean, delivered, m), lo, hi)
      + (if SomeSkew(delivered, m) then {} else {NoInterSensorSkew})
    else if m.instance.op.C1? then
      Over(RouteRow(clean, delivered, m), lo, hi)
      + (if SomeMisrouting(delivered, m) then {} else {NoIdentityMisrouting})
    else {}
  }

  function RecordRow(clean: Trace, delivered: Trace, m: FaultManifest): int -> set<FailureCode>
    requires ParametersFit(m.instance.op, m.parameters)
  {
    i => if 0 <= i < |clean| && i < |delivered| then RecordFindings(m, clean[i], delivered[i], i) else {}
  }

  /** An in-window record whose content differs from the clean one. */
  function ChangedTest(clean: Trace, delivered: Trace, m: FaultManifest): int -> bool {
    i => 0 <= i < |clean| && i < |delivered| && m.Active(i) && delivered[i].content != clean[i].content
  }

  ghost function Findings(g: Gauge, clean: Trace, delivered: Trace, m: FaultManifest, rest: Option<RestBundle>)
    : set<FailureCode>
    requires ManifestOk(m) && (|clean| == |delivered| ==> Measurable(clean, m, rest))
  {
    if |clean| != |delivered| then {LengthMismatch}
    else
      Over(RecordRow(clean, delivered, m), 0, |clean|)
      + (if Anywhere(ChangedTest(clean, delivered, m), 0, |clean|) then {} else {InactiveOperator})
      + OperatorFindings(g, clean, delivered, m, rest)
  }

  /** The pass over the paired records. */
  method ValidateRecords(clean: Trace, delivered: Trace, m: FaultManifest)
    returns (codes: seq<FailureCode>, affected: nat)
    requires Paired(clean, delivered, m)
    ensures Adds([], codes, Over(RecordRow(clean, delivered, m), 0, |clean|))
    ensures affected == Tally(ChangedTest(clean, delivered, m), 0, |clean|)
  {
    codes, affected := [], 0;
    ghost var found := RecordRow(clean, delivered, m);
    var index := 0;
    while index < |clean|
      invariant 0 <= index <= |clean|
      invariant Adds([], codes, Over(found, 0, index))
      invariant affected == Tally(ChangedTest(clean, delivered, m), 0, index)
    {
      var next := CheckRecord(m, clean[index], delivered[index], index, codes);
      AddsOver([], codes, next, found, 0, index);
      codes := next;
      if m.Active(index) && delivered[index].content != clean[index].content { affected := affected + 1; }
      index := index + 1;
    }
  }

  method ValidateOperatorSemantics(g: Gauge, clean: Trace, delivered: Trace, m: FaultManifest,
                                   rest: Option<RestBundle>, before: seq<FailureCode>)
    returns (r: Reply<seq<FailureCode>>)
    requires Paired(clean, delivered, m)
    ensures r.Returned? <==> Measurable(clean, m, rest)
    ensures r.Returned? ==> Adds(before, r.value, OperatorFindings(g, clean, delivered, m, rest))
  {
    var codes := before;
    if IsPixel(m.instance.op) {
      r := ValidatePixelSignature(g, clean, delivered, m, rest, before);
      return;
    }
    if m.instance.op.T1? { codes := ValidateFixedDelay(clean, delivered, m, before); }
    else if m.instance.op.T2? { codes := ValidateHeldLast(clean, delivered, m, before); }
    else if m.instance.op.T3? { codes := ValidateInterSensorSkew(clean, delivered, m, before); }
    else if m.instance.op.C1? { codes := ValidateIdentityMisrouting(clean, delivered, m, before); }
    return Returned(codes);
  }

  /** The gate: the report lists exactly the codes the traces deserve, each once, counts the
      records the fault affected, and passes exactly when nothing was found. */
  method ValidateDelivery(g: Gauge, clean: Trace, delivered: Trace, m: FaultManifest, rest: Option<RestBundle>)
    returns (r: Reply<Report>)
    requires ManifestOk(m)
    ensures r.Returned? <==> (|clean| == |delivered| ==> Measurable(clean, m, rest))
    ensures r.Returned? ==>
              && ReportOk(r.value)
              && (forall c :: c in r.value.codes <==> c in Findings(g, clean, delivered, m, rest))
              && (|clean| == |delivered| ==>
                    r.value.affected == Tally(ChangedTest(clean, delivered, m), 0, |clean|))
  {
    if |clean| != |delivered| { return Returned(Report(false, [LengthMismatch], 0)); }
    var codes, affected := ValidateRecords(clean, delivered, m);
    TallyPositive(ChangedTest(clean, delivered, m), 0, |clean|);
    codes := Note(codes, affected == 0, InactiveOperator);
    var semantic := ValidateOperatorSemantics(g, clean, delivered, m, rest, codes);
    if semantic.Raised? { return Raised(semantic.error); }
    return Returned(Report(semantic.value == [], semantic.value, affected));
  }
}
