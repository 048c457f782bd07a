/** Failure codes, and how the validators' loops accumulate them. */
module ValidationCodes {
  import opened Basics
  import opened Records

  datatype FailureCode =
    | LengthMismatch | CleanReferenceMismatch | StaleDeliveredHash | OutsideWindowChanged
    | WriteSetViolation | MissingFaultProvenance | ObservabilityMismatch | FutureSource
    | SourcePayloadMismatch | AbsenceNotStructural | AbsenceSourceNotNull
    | NativeFootprintViolation | NonAvailabilityRemovedPayload | InactiveOperator
    | SourceIndexMismatch | SourceTimeMismatch | SourceIdentityMismatch | FreezeNotHeld
    | NoInterSensorSkew | NoIdentityMisrouting | OperatorSignatureMismatch
    | CalibrationProvenanceUnchanged | SignatureNotDelivered | DiagnosticMissing
    | A2ResumeMissing | RestorationNotObserved

  type Trace = seq<EvaluationRecord>

  datatype Report = Report(passed: bool, codes: seq<FailureCode>, affected: nat)

  /** What every report satisfies: it passes exactly without codes, and codes are unique. */
  predicate ReportOk(r: Report) {
    (r.passed <==> r.codes == []) && Unique(r.codes)
  }

  predicate Unique(codes: seq<FailureCode>) {
    forall i, j :: 0 <= i < j < |codes| ==> codes[i] != codes[j]
  }

  /** `after` lists what `before` lists and what was found, nothing else, still uniquely. */
  ghost predicate Adds(before: seq<FailureCode>, after: seq<FailureCode>, found: set<FailureCode>) {
    && (forall c :: c in after <==> c in before || c in found)
    && (Unique(before) ==> Unique(after))
  }

  /** Appends a code once, when its check fails. */
  function Note(codes: seq<FailureCode>, failed: bool, code: FailureCode): (r: seq<FailureCode>)
    ensures forall c :: c in r <==> c in codes || (failed && c == code)
    ensures Unique(codes) ==> Unique(r)
  {
    if failed && code !in codes then codes + [code] else codes
  }

  // --------------------------------------------------------- what each code means

  predicate SlotMatches(c: EvaluationRecord, d: EvaluationRecord, slot: Slot) {
    c.Sensor(slot) == d.Sensor(slot) && c.Prov(slot) == d.Prov(slot)
  }

  /** Disagreement of a routed slot with the clean frame it must come from. */
  predicate RoutedViolates(code: FailureCode, actual: Provenance, source: Provenance, index: int) {
    match code
    case SourceIndexMismatch => actual.sourceIndex != Some(index)
    case SourceTimeMismatch => actual.sourceTime != source.sourceTime
    case SourcePayloadMismatch => actual.payloadHash != source.payloadHash
    case SourceIdentityMismatch => actual.physicalSource != source.physicalSource
    case _ => false
  }

  function RoutedFindings(actual: Provenance, source: Provenance, index: int): set<FailureCode> {
    set code: FailureCode | RoutedViolates(code, actual, source, index)
  }

  // ---------------------------------------------------------- accumulated findings

  /** Everything found over a range of indices. */
  function Over(found: int -> set<FailureCode>, lo: int, hi: int): set<FailureCode>
    decreases hi - lo
  {
    if hi <= lo then {} else Over(found, lo, hi - 1) + found(hi - 1)
  }

  lemma {:induction false} OverMember(found: int -> set<FailureCode>, lo: int, hi: int, code: FailureCode)
    ensures code in Over(found, lo, hi) <==> exists i :: lo <= i < hi && code in found(i)
    decreases hi - lo
  {
    if lo < hi { OverMember(found, lo, hi - 1, code); }
  }

  lemma {:induction false} OverConcat(found: int -> set<FailureCode>, lo: int, mid: int, hi: int)
    requires lo <= mid <= hi
    ensures Over(found, lo, hi) == Over(found, lo, mid) + Over(found, mid, hi)
    decreases hi - mid
  {
    if mid < hi { OverConcat(found, lo, mid, hi - 1); }
  }

  /** A range clipped at n splits at any inner point. */
  lemma {:induction false} OverSplit(found: int -> set<FailureCode>, lo: int, mid: int, n: int, hi: int)
    requires lo <= mid <= hi
    ensures Over(found, lo, Min(hi, n)) == Over(found, lo, Min(mid, n)) + Over(found, mid, Min(hi, n))
  {
    if mid <= n { OverConcat(found, lo, mid, Min(hi, n)); }
  }

  /** One more index of a loop. */
  lemma {:induction false} AddsOver(before: seq<FailureCode>, codes: seq<FailureCode>, next: seq<FailureCode>,
                                    found: int -> set<FailureCode>, lo: int, index: int)
    requires lo <= index
    requires Adds(before, codes, Over(found, lo, index)) && Adds(codes, next, found(index))
    ensures Adds(before, next, Over(found, lo, index + 1))
  {
  }

  /** Whether a test holds anywhere in a range. */
  predicate Anywhere(test: int -> bool, lo: int, hi: int)
    decreases hi - lo
  {
    lo < hi && (Anywhere(test, lo, hi - 1) || test(hi - 1))
  }

  lemma {:induction false} AnywhereMeans(test: int -> bool, lo: int, hi: int)
    ensures Anywhere(test, lo, hi) <==> exists i :: lo <= i < hi && test(i)
    decreases hi - lo
  {
    if lo < hi { AnywhereMeans(test, lo, hi - 1); }
  }

  /** How often a test holds in a range. */
  function Tally(test: int -> bool, lo: int, hi: int): nat
    decreases hi - lo
  {
    if hi <= lo then 0 else Tally(test, lo, hi - 1) + (if test(hi - 1) then 1 else 0)
  }

  lemma {:induction false} TallyPositive(test: int -> bool, lo: int, hi: int)
    ensures Tally(test, lo, hi) > 0 <==> Anywhere(test, lo, hi)
    decreases hi - lo
  {
    if lo < hi { TallyPositive(test, lo, hi - 1); }
  }

  /** Everything found over a list of slots. */
  function OverSlots(found: Slot -> set<FailureCode>, slots: seq<Slot>): set<FailureCode> {
    if slots == [] then {} else OverSlots(found, slots[..|slots| - 1]) + found(slots[|slots| - 1])
  }

  lemma {:induction false} OverSlotsMember(found: Slot -> set<FailureCode>, slots: seq<Slot>, code: FailureCode)
    ensures code in OverSlots(found, slots) <==> exists s :: s in slots && code in found(s)
  {
    if slots != [] {
      var front := slots[..|slots| - 1];
      OverSlotsMember(found, front, code);
      assert slots == front + [slots[|slots| - 1]];
    }
  }

  lemma {:induction false} OverSlotsStep(found: Slot -> set<FailureCode>, slots: seq<Slot>, n: nat)
    requires n < |slots|
    ensures OverSlots(found, slots[..n + 1]) == OverSlots(found, slots[..n]) + found(slots[n])
  {
    assert slots[..n + 1][..n] == slots[..n];
  }
}
