/**
 Versioned parameters of every registered fault operator: severity doses, the schedules
 generated from a window, and the materialization gate that completes and re-checks a
 caller's parameter dictionary.
 */
module OperatorParameters {
  import opened Basics

  datatype OperatorId = A1 | A2 | C1 | C2 | F1 | F2 | F3 | F4 | F5 | F6 | F7 | T1 | T2 | T3

  predicate IsAvailability(op: OperatorId) {
    op.A1? || op.A2?
  }

  predicate NeedsRest(op: OperatorId) {
    op.F1? || op.F2? || op.F3? || op.F4? || op.F6? || op.C2?
  }

  predicate IsPixel(op: OperatorId) {
    op.F1? || op.F2? || op.F3? || op.F4? || op.F5? || op.F6? || op.F7? || op.C2?
  }

  /** The registered native dose of a severity level, in hundredths. */
  function Dose(op: OperatorId, level: int): int
    requires 1 <= level <= 5
  {
    var path := match op
      case A1 | A2 | C1 => [5, 10, 20, 40, 80]
      case F1 => [95, 88, 78, 65, 50]
      case F2 => [90, 75, 55, 35, 15]
      case F3 | F4 | F5 | T3 | C2 => [100, 200, 300, 400, 500]
      case F6 => [12, 22, 35, 50, 68]
      case F7 => [90, 72, 55, 40, 28]
      case T1 => [100, 200, 400, 800, 1600]
      case T2 => [200, 400, 800, 1600, 3200];
    path[level - 1]
  }

  function Fraction(op: OperatorId, level: int): real
    requires 1 <= level <= 5
  {
    Dose(op, level) as real / 100.0
  }

  /** Doses counted in frames or pixels. */
  function Steps(op: OperatorId, level: int): int
    requires 1 <= level <= 5
  {
    Dose(op, level) / 100
  }

  /** An operator seed together with the normalized offsets its digest assigns to the
      three template axes; the digest itself is not part of this model. */
  datatype Template = Template(seed: nat, x: real, y: real, intercept: real)

  predicate TemplateOk(t: Template) {
    -0.03 <= t.x <= 0.03 && -0.03 <= t.y <= 0.03 && -0.03 <= t.intercept <= 0.03
  }

  datatype Parameters =
    | StreamAbsence(affected: seq<int>)
    | FrameErasure(erased: seq<int>)
    | GlobalDrift(rest: string, gain: real)
    | SensitivityLoss(rest: string, gain: real, centerX: real, centerY: real)
    | SurfaceArtifact(rest: string, intercept: real, scalar: int)
    | LocalPatch(rest: string, centerX: real, centerY: real, scalar: int)
    | ShapeDistortion(centerX: real, centerY: real, displacement: int)
    | HistoryImprint(rest: string, mix: real)
    | Saturation(knee: real)
    | FixedDelay(lag: int, source: seq<int>)
    | HeldLast(duration: int, held: int, source: seq<int>)
    | SensorSkew(delayed: Slot, skew: int, sources: PerSlot<seq<int>>, scope: set<Slot>)
    | Misrouting(affected: seq<int>)
    | Misregistration(rest: string, shift: int)

  // ---------------------------------------------------------------- schedules

  /** How many frames of a window a fractional dose covers. */
  function AffectedCount(window: int, dose: int): int {
    Max(1, Min(window, HalfEven(window * dose, 100)))
  }

  function Range(lo: int, hi: int): (s: seq<int>)
    ensures |s| == Max(0, hi - lo)
    ensures forall i :: 0 <= i < |s| ==> s[i] == lo + i
  {
    seq(Max(0, hi - lo), i => lo + i)
  }

  /** The generated A2 schedule: `count` positions spread evenly over the window. */
  function SpreadOffsets(window: int, count: int): (s: seq<int>)
    requires count >= 1
    ensures |s| == count
  {
    if count == 1 then [0]
    else seq(count, position requires 0 <= position < count =>
                      HalfEven(position * (window - 1), count - 1))
  }

  predicate StrictlyIncreasing(s: seq<int>) {
    forall i, j :: 0 <= i < j < |s| ==> s[i] < s[j]
  }

  predicate WithinWindow(s: seq<int>, window: int) {
    forall i :: 0 <= i < |s| ==> 0 <= s[i] < window
  }

  /** What the gate demands of an A2 schedule, supplied or generated. */
  predicate ErasureOk(s: seq<int>, window: int, count: int) {
    |s| == count && StrictlyIncreasing(s) && WithinWindow(s, window)
  }

  /** One generated position is strictly before the next when there is room for all. */
  lemma {:induction false} SpreadStep(window: int, count: int, p: int)
    requires 2 <= count <= window && 0 <= p && p + 1 < count
    ensures HalfEven(p * (window - 1), count - 1) < HalfEven((p + 1) * (window - 1), count - 1)
  {
    var d := count - 1;
    var n, m := p * (window - 1), (p + 1) * (window - 1);
    assert m == n + window - 1;
    if window - 1 == d {
      HalfEvenExact(p, d);
      HalfEvenExact(p + 1, d);
    } else {
      var a, b := HalfEven(n, d), HalfEven(m, d);
      NearestBounds(n, d);
      NearestBounds(m, d);
      if a >= b {
        assert d * a >= d * b by { if a > b { ProductGap(d, a, b); } }
      }
    }
  }

  lemma {:induction false} SpreadIncreasing(window: int, count: int, i: int, j: int)
    requires 2 <= count <= window && 0 <= i < j < count
    ensures HalfEven(i * (window - 1), count - 1) < HalfEven(j * (window - 1), count - 1)
    decreases j - i
  {
    SpreadStep(window, count, j - 1);
    if i < j - 1 { SpreadIncreasing(window, count, i, j - 1); }
  }

  /** For every window and every count that fits in it, the generated schedule passes the
      gate, and it spans the whole window once it has two positions. */
  lemma {:induction false} SpreadAccepted(window: int, count: int)
    requires 1 <= count <= window
    ensures ErasureOk(SpreadOffsets(window, count), window, count)
    ensures SpreadOffsets(window, count)[0] == 0
    ensures count > 1 ==> SpreadOffsets(window, count)[count - 1] == window - 1
  {
    var s := SpreadOffsets(window, count);
    if count > 1 {
      HalfEvenExact(0, count - 1);
      assert (count - 1) * (window - 1) == (window - 1) * (count - 1);
      HalfEvenExact(window - 1, count - 1);
      forall i, j | 0 <= i < j < |s| ensures s[i] < s[j] {
        SpreadIncreasing(window, count, i, j);
      }
      forall i | 0 <= i < |s| ensures 0 <= s[i] < window {
        if 0 < i { SpreadIncreasing(window, count, 0, i); }
        if i < count - 1 { SpreadIncreasing(window, count, i, count - 1); }
      }
    }
  }

  // ------------------------------------------------------------- dictionaries

  /** Dictionary keys: the registered parameter names, and any name that is not registered. */
  datatype Key =
    | AccumulationKey | ActivationPhasesKey | AffectedOffsetsKey | AnchorFilterKey
    | AnchorRadiusFractionKey | AxisKey | BoundaryKey | CenterXyKey | DelayedSlotKey
    | DirectionKey | DisplacementPxKey | ErasedOffsetsKey | FieldKey | FillModeKey
    | HeldSourceIndexKey | HistoryMixKey | HoldDurationFramesKey | InstanceDescriptorSha256Key
    | InterpolationKey | LagFramesKey | LeftKey | MemoryBetaKey | MinimumAnchorRadiusPxKey
    | MinimumRadiusPxKey | MinimumSigmaPxKey | PaddingKey | ParameterizationVersionKey
    | PlateauWidthRatioKey | RadiusFractionKey | RealizationKey | ResponseKneeKey
    | ResponseNormKey | RestReferenceSha256Key | RetainedGainKey | RgbDeltaKey | RightKey
    | RouteMapKey | ScarHalfWidthPxKey | ScarInterceptFractionKey | ScarSlopeKey
    | SigmaFractionKey | SkewFramesKey | SourceIndexMapKey | SupportRadiusFractionKey
    | SynthesisDomainKey | TargetGainKey | TemplateSeedKey | TemporalPathKey | TransferKey
    | TranslationXyPxKey | WarpDomainKey
    | Unregistered(name: string)

  /** The JSON domain of manifest parameters. */
  datatype Value =
    | Int(i: int) | Real(r: real) | Text(s: string)
    | List(items: seq<Value>) | Table(entries: map<Key, Value>)
    | Descriptor(op: OperatorId, of: map<Key, Value>)

  type Dict = map<Key, Value>

  function Ints(s: seq<int>): (v: Value)
  {
    List(seq(|s|, i requires 0 <= i < |s| => Int(s[i])))
  }

  /** Reads an integer list back; anything else is refused. */
  function AsInts(v: Value): Option<seq<int>> {
    if v.List? && forall x <- v.items :: x.Int?
    then Some(seq(|v.items|, k requires 0 <= k < |v.items| && v.items[k] in v.items => v.items[k].i))
    else None
  }

  lemma {:induction false} IntsRoundTrip(s: seq<int>)
    ensures AsInts(Ints(s)) == Some(s)
  {
    var v := Ints(s);
    assert forall x <- v.items :: x.Int?;
    assert AsInts(v).value == s;
  }

  function SlotName(s: Slot): string {
    if s == Left then "left" else "right"
  }

  function Texts(s: seq<string>): Value {
    List(seq(|s|, i requires 0 <= i < |s| => Text(s[i])))
  }

  function SlotTable(p: PerSlot<seq<int>>, scope: set<Slot>): Value {
    Table((if Left in scope then map[LeftKey := Ints(p.left)] else map[])
          + (if Right in scope then map[RightKey := Ints(p.right)] else map[]))
  }

  const CONTACT_PHASES := Texts(["contact_onset", "sustained_contact"])

  /** The operator-specific dictionary entries. */
  function Entries(p: Parameters): Dict {
    match p
    case StreamAbsence(affected) => map[AffectedOffsetsKey := Ints(affected)]
    case FrameErasure(erased) => map[ErasedOffsetsKey := Ints(erased)]
    case GlobalDrift(rest, gain) =>
      map[RestReferenceSha256Key := Text(rest), TargetGainKey := Real(gain),
          TemporalPathKey := Text("linear_ramp")]
    case SensitivityLoss(rest, gain, x, y) =>
      map[RestReferenceSha256Key := Text(rest), RetainedGainKey := Real(gain),
          CenterXyKey := List([Real(x), Real(y)]), SigmaFractionKey := Real(0.22),
          MinimumSigmaPxKey := Real(2.0)]
    case SurfaceArtifact(rest, intercept, scalar) =>
      map[RestReferenceSha256Key := Text(rest), ScarSlopeKey := Real(0.45),
          ScarInterceptFractionKey := Real(intercept),
          ScarHalfWidthPxKey := Real(ScarHalfWidth(scalar)),
          RgbDeltaKey := List([Real(0.035 * scalar as real), Real(-0.018 * scalar as real),
                               Real(0.010 * scalar as real)])]
    case LocalPatch(rest, x, y, scalar) =>
      map[RestReferenceSha256Key := Text(rest), CenterXyKey := List([Real(x), Real(y)]),
          RadiusFractionKey := Real(PatchFraction(scalar)), MinimumRadiusPxKey := Int(2),
          FillModeKey := Text("rest_reference")]
    case ShapeDistortion(x, y, displacement) =>
      map[WarpDomainKey := Text("current_rgb"), FieldKey := Text("compact_quartic_horizontal"),
          CenterXyKey := List([Real(x), Real(y)]), SupportRadiusFractionKey := Real(0.30),
          DisplacementPxKey := Int(displacement), AxisKey := Text("horizontal"),
          DirectionKey := Text("positive"), InterpolationKey := Text("bilinear_float64"),
          BoundaryKey := Text("identity"), ActivationPhasesKey := CONTACT_PHASES]
    case HistoryImprint(rest, mix) =>
      map[RestReferenceSha256Key := Text(rest), HistoryMixKey := Real(mix),
          MemoryBetaKey := Real(0.72)]
    case Saturation(knee) =>
      map[SynthesisDomainKey := Text("current_rgb_same_frame"),
          AnchorFilterKey := Text("uniform_box"), AnchorRadiusFractionKey := Real(0.06),
          MinimumAnchorRadiusPxKey := Int(2), PaddingKey := Text("reflect_no_edge_repeat"),
          AccumulationKey := Text("float64"), ResponseNormKey := Text("l2_rgb_detail"),
          ResponseKneeKey := Real(knee), PlateauWidthRatioKey := Real(0.35),
          TransferKey := Text("identity_then_rational_plateau"),
          ActivationPhasesKey := CONTACT_PHASES]
    case FixedDelay(lag, source) =>
      map[LagFramesKey := Int(lag), SourceIndexMapKey := Ints(source)]
    case HeldLast(duration, held, source) =>
      map[HoldDurationFramesKey := Int(duration), HeldSourceIndexKey := Int(held),
          SourceIndexMapKey := Ints(source)]
    case SensorSkew(delayed, skew, sources, scope) =>
      map[DelayedSlotKey := Text(SlotName(delayed)), SkewFramesKey := Int(skew),
          SourceIndexMapKey := SlotTable(sources, scope)]
    case Misrouting(affected) =>
      map[AffectedOffsetsKey := Ints(affected),
          RouteMapKey := Table(map[LeftKey := Text("right"), RightKey := Text("left")])]
    case Misregistration(rest, shift) =>
      map[RestReferenceSha256Key := Text(rest), RealizationKey := Text("registered_pixels"),
          TranslationXyPxKey := Ints([shift, 0]), InterpolationKey := Text("integer_copy"),
          FillModeKey := Text("rest_reference")]
  }

  function ScarHalfWidth(scalar: int): real {
    if scalar as real * 0.6 > 1.0 then scalar as real * 0.6 else 1.0
  }

  function PatchFraction(scalar: int): real {
    0.10 + scalar as real * 0.025
  }

  /** The complete dictionary, sealed by the descriptor of everything else in it. */
  function ToDict(op: OperatorId, seed: nat, p: Parameters): Dict {
    var expected := Entries(p)[ParameterizationVersionKey := Text("canonical_operator_instance_v2")]
                              [TemplateSeedKey := Int(seed)];
    expected[InstanceDescriptorSha256Key := Descriptor(op, expected)]
  }

  // ---------------------------------------------------------- materialization

  /** The fields of a manifest that its parameters are generated from. */
  datatype Instance = Instance(op: OperatorId, level: int, template: Template,
                               start: int, stop: int, slots: seq<Slot>)

  predicate InstanceOk(k: Instance) {
    && 1 <= k.level <= 5
    && TemplateOk(k.template)
    && 0 <= k.start < k.stop
    && 0 < |k.slots| && (forall i, j :: 0 <= i < j < |k.slots| ==> k.slots[i] != k.slots[j])
    && (k.op.C1? ==> (set s <- k.slots) == {Left, Right})
  }

  function Window(k: Instance): int {
    k.stop - k.start
  }

  function CountOf(k: Instance): int
    requires InstanceOk(k)
  {
    AffectedCount(Window(k), Dose(k.op, k.level))
  }

  /** The parameters an instance fixes once the two caller-supplied inputs, the rest
      reference and the A2 schedule, are given. */
  function Expected(k: Instance, rest: string, erased: seq<int>): Parameters
    requires InstanceOk(k)
  {
    var dose := Fraction(k.op, k.level);
    var steps := Steps(k.op, k.level);
    var x, y := 0.5 + k.template.x, 0.5 + k.template.y;
    match k.op
    case A1 => StreamAbsence(Range(0, CountOf(k)))
    case A2 => FrameErasure(erased)
    case F1 => GlobalDrift(rest, dose)
    case F2 => SensitivityLoss(rest, dose, x, y)
    case F3 => SurfaceArtifact(rest, 0.18 + k.template.intercept, steps)
    case F4 => LocalPatch(rest, x, y, steps)
    case F5 => ShapeDistortion(x, y, steps)
    case F6 => HistoryImprint(rest, dose)
    case F7 => Saturation(dose * 0.35)
    case T1 => FixedDelay(steps, Range(k.start - steps, k.stop - steps))
    case T2 =>
      var duration, held := Min(Window(k), steps), Max(0, k.start - 1);
      HeldLast(duration, held,
               seq(duration, i => held) + Range(k.start + duration, k.stop))
    case T3 =>
      var delayed := k.slots[|k.slots| - 1];
      SensorSkew(delayed, steps, SkewSources(k, delayed, steps), set s <- k.slots)
    case C1 => Misrouting(Range(0, CountOf(k)))
    case C2 => Misregistration(rest, steps)
  }

  function SkewSources(k: Instance, delayed: Slot, skew: int): PerSlot<seq<int>>
    requires InstanceOk(k)
  {
    var late := seq(Window(k), i => Max(0, k.start + i - skew));
    var now := Range(k.start, k.stop);
    PerSlot(if Left !in k.slots then [] else if delayed == Left then late else now,
            if Right !in k.slots then [] else if delayed == Right then late else now,
            true)
  }

  /** The A2 schedule: generated when absent, otherwise checked. */
  function ErasedOffsets(existing: Dict, window: int, count: int): Reply<seq<int>>
    requires count >= 1
  {
    if ErasedOffsetsKey !in existing then Returned(SpreadOffsets(window, count))
    else
      var raw := AsInts(existing[ErasedOffsetsKey]);
      if raw.Some? && ErasureOk(raw.value, window, count) then Returned(raw.value) else Raised(OtherError)
  }

  function Base(k: Instance, existing: Dict): Reply<Parameters>
    requires InstanceOk(k)
  {
    var rest :- RestInput(k.op, existing);
    if k.op.A2? then
      var erased :- ErasedOffsets(existing, Window(k), CountOf(k));
      Returned(Expected(k, rest, erased))
    else if k.op.T1? && k.start < Steps(k.op, k.level) then Raised(OtherError)
    else if k.op.C2? && !(RealizationKey in existing && existing[RealizationKey] == Text("registered_pixels"))
    then Raised(OtherError)
    else Returned(Expected(k, rest, []))
  }

  function RestInput(op: OperatorId, existing: Dict): Reply<string> {
    if !NeedsRest(op) then Returned("")
    else if RestReferenceSha256Key !in existing then Raised(OtherError)
    else
      var v := existing[RestReferenceSha256Key];
      if v.Text? && IsHexDigest(v.s) then Returned(v.s) else Raised(OtherError)
  }

  /** Completes a supplied dictionary and refuses any entry that is unknown or that
      disagrees with the generated instance; only an A2 schedule may differ from it. */
  function Materialize(k: Instance, supplied: Dict): Reply<Parameters>
    requires InstanceOk(k)
  {
    var p :- Base(k, supplied);
    var expected := ToDict(k.op, k.template.seed, p);
    if !(supplied.Keys <= expected.Keys) then Raised(OtherError)
    else if exists key <- supplied.Keys ::
              key != ErasedOffsetsKey && key in expected && supplied[key] != expected[key]
    then Raised(OtherError)
    else Returned(p)
  }

  /** The entries that depend on the window. */
  const SCHEDULE_KEYS := {AffectedOffsetsKey, ErasedOffsetsKey, SourceIndexMapKey,
                          InstanceDescriptorSha256Key}

  /** Removes the window-dependent schedules, for pairing a faulted and a restored run. */
  function StaticView(d: Dict): Dict {
    d - SCHEDULE_KEYS
  }

  /** The caller's inputs needed to rebuild an instance, optionally with its A2 schedule. */
  function RematerializationInputs(op: OperatorId, p: Parameters, keepErasure: bool): Dict
    requires ParametersFit(op, p)
  {
    (if NeedsRest(op) then map[RestReferenceSha256Key := Text(p.rest)] else map[])
    + (if op.C2? then map[RealizationKey := Text("registered_pixels")] else map[])
    + (if op.A2? && keepErasure then map[ErasedOffsetsKey := Ints(p.erased)] else map[])
  }

  /** Each operator has its own parameter record. */
  predicate ParametersFit(op: OperatorId, p: Parameters) {
    match op
    case A1 => p.StreamAbsence?
    case A2 => p.FrameErasure?
    case C1 => p.Misrouting?
    case C2 => p.Misregistration?
    case F1 => p.GlobalDrift?
    case F2 => p.SensitivityLoss?
    case F3 => p.SurfaceArtifact?
    case F4 => p.LocalPatch?
    case F5 => p.ShapeDistortion?
    case F6 => p.HistoryImprint?
    case F7 => p.Saturation?
    case T1 => p.FixedDelay?
    case T2 => p.HeldLast?
    case T3 => p.SensorSkew?
  }

  /** The instance's own parameters: everything is generated, except a valid rest digest
      and a valid A2 schedule, which are the caller's. */
  predicate Registered(k: Instance, p: Parameters)
    requires InstanceOk(k)
  {
    && ParametersFit(k.op, p)
    && p == Expected(k, if NeedsRest(k.op) then p.rest else "",
                     if k.op.A2? then p.erased else [])
    && (NeedsRest(k.op) ==> IsHexDigest(p.rest))
    && (k.op.A2? ==> ErasureOk(p.erased, Window(k), CountOf(k)))
    && (k.op.T1? ==> Steps(k.op, k.level) <= k.start)
  }

  /** The gate only ever returns the instance's own parameters. */
  lemma {:induction false} MaterializeRegisters(k: Instance, supplied: Dict)
    requires InstanceOk(k) && Materialize(k, supplied).Returned?
    ensures Registered(k, Materialize(k, supplied).value)
  {
    if k.op.A2? {
      SpreadAccepted(Window(k), CountOf(k));
    }
  }

  /** Materialization is idempotent: the completed dictionary of any registered instance
      passes the gate again and yields the same parameters, schedule included. */
  lemma {:induction false} MaterializeIdempotent(k: Instance, p: Parameters)
    requires InstanceOk(k) && Registered(k, p)
    ensures Materialize(k, ToDict(k.op, k.template.seed, p)) == Returned(p)
  {
    var d := ToDict(k.op, k.template.seed, p);
    if k.op.A2? {
      IntsRoundTrip(p.erased);
      assert d[ErasedOffsetsKey] == Ints(p.erased);
    }
    assert Base(k, d) == Returned(p);
  }

  // ------------------------------------------------------------- source maps

  predicate IsRouting(op: OperatorId) {
    op.T1? || op.T2? || op.T3?
  }

  /** The source frames a temporal operator registers for one slot, in window order. */
  function SourceMap(p: Parameters, slot: Slot): seq<int>
    requires p.FixedDelay? || p.HeldLast? || p.SensorSkew?
  {
    if p.SensorSkew? then p.sources.At(slot) else p.source
  }

  /** The frame a temporal fault shows at a delivery index, read off the operator's meaning:
      a lag, the last frame before the freeze, or a lag on the last declared slot only. */
  function RoutedFrame(k: Instance, slot: Slot, index: int): int
    requires InstanceOk(k) && IsRouting(k.op)
  {
    var steps := Steps(k.op, k.level);
    if k.op.T1? then index - steps
    else if k.op.T2? then (if index < k.start + steps then Max(0, k.start - 1) else index)
    else if slot == k.slots[|k.slots| - 1] then Max(0, index - steps)
    else index
  }

  /** Every generated map has exactly the window's length, shows the frame its operator
      means, and never looks into the future or before the first frame. */
  lemma {:induction false} SourceMapsCausal(k: Instance, p: Parameters, slot: Slot)
    requires InstanceOk(k) && Registered(k, p) && IsRouting(k.op) && slot in k.slots
    ensures |SourceMap(p, slot)| == Window(k)
    ensures forall i :: 0 <= i < Window(k) ==>
              SourceMap(p, slot)[i] == RoutedFrame(k, slot, k.start + i)
    ensures forall i :: 0 <= i < Window(k) ==> 0 <= SourceMap(p, slot)[i] <= k.start + i
  {
    if k.op.T3? {
      assert p.sources == SkewSources(k, p.delayed, p.skew);
    }
  }
}
