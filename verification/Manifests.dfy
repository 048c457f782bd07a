/** Immutable fault manifests: construction, rescheduling and the dictionary round trip. */
module Manifests {
  import opened Basics
  import opened OperatorParameters

  datatype Observability = Blind | Declared

  datatype FaultManifest = FaultManifest(instance: Instance, observability: Observability,
                                         parameters: Parameters)
  {
    predicate Active(index: int) {
      instance.start <= index < instance.stop
    }
  }

  /** What construction establishes about every manifest that exists. */
  ghost predicate ManifestOk(m: FaultManifest) {
    InstanceOk(m.instance) && Registered(m.instance, m.parameters)
  }

  function Make(k: Instance, observability: Observability, supplied: Dict): Reply<FaultManifest> {
    if !InstanceOk(k) then Raised(OtherError)
    else
      var p :- Materialize(k, supplied);
      Returned(FaultManifest(k, observability, p))
  }

  /** Every manifest that construction accepts is one of those. */
  lemma {:induction false} MakeOk(k: Instance, observability: Observability, supplied: Dict)
    requires Make(k, observability, supplied).Returned?
    ensures ManifestOk(Make(k, observability, supplied).value)
  {
    MaterializeRegisters(k, supplied);
  }

  /** A fresh instance after a severity or window change. */
  function Reparameterized(m: FaultManifest, level: Option<int>, stop: Option<int>): Reply<FaultManifest>
    requires ParametersFit(m.instance.op, m.parameters)
  {
    var targetLevel := if level.None? then m.instance.level else level.value;
    var targetStop := if stop.None? then m.instance.stop else stop.value;
    var keep := m.instance.op.A2? && level.None? && targetStop == m.instance.stop;
    Make(m.instance.(level := targetLevel, stop := targetStop), m.observability,
         RematerializationInputs(m.instance.op, m.parameters, keep))
  }

  // ---------------------------------------------------------- serialization

  function Family(op: OperatorId): char {
    match op
    case A1 | A2 => 'A'
    case C1 | C2 => 'C'
    case F1 | F2 | F3 | F4 | F5 | F6 | F7 => 'F'
    case T1 | T2 | T3 => 'T'
  }

  function Digit(op: OperatorId): char {
    match op
    case A1 | C1 | F1 | T1 => '1'
    case A2 | C2 | F2 | T2 => '2'
    case F3 | T3 => '3'
    case F4 => '4'
    case F5 => '5'
    case F6 => '6'
    case F7 => '7'
  }

  function Suffix(op: OperatorId): string {
    match op
    case A1 => "_stream_absence"
    case A2 => "_frame_erasure"
    case C1 => "_sensor_identity_misrouting"
    case C2 => "_frame_misregistration"
    case F1 => "_global_response_drift"
    case F2 => "_spatial_sensitivity_loss"
    case F3 => "_persistent_surface_artifact"
    case F4 => "_local_nonresponsive_patch"
    case F5 => "_contact_shape_distortion"
    case F6 => "_history_residual_imprint"
    case F7 => "_high_load_saturation"
    case T1 => "_fixed_source_delay"
    case T2 => "_held_last_freeze"
    case T3 => "_inter_sensor_skew"
  }

  function OperatorName(op: OperatorId): string {
    [Family(op), Digit(op)] + Suffix(op)
  }

  /** The top-level fields of a serialized manifest, and any other name. */
  datatype Field = OperatorIdField | SeverityLevelField | OperatorSeedField | StartIndexField
    | StopIndexField | SensorSlotsField | ObservabilityField | ParametersField
    | SemanticVersionField | ImplementationVersionField | SeverityRegistryField | OtherField(name: string)

  type Document = map<Field, Value>

  const OPERATORS := [A1, A2, C1, C2, F1, F2, F3, F4, F5, F6, F7, T1, T2, T3]

  /** The first operator of the list with this name. */
  function FindOperator(name: string, candidates: seq<OperatorId>): Option<OperatorId> {
    if candidates == [] then None
    else if OperatorName(candidates[0]) == name then Some(candidates[0])
    else FindOperator(name, candidates[1..])
  }

  lemma {:induction false} SameStart(a: char, b: char, rest: string, c: char, d: char, tail: string)
    requires [a, b] + rest == [c, d] + tail
    ensures a == c && b == d
  {
    assert ([a, b] + rest)[0] == a && ([a, b] + rest)[1] == b;
    assert ([c, d] + tail)[0] == c && ([c, d] + tail)[1] == d;
  }

  lemma {:induction false} NamesDistinct(a: OperatorId, b: OperatorId)
    requires OperatorName(a) == OperatorName(b)
    ensures a == b
  {
    SameStart(Family(a), Digit(a), Suffix(a), Family(b), Digit(b), Suffix(b));
  }

  lemma {:induction false} FindsItself(op: OperatorId, candidates: seq<OperatorId>)
    requires op in candidates
    ensures FindOperator(OperatorName(op), candidates) == Some(op)
  {
    if OperatorName(candidates[0]) == OperatorName(op) {
      NamesDistinct(candidates[0], op);
    } else {
      FindsItself(op, candidates[1..]);
    }
  }

  lemma {:induction false} KnownOperator(op: OperatorId)
    ensures FindOperator(OperatorName(op), OPERATORS) == Some(op)
  {
    FindsItself(op, OPERATORS);
  }

  function SlotOf(v: Value): Option<Slot> {
    if v == Text("left") then Some(Left) else if v == Text("right") then Some(Right) else None
  }

  function SlotNames(slots: seq<Slot>): seq<string> {
    seq(|slots|, i requires 0 <= i < |slots| => SlotName(slots[i]))
  }

  /** Reads a slot list back; any other element refuses the list. */
  function SlotsOf(v: Value): Option<seq<Slot>> {
    if v.List? && forall x <- v.items :: SlotOf(x).Some?
    then Some(seq(|v.items|, k requires 0 <= k < |v.items| && v.items[k] in v.items => SlotOf(v.items[k]).value))
    else None
  }

  lemma {:induction false} SlotsRoundTrip(slots: seq<Slot>)
    ensures SlotsOf(Texts(SlotNames(slots))) == Some(slots)
  {
    var v := Texts(SlotNames(slots));
    assert forall x <- v.items :: SlotOf(x).Some?;
    assert SlotsOf(v).value == slots;
  }

  function ManifestDict(m: FaultManifest): Document {
    FieldDict(OperatorName(m.instance.op), m.instance, m.observability,
              ToDict(m.instance.op, m.instance.template.seed, m.parameters))
  }

  function FieldDict(name: string, k: Instance, observability: Observability, parameters: Dict): Document {
    map[OperatorIdField := Text(name),
        SeverityLevelField := Int(k.level),
        OperatorSeedField := Int(k.template.seed),
        StartIndexField := Int(k.start),
        StopIndexField := Int(k.stop),
        SensorSlotsField := Texts(SlotNames(k.slots)),
        ObservabilityField := Text(if observability.Blind? then "blind" else "declared"),
        ParametersField := Table(parameters),
        SemanticVersionField := Text("2.0"),
        ImplementationVersionField := Text("0.4.0"),
        SeverityRegistryField := Text("provisional_engineering_v2")]
  }

  const MANIFEST_FIELDS := {OperatorIdField, SeverityLevelField, OperatorSeedField, StartIndexField,
                            StopIndexField, SensorSlotsField, ObservabilityField, ParametersField,
                            SemanticVersionField, ImplementationVersionField, SeverityRegistryField}

  /** The template a digest assigns to an operator and its seed. */
  type Draw = (OperatorId, nat) -> Template

  function Drawn(draw: Draw, op: OperatorId, seed: nat): Template {
    draw(op, seed).(seed := seed)
  }

  datatype Fields = Fields(instance: Instance, observability: Observability, parameters: Dict)

  /** Reads the top-level fields, refusing missing, extra, ill-typed or unknown ones. */
  function ReadFields(draw: Draw, d: Document): Option<Fields> {
    if d.Keys != MANIFEST_FIELDS then None
    else if !(d[OperatorIdField].Text? && d[SeverityLevelField].Int? && d[OperatorSeedField].Int?
              && d[StartIndexField].Int? && d[StopIndexField].Int? && d[ParametersField].Table?)
    then None
    else
      var op := FindOperator(d[OperatorIdField].s, OPERATORS);
      var slots := SlotsOf(d[SensorSlotsField]);
      if op.None? || slots.None? || d[OperatorSeedField].i < 0
         || (d[ObservabilityField] != Text("blind") && d[ObservabilityField] != Text("declared"))
         || d[SemanticVersionField] != Text("2.0")
         || d[ImplementationVersionField] != Text("0.4.0")
         || d[SeverityRegistryField] != Text("provisional_engineering_v2")
      then None
      else
        Some(Fields(Instance(op.value, d[SeverityLevelField].i,
                             Drawn(draw, op.value, d[OperatorSeedField].i),
                             d[StartIndexField].i, d[StopIndexField].i, slots.value),
                    if d[ObservabilityField] == Text("blind") then Blind else Declared,
                    d[ParametersField].entries))
  }

  function FromDict(draw: Draw, d: Document): Reply<FaultManifest> {
    var fields := ReadFields(draw, d);
    if fields.None? then Raised(OtherError)
    else Make(fields.value.instance, fields.value.observability, fields.value.parameters)
  }

  /** A document with exactly the registered fields, and these values in them. */
  predicate Holds(d: Document, name: string, k: Instance, observability: string, parameters: Dict) {
    && d.Keys == MANIFEST_FIELDS
    && d[OperatorIdField] == Text(name) && d[SeverityLevelField] == Int(k.level)
    && d[OperatorSeedField] == Int(k.template.seed) && d[StartIndexField] == Int(k.start)
    && d[StopIndexField] == Int(k.stop) && d[SensorSlotsField] == Texts(SlotNames(k.slots))
    && d[ObservabilityField] == Text(observability) && d[ParametersField] == Table(parameters)
    && d[SemanticVersionField] == Text("2.0") && d[ImplementationVersionField] == Text("0.4.0")
    && d[SeverityRegistryField] == Text("provisional_engineering_v2")
  }

  lemma {:induction false} FieldsHold(name: string, k: Instance, observability: Observability, parameters: Dict)
    ensures Holds(FieldDict(name, k, observability, parameters), name, k,
                  if observability.Blind? then "blind" else "declared", parameters)
  {
  }

  lemma {:induction false} ReadsHeld(draw: Draw, d: Document, name: string, k: Instance,
                                     observability: Observability, parameters: Dict)
    requires FindOperator(name, OPERATORS) == Some(k.op) && k.template == Drawn(draw, k.op, k.template.seed)
    requires Holds(d, name, k, if observability.Blind? then "blind" else "declared", parameters)
    ensures ReadFields(draw, d) == Some(Fields(k, observability, parameters))
  {
    SlotsRoundTrip(k.slots);
    if observability.Declared? { assert |"blind"| != |"declared"|; }
  }

  /** The loader reads every field back. */
  lemma {:induction false} FieldsReadBack(draw: Draw, name: string, k: Instance, observability: Observability,
                                         parameters: Dict)
    requires FindOperator(name, OPERATORS) == Some(k.op) && k.template == Drawn(draw, k.op, k.template.seed)
    ensures ReadFields(draw, FieldDict(name, k, observability, parameters)) ==
            Some(Fields(k, observability, parameters))
  {
    FieldsHold(name, k, observability, parameters);
    ReadsHeld(draw, FieldDict(name, k, observability, parameters), name, k, observability, parameters);
  }

  /** Every accepted manifest survives serialization: all operators, all windows, any
      caller-chosen A2 schedule. */
  lemma {:induction false} ManifestRoundTrip(draw: Draw, m: FaultManifest)
    requires ManifestOk(m)
    requires m.instance.template == draw(m.instance.op, m.instance.template.seed)
    ensures FromDict(draw, ManifestDict(m)) == Returned(m)
  {
    KnownOperator(m.instance.op);
    FieldsReadBack(draw, OperatorName(m.instance.op), m.instance, m.observability,
                   ToDict(m.instance.op, m.instance.template.seed, m.parameters));
    MaterializeIdempotent(m.instance, m.parameters);
  }

  /** Rebuilding with unchanged severity and window gives back the very same manifest. */
  lemma {:induction false} ReparameterizedUnchanged(m: FaultManifest)
    requires ManifestOk(m)
    ensures Reparameterized(m, None, None) == Returned(m)
  {
    if m.instance.op.A2? { IntsRoundTrip(m.parameters.erased); }
    RebuildAccepts(m.instance, m.parameters, true);
  }

  /** The parameters a rebuild produces. */
  function Rebuilt(k: Instance, p: Parameters, keepErasure: bool): Parameters
    requires InstanceOk(k) && ParametersFit(k.op, p)
  {
    Expected(k, if NeedsRest(k.op) then p.rest else "",
             if !k.op.A2? then []
             else if keepErasure then p.erased
             else SpreadOffsets(Window(k), CountOf(k)))
  }

  lemma {:induction false} InputsAgree(k: Instance, p: Parameters, keepErasure: bool)
    requires InstanceOk(k) && ParametersFit(k.op, p)
    ensures var inputs, full := RematerializationInputs(k.op, p, keepErasure),
                                ToDict(k.op, k.template.seed, Rebuilt(k, p, keepErasure));
            inputs.Keys <= full.Keys &&
            forall key <- inputs.Keys :: key == ErasedOffsetsKey || inputs[key] == full[key]
  {
    if NeedsRest(k.op) {
      RestAgrees(k, p, keepErasure);
    } else if k.op.A2? {
      assert RematerializationInputs(k.op, p, keepErasure).Keys <= {ErasedOffsetsKey};
    } else {
      assert RematerializationInputs(k.op, p, keepErasure) == map[];
    }
  }

  lemma {:induction false} RestAgrees(k: Instance, p: Parameters, keepErasure: bool)
    requires InstanceOk(k) && ParametersFit(k.op, p) && NeedsRest(k.op)
    ensures var inputs, full := RematerializationInputs(k.op, p, keepErasure),
                                ToDict(k.op, k.template.seed, Rebuilt(k, p, keepErasure));
            inputs.Keys <= full.Keys && forall key <- inputs.Keys :: inputs[key] == full[key]
  {
    RebuiltRest(k, p, keepErasure);
    RestEntry(k.op, k.template.seed, Rebuilt(k, p, keepErasure));
    if k.op.C2? { RealizationEntry(k.op, k.template.seed, Rebuilt(k, p, keepErasure)); }
    assert RematerializationInputs(k.op, p, keepErasure).Keys
        == {RestReferenceSha256Key} + if k.op.C2? then {RealizationKey} else {};
  }

  lemma {:induction false} RebuiltRest(k: Instance, p: Parameters, keepErasure: bool)
    requires InstanceOk(k) && ParametersFit(k.op, p) && NeedsRest(k.op)
    ensures ParametersFit(k.op, Rebuilt(k, p, keepErasure)) && Rebuilt(k, p, keepErasure).rest == p.rest
  {
  }

  lemma {:induction false} RestEntry(op: OperatorId, seed: nat, p: Parameters)
    requires ParametersFit(op, p) && NeedsRest(op)
    ensures RestReferenceSha256Key in ToDict(op, seed, p)
    ensures ToDict(op, seed, p)[RestReferenceSha256Key] == Text(p.rest)
  {
  }

  lemma {:induction false} RealizationEntry(op: OperatorId, seed: nat, p: Parameters)
    requires ParametersFit(op, p) && op.C2?
    ensures RealizationKey in ToDict(op, seed, p) && ToDict(op, seed, p)[RealizationKey] == Text("registered_pixels")
  {
  }

  lemma {:induction false} InputsRead(k: Instance, p: Parameters, keepErasure: bool)
    requires InstanceOk(k) && ParametersFit(k.op, p)
    requires NeedsRest(k.op) ==> IsHexDigest(p.rest)
    requires k.op.T1? ==> Steps(k.op, k.level) <= k.start
    requires k.op.A2? && keepErasure ==> ErasureOk(p.erased, Window(k), CountOf(k))
    ensures Base(k, RematerializationInputs(k.op, p, keepErasure)) ==
            Returned(Rebuilt(k, p, keepErasure))
  {
    if k.op.A2? { IntsRoundTrip(p.erased); }
  }

  /** The rebuilt inputs always pass the gate at any instance they fit. */
  lemma {:induction false} RebuildAccepts(k: Instance, p: Parameters, keepErasure: bool)
    requires InstanceOk(k) && ParametersFit(k.op, p)
    requires NeedsRest(k.op) ==> IsHexDigest(p.rest)
    requires k.op.T1? ==> Steps(k.op, k.level) <= k.start
    requires k.op.A2? && keepErasure ==> ErasureOk(p.erased, Window(k), CountOf(k))
    ensures Materialize(k, RematerializationInputs(k.op, p, keepErasure)) ==
            Returned(Rebuilt(k, p, keepErasure))
  {
    InputsRead(k, p, keepErasure);
    InputsAgree(k, p, keepErasure);
  }
}
