/** Exactly which dictionaries make a fault instance, and exactly which documents make a manifest. */
module MaterializationRules {
  import opened Basics
  import opened OperatorParameters
  import opened Manifests

  /** Every supplied entry is one of the completed dictionary, with its value. */
  predicate Agrees(supplied: Dict, full: Dict) {
    forall key :: key in supplied ==> key in full && supplied[key] == full[key]
  }

  /** What the caller alone can supply: the digest of the rest frames, the confirmation that C2 moves
      registered pixels, and an A2 schedule, which is spread over the window if it is left out. */
  predicate Supplies(k: Instance, supplied: Dict, p: Parameters)
    requires InstanceOk(k) && ParametersFit(k.op, p)
  {
    && (k.op.F1? || k.op.F2? || k.op.F3? || k.op.F4? || k.op.F6? || k.op.C2? ==> RestReferenceSha256Key in supplied)
    && (k.op.C2? ==> RealizationKey in supplied)
    && (k.op.A2? && ErasedOffsetsKey !in supplied ==> p.erased == SpreadOffsets(Window(k), CountOf(k)))
  }

  /** A dictionary is accepted, and completed to certain parameters, if and only if these are the
      instance's own, the dictionary agrees with their completed form entry by entry, and it holds what
      only the caller can supply. */
  lemma {:induction false} MaterializeExactly(k: Instance, supplied: Dict, p: Parameters)
    requires InstanceOk(k)
    ensures Materialize(k, supplied) == Returned(p) <==>
              && Registered(k, p) && Agrees(supplied, ToDict(k.op, k.template.seed, p)) && Supplies(k, supplied, p)
  {
    if Materialize(k, supplied) == Returned(p) {
      MaterializeRegisters(k, supplied);
      AcceptedAgrees(k, supplied, p);
    }
    if Registered(k, p) && Agrees(supplied, ToDict(k.op, k.template.seed, p)) && Supplies(k, supplied, p) {
      AgreedBase(k, supplied, p);
    }
  }

  lemma {:induction false} ReadInts(v: Value, s: seq<int>)
    ensures AsInts(v) == Some(s) <==> v == Ints(s)
  {
    if AsInts(v) == Some(s) {
      forall i | 0 <= i < |v.items| ensures v.items[i] == Int(s[i]) { assert v.items[i] in v.items; }
      assert v.items == Ints(s).items;
    }
    IntsRoundTrip(s);
  }

  lemma {:induction false} ErasedEntry(op: OperatorId, seed: nat, p: Parameters)
    requires ParametersFit(op, p)
    ensures ErasedOffsetsKey in ToDict(op, seed, p) <==> op.A2?
    ensures op.A2? ==> ToDict(op, seed, p)[ErasedOffsetsKey] == Ints(p.erased)
  {
  }

  lemma {:induction false} AcceptedAgrees(k: Instance, supplied: Dict, p: Parameters)
    requires InstanceOk(k) && Registered(k, p) && Materialize(k, supplied) == Returned(p)
    ensures Agrees(supplied, ToDict(k.op, k.template.seed, p)) && Supplies(k, supplied, p)
  {
    var full := ToDict(k.op, k.template.seed, p);
    assert Base(k, supplied) == Returned(p);
    ErasedEntry(k.op, k.template.seed, p);
    BaseReads(k, supplied, p);
    forall key | key in supplied ensures key in full && supplied[key] == full[key] {
      assert key in supplied.Keys;
    }
  }

  /** What completing reads of a dictionary. */
  lemma {:induction false} BaseReads(k: Instance, supplied: Dict, p: Parameters)
    requires InstanceOk(k) && ParametersFit(k.op, p) && Base(k, supplied) == Returned(p)
    ensures Supplies(k, supplied, p)
    ensures k.op.A2? && ErasedOffsetsKey in supplied ==> supplied[ErasedOffsetsKey] == Ints(p.erased)
  {
    if k.op.A2? && ErasedOffsetsKey in supplied { ReadInts(supplied[ErasedOffsetsKey], p.erased); }
  }

  lemma {:induction false} AgreedBase(k: Instance, supplied: Dict, p: Parameters)
    requires InstanceOk(k) && Registered(k, p)
    requires Agrees(supplied, ToDict(k.op, k.template.seed, p)) && Supplies(k, supplied, p)
    ensures Materialize(k, supplied) == Returned(p)
  {
    var full := ToDict(k.op, k.template.seed, p);
    AgreedRest(k, supplied, p);
    if k.op.C2? { RealizationEntry(k.op, k.template.seed, p); }
    if k.op.A2? { AgreedErased(k, supplied, p); }
    assert Base(k, supplied) == Returned(p);
    assert supplied.Keys <= full.Keys;
  }

  lemma {:induction false} AgreedRest(k: Instance, supplied: Dict, p: Parameters)
    requires InstanceOk(k) && Registered(k, p)
    requires Agrees(supplied, ToDict(k.op, k.template.seed, p)) && Supplies(k, supplied, p)
    ensures RestInput(k.op, supplied) == Returned(if NeedsRest(k.op) then p.rest else "")
  {
    if NeedsRest(k.op) { RestEntry(k.op, k.template.seed, p); }
  }

  lemma {:induction false} AgreedErased(k: Instance, supplied: Dict, p: Parameters)
    requires InstanceOk(k) && Registered(k, p) && k.op.A2?
    requires Agrees(supplied, ToDict(k.op, k.template.seed, p)) && Supplies(k, supplied, p)
    ensures ErasedOffsets(supplied, Window(k), CountOf(k)) == Returned(p.erased)
  {
    ErasedEntry(k.op, k.template.seed, p);
    ReadInts(Ints(p.erased), p.erased);
  }

  // ------------------------------------------------------------------ documents

  /** A document tells of a manifest: exactly the registered fields, with its operator's name, its severity,
      seed, window, slots, observability and the three versions, and parameters that make its own. */
  predicate Tells(d: Document, m: FaultManifest)
    requires InstanceOk(m.instance) && ParametersFit(m.instance.op, m.parameters)
  {
    && ParametersField in d && d[ParametersField].Table?
    && Holds(d, OperatorName(m.instance.op), m.instance, if m.observability.Blind? then "blind" else "declared",
             d[ParametersField].entries)
    && Agrees(d[ParametersField].entries, ToDict(m.instance.op, m.instance.template.seed, m.parameters))
    && Supplies(m.instance, d[ParametersField].entries, m.parameters)
  }

  /** A document is read as a manifest if and only if the manifest is well-formed, its template is the one
      drawn for its seed, and the document tells of it: no field may be missing, added or different. */
  lemma {:induction false} FromDictExactly(draw: Draw, d: Document, m: FaultManifest)
    ensures FromDict(draw, d) == Returned(m) <==>
              && ManifestOk(m) && m.instance.template == Drawn(draw, m.instance.op, m.instance.template.seed)
              && Tells(d, m)
  {
    if FromDict(draw, d) == Returned(m) { FromDictTells(draw, d, m); }
    if ManifestOk(m) && m.instance.template == Drawn(draw, m.instance.op, m.instance.template.seed) && Tells(d, m) {
      ToldReads(draw, d, m);
    }
  }

  lemma {:induction false} FromDictTells(draw: Draw, d: Document, m: FaultManifest)
    requires FromDict(draw, d) == Returned(m)
    ensures ManifestOk(m) && m.instance.template == Drawn(draw, m.instance.op, m.instance.template.seed)
    ensures Tells(d, m)
  {
    var fields := ReadFields(draw, d).value;
    MakeOk(fields.instance, fields.observability, fields.parameters);
    MaterializeExactly(m.instance, fields.parameters, m.parameters);
    ReadTells(draw, d, m, fields.parameters);
  }

  lemma {:induction false} ToldReads(draw: Draw, d: Document, m: FaultManifest)
    requires ManifestOk(m) && m.instance.template == Drawn(draw, m.instance.op, m.instance.template.seed)
    requires Tells(d, m)
    ensures FromDict(draw, d) == Returned(m)
  {
    TellsReads(draw, d, m);
    MaterializeExactly(m.instance, d[ParametersField].entries, m.parameters);
  }

  lemma {:induction false} FoundNamed(name: string, candidates: seq<OperatorId>)
    requires FindOperator(name, candidates).Some?
    ensures OperatorName(FindOperator(name, candidates).value) == name
  {
    if OperatorName(candidates[0]) != name { FoundNamed(name, candidates[1..]); }
  }

  lemma {:induction false} ReadSlots(v: Value, slots: seq<Slot>)
    requires SlotsOf(v) == Some(slots)
    ensures v == Texts(SlotNames(slots))
  {
    forall k | 0 <= k < |v.items| ensures v.items[k] == Text(SlotName(slots[k])) {
      assert v.items[k] in v.items;
    }
    assert v.items == Texts(SlotNames(slots)).items;
  }

  lemma {:induction false} ReadTells(draw: Draw, d: Document, m: FaultManifest, parameters: Dict)
    requires ReadFields(draw, d) == Some(Fields(m.instance, m.observability, parameters))
    ensures Holds(d, OperatorName(m.instance.op), m.instance,
                  if m.observability.Blind? then "blind" else "declared", parameters)
    ensures m.instance.template == Drawn(draw, m.instance.op, m.instance.template.seed)
  {
    FoundNamed(d[OperatorIdField].s, OPERATORS);
    ReadSlots(d[SensorSlotsField], m.instance.slots);
  }

  lemma {:induction false} TellsReads(draw: Draw, d: Document, m: FaultManifest)
    requires ManifestOk(m) && m.instance.template == Drawn(draw, m.instance.op, m.instance.template.seed)
    requires Tells(d, m)
    ensures ReadFields(draw, d) == Some(Fields(m.instance, m.observability, d[ParametersField].entries))
  {
    KnownOperator(m.instance.op);
    ReadsHeld(draw, d, OperatorName(m.instance.op), m.instance, m.observability, d[ParametersField].entries);
  }
}
