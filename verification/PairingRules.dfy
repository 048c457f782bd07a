/** Which trials belong together: what a pair key determines, and exactly which manifests a paired
    grid is built from. */
module PairingRules {
  import opened Basics
  import opened OperatorParameters
  import opened Manifests
  import opened Trials

  // --------------------------------------------------------------------- pair keys

  /** What a trial's condition adds to its pair key. */
  datatype Role =
    | Baseline
    | Hit(fault: Sha<FaultManifest>)
    | Reference(systemId: string, checkpoint: string, config: string)
    | Resumed(fault: Sha<FaultManifest>, index: int, mode: RestorationMode)

  function RoleOf(t: TrialManifest): Role
    requires TrialOk(t)
  {
    match t.condition
    case Clean => Baseline
    case Faulted => Hit(t.faultManifest.value)
    case NoTouch => Reference(t.executedSystemId, t.checkpoint, t.config)
    case Restored => Resumed(t.faultManifest.value, t.restorationIndex.value, t.restorationMode.value)
  }

  /** A well-formed trial is its pair key and its role: two with the same key and the same role are the
      same trial, checkpoint and configuration included, though the key holds only their digest. */
  lemma {:induction false} KeyAndRole(a: TrialManifest, b: TrialManifest)
    requires TrialOk(a) && TrialOk(b)
    ensures a == b <==> PairKey(a) == PairKey(b) && RoleOf(a) == RoleOf(b)
  {
    if PairKey(a) == PairKey(b) && RoleOf(a) == RoleOf(b) {
      KeyFields(a, b);
      assert a.condition == b.condition;
    }
  }

  /** Trials that differ in any shared field never share a key. */
  lemma {:induction false} KeyFields(a: TrialManifest, b: TrialManifest)
    ensures PairKey(a) == PairKey(b) <==>
              && a.task == b.task && a.initialSeed == b.initialSeed && a.exogenousSeed == b.exogenousSeed
              && a.baseSystemId == b.baseSystemId && a.dataset == b.dataset
              && a.baseSystemManifest == b.baseSystemManifest && a.actionSpec == b.actionSpec
  {
  }

  // ------------------------------------------------------------------ pairable manifests

  /** The same fault on the same sensors from the same frame, to be stopped at `index`. */
  predicate OneFault(faulted: FaultManifest, restored: FaultManifest, index: int) {
    var (f, r) := (faulted.instance, restored.instance);
    && f.op == r.op && f.level == r.level && f.template == r.template
    && f.start == r.start && f.slots == r.slots && faulted.observability == restored.observability
    && r.stop == index < f.stop
  }

  lemma {:induction false} RestShows(op: OperatorId, seed: nat, p: Parameters, q: Parameters)
    requires NeedsRest(op) && ParametersFit(op, p) && ParametersFit(op, q)
    requires StaticView(ToDict(op, seed, p)) == StaticView(ToDict(op, seed, q))
    ensures p.rest == q.rest
  {
    RestKept(op, seed, p);
    RestKept(op, seed, q);
  }

  lemma {:induction false} RestKept(op: OperatorId, seed: nat, p: Parameters)
    requires NeedsRest(op) && ParametersFit(op, p)
    ensures RestReferenceSha256Key in StaticView(ToDict(op, seed, p))
    ensures StaticView(ToDict(op, seed, p))[RestReferenceSha256Key] == Text(p.rest)
  {
    RestEntry(op, seed, p);
  }

  /** The static parameters of two registered manifests of one fault agree if and only if they are bound
      to the same rest frames and a freeze is not cut short by the restoration. */
  lemma {:induction false} StaticExactly(k: Instance, stop: int, p: Parameters, q: Parameters)
    requires InstanceOk(k) && k.start < stop < k.stop && Registered(k, p) && Registered(k.(stop := stop), q)
    ensures StaticView(ToDict(k.op, k.template.seed, p)) == StaticView(ToDict(k.op, k.template.seed, q)) <==>
              && (NeedsRest(k.op) ==> p.rest == q.rest)
              && (k.op.T2? ==> Steps(T2, k.level) <= stop - k.start)
  {
    if NeedsRest(k.op) && p.rest != q.rest {
      if StaticView(ToDict(k.op, k.template.seed, p)) == StaticView(ToDict(k.op, k.template.seed, q)) {
        RestShows(k.op, k.template.seed, p, q);
      }
    } else {
      StaticViewMoves(k, stop, if NeedsRest(k.op) then p.rest else "", if k.op.A2? then p.erased else [],
                      if k.op.A2? then q.erased else [], p, q);
    }
  }

  /** Exactly which grids are built: from a clean trial, two manifests of one fault on the same rest
      frames, a restoration inside the faulted window that leaves a freeze whole, and a well-formed
      control; anything else is refused. */
  lemma {:induction false} GridExactly(clean: TrialManifest, faulted: FaultManifest, restored: FaultManifest,
                                       index: int, mode: RestorationMode, control: Control)
    requires TrialOk(clean) && ManifestOk(faulted) && ManifestOk(restored)
    ensures BuildPairedTrialGrid(clean, faulted, restored, index, mode, control).Returned? <==>
              && clean.condition.Clean? && ControlOk(control) && OneFault(faulted, restored, index)
              && (NeedsRest(faulted.instance.op) ==> faulted.parameters.rest == restored.parameters.rest)
              && (faulted.instance.op.T2? ==> Steps(T2, faulted.instance.level) <= index - restored.instance.start)
  {
    PairableExactly(faulted, restored, index);
    if clean.condition.Clean? && OneFault(faulted, restored, index) {
      TrialsConstruct(clean, faulted, restored, index, mode, control);
    }
  }

  lemma {:induction false} PairableExactly(faulted: FaultManifest, restored: FaultManifest, index: int)
    requires ManifestOk(faulted) && ManifestOk(restored)
    ensures Pairable(faulted, restored, index) <==>
              && OneFault(faulted, restored, index)
              && (NeedsRest(faulted.instance.op) ==> faulted.parameters.rest == restored.parameters.rest)
              && (faulted.instance.op.T2? ==> Steps(T2, faulted.instance.level) <= index - restored.instance.start)
  {
    SameFault(faulted.instance, restored.instance);
    if OneFault(faulted, restored, index) {
      StaticExactly(faulted.instance, index, faulted.parameters, restored.parameters);
    }
  }

  lemma {:induction false} SameFault(f: Instance, r: Instance)
    ensures f.(stop := 0) == r.(stop := 0) <==>
            f.op == r.op && f.level == r.level && f.template == r.template && f.start == r.start && f.slots == r.slots
    ensures f.(stop := 0) == r.(stop := 0) ==> r == f.(stop := r.stop)
  {
  }
}
