/** Paired-trial contracts: one trial per condition, built from one frozen pair key. */
module Trials {
  import opened Basics
  import opened OperatorParameters
  import opened Manifests

  datatype Condition = Clean | Faulted | NoTouch | Restored
  datatype RestorationMode = ValidStreamResume | MaintenanceOrReplacement
  datatype TerminalStatus =
    | Success | TaskFailure | EarlyStop | Timeout | Crash | ValidatorRejected | UnsupportedContract

  const ACTION_SPEC := "qpos8_next_step"

  datatype SystemIdentity = SystemIdentity(systemId: string, checkpoint: string, config: string,
                                           actionSpec: string)

  datatype TrialManifest = TrialManifest(
    task: string, initialSeed: int, exogenousSeed: int, condition: Condition,
    baseSystemId: string, executedSystemId: string, dataset: string,
    baseSystemManifest: Sha<SystemIdentity>, checkpoint: string, config: string,
    actionSpec: string, faultManifest: Option<Sha<FaultManifest>>,
    matchedNoTouchId: Option<string>, restorationIndex: Option<int>,
    restorationMode: Option<RestorationMode>)

  /** The constructor's condition rules. */
  predicate TrialOk(t: TrialManifest) {
    && 0 <= t.initialSeed && 0 <= t.exogenousSeed
    && t.task != "" && t.baseSystemId != "" && t.executedSystemId != ""
    && IsHexDigest(t.dataset) && IsHexDigest(t.checkpoint) && IsHexDigest(t.config)
    && t.actionSpec == ACTION_SPEC
    && (!t.condition.NoTouch? ==>
          t.baseSystemManifest ==
          Sha(SystemIdentity(t.baseSystemId, t.checkpoint, t.config, t.actionSpec)))
    && (t.condition.Clean? ==> t.faultManifest.None? && t.executedSystemId == t.baseSystemId)
    && (t.condition.Faulted? || t.condition.Restored? ==>
          t.faultManifest.Some? && t.executedSystemId == t.baseSystemId)
    && (if t.condition.Restored?
        then t.restorationIndex.Some? && 0 <= t.restorationIndex.value && t.restorationMode.Some?
        else t.restorationIndex.None? && t.restorationMode.None?)
    && (if t.condition.NoTouch?
        then t.matchedNoTouchId.Some? && t.matchedNoTouchId.value != ""
             && t.executedSystemId == t.matchedNoTouchId.value && t.faultManifest.None?
        else t.matchedNoTouchId.None?)
  }

  function Construct(t: TrialManifest): Reply<TrialManifest> {
    if TrialOk(t) then Returned(t) else Raised(OtherError)
  }

  /** The condition-invariant fields that matched trials share. */
  datatype PairFields = PairFields(task: string, initialSeed: int, exogenousSeed: int,
                                   baseSystemId: string, dataset: string,
                                   baseSystemManifest: Sha<SystemIdentity>, actionSpec: string)

  function PairKey(t: TrialManifest): Sha<PairFields> {
    Sha(PairFields(t.task, t.initialSeed, t.exogenousSeed, t.baseSystemId, t.dataset,
                   t.baseSystemManifest, t.actionSpec))
  }

  datatype Grid = Grid(clean: TrialManifest, faulted: TrialManifest, noTouch: TrialManifest,
                       restored: TrialManifest)

  /** The no-touch control's identity. */
  datatype Control = Control(systemId: string, checkpoint: string, config: string)

  predicate ControlOk(c: Control) {
    c.systemId != "" && IsHexDigest(c.checkpoint) && IsHexDigest(c.config)
  }

  /** The manifest half of the pairing rules: one operator instance, and a restoration
      inside the faulted window. */
  predicate Pairable(faulted: FaultManifest, restored: FaultManifest, index: int) {
    var f, r := faulted.instance, restored.instance;
    && f.(stop := 0) == r.(stop := 0) && faulted.observability == restored.observability
    && StaticView(ToDict(f.op, f.template.seed, faulted.parameters))
       == StaticView(ToDict(r.op, r.template.seed, restored.parameters))
    && r.stop == index < f.stop
  }

  function FaultedTrial(clean: TrialManifest, faulted: FaultManifest): TrialManifest {
    clean.(condition := Faulted, faultManifest := Some(Sha(faulted)))
  }

  function NoTouchTrial(clean: TrialManifest, control: Control): TrialManifest {
    clean.(condition := NoTouch, executedSystemId := control.systemId,
           checkpoint := control.checkpoint, config := control.config,
           matchedNoTouchId := Some(control.systemId))
  }

  function RestoredTrial(clean: TrialManifest, restored: FaultManifest, index: int, mode: RestorationMode)
    : TrialManifest
  {
    clean.(condition := Restored, faultManifest := Some(Sha(restored)),
           restorationIndex := Some(index), restorationMode := Some(mode))
  }

  function BuildPairedTrialGrid(clean: TrialManifest, faulted: FaultManifest, restored: FaultManifest,
                                index: int, mode: RestorationMode, control: Control): Reply<Grid>
  {
    if !clean.condition.Clean? || !Pairable(faulted, restored, index) then Raised(OtherError)
    else
      var faultedTrial :- Construct(FaultedTrial(clean, faulted));
      var noTouchTrial :- Construct(NoTouchTrial(clean, control));
      var restoredTrial :- Construct(RestoredTrial(clean, restored, index, mode));
      Returned(Grid(clean, faultedTrial, noTouchTrial, restoredTrial))
  }

  // ------------------------------------------------------- exact acceptance

  /** The parameters with every schedule emptied. */
  function Unscheduled(p: Parameters): Parameters {
    match p
    case StreamAbsence(_) => StreamAbsence([])
    case FrameErasure(_) => FrameErasure([])
    case FixedDelay(lag, _) => FixedDelay(lag, [])
    case HeldLast(duration, held, _) => HeldLast(duration, held, [])
    case SensorSkew(delayed, skew, _, _) => SensorSkew(delayed, skew, PerSlot([], [], true), {})
    case Misrouting(_) => Misrouting([])
    case _ => p
  }

  lemma {:induction false} StaticEntries(p: Parameters)
    ensures StaticView(Entries(p)) == StaticView(Entries(Unscheduled(p)))
  {
  }

  lemma {:induction false} StaticWhole(op: OperatorId, seed: nat, p: Parameters)
    ensures StaticView(ToDict(op, seed, p)) ==
            StaticView(Entries(p))[ParameterizationVersionKey := Text("canonical_operator_instance_v2")]
                                  [TemplateSeedKey := Int(seed)]
  {
  }

  lemma {:induction false} UnscheduledMoves(k: Instance, stop: int, rest: string, erased: seq<int>,
                                            erased': seq<int>)
    requires InstanceOk(k) && k.start < stop < k.stop && !k.op.T2?
    ensures Unscheduled(Expected(k, rest, erased)) ==
            Unscheduled(Expected(k.(stop := stop), rest, erased'))
  {
  }

  lemma {:induction false} HoldDurationKept(k: Instance, p: Parameters)
    requires p.HeldLast?
    ensures HoldDurationFramesKey in StaticView(ToDict(k.op, k.template.seed, p))
    ensures StaticView(ToDict(k.op, k.template.seed, p))[HoldDurationFramesKey] == Int(p.duration)
  {
    StaticWhole(k.op, k.template.seed, p);
  }

  /** The window-independent part of a dictionary follows the parameters without schedules. */
  lemma {:induction false} StaticFollows(op: OperatorId, seed: nat, p: Parameters, q: Parameters)
    requires Unscheduled(p) == Unscheduled(q)
    ensures StaticView(ToDict(op, seed, p)) == StaticView(ToDict(op, seed, q))
  {
    StaticWhole(op, seed, p);
    StaticWhole(op, seed, q);
    StaticEntries(p);
    StaticEntries(q);
  }

  lemma {:induction false} DurationShows(k: Instance, p: Parameters, q: Parameters)
    requires p.HeldLast? && q.HeldLast? && p.duration != q.duration
    ensures StaticView(ToDict(k.op, k.template.seed, p)) != StaticView(ToDict(k.op, k.template.seed, q))
  {
    HoldDurationKept(k, p);
    HoldDurationKept(k, q);
  }

  lemma {:induction false} HoldClips(k: Instance, stop: int)
    requires InstanceOk(k) && k.start < stop < k.stop && k.op.T2?
    ensures var p, q := Expected(k, "", []), Expected(k.(stop := stop), "", []);
            && p.HeldLast? && q.HeldLast? && (p.duration == q.duration <==> Steps(T2, k.level) <= stop - k.start)
            && (p.duration == q.duration <==> Unscheduled(p) == Unscheduled(q))
  {
  }

  /** The window-independent part of an instance's dictionary moves with the window only for
      T2, whose hold duration is clipped to it. */
  lemma {:induction false} StaticViewMoves(k: Instance, stop: int, rest: string, erased: seq<int>,
                                           erased': seq<int>, p: Parameters, q: Parameters)
    requires InstanceOk(k) && k.start < stop < k.stop && (k.op.T2? ==> rest == "" && erased == erased' == [])
    requires p == Expected(k, rest, erased) && q == Expected(k.(stop := stop), rest, erased')
    ensures StaticView(ToDict(k.op, k.template.seed, p)) == StaticView(ToDict(k.op, k.template.seed, q))
            <==> (k.op.T2? ==> Steps(T2, k.level) <= stop - k.start)
  {
    if k.op.T2? {
      HoldClips(k, stop);
      if p.duration == q.duration {
        StaticFollows(k.op, k.template.seed, p, q);
      } else {
        DurationShows(k, p, q);
      }
    } else {
      UnscheduledMoves(k, stop, rest, erased, erased');
      StaticFollows(k.op, k.template.seed, p, q);
    }
  }

  /** Shortening the window of any accepted manifest gives an accepted manifest. */
  lemma {:induction false} RestoredTwinExists(m: FaultManifest, index: int)
    requires ManifestOk(m) && m.instance.start < index < m.instance.stop
    ensures var k := m.instance.(stop := index);
            Reparameterized(m, None, Some(index)) ==
            Returned(FaultManifest(k, m.observability, Rebuilt(k, m.parameters, false)))
  {
    RebuildAccepts(m.instance.(stop := index), m.parameters, false);
  }

  /** Of the four trials, only the no-touch control can be refused. */
  lemma {:induction false} TrialsConstruct(clean: TrialManifest, faulted: FaultManifest, restored: FaultManifest,
                                           index: int, mode: RestorationMode, control: Control)
    requires TrialOk(clean) && clean.condition.Clean? && 0 <= index
    ensures TrialOk(FaultedTrial(clean, faulted))
    ensures TrialOk(RestoredTrial(clean, restored, index, mode))
    ensures TrialOk(NoTouchTrial(clean, control)) <==> ControlOk(control)
  {
  }

  /** Two manifests that differ in their window's end alone pair as their window-independent
      parameters agree. */
  lemma {:induction false} PairableIsStatic(m: FaultManifest, q: Parameters, index: int)
    requires m.instance.start < index < m.instance.stop
    ensures var k := m.instance;
            Pairable(m, FaultManifest(k.(stop := index), m.observability, q), index) <==>
            StaticView(ToDict(k.op, k.template.seed, m.parameters)) == StaticView(ToDict(k.op, k.template.seed, q))
  {
  }

  lemma {:induction false} RebuiltMoves(k: Instance, p: Parameters, index: int)
    requires InstanceOk(k) && Registered(k, p) && k.start < index < k.stop
    ensures StaticView(ToDict(k.op, k.template.seed, p)) ==
            StaticView(ToDict(k.op, k.template.seed, Rebuilt(k.(stop := index), p, false)))
            <==> (k.op.T2? ==> Steps(T2, k.level) <= index - k.start)
  {
    var rest, given, spread := if NeedsRest(k.op) then p.rest else "", if k.op.A2? then p.erased else [],
                            if k.op.A2? then SpreadOffsets(index - k.start, CountOf(k.(stop := index))) else [];
    StaticViewMoves(k, index, rest, given, spread, p, Rebuilt(k.(stop := index), p, false));
  }

  /** A manifest and its restored twin satisfy the manifest half of the pairing rules exactly
      when a T2 freeze still fits in the restored window. */
  lemma {:induction false} TwinPairable(m: FaultManifest, index: int)
    requires ManifestOk(m) && m.instance.start < index < m.instance.stop
    ensures Reparameterized(m, None, Some(index)).Returned?
    ensures Pairable(m, Reparameterized(m, None, Some(index)).value, index)
            <==> (m.instance.op.T2? ==> Steps(T2, m.instance.level) <= index - m.instance.start)
  {
    RestoredTwinExists(m, index);
    PairableIsStatic(m, Rebuilt(m.instance.(stop := index), m.parameters, false), index);
    RebuiltMoves(m.instance, m.parameters, index);
  }

  /** For a restoration index strictly inside the window, a manifest and its restored twin
      are accepted as a pair exactly when the operator is not T2 or the restored window still
      holds the whole T2 freeze (and the no-touch control is a well-formed identity). */
  lemma {:induction false} PairingExact(clean: TrialManifest, m: FaultManifest, index: int, mode: RestorationMode,
                                        control: Control)
    requires TrialOk(clean) && clean.condition.Clean?
    requires ManifestOk(m) && m.instance.start < index < m.instance.stop
    ensures Reparameterized(m, None, Some(index)).Returned?
    ensures BuildPairedTrialGrid(clean, m, Reparameterized(m, None, Some(index)).value, index, mode,
                                 control).Returned?
            <==> ControlOk(control)
                 && (m.instance.op.T2? ==> Steps(T2, m.instance.level) <= index - m.instance.start)
  {
    TwinPairable(m, index);
    TrialsConstruct(clean, m, Reparameterized(m, None, Some(index)).value, index, mode, control);
  }

  /** The four trials of a grid are well-formed, carry their own condition and manifest, and
      share one pair key. */
  lemma {:induction false} GridSharesPairKey(clean: TrialManifest, faulted: FaultManifest, restored: FaultManifest,
                                             index: int, mode: RestorationMode, control: Control)
    requires TrialOk(clean)
    requires BuildPairedTrialGrid(clean, faulted, restored, index, mode, control).Returned?
    ensures var g := BuildPairedTrialGrid(clean, faulted, restored, index, mode, control).value;
            && TrialOk(g.clean) && TrialOk(g.faulted) && TrialOk(g.noTouch) && TrialOk(g.restored)
            && PairKey(g.clean) == PairKey(g.faulted) == PairKey(g.noTouch) == PairKey(g.restored)
            && g.clean.condition == Clean && g.faulted.condition == Faulted
            && g.noTouch.condition == NoTouch && g.restored.condition == Restored
            && g.faulted.faultManifest == Some(Sha(faulted))
            && g.restored.faultManifest == Some(Sha(restored))
            && g.restored.restorationIndex == Some(restored.instance.stop)
            && restored.instance.stop < faulted.instance.stop
  {
  }

  // ------------------------------------------------- schedules before restoration

  /** Before the restoration index the faulted and restored runs are shown the same source
      frames on every slot (T1, T2, T3): the restored map is a prefix of the faulted one. */
  lemma {:induction false} RoutingAgreesBeforeRestoration(m: FaultManifest, index: int, slot: Slot)
    requires ManifestOk(m) && m.instance.start < index < m.instance.stop
    requires IsRouting(m.instance.op) && slot in m.instance.slots
    ensures var twin := Reparameterized(m, None, Some(index));
            && twin.Returned?
            && ParametersFit(m.instance.op, twin.value.parameters)
            && |SourceMap(twin.value.parameters, slot)| == index - m.instance.start
            && SourceMap(twin.value.parameters, slot) <= SourceMap(m.parameters, slot)
  {
    RestoredTwinExists(m, index);
    TwinRegistered(m, index);
    MapsArePrefixes(m.instance, index, m.parameters,
                    Rebuilt(m.instance.(stop := index), m.parameters, false), slot);
  }

  lemma {:induction false} TwinRegistered(m: FaultManifest, index: int)
    requires ManifestOk(m) && m.instance.start < index < m.instance.stop && IsRouting(m.instance.op)
    ensures var k := m.instance.(stop := index); InstanceOk(k) && Registered(k, Rebuilt(k, m.parameters, false))
  {
  }

  lemma {:induction false} MapsArePrefixes(k: Instance, stop: int, p: Parameters, q: Parameters, slot: Slot)
    requires InstanceOk(k) && k.start < stop < k.stop && Registered(k, p) && Registered(k.(stop := stop), q)
    requires IsRouting(k.op) && slot in k.slots
    ensures |SourceMap(q, slot)| == stop - k.start && SourceMap(q, slot) <= SourceMap(p, slot)
  {
    SourceMapsCausal(k, p, slot);
    SourceMapsCausal(k.(stop := stop), q, slot);
    SharesFrames(k, stop, SourceMap(q, slot), SourceMap(p, slot), slot);
  }

  /** What a temporal fault shows at an index does not depend on where its window ends. */
  lemma {:induction false} SharesFrames(k: Instance, stop: int, a: seq<int>, b: seq<int>, slot: Slot)
    requires InstanceOk(k) && k.start < stop < k.stop && IsRouting(k.op)
    requires |a| == stop - k.start && |b| == k.stop - k.start
    requires forall i :: 0 <= i < |a| ==> a[i] == RoutedFrame(k.(stop := stop), slot, k.start + i)
    requires forall i :: 0 <= i < |b| ==> b[i] == RoutedFrame(k, slot, k.start + i)
    ensures a <= b
  {
  }

  /** F2-F7 and C2 carry no schedule at all: the restored twin has the very same parameters
      (F1 too, although its ramp also reads the window length). */
  lemma {:induction false} PixelParametersAgree(m: FaultManifest, index: int)
    requires ManifestOk(m) && m.instance.start < index < m.instance.stop
    requires IsPixel(m.instance.op)
    ensures Reparameterized(m, None, Some(index)) ==
            Returned(m.(instance := m.instance.(stop := index)))
  {
    RestoredTwinExists(m, index);
    PixelRebuilt(m.instance, m.parameters, index);
  }

  lemma {:induction false} PixelRebuilt(k: Instance, p: Parameters, stop: int)
    requires InstanceOk(k) && Registered(k, p) && IsPixel(k.op) && k.start < stop < k.stop
    ensures Rebuilt(k.(stop := stop), p, false) == p
  {
  }

  /** The restored A1 and C1 exposures are prefixes of the faulted ones. */
  lemma {:induction false} AffectedIsPrefix(m: FaultManifest, index: int)
    requires ManifestOk(m) && m.instance.start < index < m.instance.stop
    requires m.instance.op.A1? || m.instance.op.C1?
    ensures var twin := Reparameterized(m, None, Some(index));
            twin.Returned? && twin.value.parameters.affected <= m.parameters.affected
  {
    RestoredTwinExists(m, index);
    AffectedRange(m.instance, m.parameters);
    RebuiltAffected(m.instance.(stop := index), m.parameters);
    FewerAffected(m.instance, index);
  }

  lemma {:induction false} AffectedRange(k: Instance, p: Parameters)
    requires InstanceOk(k) && Registered(k, p) && (k.op.A1? || k.op.C1?)
    ensures (p.StreamAbsence? || p.Misrouting?) && p.affected == Range(0, CountOf(k))
  {
  }

  lemma {:induction false} RebuiltAffected(k: Instance, p: Parameters)
    requires InstanceOk(k) && ParametersFit(k.op, p) && (k.op.A1? || k.op.C1?)
    ensures var q := Rebuilt(k, p, false);
            (q.StreamAbsence? || q.Misrouting?) && q.affected == Range(0, CountOf(k))
  {
  }

  /** A shorter window affects no more frames, and the first ones first. */
  lemma {:induction false} FewerAffected(k: Instance, stop: int)
    requires InstanceOk(k) && k.start < stop < k.stop
    ensures Range(0, CountOf(k.(stop := stop))) <= Range(0, CountOf(k))
  {
    var dose := Dose(k.op, k.level);
    ScaleMonotone(stop - k.start, Window(k), dose);
    HalfEvenMonotone((stop - k.start) * dose, Window(k) * dose, 100);
  }

  lemma {:induction false} ScaleMonotone(a: int, b: int, c: int)
    requires a <= b && 0 <= c
    ensures a * c <= b * c
  {
    assert b * c == a * c + (b - a) * c;
  }
}
