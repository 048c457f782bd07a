/** Concrete inputs on which a plain claim about the code fails.  Each names the lemma that says
    exactly when the claim holds. */
module Counterexamples {
  import opened Basics
  import opened OperatorParameters
  import opened Manifests
  import opened Trials
  import opened Records
  import opened ValidationCodes
  import opened PixelReference
  import opened Validators
  import opened DeliveryProperties
  import opened Streaming
  import opened StreamingProperties
  import opened Delivery
  import opened Results
  import opened RunnerChecks
  import opened Runner
  import opened RunnerProperties
  import opened Chronology
  import opened ContactPhases
  import B = Backend
  import P = BackendProperties
  import Calibration = CalibrationSelection
  import Arrays = ArtifactArrays
  import Written = ArtifactRecords
  import Loading = ArtifactLoading
  import Receipts = RootReceipts
  import Bundles = BundleArtifacts
  import Publication = BundlePublication

  function Zeros(): (s: string)
    ensures IsHexDigest(s)
  {
    var s := seq(64, _ => '0');
    assert "0123456789abcdef"[0] == '0';
    s
  }

  const IDENTITY := SystemIdentity("base", Zeros(), Zeros(), ACTION_SPEC)

  /** A clean trial of the base system. */
  function CleanTrial(): (t: TrialManifest)
    ensures TrialOk(t) && t.condition.Clean?
  {
    TrialManifest("insert", 0, 0, Condition.Clean, "base", "base", Zeros(), Sha(IDENTITY), Zeros(), Zeros(),
                  ACTION_SPEC, None, None, None, None)
  }

  function Seen(step: nat, p: Picture): Sensor {
    Sensor(Some(p), None, step, step as real, None, "frame", "calibration")
  }

  function Origin(step: nat, p: Picture, source: string): Provenance {
    Provenance(source, Some(step), Some(step as real), Some(Sha(p)), Sha("calibration"), Free, [])
  }

  function FrameContent(step: nat, p: Picture): Content {
    Content(Observation(Sha(CleanTrial()), "insert", 0, step, PerSlot(Seen(step, p), Seen(step, p), true),
                        map["head" := [[Rgb(0, 0, 0)]]], [0.0]),
            PerSlot(Origin(step, p, "left"), Origin(step, p, "right"), true))
  }

  /** A clean record of that trial, both slots showing one picture. */
  function Frame(step: nat, p: Picture): EvaluationRecord {
    EvaluationRecord(FrameContent(step, p), Sha(FrameContent(step, p)), Sha(FrameContent(step, p)))
  }

  const DOT: Picture := [[Rgb(0, 0, 0)]]

  // ------------------------------------------------------------------ T2 windows

  /** A T2 freeze of the left slot; its parameters are the generated ones. */
  function Freeze(level: int, start: int, stop: int): (m: FaultManifest)
    requires 1 <= level <= 5 && 0 <= start < stop
    ensures ManifestOk(m) && m.instance.op.T2? && m.instance.level == level
    ensures m.instance.start == start && m.instance.stop == stop
  {
    var k := Instance(T2, level, Template(0, 0.0, 0.0, 0.0), start, stop, [Left]);
    FaultManifest(k, Blind, Expected(k, "", []))
  }

  /** A restored twin can be refused: five frames of a 32-frame freeze remain.  Exactly when:
      `Trials.PairingExact`. */
  lemma {:induction false} ShortRestorationRefused(mode: RestorationMode)
    ensures var m, control := Freeze(5, 10, 50), Control("no-touch", Zeros(), Zeros());
            && Reparameterized(m, None, Some(15)).Returned?
            && BuildPairedTrialGrid(CleanTrial(), m, Reparameterized(m, None, Some(15)).value, 15, mode,
                                    control).Raised?
  {
    PairingExact(CleanTrial(), Freeze(5, 10, 50), 15, mode, Control("no-touch", Zeros(), Zeros()));
  }

  lemma {:induction false} LoneFrameRejected(g: Gauge, m: FaultManifest, clean: Trace)
    requires ManifestOk(m) && m.instance.op.T2? && m.instance.start == 0
    requires |clean| == 1 && CleanTraceOk(clean)
    ensures StreamAt(m, clean, 0).Returned? && !Passes(g, clean, [StreamAt(m, clean, 0).value], m, None)
  {
    StreamShape(m, clean, 0);
    StreamAccepted(g, m, clean, [StreamAt(m, clean, 0).value], None);
  }

  /** The reference delivery can be rejected although the trace reaches the window: a freeze
      from frame 0 on a trace of one frame.  Exactly when: `StreamingProperties.StreamAccepted`. */
  lemma {:induction false} FirstFrameFreezeRejected(g: Gauge)
    ensures var m, clean := Freeze(1, 0, 10), [Frame(0, DOT)];
            && m.Active(0) && StreamAt(m, clean, 0).Returned?
            && !Passes(g, clean, [StreamAt(m, clean, 0).value], m, None)
  {
    assert CleanRecordOk(Frame(0, DOT), 0);
    LoneFrameRejected(g, Freeze(1, 0, 10), [Frame(0, DOT)]);
  }

  // ------------------------------------------------------------------ F5 frames

  /** An F5 distortion of the top severity, centred on the frame. */
  function Distortion(): (m: FaultManifest)
    ensures ManifestOk(m) && m.instance.op.F5? && m.parameters == ShapeDistortion(0.5, 0.5, 5)
  {
    var k := Instance(F5, 5, Template(0, 0.0, 0.0, 0.0), 0, 1, [Left]);
    FaultManifest(k, Blind, Expected(k, "", []))
  }

  /** On every frame of 25 by 25 pixels the map folds: columns 7 and 8 of the middle row read in the
      wrong order, so the reference refuses the frame.  One pixel more is enough:
      `PixelProperties.WarpNeverFoldsOrLeaves`. */
  lemma {:induction false} NarrowFrameFolds(p: Picture)
    requires Height(p) == Width(p) == 25
    ensures var w := WarpOf(p, Distortion());
            && SourceX(w, 12, 8) < SourceX(w, 12, 7)
            && !WarpUnfolded(w, Height(p), Width(p))
  {
    var w := WarpOf(p, Distortion());
    assert w == Warp(12.0, 12.0, 7.5, 5.0);
    assert Depth(w, 12, 7) == 5.0 / 9.0 && Depth(w, 12, 8) == 161.0 / 225.0;
  }

  // ------------------------------------------------------------------ runs

  /** The base system on its clean trial, with a budget of two observations. */
  function BaseJob(): (j: Job)
    ensures JobOk(j) && Attempted(j)
  {
    Job(CleanTrial(), RunBudget("insert", "done", 1, 2, 1, 1.0),
        PolicyIdentity("base", Zeros(), Zeros(), ACTION_SPEC, true, true), BackendIdentity(ACTION_SPEC, "done"),
        false, true, Identity)
  }

  /** An environment that works until the first execute, which raises. */
  function FailingWorld(): World {
    World(Returned(ResetReceipt(Sha(CleanTrial()), 0, 0, "state")), Returned(()), Returned(Frame(0, DOT)),
          _ => Returned(0.0), _ => Returned(ActionPlan(ACTION_SPEC, 0, [[0.0]])), _ => Raised(OtherError),
          _ => Returned(()), Returned(()), Returned(()), Returned(()))
  }

  /** The state in which the first cycle starts. */
  function Greeted(j: Job): State
    requires j.channel.Identity?
  {
    Before(j).(stage := DeliveryStage, initialState := Some("state"), entered := true,
               policyCalls := [PolicyReset(Context(j))], backendCalls := [BackendReset(Context(j)), Observe],
               session := Session(Identity, [Frame(0, DOT)], [Frame(0, DOT)], Some(IdentityOf(Frame(0, DOT))), false),
               current := Some(Frame(0, DOT).Observed()), observations := 1)
  }

  lemma {:induction false} FailingGreets()
    ensures var (s, p) := Prepare(BaseJob(), FailingWorld());
            p.Going? && Greet(BaseJob(), FailingWorld(), s) == (Greeted(BaseJob()), Going)
  {
    var reset: BackendCall := BackendReset(Context(BaseJob()));
    assert [reset] + [Observe] == [reset, Observe];
    assert [] + [Frame(0, DOT)] == [Frame(0, DOT)];
  }

  lemma {:induction false} FailingCycle()
    ensures var (s, p) := Cycle(BaseJob(), FailingWorld(), Greeted(BaseJob()));
            && p == Broken(OtherError) && s.stage.ExecuteStage? && s.cycles == 1 && s.entries == []
            && s.session == Greeted(BaseJob()).session && s.initialState.Some? && s.observations == 1
  {
  }

  lemma {:induction false} FailingAttempt()
    ensures var (s, p) := Attempt(BaseJob(), FailingWorld());
            && p == Broken(OtherError) && s.stage.ExecuteStage? && s.cycles == 1 && s.entries == []
            && s.session.clean == s.session.delivered == [Frame(0, DOT)] && !s.session.finalized
            && s.initialState.Some? && s.session.channel.Identity? && 0 <= s.observations
  {
    FailingGreets();
    FailingCycle();
  }

  lemma {:induction false} CrashSettles(j: Job, s: State)
    requires JobOk(j) && s.session.channel.Identity? && s.initialState.Some? && s.stage.ExecuteStage?
    requires s.cycles == 1 && s.entries == [] && 0 <= s.observations
    requires s.session.clean == s.session.delivered == [Frame(0, DOT)] && !s.session.finalized
    ensures var (t, f, r) := Crashed(j, s, OtherError);
            && f.Some? && r.Returned? && t.entries == []
            && r.value.body.failureStage == Some(ExecuteStage) && r.value.body.controlCycleCount == 1
  {
    CrashReports(j, s, OtherError);
  }

  /** Evidence of an honest run can be rejected: a run that crashes on its first execute leaves a
      coherent receipt and a trace that the chronology checker refuses.  Exactly when:
      `RunnerChronology.IncompleteExactly` and `RunnerChronology.FaithfulEvidenceAccepted`. */
  lemma {:induction false} ExecuteCrashRejected()
    ensures var j, r := BaseJob(), RunTrial(BaseJob(), FailingWorld());
            && r.finalization.Some? && r.outcome.Returned?
            && r.outcome.value.body.failureStage == Some(ExecuteStage)
            && !Accepts(j.trial, j.spec, r.outcome.value.body, r.finalization.value, r.entries)
  {
    FailingAttempt();
    CrashSettles(BaseJob(), Attempt(BaseJob(), FailingWorld()).0);
  }

  /** The same environment, except that its reset raises a violation without a code. */
  function SilentWorld(): World {
    FailingWorld().(reset := Raised(Violation("")))
  }

  /** An attempted run can end without any receipt.  Exactly when:
      `RunnerProperties.RunAlwaysReports`. */
  lemma {:induction false} SilentRun()
    ensures Attempted(BaseJob()) && RunTrial(BaseJob(), SilentWorld()).outcome.Raised?
  {
    SilentViolationEscapes(BaseJob(), SilentWorld());
  }

  // ------------------------------------------------------------------ the backend

  function BaseConfig(): (c: B.Config)
    ensures B.ConfigOk(c)
  {
    B.Config("insert", "insert", 10, false, true, seq(8, _ => -1.0), seq(8, _ => 1.0), 1.0,
             PerSlot(B.SlotConfig("left", "frame"), B.SlotConfig("right", "frame"), true), "calibration",
             Sha("calibration"), Thresholds(1.0, 0.0))
  }

  function Touched(): B.Touch {
    B.Touch(DOT, 0.0)
  }

  /** A simulator that counts its actions and answers everything, except for the second encoding. */
  function StumblingSimulator(): B.Simulator {
    B.Simulator(Returned(()), row => if row == 1 then Raised(OtherError) else Returned(()),
                _ => Returned(B.Feedback(true, false)),
                (taken: nat) => Returned(B.Frame(taken, DOT, DOT, PerSlot(Touched(), Touched(), true), [], "")),
                _ => Returned(false), _ => Returned(true), _ => Returned(None), Returned(()))
  }

  function Still(): (a: Action)
    ensures B.ActionsOk(BaseConfig(), [a]) && B.ActionsOk(BaseConfig(), [a, a])
  {
    seq(8, _ => 0.0)
  }

  lemma {:induction false} StumblingCounts()
    ensures P.Counts(StumblingSimulator(), t => t)
  {
  }

  /** A backend that is ready to execute, and has accepted n actions in all. */
  predicate ReadyAfter(s: B.State, n: nat, rows: nat) {
    && B.Executable(s) && s.step == n && s.taken == n && s.native == Some(n) && s.rows == rows && s.executed <= n
  }

  lemma {:induction false} StumblingResets(e: EpisodeContext)
    requires e.task == "insert" && e.instruction == "insert" && e.actionSpec == ACTION_SPEC
    ensures var s := B.ResetTo(BaseConfig(), StumblingSimulator(), B.Initially(), e).0;
            && B.ObserveTo(s).1.Returned? && B.ObserveTo(s).1.value.Observed().stepIndex == 0
            && ReadyAfter(B.ObserveTo(s).0, 0, 0)
  {
    P.ConvertedClean(BaseConfig(), StumblingSimulator().frame(0).value, e, 0, B.Initially().contact);
  }

  /** The first row of a batch of two is accepted, the second cannot be encoded. */
  lemma {:induction false} StumblingRaises(s: B.State)
    requires ReadyAfter(s, 0, 0)
    ensures var (t, r) := B.ExecuteTo(BaseConfig(), StumblingSimulator(), s, [Still(), Still()]);
            && r.Raised? && ReadyAfter(t, 1, 2) && !P.Lost(s, t)
  {
    var c, sim, e := BaseConfig(), StumblingSimulator(), s.context.value;
    StumblingCounts();
    P.AnsweredRow(c, sim, s, e, t => t);
    P.RowTellsAll(c, sim, s, e);
    P.FirstRow(c, sim, s, e);
    var before := B.Row(c, sim, s, e).0;
    assert ReadyAfter(before, 1, 1);
    assert B.Row(c, sim, before, e).1.Raised?;
    assert B.Rows(c, sim, s, e, 2) == (B.Row(c, sim, before, e).0, Raised(OtherError));
  }

  /** A raised execute need not be the last to return: after one that raised on encoding its second
      row, the next returns a batch that starts at step 2, though its caller last saw step 0.
      Exactly when: `BackendProperties.FailsClosedExactly`. */
  lemma {:induction false} StumblingSkipsAStep(e: EpisodeContext)
    requires e.task == "insert" && e.instruction == "insert" && e.actionSpec == ACTION_SPEC
    ensures var c, sim := BaseConfig(), StumblingSimulator();
            var s := B.ObserveTo(B.ResetTo(c, sim, B.Initially(), e).0).0;
            var (t, raised) := B.ExecuteTo(c, sim, s, [Still(), Still()]);
            var r := B.ExecuteTo(c, sim, t, [Still()]).1;
            && raised.Raised? && P.Counts(sim, t => t)
            && r.Returned? && r.value.transitions != [] && r.value.transitions[0].clean.Observed().stepIndex == 2
  {
    var c, sim := BaseConfig(), StumblingSimulator();
    var s := B.ObserveTo(B.ResetTo(c, sim, B.Initially(), e).0).0;
    StumblingCounts();
    StumblingResets(e);
    StumblingRaises(s);
    P.AnsweredReturns(c, sim, B.ExecuteTo(c, sim, s, [Still(), Still()]).0, Still(), t => t);
  }

  // ------------------------------------------------------------------ stored evidence

  function Clean(trace: Trace): Finalization {
    Finalization(trace, trace, None, Sha(CleanRecords(Contents(trace))), Sha(CleanRecords(Contents(trace))), None)
  }

  const REGISTRY := Calibration.TaskConfig(Sha("calibration"), Thresholds(1.0, 0.0), 2, 2)

  /** A one-frame run whose pictures are smaller than the registry says. */
  function RestSource(): (a: Calibration.Artifact)
    ensures Calibration.SourceUsable(a, Calibration.CalibrationSplit, REGISTRY)
    ensures a.trial == CleanTrial() && a.finalization.value.clean == [Frame(0, DOT)]
  {
    assert Calibration.RecordUsable(Frame(0, DOT), 0, CleanTrial(), REGISTRY.calibration);
    Calibration.Artifact(CleanTrial(), false, false, "root", Some(Clean([Frame(0, DOT)])))
  }

  lemma {:induction false} RestRun()
    ensures Calibration.BestRun([Frame(0, DOT)]) == Calibration.Interval(0, 1)
    ensures Calibration.FreeRun([Frame(0, DOT)], 0, 1)
  {
    assert Calibration.FreeRun([Frame(0, DOT)], 0, 1);
  }

  function Frozen(): Reply<(Calibration.Bundle, Calibration.Receipt)> {
    Calibration.Freeze(RestSource(), Calibration.CalibrationSplit, REGISTRY, 1,
                       Calibration.BestRun(RestSource().finalization.value.clean))
  }

  lemma {:induction false} RestFrozen()
    ensures Frozen().Returned?
  {
    RestRun();
    Calibration.FreezeTells(RestSource(), Calibration.CalibrationSplit, REGISTRY, 1, Calibration.Interval(0, 1));
  }

  /** A rest frame of the wrong shape is frozen, and then fails the loader's cross-links.
      Exactly when: `CalibrationSelection.BuiltPairLinks`. */
  lemma {:induction false} WrongShapeFrozen()
    ensures Frozen().Returned?
    ensures var (b, r) := Frozen().value;
            && 0 <= r.selected - r.start < |r.records|
            && !Calibration.LinksOk(b, r, Calibration.RootOf(b, r), REGISTRY)
  {
    RestFrozen();
    RestRun();
    Calibration.BuiltPairLinks(RestSource(), Calibration.CalibrationSplit, REGISTRY, 1);
    Calibration.FreezeTells(RestSource(), Calibration.CalibrationSplit, REGISTRY, 1, Calibration.Interval(0, 1));
  }

  /** A picture of more than four million elements. */
  function Wide(): Picture {
    seq(1200, _ => seq(1200, _ => Rgb(0, 0, 0)))
  }

  /** The length of a version 1 NPY file with a header of 128 bytes. */
  function NpyBytes(a: Arrays.Array): nat {
    128 + Arrays.Product(Arrays.ShapeOf(a)) * (if a.Image? then 1 else 4)
  }

  /** The finalized delivery of one wide picture. */
  function WideDelivery(m: FaultManifest, report: Report): (f: Finalization)
    ensures f.validation == Some(report) && FinalizationOk(f) && Frame(0, Wide()) in f.clean
  {
    var trace := [Frame(0, Wide())];
    Clean(trace).(validation := Some(report), manifest := Some(Sha(m)),
                  deliveredTrace := Sha(FaultRecords(Sha(m), Contents(trace))))
  }

  lemma {:induction false} ProductOf(a: nat, b: nat, c: nat)
    ensures Arrays.Product([a]) == a && Arrays.Product([a, b, c]) == a * b * c
  {
    assert [a, b, c][..2] == [a, b] && [a, b][..1] == [a] && [a][..0] == [];
  }

  lemma {:induction false} WideSizes()
    ensures NpyBytes(Arrays.Image(Wide())) == 4_320_128 && NpyBytes(Arrays.Image(DOT)) == 131
    ensures NpyBytes(Arrays.Vector([0.0])) == 132
  {
    ProductOf(1200, 1200, 3);
    ProductOf(1, 1, 3);
  }

  lemma {:induction false} WideFits(m: FaultManifest, report: Report)
    ensures Written.AllFit(NpyBytes, Written.EvidenceArrays([], WideDelivery(m, report)))
    ensures Arrays.Product(Arrays.ShapeOf(Arrays.Image(Wide()))) > Arrays.MAX_ARRAY_ELEMENTS
  {
    WideSizes();
    forall a <- Written.EvidenceArrays([], WideDelivery(m, report)) ensures NpyBytes(a) <= Arrays.MAX_MEMBER_BYTES {
      WideArrays(m, report, a);
    }
  }

  lemma {:induction false} WideArrays(m: FaultManifest, report: Report, a: Arrays.Array)
    requires a in Written.EvidenceArrays([], WideDelivery(m, report))
    ensures a == Arrays.Image(Wide()) || a == Arrays.Image(DOT) || a == Arrays.Vector([0.0])
  {
    assert Written.TraceArrays([Frame(0, Wide())]) == Written.RecordArrays(Frame(0, Wide()));
  }

  /** What is serialized need not load: one picture of 4.3 megabytes.  (Publication reloads what it
      has staged, so it refuses this evidence: `BundlePublication.PublishBundle`.)  Exactly when:
      `ArtifactLoading.EvidenceRoundTrip`. */
  lemma {:induction false} WidePictureLost(m: FaultManifest, report: Report)
    ensures var f := WideDelivery(m, report);
            && Written.AllFit(NpyBytes, Written.EvidenceArrays([], f))
            && Loading.LoadEvidence(NpyBytes, Loading.Written([], f), report).Raised?
  {
    WideFits(m, report);
    Loading.OversizedPictureLost(NpyBytes, [], WideDelivery(m, report), report, Frame(0, Wide()));
  }

  // ------------------------------------------------------------------ crowded bundles

  /** One executed action of eight equal values. */
  function Press(n: nat): ActionEntry {
    ActionEntry(Foreign("plan"), n, [seq(8, _ => n as real)])
  }

  /** So many executed actions, no two alike. */
  function Presses(count: nat): seq<ActionEntry> {
    seq(count, n requires 0 <= n < count => Press(n))
  }

  lemma {:induction false} PressApart(n: nat, k: nat)
    requires n != k
    ensures Arrays.Table(Press(n).actions) != Arrays.Table(Press(k).actions)
  {
    assert Press(n).actions[0][0] != Press(k).actions[0][0];
  }

  lemma {:induction false} PressesDiffer(count: nat)
    ensures |Written.EntryArrays(Presses(count))| == count
    ensures forall a <- Written.EntryArrays(Presses(count)) ::
              exists n: nat :: n < count && a == Arrays.Table(Press(n).actions)
  {
    if count > 0 {
      PressesDiffer(count - 1);
      var arrays, last := Written.EntryArrays(Presses(count - 1)), Arrays.Table(Press(count - 1).actions);
      assert Presses(count)[..count - 1] == Presses(count - 1);
      assert Written.EntryArrays(Presses(count)) == arrays + {last};
      forall n: nat | n < count - 1 ensures Arrays.Table(Press(n).actions) != last { PressApart(n, count - 1); }
    }
  }

  /** The finalized delivery of one small picture. */
  function DotDelivery(m: FaultManifest, report: Report): (f: Finalization)
    ensures f.validation == Some(report) && FinalizationOk(f) && f.clean == f.delivered == [Frame(0, DOT)]
  {
    var trace := [Frame(0, DOT)];
    Clean(trace).(validation := Some(report), manifest := Some(Sha(m)),
                  deliveredTrace := Sha(FaultRecords(Sha(m), Contents(trace))))
  }

  lemma {:induction false} PressFits(n: nat)
    ensures NpyBytes(Arrays.Table(Press(n).actions)) == 160 && Loading.EntryLoadable(Press(n))
  {
    assert [1, 8][..1] == [1] && [1][..0] == [];
    assert Arrays.Product([]) == 1 && Arrays.Product([1]) == 1 && Arrays.Product([1, 8]) == 8;
    assert Arrays.ShapeOf(Arrays.Table(Press(n).actions)) == [1, 8];
  }

  lemma {:induction false} DotArrays()
    ensures Written.RecordArrays(Frame(0, DOT)) == {Arrays.Image(DOT), Arrays.Vector([0.0])}
  {
    var vision := Frame(0, DOT).Observed().vision;
    assert vision.Keys == {"head"} && vision["head"] == DOT;
    assert Written.VisionArrays(vision) == {Arrays.Image(DOT)};
  }

  lemma {:induction false} DotLoadable()
    ensures Loading.RecordLoadable(Frame(0, DOT))
  {
    ProductOf(1, 1, 3);
    var r := Frame(0, DOT);
    assert Arrays.ShapeOf(Arrays.Image(DOT)) == [1, 1, 3] && Arrays.ShapeOf(Arrays.Vector([0.0])) == [1];
    assert Arrays.InProfile(Arrays.Image(DOT)) && Arrays.InProfile(Arrays.Vector([0.0]));
    assert Loading.SensorLoadable(r.Sensor(Left)) && Loading.SensorLoadable(r.Sensor(Right));
    assert r.Observed().vision.Keys == {"head"} && r.Observed().vision["head"] == DOT;
    assert "head" in r.Observed().vision && Loading.VisionLoadable(r.Observed().vision);
    assert Loading.ObservationLoadable(r.Observed());
  }

  /** Everything a run of six hundred different executed actions stores, beside one small picture. */
  function CrowdArrays(): set<Arrays.Array> {
    Written.EntryArrays(Presses(600)) + (Written.TraceArrays([Frame(0, DOT)]) + Written.TraceArrays([Frame(0, DOT)]))
  }

  lemma {:induction false} CrowdCount()
    ensures |CrowdArrays()| >= 600
  {
    PressesDiffer(600);
    AtLeast(Written.EntryArrays(Presses(600)), CrowdArrays());
  }

  lemma {:induction false} CrowdFits()
    ensures Written.AllFit(NpyBytes, CrowdArrays())
  {
    forall a <- CrowdArrays() ensures Arrays.Fits(NpyBytes, a) { CrowdArray(a); }
  }

  lemma {:induction false} CrowdLoadable(m: FaultManifest, report: Report)
    ensures Loading.EvidenceLoadable(Presses(600), DotDelivery(m, report))
  {
    DotLoadable();
    forall e <- Presses(600) ensures Loading.EntryLoadable(e) {
      var n :| 0 <= n < 600 && e == Press(n);
      PressFits(n);
    }
  }

  lemma {:induction false} CrowdArray(a: Arrays.Array)
    requires a in Written.EntryArrays(Presses(600)) + Written.TraceArrays([Frame(0, DOT)])
    ensures NpyBytes(a) <= Arrays.MAX_MEMBER_BYTES
  {
    PressesDiffer(600);
    DotTrace();
    WideSizes();
    if n: nat :| n < 600 && a == Arrays.Table(Press(n).actions) { PressFits(n); }
  }

  lemma {:induction false} DotTrace()
    ensures Written.TraceArrays([Frame(0, DOT)]) == {Arrays.Image(DOT), Arrays.Vector([0.0])}
  {
    DotArrays();
    assert Written.TraceArrays([Frame(0, DOT)]) == Written.RecordArrays(Frame(0, DOT));
  }

  lemma {:induction false} AtLeast<T>(some: set<T>, all: set<T>)
    requires some <= all
    ensures |some| <= |all|
  {
    if x :| x in some { AtLeast(some - {x}, all - {x}); }
  }

  lemma {:induction false} CrowdStored(m: FaultManifest, report: Report)
    ensures var (entries, f) := (Presses(600), DotDelivery(m, report));
            && Written.AllFit(NpyBytes, Written.EvidenceArrays(entries, f)) && Loading.EvidenceLoadable(entries, f)
            && |Written.EvidenceArrays(entries, f)| >= 600
  {
    CrowdFits();
    CrowdCount();
    CrowdLoadable(m, report);
    assert Written.EvidenceArrays(Presses(600), DotDelivery(m, report)) == CrowdArrays();
  }

  /** A bundle can be refused for the number of its arrays alone: six hundred distinct actions fit and
      load one by one, and no result makes them a bundle.  Exactly when:
      `BundlePublication.PublishBundle`. */
  lemma {:induction false} CrowdedRunRefused(l: Receipts.Lengths, g: Gauge, t: TrialManifest, spec: RunSpec,
                                             m: FaultManifest, result: TrialResult, report: Report)
    requires ManifestOk(m)
    ensures var (entries, f) := (Presses(600), DotDelivery(m, report));
            && Written.AllFit(NpyBytes, Written.EvidenceArrays(entries, f)) && Loading.EvidenceLoadable(entries, f)
            && !Publication.Publishable(l, g, t, spec, m, Bundles.Execution(result, Some(f), entries))
  {
    CrowdStored(m, report);
    Publication.CrowdedRefused(l, g, t, spec, m, Bundles.Execution(result, Some(DotDelivery(m, report)), Presses(600)));
  }
}
