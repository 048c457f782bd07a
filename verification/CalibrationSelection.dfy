/** Selecting one rest frame from a clean run, and the cross-links of what is frozen from it. */
module CalibrationSelection {
  import opened Basics
  import opened Trials
  import opened Records
  import opened ContactPhases
  import opened ValidationCodes
  import opened Delivery

  datatype ReferenceSplit = DevelopmentSplit | ValidationSplit | CalibrationSplit | SyntheticDevelopmentSplit

  /** The packaged registry's view of one task. */
  datatype TaskConfig = TaskConfig(calibration: Sha<string>, tracker: DepthPhaseTracker, height: nat, width: nat)

  /** A strictly loaded live run. */
  datatype Artifact = Artifact(trial: TrialManifest, carriesFault: bool, carriesRest: bool, root: string,
                               finalization: Option<Finalization>)

  /** What a qualified record identifier is the digest of. */
  datatype RecordKey = RecordKey(root: string, record: Sha<EvaluationRecord>, slot: Slot, sourceIndex: Option<nat>,
                                 payload: Sha<Picture>)

  datatype Receipt = Receipt(root: string, trial: Sha<TrialManifest>, split: ReferenceSplit, splitManifest: string,
                             task: string, episode: EpisodeId, seed: int, tracker: Sha<Thresholds>, minimum: int,
                             start: int, stop: int, selected: int, records: seq<Sha<EvaluationRecord>>,
                             recordIds: PerSlot<Sha<RecordKey>>, calibration: PerSlot<Sha<string>>,
                             payloads: PerSlot<Sha<Picture>>)

  datatype Bundle = Bundle(root: string, selected: int, split: ReferenceSplit, splitManifest: string,
                           validation: Sha<Receipt>, recordIds: PerSlot<Sha<RecordKey>>,
                           calibration: PerSlot<Sha<string>>, payloads: PerSlot<Picture>)

  datatype RootReceipt = RootReceipt(references: Sha<Bundle>, validation: Sha<Receipt>, source: string)

  /** The receipt's own rules. */
  predicate ReceiptOk(r: Receipt) {
    && !r.split.SyntheticDevelopmentSplit? && r.task != "" && 0 <= r.seed && 1 <= r.minimum
    && 0 <= r.start < r.stop && |r.records| == r.stop - r.start >= r.minimum
    && r.start <= r.selected < r.stop
  }

  predicate SameShape(a: Picture, b: Picture) {
    |a| == |b| && |a[0]| == |b[0]|
  }

  // ------------------------------------------------------------------ the FREE run

  predicate IsFree(r: EvaluationRecord) {
    r.Prov(Left).phase.Free? && r.Prov(Right).phase.Free?
  }

  predicate FreeRun(records: Trace, a: int, b: int) {
    0 <= a <= b <= |records| && forall k :: a <= k < b ==> IsFree(records[k])
  }

  /** A longest all-FREE interval, and the earliest of that length. */
  ghost predicate LongestRun(records: Trace, a: int, b: int) {
    && FreeRun(records, a, b)
    && forall c, d :: FreeRun(records, c, d) ==> d - c <= b - a && (c < d && d - c == b - a ==> a <= c)
  }

  datatype Interval = Interval(start: nat, stop: nat)

  /** The loop's best interval and current start after n records. */
  function Scan(records: Trace, n: nat): (Interval, nat)
    requires n <= |records|
  {
    if n == 0 then (Interval(0, 0), 0)
    else
      var (best, current) := Scan(records, n - 1);
      if !IsFree(records[n - 1]) then (best, current)
      else
        var start := if n == 1 || !IsFree(records[n - 2]) then n - 1 else current;
        (if n - start > best.stop - best.start then Interval(start, n) else best, start)
  }

  /** The same for the runs among the first n records. */
  ghost predicate LongestBy(records: Trace, n: nat, a: int, b: int) {
    && FreeRun(records, a, b) && b <= n
    && forall c, d :: FreeRun(records, c, d) && d <= n ==>
         d - c <= b - a && (c < d && d - c == b - a ==> a <= c)
  }

  /** The run that is still open after n records, if the last one is FREE. */
  predicate OpenRun(records: Trace, n: nat, current: int) {
    1 <= n <= |records| && IsFree(records[n - 1]) ==>
      current < n && FreeRun(records, current, n) && (current > 0 ==> !IsFree(records[current - 1]))
  }

  /** No run that ends with the n-th record is longer than the open one. */
  lemma {:induction false} OpenIsLongest(records: Trace, n: nat, current: int, c: int)
    requires 1 <= n && OpenRun(records, n, current) && FreeRun(records, c, n) && c < n
    ensures IsFree(records[n - 1]) && current <= c
  {
    assert IsFree(records[n - 1]);
  }

  lemma {:induction false} ScanFinds(records: Trace, n: nat)
    requires n <= |records|
    ensures var (best, current) := Scan(records, n);
            && LongestBy(records, n, best.start, best.stop) && OpenRun(records, n, current)
            && (n > 0 && IsFree(records[n - 1]) ==> n - current <= best.stop - best.start)
  {
    if n > 0 {
      ScanFinds(records, n - 1);
      var (best, current) := Scan(records, n);
      assert OpenRun(records, n, current);
      forall c, d | FreeRun(records, c, d) && d <= n
        ensures d - c <= best.stop - best.start
        ensures c < d && d - c == best.stop - best.start ==> best.start <= c
      {
        if c < d == n { OpenIsLongest(records, n, current, c); }
      }
    }
  }

  /** What the loop has found at its end. */
  function BestRun(records: Trace): (best: Interval)
    ensures LongestRun(records, best.start, best.stop)
  {
    ScanFinds(records, |records|);
    Scan(records, |records|).0
  }

  method LongestFreeRun(records: Trace) returns (best: Interval)
    ensures best == BestRun(records)
  {
    best := Interval(0, 0);
    var currentStart := 0;
    for position := 0 to |records|
      invariant (best, currentStart) == Scan(records, position)
    {
      if IsFree(records[position]) {
        if position == 0 || !IsFree(records[position - 1]) { currentStart := position; }
        if position + 1 - currentStart > best.stop - best.start { best := Interval(currentStart, position + 1); }
      }
    }
  }

  // ------------------------------------------------------------------ selection

  predicate SlotUsable(r: EvaluationRecord, s: Slot, step: int, calibration: Sha<string>) {
    && r.Sensor(s).payload.Some? && r.Prov(s).payloadHash == Some(Sha(r.Sensor(s).payload.value))
    && r.Prov(s).faults == [] && r.Sensor(s).deliveryIndex == step
    && r.Prov(s).sourceIndex.Some? && r.Prov(s).sourceIndex.value == step && r.Prov(s).calibrationHash == calibration
  }

  /** A record fit for calibration at its position. */
  predicate RecordUsable(r: EvaluationRecord, step: nat, trial: TrialManifest, calibration: Sha<string>) {
    && r.Observed().stepIndex == step && r.Observed().task == trial.task && r.Observed().seed == trial.initialSeed
    && r.cleanHash == r.deliveredHash == Sha(r.content)
    && SlotUsable(r, Left, step, calibration) && SlotUsable(r, Right, step, calibration)
  }

  predicate SourceUsable(a: Artifact, split: ReferenceSplit, config: TaskConfig) {
    && !split.SyntheticDevelopmentSplit? && a.trial.condition.Clean? && !a.carriesFault && !a.carriesRest
    && a.finalization.Some? && a.finalization.value.validation.None?
    && var records := a.finalization.value.clean;
       && records != []
       && (forall r <- records :: r.Observed().episodeId == records[0].Observed().episodeId)
       && (forall i :: 0 <= i < |records| ==> RecordUsable(records[i], i, a.trial, config.calibration))
  }

  function KeyOf(a: Artifact, r: EvaluationRecord, s: Slot): Sha<RecordKey>
    requires r.Sensor(s).payload.Some?
  {
    Sha(RecordKey(a.root, Sha(r), s, r.Prov(s).sourceIndex, Sha(r.Sensor(s).payload.value)))
  }

  function ReceiptOf(a: Artifact, split: ReferenceSplit, config: TaskConfig, minimum: int, run: Interval,
                     selected: EvaluationRecord): Receipt
    requires selected.Sensor(Left).payload.Some? && selected.Sensor(Right).payload.Some?
    requires a.finalization.Some? && run.start < run.stop <= |a.finalization.value.clean|
  {
    var records := a.finalization.value.clean;
    Receipt(a.root, Sha(a.trial), split, a.trial.dataset, a.trial.task, records[0].Observed().episodeId,
            a.trial.initialSeed, Sha(config.tracker), minimum,
            records[run.start].Observed().stepIndex, records[run.stop - 1].Observed().stepIndex + 1,
            selected.Observed().stepIndex,
            seq(run.stop - run.start, i requires 0 <= i < run.stop - run.start => Sha(records[run.start + i])),
            PerSlot(KeyOf(a, selected, Left), KeyOf(a, selected, Right), true),
            PerSlot(selected.Prov(Left).calibrationHash, selected.Prov(Right).calibrationHash, true),
            PerSlot(Sha(selected.Sensor(Left).payload.value), Sha(selected.Sensor(Right).payload.value), true))
  }

  function BundleOf(a: Artifact, selected: EvaluationRecord, r: Receipt): Bundle
    requires selected.Sensor(Left).payload.Some? && selected.Sensor(Right).payload.Some?
  {
    Bundle(a.root, r.selected, r.split, r.splitManifest, Sha(r), r.recordIds, r.calibration,
           PerSlot(selected.Sensor(Left).payload.value, selected.Sensor(Right).payload.value, true))
  }

  /** The middle record of a run. */
  function Median(run: Interval): nat
    requires run.start < run.stop
  {
    run.start + (run.stop - run.start - 1) / 2
  }

  function Freeze(a: Artifact, split: ReferenceSplit, config: TaskConfig, minimum: int, run: Interval)
    : Reply<(Bundle, Receipt)>
    requires SourceUsable(a, split, config) && run.stop <= |a.finalization.value.clean|
  {
    if minimum < 1 || run.stop - run.start < minimum then Raised(OtherError)
    else
      var selected := a.finalization.value.clean[Median(run)];
      assert RecordUsable(selected, Median(run), a.trial, config.calibration);
      var receipt := ReceiptOf(a, split, config, minimum, run, selected);
      var bundle := BundleOf(a, selected, receipt);
      if !ReceiptOk(receipt) || !SameShape(bundle.payloads.left, bundle.payloads.right) then Raised(OtherError)
      else Returned((bundle, receipt))
  }

  /** Selects and freezes one rest frame. */
  method BuildRestReference(a: Artifact, split: ReferenceSplit, config: TaskConfig, minimum: int)
    returns (r: Reply<(Bundle, Receipt)>)
    requires TrialOk(a.trial)
    ensures !SourceUsable(a, split, config) ==> r.Raised?
    ensures SourceUsable(a, split, config) ==>
              r == Freeze(a, split, config, minimum, BestRun(a.finalization.value.clean))
  {
    if !SourceUsable(a, split, config) { return Raised(OtherError); }
    var run := LongestFreeRun(a.finalization.value.clean);
    r := Freeze(a, split, config, minimum, run);
  }

  // ------------------------------------------------------------------ the loader's cross-links

  function RootOf(b: Bundle, r: Receipt): RootReceipt {
    RootReceipt(Sha(b), Sha(r), r.root)
  }

  predicate SlotLinks(b: Bundle, r: Receipt, config: TaskConfig, s: Slot)
    requires 0 <= r.selected - r.start < |r.records|
  {
    && b.recordIds.At(s) == r.recordIds.At(s) && b.calibration.At(s) == r.calibration.At(s)
    && Sha(b.payloads.At(s)) == r.payloads.At(s)
    && |b.payloads.At(s)| == config.height && |b.payloads.At(s)[0]| == config.width
    && r.calibration.At(s) == config.calibration && 0 <= r.selected && r.payloads.At(s).Sha?
    && r.recordIds.At(s) ==
       Sha(RecordKey(r.root, r.records[r.selected - r.start], s, Some(r.selected), r.payloads.At(s)))
  }

  /** Everything the loader recomputes. */
  predicate LinksOk(b: Bundle, r: Receipt, root: RootReceipt, config: TaskConfig)
    requires 0 <= r.selected - r.start < |r.records|
  {
    && Sha(b) == root.references && Sha(r) == root.validation && b.validation == Sha(r)
    && b.root == r.root == root.source && b.split == r.split && b.splitManifest == r.splitManifest
    && Sha(config.tracker) == r.tracker && SlotLinks(b, r, config, Left) && SlotLinks(b, r, config, Right)
  }

  lemma {:induction false} PositionsAreSteps(a: Artifact, split: ReferenceSplit, config: TaskConfig, k: nat)
    requires SourceUsable(a, split, config) && k < |a.finalization.value.clean|
    ensures var r := a.finalization.value.clean[k];
            && RecordUsable(r, k, a.trial, config.calibration) && r.Observed().stepIndex == k
            && r.Sensor(Left).payload.Some? && r.Sensor(Right).payload.Some?
  {
  }

  /** What is frozen from a run of records. */
  ghost predicate FrozenFrom(records: Trace, run: Interval, minimum: int, b: Bundle, r: Receipt)
    requires run.start < run.stop <= |records|
  {
    var selected := records[Median(run)];
    && r.start == run.start && r.stop == run.stop && r.selected == Median(run) == b.selected
    && |r.records| == run.stop - run.start >= minimum
    && (forall i :: 0 <= i < |r.records| ==> r.records[i] == Sha(records[run.start + i]))
    && selected.Sensor(Left).payload == Some(b.payloads.left)
    && selected.Sensor(Right).payload == Some(b.payloads.right)
  }

  lemma {:induction false} FreezeTells(a: Artifact, split: ReferenceSplit, config: TaskConfig, minimum: int,
                                       run: Interval)
    requires TrialOk(a.trial) && SourceUsable(a, split, config)
    requires run.start < run.stop <= |a.finalization.value.clean| && 1 <= minimum <= run.stop - run.start
    ensures var (records, f) := (a.finalization.value.clean, Freeze(a, split, config, minimum, run));
            && (f.Returned? ==> FrozenFrom(records, run, minimum, f.value.0, f.value.1) && ReceiptOk(f.value.1))
            && records[Median(run)].Sensor(Left).payload.Some? && records[Median(run)].Sensor(Right).payload.Some?
            && (f.Returned? <==> SameShape(records[Median(run)].Sensor(Left).payload.value,
                                           records[Median(run)].Sensor(Right).payload.value))
  {
    PositionsAreSteps(a, split, config, Median(run));
    ReceiptTells(a, split, config, minimum, run);
    FreezeIs(a, split, config, minimum, run);
  }

  lemma {:induction false} FreezeIs(a: Artifact, split: ReferenceSplit, config: TaskConfig, minimum: int,
                                    run: Interval)
    requires SourceUsable(a, split, config)
    requires run.start < run.stop <= |a.finalization.value.clean| && 1 <= minimum <= run.stop - run.start
    requires a.finalization.value.clean[Median(run)].Sensor(Left).payload.Some?
    requires a.finalization.value.clean[Median(run)].Sensor(Right).payload.Some?
    ensures var selected := a.finalization.value.clean[Median(run)];
            var r := ReceiptOf(a, split, config, minimum, run, selected);
            var b := BundleOf(a, selected, r);
            Freeze(a, split, config, minimum, run)
            == if !ReceiptOk(r) || !SameShape(b.payloads.left, b.payloads.right) then Raised(OtherError)
               else Returned((b, r))
  {
  }

  lemma {:induction false} ReceiptTells(a: Artifact, split: ReferenceSplit, config: TaskConfig, minimum: int,
                                        run: Interval)
    requires TrialOk(a.trial) && SourceUsable(a, split, config)
    requires run.start < run.stop <= |a.finalization.value.clean| && 1 <= minimum <= run.stop - run.start
    requires a.finalization.value.clean[Median(run)].Sensor(Left).payload.Some?
    requires a.finalization.value.clean[Median(run)].Sensor(Right).payload.Some?
    ensures var selected := a.finalization.value.clean[Median(run)];
            var r := ReceiptOf(a, split, config, minimum, run, selected);
            ReceiptOk(r) && FrozenFrom(a.finalization.value.clean, run, minimum, BundleOf(a, selected, r), r)
  {
    var selected := a.finalization.value.clean[Median(run)];
    var r := ReceiptOf(a, split, config, minimum, run, selected);
    ReceiptSteps(a, split, config, minimum, run);
    ReceiptFields(a, split, config, minimum, run, selected);
    FrozenParts(a.finalization.value.clean, run, minimum, BundleOf(a, selected, r), r);
  }

  lemma {:induction false} ReceiptFields(a: Artifact, split: ReferenceSplit, config: TaskConfig, minimum: int,
                                         run: Interval, selected: EvaluationRecord)
    requires a.finalization.Some? && run.start < run.stop <= |a.finalization.value.clean|
    requires selected.Sensor(Left).payload.Some? && selected.Sensor(Right).payload.Some?
    ensures var (r, records) := (ReceiptOf(a, split, config, minimum, run, selected), a.finalization.value.clean);
            && r.split == split && r.task == a.trial.task && r.seed == a.trial.initialSeed && r.minimum == minimum
            && |r.records| == run.stop - run.start
            && (forall i :: 0 <= i < |r.records| ==> r.records[i] == Sha(records[run.start + i]))
  {
  }

  lemma {:induction false} FrozenParts(records: Trace, run: Interval, minimum: int, b: Bundle, r: Receipt)
    requires run.start < run.stop <= |records| && minimum <= run.stop - run.start
    requires r.start == run.start && r.stop == run.stop && r.selected == Median(run) == b.selected
    requires |r.records| == run.stop - run.start
    requires forall i :: 0 <= i < |r.records| ==> r.records[i] == Sha(records[run.start + i])
    requires records[Median(run)].Sensor(Left).payload == Some(b.payloads.left)
    requires records[Median(run)].Sensor(Right).payload == Some(b.payloads.right)
    ensures FrozenFrom(records, run, minimum, b, r)
  {
  }

  lemma {:induction false} ReceiptSteps(a: Artifact, split: ReferenceSplit, config: TaskConfig, minimum: int,
                                        run: Interval)
    requires SourceUsable(a, split, config) && run.start < run.stop <= |a.finalization.value.clean|
    requires a.finalization.value.clean[Median(run)].Sensor(Left).payload.Some?
    requires a.finalization.value.clean[Median(run)].Sensor(Right).payload.Some?
    ensures var r := ReceiptOf(a, split, config, minimum, run, a.finalization.value.clean[Median(run)]);
            r.start == run.start && r.stop == run.stop && r.selected == Median(run)
  {
    PositionsAreSteps(a, split, config, run.start);
    PositionsAreSteps(a, split, config, run.stop - 1);
    PositionsAreSteps(a, split, config, Median(run));
  }

  /** No fault has touched a slot: its payload was sensed at this very step, by the registered calibration,
      and its provenance holds the payload's own digest. */
  predicate Pristine(r: EvaluationRecord, s: Slot, step: int, calibration: Sha<string>) {
    var (sensor, prov) := (r.content.observation.tactile.At(s), r.content.provenance.At(s));
    && sensor.payload.Some? && prov.payloadHash == Some(Sha(sensor.payload.value))
    && prov.faults == [] && prov.sourceIndex == Some(step) && prov.calibrationHash == calibration
  }

  /** The source is a clean trial's run, under no fault and without rest frames, never judged by a
      validator, and of one episode, task and seed. */
  predicate FromCleanRun(a: Artifact, split: ReferenceSplit) {
    && !split.SyntheticDevelopmentSplit? && a.trial.condition.Clean? && !a.carriesFault && !a.carriesRest
    && a.finalization.Some? && a.finalization.value.validation.None?
    && forall i :: 0 <= i < |a.finalization.value.clean| ==>
         var o := a.finalization.value.clean[i].content.observation;
         && o.stepIndex == i && o.task == a.trial.task && o.seed == a.trial.initialSeed
         && o.episodeId == a.finalization.value.clean[0].content.observation.episodeId
  }

  lemma {:induction false} UsableIsClean(a: Artifact, split: ReferenceSplit, config: TaskConfig)
    requires SourceUsable(a, split, config)
    ensures FromCleanRun(a, split)
  {
  }

  /** The frozen step is the median of an earliest longest FREE run: it lies inside, is FREE
      like every record the receipt lists, and the receipt is coherent; both payloads are that
      frame's own, untouched by any fault. */
  lemma {:induction false} SelectedInside(a: Artifact, split: ReferenceSplit, config: TaskConfig, minimum: int)
    requires TrialOk(a.trial) && SourceUsable(a, split, config)
    requires Freeze(a, split, config, minimum, BestRun(a.finalization.value.clean)).Returned?
    ensures var records := a.finalization.value.clean;
            var (b, r) := Freeze(a, split, config, minimum, BestRun(records)).value;
            && LongestRun(records, r.start, r.stop) && r.stop - r.start >= minimum
            && r.start <= r.selected < r.stop && r.stop - 1 - r.selected - (r.selected - r.start) in {0, 1}
            && ReceiptOk(r) && IsFree(records[r.selected])
            && FrozenFrom(records, BestRun(records), minimum, b, r)
            && FromCleanRun(a, split)
            && forall s: Slot :: Pristine(records[r.selected], s, r.selected, config.calibration)
  {
    var run := BestRun(a.finalization.value.clean);
    FreezeTells(a, split, config, minimum, run);
    PositionsAreSteps(a, split, config, Median(run));
    UsableIsClean(a, split, config);
  }

  /** A usable run is frozen exactly when it has a FREE interval of the requested length and
      the two payloads of its chosen frame share one shape. */
  lemma {:induction false} FreezesExactly(a: Artifact, split: ReferenceSplit, config: TaskConfig, minimum: int)
    requires TrialOk(a.trial) && SourceUsable(a, split, config)
    ensures var records := a.finalization.value.clean;
            var run := BestRun(records);
            Freeze(a, split, config, minimum, run).Returned? <==>
            && minimum >= 1 && (exists c, d :: FreeRun(records, c, d) && d - c >= minimum)
            && run.start < run.stop
            && records[Median(run)].Sensor(Left).payload.Some? && records[Median(run)].Sensor(Right).payload.Some?
            && SameShape(records[Median(run)].Sensor(Left).payload.value,
                         records[Median(run)].Sensor(Right).payload.value)
  {
    var records := a.finalization.value.clean;
    var run := BestRun(records);
    if 1 <= minimum <= run.stop - run.start {
      FreezeTells(a, split, config, minimum, run);
      assert FreeRun(records, run.start, run.stop);
    }
  }

  /** Every built pair passes all the cross-links that the loader recomputes, except the one
      the builder never looks at: it passes exactly when the frozen payloads have the
      registry's shape. */
  lemma {:induction false} BuiltPairLinks(a: Artifact, split: ReferenceSplit, config: TaskConfig, minimum: int)
    requires TrialOk(a.trial) && SourceUsable(a, split, config)
    requires Freeze(a, split, config, minimum, BestRun(a.finalization.value.clean)).Returned?
    ensures var (b, r) := Freeze(a, split, config, minimum, BestRun(a.finalization.value.clean)).value;
            && 0 <= r.selected - r.start < |r.records|
            && (LinksOk(b, r, RootOf(b, r), config) <==>
                  |b.payloads.left| == config.height && |b.payloads.left[0]| == config.width)
  {
    var run := BestRun(a.finalization.value.clean);
    FreezeTells(a, split, config, minimum, run);
    FrozenLinks(a, split, config, minimum, run);
  }

  lemma {:induction false} FrozenLinks(a: Artifact, split: ReferenceSplit, config: TaskConfig, minimum: int,
                                       run: Interval)
    requires SourceUsable(a, split, config) && run.start < run.stop <= |a.finalization.value.clean|
    requires Freeze(a, split, config, minimum, run).Returned?
    requires var (b, r) := Freeze(a, split, config, minimum, run).value;
             FrozenFrom(a.finalization.value.clean, run, minimum, b, r)
    ensures var (b, r) := Freeze(a, split, config, minimum, run).value;
            LinksOk(b, r, RootOf(b, r), config) <==>
            |b.payloads.left| == config.height && |b.payloads.left[0]| == config.width
  {
    var selected := a.finalization.value.clean[Median(run)];
    PositionsAreSteps(a, split, config, Median(run));
    FreezeIs(a, split, config, minimum, run);
    var (b, r) := Freeze(a, split, config, minimum, run).value;
    RecordAt(a.finalization.value.clean, run, minimum, b, r);
    SlotLinksExactly(a, config, selected, b, r, Left);
    SlotLinksExactly(a, config, selected, b, r, Right);
  }

  lemma {:induction false} RecordAt(records: Trace, run: Interval, minimum: int, b: Bundle, r: Receipt)
    requires run.start < run.stop <= |records| && FrozenFrom(records, run, minimum, b, r)
    ensures 0 <= r.selected - r.start < |r.records| && r.records[r.selected - r.start] == Sha(records[Median(run)])
  {
  }

  /** The links of one slot hold exactly when its payload has the registry's shape. */
  lemma {:induction false} SlotLinksExactly(a: Artifact, config: TaskConfig, selected: EvaluationRecord, b: Bundle,
                                            r: Receipt, s: Slot)
    requires selected.Sensor(Left).payload.Some? && selected.Sensor(Right).payload.Some?
    requires 0 <= r.selected && SlotUsable(selected, s, r.selected, config.calibration)
    requires 0 <= r.selected - r.start < |r.records| && r.records[r.selected - r.start] == Sha(selected)
    requires b == BundleOf(a, selected, r) && r.root == a.root
    requires r.recordIds == PerSlot(KeyOf(a, selected, Left), KeyOf(a, selected, Right), true)
    requires r.calibration == PerSlot(selected.Prov(Left).calibrationHash, selected.Prov(Right).calibrationHash, true)
    requires r.payloads
             == PerSlot(Sha(selected.Sensor(Left).payload.value), Sha(selected.Sensor(Right).payload.value), true)
    ensures SlotLinks(b, r, config, s) <==>
            |b.payloads.At(s)| == config.height && |b.payloads.At(s)[0]| == config.width
  {
  }
}
