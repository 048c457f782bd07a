/** Loading serialized traces back: the typed loader, and exactly what round-trips. */
module ArtifactLoading {
  import opened Basics
  import opened Records
  import opened ValidationCodes
  import opened Delivery
  import opened Results
  import opened ArtifactArrays
  import opened ArtifactRecords

  // ------------------------------------------------------------------ the loader, as functions

  function LoadImage(size: Sizes, files: Files, d: Descriptor): Reply<Picture> {
    var a :- LoadFrom(size, files, d);
    if a.Image? then Returned(a.pixels) else Raised(OtherError)
  }

  function LoadVector(size: Sizes, files: Files, d: Descriptor): Reply<seq<real>> {
    var a :- LoadFrom(size, files, d);
    if a.Vector? then Returned(a.values) else Raised(OtherError)
  }

  function LoadSensor(size: Sizes, files: Files, d: SensorDoc): Reply<Sensor> {
    if d.frameId == "" || d.calibrationId == "" || d.present != d.payload.Some? then Raised(OtherError)
    else if d.payload.None?
    then Returned(Sensor(None, d.validity, d.deliveryIndex, d.deliveryTime, d.visibleSourceTime, d.frameId,
                         d.calibrationId))
    else
      var p :- LoadImage(size, files, d.payload.value);
      Returned(Sensor(Some(p), d.validity, d.deliveryIndex, d.deliveryTime, d.visibleSourceTime, d.frameId,
                      d.calibrationId))
  }

  predicate VisionLoads(size: Sizes, files: Files, docs: map<string, Descriptor>) {
    docs != map[] && forall name <- docs :: name != "" && LoadImage(size, files, docs[name]).Returned?
  }

  function LoadVision(size: Sizes, files: Files, docs: map<string, Descriptor>): Reply<map<string, Picture>> {
    if !VisionLoads(size, files, docs) then Raised(OtherError)
    else Returned(map name <- docs :: LoadImage(size, files, docs[name]).value)
  }

  function LoadObservation(size: Sizes, files: Files, d: RecordDoc): Reply<Observation> {
    if d.episodeId == Foreign("") || d.task == "" || d.seed < 0 || d.stepIndex < 0 then Raised(OtherError)
    else
      var left :- LoadSensor(size, files, d.tactile.left);
      var right :- LoadSensor(size, files, d.tactile.right);
      var vision :- LoadVision(size, files, d.vision);
      var proprio :- LoadVector(size, files, d.proprio);
      Returned(Observation(d.episodeId, d.task, d.seed, d.stepIndex, PerSlot(left, right, d.tactile.leftFirst),
                           vision, proprio))
  }

  function LoadRecord(size: Sizes, files: Files, d: RecordDoc): Reply<EvaluationRecord> {
    var o :- LoadObservation(size, files, d);
    if d.provenance.left.physicalSource == "" || d.provenance.right.physicalSource == "" then Raised(OtherError)
    else
      var r :- BuildRecord(Content(o, d.provenance), Some(d.cleanHash));
      if r.deliveredHash != d.deliveredHash then Raised(OtherError) else Returned(r)
  }

  function LoadTrace(size: Sizes, files: Files, docs: seq<RecordDoc>): Reply<Trace> {
    if docs == [] then Returned([])
    else
      var before :- LoadTrace(size, files, docs[..|docs| - 1]);
      var last :- LoadRecord(size, files, docs[|docs| - 1]);
      Returned(before + [last])
  }

  /** The constructor's rules for an action entry. */
  predicate EntryOk(rows: seq<Action>, sourceStep: int) {
    0 <= sourceStep && 1 <= |rows| && forall row <- rows :: |row| == 8
  }

  function LoadEntry(size: Sizes, files: Files, d: EntryDoc): Reply<ActionEntry> {
    var a :- LoadFrom(size, files, d.actions);
    if !a.Table? || !EntryOk(a.rows, d.sourceStep) then Raised(OtherError)
    else Returned(ActionEntry(d.plan, d.sourceStep, a.rows))
  }

  function LoadEntries(size: Sizes, files: Files, docs: seq<EntryDoc>): Reply<seq<ActionEntry>> {
    if docs == [] then Returned([])
    else
      var before :- LoadEntries(size, files, docs[..|docs| - 1]);
      var last :- LoadEntry(size, files, docs[|docs| - 1]);
      Returned(before + [last])
  }

  function LoadDelivery(size: Sizes, files: Files, d: DeliveryDoc, report: Report): Reply<Finalization> {
    if d.manifest.None? then Raised(OtherError)
    else
      var clean :- LoadTrace(size, files, d.clean);
      var delivered :- LoadTrace(size, files, d.delivered);
      var f := Finalization(clean, delivered, Some(report), d.cleanTrace, d.deliveredTrace, d.manifest);
      if FinalizationOk(f) then Returned(f) else Raised(OtherError)
  }

  datatype Evidence = Evidence(entries: seq<ActionEntry>, finalization: Finalization)

  function LoadEvidence(size: Sizes, b: Bundle, report: Report): Reply<Evidence> {
    var entries :- LoadEntries(size, b.files, b.actions);
    var f :- LoadDelivery(size, b.files, b.delivery, report);
    Returned(Evidence(entries, f))
  }

  // ------------------------------------------------------------------ the paths it looks up

  function SensorPaths(d: SensorDoc): set<ArrayPath> {
    if d.payload.None? then {} else {d.payload.value.path}
  }

  function NamedPaths(docs: map<string, Descriptor>, names: set<string>): set<ArrayPath>
    requires names <= docs.Keys
  {
    set name <- names :: docs[name].path
  }

  function VisionPaths(docs: map<string, Descriptor>): set<ArrayPath> {
    NamedPaths(docs, docs.Keys)
  }

  function RecordPaths(d: RecordDoc): set<ArrayPath> {
    SensorPaths(d.tactile.left) + SensorPaths(d.tactile.right) + VisionPaths(d.vision) + {d.proprio.path}
  }

  function TracePaths(docs: seq<RecordDoc>): set<ArrayPath> {
    if docs == [] then {} else TracePaths(docs[..|docs| - 1]) + RecordPaths(docs[|docs| - 1])
  }

  function EntryPaths(docs: seq<EntryDoc>): set<ArrayPath> {
    if docs == [] then {} else EntryPaths(docs[..|docs| - 1]) + {docs[|docs| - 1].actions.path}
  }

  function BundlePaths(b: Bundle): set<ArrayPath> {
    EntryPaths(b.actions) + TracePaths(b.delivery.clean) + TracePaths(b.delivery.delivered)
  }

  // ------------------------------------------------------------------ what loads

  predicate SensorLoadable(s: Sensor) {
    s.frameId != "" && s.calibrationId != "" && (s.payload.Some? ==> InProfile(Image(s.payload.value)))
  }

  predicate VisionLoadable(vision: map<string, Picture>) {
    vision != map[] && forall name <- vision :: name != "" && InProfile(Image(vision[name]))
  }

  predicate RecordLoadable(r: EvaluationRecord) {
    && ObservationLoadable(r.Observed())
    && r.Prov(Left).physicalSource != "" && r.Prov(Right).physicalSource != ""
    && Causal(r.content) && r.deliveredHash == Sha(r.content)
  }

  predicate EntryLoadable(e: ActionEntry) {
    EntryOk(e.actions, e.sourceStep) && InProfile(Table(e.actions))
  }

  /** Every array that is written can be looked up, and loads if it is in profile. */
  ghost predicate Holding(size: Sizes, files: Files, arrays: set<Array>) {
    Addressed(files) && forall a <- arrays :: PathOf(a) in files && Fits(size, a) && size(a) > 0
  }

  lemma {:induction false} ImageBack(size: Sizes, files: Files, p: Picture)
    requires Holding(size, files, {Image(p)})
    ensures LoadImage(size, files, Describe(Image(p)))
            == if InProfile(Image(p)) then Returned(p) else Raised(OtherError)
  {
    assert Image(p) in {Image(p)};
    StoredLoads(size, files, Image(p));
  }

  lemma {:induction false} SensorBack(size: Sizes, files: Files, s: Sensor)
    requires Holding(size, files, SensorArrays(s))
    ensures LoadSensor(size, files, SensorDocOf(s)) == if SensorLoadable(s) then Returned(s) else Raised(OtherError)
  {
    if s.payload.Some? { ImageBack(size, files, s.payload.value); }
  }

  lemma {:induction false} NamedImageBack(size: Sizes, files: Files, vision: map<string, Picture>, name: string)
    requires Holding(size, files, VisionArrays(vision)) && name in vision
    ensures LoadImage(size, files, Describe(Image(vision[name])))
            == if InProfile(Image(vision[name])) then Returned(vision[name]) else Raised(OtherError)
  {
    assert Image(vision[name]) in VisionArrays(vision);
    ImageBack(size, files, vision[name]);
  }

  lemma {:induction false} VisionBack(size: Sizes, files: Files, vision: map<string, Picture>)
    requires Holding(size, files, VisionArrays(vision))
    ensures LoadVision(size, files, VisionDocOf(vision))
            == if VisionLoadable(vision) then Returned(vision) else Raised(OtherError)
  {
    VisionLoadsExactly(size, files, vision);
    if VisionLoadable(vision) { VisionSame(size, files, vision, VisionDocOf(vision)); }
  }

  lemma {:induction false} VisionSame(size: Sizes, files: Files, vision: map<string, Picture>,
                                      docs: map<string, Descriptor>)
    requires Holding(size, files, VisionArrays(vision)) && docs == VisionDocOf(vision) && VisionLoadable(vision)
    requires VisionLoads(size, files, docs)
    ensures LoadVision(size, files, docs) == Returned(vision)
  {
    forall name <- vision ensures LoadImage(size, files, docs[name]) == Returned(vision[name]) {
      NamedImageBack(size, files, vision, name);
    }
    LoadsTo(size, files, docs, vision);
  }

  lemma {:induction false} LoadsTo(size: Sizes, files: Files, docs: map<string, Descriptor>,
                                   vision: map<string, Picture>)
    requires docs.Keys == vision.Keys && VisionLoads(size, files, docs)
    requires forall name <- vision :: LoadImage(size, files, docs[name]) == Returned(vision[name])
    ensures LoadVision(size, files, docs) == Returned(vision)
  {
    assert (map name <- docs :: LoadImage(size, files, docs[name]).value) == vision;
  }

  lemma {:induction false} VisionLoadsExactly(size: Sizes, files: Files, vision: map<string, Picture>)
    requires Holding(size, files, VisionArrays(vision))
    ensures VisionLoads(size, files, VisionDocOf(vision)) <==> VisionLoadable(vision)
  {
    var docs := VisionDocOf(vision);
    assert docs.Keys == vision.Keys;
    if vision != map[] {
      var name :| name in vision;
      assert name in docs;
    }
    forall name <- vision
      ensures LoadImage(size, files, docs[name]).Returned? <==> InProfile(Image(vision[name]))
    {
      NamedImageBack(size, files, vision, name);
    }
  }

  lemma {:induction false} VectorBack(size: Sizes, files: Files, v: seq<real>)
    requires Holding(size, files, {Vector(v)})
    ensures LoadVector(size, files, Describe(Vector(v)))
            == if InProfile(Vector(v)) then Returned(v) else Raised(OtherError)
  {
    assert Vector(v) in {Vector(v)};
    StoredLoads(size, files, Vector(v));
  }

  /** One record comes back exactly, or is refused exactly for what only the loader checks. */
  lemma {:induction false} RecordBack(size: Sizes, files: Files, r: EvaluationRecord)
    requires Holding(size, files, RecordArrays(r))
    ensures LoadRecord(size, files, RecordDocOf(r)) == if RecordLoadable(r) then Returned(r) else Raised(OtherError)
  {
    ObservationBack(size, files, r);
  }

  predicate ObservationLoadable(o: Observation) {
    && o.episodeId != Foreign("") && o.task != "" && 0 <= o.seed && 0 <= o.stepIndex
    && SensorLoadable(o.tactile.left) && SensorLoadable(o.tactile.right) && VisionLoadable(o.vision)
    && InProfile(Vector(o.proprio))
  }

  lemma {:induction false} ObservationBack(size: Sizes, files: Files, r: EvaluationRecord)
    requires Holding(size, files, RecordArrays(r))
    ensures LoadObservation(size, files, RecordDocOf(r))
            == if ObservationLoadable(r.Observed()) then Returned(r.Observed()) else Raised(OtherError)
  {
    var o := r.Observed();
    assert SensorArrays(o.tactile.left) <= RecordArrays(r) && SensorArrays(o.tactile.right) <= RecordArrays(r);
    SensorBack(size, files, o.tactile.left);
    SensorBack(size, files, o.tactile.right);
    VisionBack(size, files, o.vision);
    VectorBack(size, files, o.proprio);
  }

  predicate AllLoadable(trace: Trace) {
    forall r <- trace :: RecordLoadable(r)
  }

  lemma {:induction false} TraceBack(size: Sizes, files: Files, trace: Trace)
    requires Holding(size, files, TraceArrays(trace))
    ensures LoadTrace(size, files, TraceDocOf(trace))
            == if AllLoadable(trace) then Returned(trace) else Raised(OtherError)
  {
    if trace != [] {
      var front, last := trace[..|trace| - 1], trace[|trace| - 1];
      TraceSplits(size, files, trace, front, last);
      TraceBack(size, files, front);
      RecordBack(size, files, last);
      LoadTraceLast(size, files, TraceDocOf(trace), TraceDocOf(front), RecordDocOf(last));
    }
  }

  lemma {:induction false} TraceSplits(size: Sizes, files: Files, trace: Trace, front: Trace,
                                       last: EvaluationRecord)
    requires trace != [] && front == trace[..|trace| - 1] && last == trace[|trace| - 1]
    requires Holding(size, files, TraceArrays(trace))
    ensures trace == front + [last] && TraceDocOf(trace) == TraceDocOf(front) + [RecordDocOf(last)]
    ensures Holding(size, files, TraceArrays(front)) && Holding(size, files, RecordArrays(last))
    ensures AllLoadable(trace) <==> AllLoadable(front) && RecordLoadable(last)
  {
    assert trace == front + [last];
    TraceDocsSplit(trace);
    forall r ensures r in trace <==> r in front || r == last {
    }
  }

  lemma {:induction false} TraceDocsSplit(trace: Trace)
    requires trace != []
    ensures TraceDocOf(trace) == TraceDocOf(trace[..|trace| - 1]) + [RecordDocOf(trace[|trace| - 1])]
  {
  }

  lemma {:induction false} LoadTraceLast(size: Sizes, files: Files, docs: seq<RecordDoc>, front: seq<RecordDoc>,
                                         last: RecordDoc)
    requires docs == front + [last]
    ensures var (before, r) := (LoadTrace(size, files, front), LoadRecord(size, files, last));
            LoadTrace(size, files, docs)
            == if before.Raised? then before
               else if r.Raised? then Raised(r.error)
               else Returned(before.value + [r.value])
  {
    assert docs[..|docs| - 1] == front;
  }

  lemma {:induction false} EntryBack(size: Sizes, files: Files, e: ActionEntry)
    requires Holding(size, files, {Table(e.actions)})
    ensures LoadEntry(size, files, EntryDocOf(e)) == if EntryLoadable(e) then Returned(e) else Raised(OtherError)
  {
    assert Table(e.actions) in {Table(e.actions)};
    StoredLoads(size, files, Table(e.actions));
  }

  lemma {:induction false} EntriesBack(size: Sizes, files: Files, entries: seq<ActionEntry>)
    requires Holding(size, files, EntryArrays(entries))
    ensures LoadEntries(size, files, EntryDocsOf(entries))
            == if forall e <- entries :: EntryLoadable(e) then Returned(entries) else Raised(OtherError)
  {
    if entries != [] {
      var front, last := entries[..|entries| - 1], entries[|entries| - 1];
      EntriesBack(size, files, front);
      EntryBack(size, files, last);
      assert EntryDocsOf(entries)[..|entries| - 1] == EntryDocsOf(front);
      assert entries == front + [last];
    }
  }

  /** The bundle that the writer produces for some evidence. */
  function Written(entries: seq<ActionEntry>, f: Finalization): Bundle {
    Bundle(EntryDocsOf(entries), DeliveryDocOf(f), FilesOf(EvidenceArrays(entries, f)))
  }

  /** Everything is within what only the loader checks. */
  predicate EvidenceLoadable(entries: seq<ActionEntry>, f: Finalization) {
    (forall e <- entries :: EntryLoadable(e)) && AllLoadable(f.clean) && AllLoadable(f.delivered)
  }

  /** Round trip, for any number of records sharing any arrays: what the writer produced loads
      back as the very same evidence, exactly when every record and entry is within what only
      the loader checks; otherwise it is refused. */
  lemma {:induction false} EvidenceRoundTrip(size: Sizes, entries: seq<ActionEntry>, f: Finalization,
                                             report: Report)
    requires AllFit(size, EvidenceArrays(entries, f)) && forall a <- EvidenceArrays(entries, f) :: size(a) > 0
    requires f.validation == Some(report) && FinalizationOk(f)
    ensures LoadEvidence(size, Written(entries, f), report) ==
            if EvidenceLoadable(entries, f) then Returned(Evidence(entries, f)) else Raised(OtherError)
  {
    var arrays := EvidenceArrays(entries, f);
    var files := FilesOf(arrays);
    WrittenHolds(size, arrays, EntryArrays(entries));
    WrittenHolds(size, arrays, TraceArrays(f.clean));
    WrittenHolds(size, arrays, TraceArrays(f.delivered));
    EntriesBack(size, files, entries);
    TraceBack(size, files, f.clean);
    TraceBack(size, files, f.delivered);
  }

  lemma {:induction false} WrittenHolds(size: Sizes, arrays: set<Array>, some: set<Array>)
    requires some <= arrays && AllFit(size, arrays) && forall a <- arrays :: size(a) > 0
    ensures Holding(size, FilesOf(arrays), some)
  {
    forall a <- some ensures PathOf(a) in FilesOf(arrays) && Fits(size, a) && size(a) > 0 {
      assert a in arrays;
    }
  }

  // ------------------------------------------------------------------ inventory

  function AddressesOf(arrays: set<Array>): set<ArrayPath> {
    set a <- arrays :: PathOf(a)
  }

  lemma {:induction false} VisionReferences(vision: map<string, Picture>)
    ensures VisionPaths(VisionDocOf(vision)) == AddressesOf(VisionArrays(vision))
  {
    var docs := VisionDocOf(vision);
    forall p ensures p in VisionPaths(docs) <==> p in AddressesOf(VisionArrays(vision)) {
      if p in AddressesOf(VisionArrays(vision)) {
        var a :| a in VisionArrays(vision) && p == PathOf(a);
        var name :| name in vision && a == Image(vision[name]);
        assert docs[name].path == p;
      }
      if p in VisionPaths(docs) {
        var name :| name in docs && p == docs[name].path;
        assert Image(vision[name]) in VisionArrays(vision);
      }
    }
  }

  lemma {:induction false} RecordReferences(r: EvaluationRecord)
    ensures RecordPaths(RecordDocOf(r)) == AddressesOf(RecordArrays(r))
  {
    var o, d := r.Observed(), RecordDocOf(r);
    VisionReferences(o.vision);
    AddressesUnion(SensorArrays(o.tactile.left), SensorArrays(o.tactile.right));
    AddressesUnion(SensorArrays(o.tactile.left) + SensorArrays(o.tactile.right), VisionArrays(o.vision));
    AddressesUnion(SensorArrays(o.tactile.left) + SensorArrays(o.tactile.right) + VisionArrays(o.vision),
                   {Vector(o.proprio)});
    assert AddressesOf({Vector(o.proprio)}) == {d.proprio.path};
    SensorReferences(o.tactile.left);
    SensorReferences(o.tactile.right);
  }

  lemma {:induction false} SensorReferences(s: Sensor)
    ensures SensorPaths(SensorDocOf(s)) == AddressesOf(SensorArrays(s))
  {
    if s.payload.Some? { assert AddressesOf({Image(s.payload.value)}) == {PathOf(Image(s.payload.value))}; }
  }

  lemma {:induction false} AddressesUnion(a: set<Array>, b: set<Array>)
    ensures AddressesOf(a + b) == AddressesOf(a) + AddressesOf(b)
  {
  }

  lemma {:induction false} TraceReferences(trace: Trace)
    ensures TracePaths(TraceDocOf(trace)) == AddressesOf(TraceArrays(trace))
  {
    if trace != [] {
      var front, last := trace[..|trace| - 1], trace[|trace| - 1];
      TraceReferences(front);
      RecordReferences(last);
      AddressesUnion(TraceArrays(front), RecordArrays(last));
      TraceDocsSplit(trace);
      assert TraceDocOf(trace)[..|trace| - 1] == TraceDocOf(front);
    }
  }

  lemma {:induction false} EntryReferences(entries: seq<ActionEntry>)
    ensures EntryPaths(EntryDocsOf(entries)) == AddressesOf(EntryArrays(entries))
  {
    if entries != [] {
      var front, last := entries[..|entries| - 1], entries[|entries| - 1];
      EntryReferences(front);
      AddressesUnion(EntryArrays(front), {Table(last.actions)});
      assert AddressesOf({Table(last.actions)}) == {PathOf(Table(last.actions))};
      assert EntryDocsOf(entries)[..|entries| - 1] == EntryDocsOf(front);
    }
  }

  lemma {:induction false} FileAddresses(arrays: set<Array>)
    ensures FilesOf(arrays).Keys == AddressesOf(arrays)
  {
  }

  /** The paths that the documents refer to are exactly the paths of the store: the inventory
      check never refuses what the writer produced. */
  lemma {:induction false} InventoryBijective(entries: seq<ActionEntry>, f: Finalization)
    ensures BundlePaths(Written(entries, f)) == Written(entries, f).files.Keys
  {
    EntryReferences(entries);
    TraceReferences(f.clean);
    TraceReferences(f.delivered);
    var a, b, c := EntryArrays(entries), TraceArrays(f.clean), TraceArrays(f.delivered);
    assert BundlePaths(Written(entries, f)) == AddressesOf(a) + AddressesOf(b) + AddressesOf(c);
    ThreeUnions(a, b, c);
    FileAddresses(a + (b + c));
  }

  lemma {:induction false} ThreeUnions(a: set<Array>, b: set<Array>, c: set<Array>)
    ensures AddressesOf(a + (b + c)) == AddressesOf(a) + AddressesOf(b) + AddressesOf(c)
  {
    AddressesUnion(b, c);
    AddressesUnion(a, b + c);
  }

  /** The writer's cap is on bytes, the loader's also on elements: a record whose picture is
      larger than the element cap, but whose encoding fits, is serialized and does not load. */
  lemma {:induction false} OversizedPictureLost(size: Sizes, entries: seq<ActionEntry>, f: Finalization,
                                                report: Report, r: EvaluationRecord)
    requires AllFit(size, EvidenceArrays(entries, f)) && forall a <- EvidenceArrays(entries, f) :: size(a) > 0
    requires f.validation == Some(report) && FinalizationOk(f) && r in f.clean
    requires r.Sensor(Left).payload.Some?
    requires Product(ShapeOf(Image(r.Sensor(Left).payload.value))) > MAX_ARRAY_ELEMENTS
    ensures LoadEvidence(size, Written(entries, f), report).Raised?
  {
    EvidenceRoundTrip(size, entries, f, report);
    assert !RecordLoadable(r);
  }
}
