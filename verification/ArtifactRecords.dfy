/** Serialized action and delivery traces over a shared array store, and their loader. */
module ArtifactRecords {
  import opened Basics
  import opened Manifests
  import opened Records
  import opened ValidationCodes
  import opened Delivery
  import opened Results
  import opened ArtifactArrays

  // ------------------------------------------------------------------ documents

  datatype SensorDoc = SensorDoc(payload: Option<Descriptor>, present: bool, validity: Option<bool>,
                                 deliveryIndex: nat, deliveryTime: real, visibleSourceTime: Option<real>,
                                 frameId: string, calibrationId: string)

  datatype RecordDoc = RecordDoc(episodeId: EpisodeId, task: string, seed: int, stepIndex: int,
                                 tactile: PerSlot<SensorDoc>, vision: map<string, Descriptor>, proprio: Descriptor,
                                 provenance: PerSlot<Provenance>, cleanHash: Sha<Content>,
                                 deliveredHash: Sha<Content>)

  datatype EntryDoc = EntryDoc(plan: Sha<ActionPlan>, sourceStep: int, actions: Descriptor)

  datatype DeliveryDoc = DeliveryDoc(clean: seq<RecordDoc>, delivered: seq<RecordDoc>,
                                     cleanTrace: Sha<TraceContent>, deliveredTrace: Sha<TraceContent>,
                                     manifest: Option<Sha<FaultManifest>>)

  // ------------------------------------------------------------------ what is written

  function SensorArrays(s: Sensor): set<Array> {
    if s.payload.None? then {} else {Image(s.payload.value)}
  }

  function NamedArrays(vision: map<string, Picture>, names: set<string>): set<Array>
    requires names <= vision.Keys
  {
    set name <- names :: Image(vision[name])
  }

  function VisionArrays(vision: map<string, Picture>): set<Array> {
    NamedArrays(vision, vision.Keys)
  }

  function RecordArrays(r: EvaluationRecord): set<Array> {
    SensorArrays(r.Sensor(Left)) + SensorArrays(r.Sensor(Right)) + VisionArrays(r.Observed().vision)
    + {Vector(r.Observed().proprio)}
  }

  function TraceArrays(trace: Trace): set<Array> {
    if trace == [] then {} else TraceArrays(trace[..|trace| - 1]) + RecordArrays(trace[|trace| - 1])
  }

  function EntryArrays(entries: seq<ActionEntry>): set<Array> {
    if entries == [] then {} else EntryArrays(entries[..|entries| - 1]) + {Table(entries[|entries| - 1].actions)}
  }

  function SensorDocOf(s: Sensor): SensorDoc {
    SensorDoc(if s.payload.None? then None else Some(Describe(Image(s.payload.value))), s.payload.Some?, s.validity,
              s.deliveryIndex, s.deliveryTime, s.visibleSourceTime, s.frameId, s.calibrationId)
  }

  function VisionDocOf(vision: map<string, Picture>): map<string, Descriptor> {
    map name <- vision :: Describe(Image(vision[name]))
  }

  function RecordDocOf(r: EvaluationRecord): RecordDoc {
    var o := r.Observed();
    RecordDoc(o.episodeId, o.task, o.seed, o.stepIndex,
              PerSlot(SensorDocOf(o.tactile.left), SensorDocOf(o.tactile.right), o.tactile.leftFirst),
              VisionDocOf(o.vision), Describe(Vector(o.proprio)), r.content.provenance, r.cleanHash,
              r.deliveredHash)
  }

  function TraceDocOf(trace: Trace): seq<RecordDoc> {
    seq(|trace|, i requires 0 <= i < |trace| => RecordDocOf(trace[i]))
  }

  function EntryDocOf(e: ActionEntry): EntryDoc {
    EntryDoc(e.plan, e.sourceStep, Describe(Table(e.actions)))
  }

  function EntryDocsOf(entries: seq<ActionEntry>): seq<EntryDoc> {
    seq(|entries|, i requires 0 <= i < |entries| => EntryDocOf(entries[i]))
  }

  function DeliveryDocOf(f: Finalization): DeliveryDoc {
    DeliveryDoc(TraceDocOf(f.clean), TraceDocOf(f.delivered), f.cleanTrace, f.deliveredTrace, f.manifest)
  }

  // ------------------------------------------------------------------ the writer

  /** Every array fits the size cap. */
  ghost predicate AllFit(size: Sizes, arrays: set<Array>) {
    forall a <- arrays :: Fits(size, a)
  }

  /** Success writes exactly the files of some arrays; failure means one of them does not fit. */
  twostate predicate Stored(store: ArrayFileStore, arrays: set<Array>, ok: bool)
    reads store
  {
    && Addressed(store.files) && (ok <==> AllFit(store.size, arrays))
    && (ok ==> store.files == old(store.files) + FilesOf(arrays))
  }

  method WriteSensor(s: Sensor, store: ArrayFileStore) returns (r: Reply<SensorDoc>)
    requires Addressed(store.files)
    modifies store
    ensures Stored(store, SensorArrays(s), r.Returned?)
    ensures r.Returned? ==> r.value == SensorDocOf(s)
  {
    var payload: Option<Descriptor> := None;
    if s.payload.Some? {
      var d := store.Add(Image(s.payload.value));
      if d.Raised? { return Raised(d.error); }
      payload := Some(d.value);
    }
    return Returned(SensorDoc(payload, s.payload.Some?, s.validity, s.deliveryIndex, s.deliveryTime,
                              s.visibleSourceTime, s.frameId, s.calibrationId));
  }

  method WriteVision(vision: map<string, Picture>, store: ArrayFileStore) returns (r: Reply<map<string, Descriptor>>)
    requires Addressed(store.files)
    modifies store
    ensures Stored(store, VisionArrays(vision), r.Returned?)
    ensures r.Returned? ==> r.value == VisionDocOf(vision)
  {
    ghost var base := store.files;
    r := WritePictures(vision, store, base);
  }

  /** Adds the pictures one by one, in whatever order the mapping yields them. */
  method WritePictures(vision: map<string, Picture>, store: ArrayFileStore, ghost base: Files)
    returns (r: Reply<map<string, Descriptor>>)
    requires Holds(store.size, store.files, base, {})
    modifies store
    ensures Addressed(store.files) && (r.Returned? <==> AllFit(store.size, VisionArrays(vision)))
    ensures r.Returned? ==> r.value == VisionDocOf(vision)
    ensures r.Returned? ==> Holds(store.size, store.files, base, VisionArrays(vision))
  {
    var docs: map<string, Descriptor> := map[];
    var remaining := vision.Keys;
    NamedNone(vision);
    while remaining != {}
      invariant Partly(vision, remaining, docs)
      invariant Holds(store.size, store.files, base, NamedArrays(vision, vision.Keys - remaining))
      decreases |remaining|
    {
      var name :| name in remaining;
      var d := AddOnto(Image(vision[name]), store, base, NamedArrays(vision, vision.Keys - remaining));
      if d.Raised? {
        NamedFit(store.size, vision, name);
        return Raised(d.error);
      }
      NamedNext(vision, remaining, docs, name);
      docs := docs[name := d.value];
      remaining := remaining - {name};
    }
    NamedAll(vision, docs);
    return Returned(docs);
  }

  lemma {:induction false} NamedNone(vision: map<string, Picture>)
    ensures vision.Keys - vision.Keys == {} && NamedArrays(vision, vision.Keys - vision.Keys) == {}
  {
  }

  lemma {:induction false} NamedAll(vision: map<string, Picture>, docs: map<string, Descriptor>)
    requires Partly(vision, {}, docs)
    ensures docs == VisionDocOf(vision) && vision.Keys - {} == vision.Keys
  {
  }

  /** The pictures not remaining are described. */
  predicate Partly(vision: map<string, Picture>, remaining: set<string>, docs: map<string, Descriptor>) {
    && remaining <= vision.Keys && docs.Keys == vision.Keys - remaining
    && forall name <- docs :: docs[name] == Describe(Image(vision[name]))
  }

  /** The store holds its first files and those of some arrays that all fit. */
  ghost predicate Holds(size: Sizes, files: Files, base: Files, arrays: set<Array>) {
    Addressed(base) && Addressed(files) && files == base + FilesOf(arrays) && AllFit(size, arrays)
  }

  method AddOnto(a: Array, store: ArrayFileStore, ghost base: Files, ghost arrays: set<Array>)
    returns (r: Reply<Descriptor>)
    requires Holds(store.size, store.files, base, arrays)
    modifies store
    ensures Addressed(store.files) && (r.Returned? <==> Fits(store.size, a))
    ensures r.Returned? ==> r.value == Describe(a) && Holds(store.size, store.files, base, arrays + {a})
  {
    FilesUnion(base, arrays, {a});
    r := store.Add(a);
  }

  lemma {:induction false} NamedNext(vision: map<string, Picture>, remaining: set<string>,
                                     docs: map<string, Descriptor>, name: string)
    requires Partly(vision, remaining, docs) && name in remaining
    ensures Partly(vision, remaining - {name}, docs[name := Describe(Image(vision[name]))])
    ensures NamedArrays(vision, vision.Keys - (remaining - {name}))
            == NamedArrays(vision, vision.Keys - remaining) + {Image(vision[name])}
  {
    assert vision.Keys - (remaining - {name}) == (vision.Keys - remaining) + {name};
  }

  lemma {:induction false} NamedFit(size: Sizes, vision: map<string, Picture>, name: string)
    requires name in vision && !Fits(size, Image(vision[name]))
    ensures !AllFit(size, VisionArrays(vision))
  {
    assert Image(vision[name]) in VisionArrays(vision);
  }

  lemma {:induction false} FitUnion(size: Sizes, a: set<Array>, b: set<Array>)
    ensures AllFit(size, a + b) <==> AllFit(size, a) && AllFit(size, b)
  {
  }

  method WriteRecord(record: EvaluationRecord, store: ArrayFileStore) returns (r: Reply<RecordDoc>)
    requires Addressed(store.files)
    modifies store
    ensures Stored(store, RecordArrays(record), r.Returned?)
    ensures r.Returned? ==> r.value == RecordDocOf(record)
  {
    var o := record.Observed();
    ghost var left, right := SensorArrays(o.tactile.left), SensorArrays(o.tactile.right);
    ghost var vis, prop := VisionArrays(o.vision), {Vector(o.proprio)};
    FitUnion(store.size, left, right);
    FitUnion(store.size, left + right, vis);
    FitUnion(store.size, left + right + vis, prop);
    var first := WriteSensor(o.tactile.left, store);
    if first.Raised? { return Raised(first.error); }
    var second := WriteSensor(o.tactile.right, store);
    if second.Raised? { return Raised(second.error); }
    FilesUnion(old(store.files), left, right);
    var vision := WriteVision(o.vision, store);
    if vision.Raised? { return Raised(vision.error); }
    FilesUnion(old(store.files), left + right, vis);
    var proprio := store.Add(Vector(o.proprio));
    if proprio.Raised? { return Raised(proprio.error); }
    FilesUnion(old(store.files), left + right + vis, prop);
    return Returned(RecordDoc(o.episodeId, o.task, o.seed, o.stepIndex,
                              PerSlot(first.value, second.value, o.tactile.leftFirst), vision.value, proprio.value,
                              record.content.provenance, record.cleanHash, record.deliveredHash));
  }

  method WriteTrace(trace: Trace, store: ArrayFileStore) returns (r: Reply<seq<RecordDoc>>)
    requires Addressed(store.files)
    modifies store
    ensures Stored(store, TraceArrays(trace), r.Returned?)
    ensures r.Returned? ==> r.value == TraceDocOf(trace)
  {
    var docs: seq<RecordDoc> := [];
    for n := 0 to |trace|
      invariant docs == TraceDocOf(trace[..n]) && Stored(store, TraceArrays(trace[..n]), true)
    {
      ghost var before := TraceArrays(trace[..n]);
      TraceNext(store.size, trace, n);
      var doc := WriteRecord(trace[n], store);
      if doc.Raised? {
        FitPrefix(store.size, trace, n + 1);
        return Raised(doc.error);
      }
      FilesUnion(old(store.files), before, RecordArrays(trace[n]));
      docs := docs + [doc.value];
    }
    assert trace[..|trace|] == trace;
    return Returned(docs);
  }

  lemma {:induction false} TraceNext(size: Sizes, trace: Trace, n: nat)
    requires n < |trace|
    ensures TraceArrays(trace[..n + 1]) == TraceArrays(trace[..n]) + RecordArrays(trace[n])
    ensures AllFit(size, TraceArrays(trace[..n + 1])) <==>
            AllFit(size, TraceArrays(trace[..n])) && AllFit(size, RecordArrays(trace[n]))
    ensures TraceDocOf(trace[..n + 1]) == TraceDocOf(trace[..n]) + [RecordDocOf(trace[n])]
  {
    var front, next := trace[..n], trace[..n + 1];
    assert next == front + [trace[n]] && next[..|next| - 1] == front;
    TraceLast(next, front, trace[n]);
    FitUnion(size, TraceArrays(front), RecordArrays(trace[n]));
    assert TraceDocOf(next) == TraceDocOf(front) + [RecordDocOf(trace[n])];
  }

  lemma {:induction false} TraceLast(trace: Trace, front: Trace, last: EvaluationRecord)
    requires trace == front + [last]
    ensures TraceArrays(trace) == TraceArrays(front) + RecordArrays(last)
  {
    assert trace[..|trace| - 1] == front;
  }

  lemma {:induction false} FitPrefix(size: Sizes, trace: Trace, n: nat)
    requires n <= |trace|
    ensures AllFit(size, TraceArrays(trace)) ==> AllFit(size, TraceArrays(trace[..n]))
    decreases |trace| - n
  {
    if n < |trace| {
      TraceNext(size, trace, n);
      FitPrefix(size, trace, n + 1);
    } else {
      assert trace[..n] == trace;
    }
  }

  method WriteEntries(entries: seq<ActionEntry>, store: ArrayFileStore) returns (r: Reply<seq<EntryDoc>>)
    requires Addressed(store.files)
    modifies store
    ensures Stored(store, EntryArrays(entries), r.Returned?)
    ensures r.Returned? ==> r.value == EntryDocsOf(entries)
  {
    var docs: seq<EntryDoc> := [];
    for n := 0 to |entries|
      invariant docs == EntryDocsOf(entries[..n]) && Stored(store, EntryArrays(entries[..n]), true)
    {
      ghost var before := EntryArrays(entries[..n]);
      EntryNext(store.size, entries, n);
      var d := store.Add(Table(entries[n].actions));
      if d.Raised? {
        EntryFitPrefix(store.size, entries, n + 1);
        return Raised(d.error);
      }
      FilesUnion(old(store.files), before, {Table(entries[n].actions)});
      docs := docs + [EntryDoc(entries[n].plan, entries[n].sourceStep, d.value)];
    }
    assert entries[..|entries|] == entries;
    return Returned(docs);
  }

  lemma {:induction false} EntryNext(size: Sizes, entries: seq<ActionEntry>, n: nat)
    requires n < |entries|
    ensures EntryArrays(entries[..n + 1]) == EntryArrays(entries[..n]) + {Table(entries[n].actions)}
    ensures AllFit(size, EntryArrays(entries[..n + 1])) <==>
            AllFit(size, EntryArrays(entries[..n])) && Fits(size, Table(entries[n].actions))
    ensures EntryDocsOf(entries[..n + 1]) == EntryDocsOf(entries[..n]) + [EntryDocOf(entries[n])]
  {
    assert entries[..n + 1][..n] == entries[..n];
    FitUnion(size, EntryArrays(entries[..n]), {Table(entries[n].actions)});
  }

  lemma {:induction false} EntryFitPrefix(size: Sizes, entries: seq<ActionEntry>, n: nat)
    requires n <= |entries|
    ensures AllFit(size, EntryArrays(entries)) ==> AllFit(size, EntryArrays(entries[..n]))
    decreases |entries| - n
  {
    if n < |entries| {
      EntryNext(size, entries, n);
      EntryFitPrefix(size, entries, n + 1);
    } else {
      assert entries[..n] == entries;
    }
  }

  /** Everything one run's evidence consists of. */
  function EvidenceArrays(entries: seq<ActionEntry>, f: Finalization): set<Array> {
    EntryArrays(entries) + (TraceArrays(f.clean) + TraceArrays(f.delivered))
  }

  datatype Bundle = Bundle(actions: seq<EntryDoc>, delivery: DeliveryDoc, files: Files)

  method WriteDelivery(f: Finalization, store: ArrayFileStore) returns (r: Reply<DeliveryDoc>)
    requires Addressed(store.files)
    modifies store
    ensures Stored(store, TraceArrays(f.clean) + TraceArrays(f.delivered), r.Returned?)
    ensures r.Returned? ==> r.value == DeliveryDocOf(f)
  {
    ghost var first, second := TraceArrays(f.clean), TraceArrays(f.delivered);
    FitUnion(store.size, first, second);
    FilesUnion(store.files, first, second);
    var clean := WriteTrace(f.clean, store);
    if clean.Raised? { return Raised(clean.error); }
    var delivered := WriteTrace(f.delivered, store);
    if delivered.Raised? { return Raised(delivered.error); }
    return Returned(DeliveryDoc(clean.value, delivered.value, f.cleanTrace, f.deliveredTrace, f.manifest));
  }

  /** Writes both traces into one store: documents and, once each, the arrays they share. */
  method WriteEvidence(size: Sizes, entries: seq<ActionEntry>, f: Finalization) returns (r: Reply<Bundle>)
    ensures r.Returned? <==> AllFit(size, EvidenceArrays(entries, f))
    ensures r.Returned? ==>
              r.value == Bundle(EntryDocsOf(entries), DeliveryDocOf(f), FilesOf(EvidenceArrays(entries, f)))
  {
    var store := new ArrayFileStore(size);
    ghost var first, second := EntryArrays(entries), TraceArrays(f.clean) + TraceArrays(f.delivered);
    FitUnion(size, first, second);
    FilesUnion(map[], first, second);
    assert map[] + FilesOf(first + second) == FilesOf(first + second);
    var actions := WriteEntries(entries, store);
    if actions.Raised? { return Raised(actions.error); }
    var delivery := WriteDelivery(f, store);
    if delivery.Raised? { return Raised(delivery.error); }
    return Returned(Bundle(actions.value, delivery.value, store.files));
  }
}
