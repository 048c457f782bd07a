/** Loading a bundle with every check of its documents and links, and publishing one. */
module BundlePublication {
  import opened Basics
  import opened OperatorParameters
  import opened Manifests
  import opened Trials
  import opened ValidationCodes
  import opened Validators
  import opened DeliveryProperties
  import opened Delivery
  import opened Results
  import opened Chronology
  import opened ArtifactArrays
  import opened ArtifactRecords
  import opened ArtifactLoading
  import opened ArtifactReader
  import opened RootReceipts
  import opened BundleArtifacts

  // ------------------------------------------------------------------ the documents

  function JsonAt(contents: Contents, kind: Kind): Json {
    if JsonPath(kind) in contents && contents[JsonPath(kind)].JsonBytes? then contents[JsonPath(kind)].json
    else OtherJson("")
  }

  /** The arrays among the members. */
  function ArraysIn(contents: Contents): Files {
    map p | p in contents && p.ArrayMember? && contents[p].ArrayBytes? :: p.path := contents[p].file
  }

  /** The typed documents of a bundle. */
  datatype Parts = Parts(trial: TrialManifest, spec: RunSpec, fault: FaultManifest, result: TrialResult,
                         report: ReportDoc, bundle: Bundle)

  function SpecOf(b: RunBudget): Reply<RunSpec> {
    if BudgetOk(b) then Returned(b) else Raised(OtherError)
  }

  function ResultOf(r: TrialResult): Reply<TrialResult> {
    if Coherent(r) then Returned(r) else Raised(OtherError)
  }

  /** Every document parsed, and through its constructor's checks. */
  function PartsOf(draw: Draw, contents: Contents): Reply<Parts> {
    var t, s, m, r := JsonAt(contents, TrialKind), JsonAt(contents, SpecKind), JsonAt(contents, FaultKind),
                      JsonAt(contents, ResultKind);
    var a, d, v := JsonAt(contents, ActionsKind), JsonAt(contents, DeliveryKind), JsonAt(contents, ReportKind);
    if !t.TrialJson? || !s.SpecJson? || !m.FaultJson? || !r.ResultJson? || !a.ActionsJson? || !d.DeliveryJson?
       || !v.ReportJson? || !ReportOk(v.report.report)
    then Raised(OtherError)
    else
      var trial :- Construct(t.trial);
      var spec :- SpecOf(s.spec);
      var fault :- FromDict(draw, m.fields);
      var result :- ResultOf(r.result);
      Returned(Parts(trial, spec, fault, result, v.report, Bundle(a.entries, d.delivery, ArraysIn(contents))))
  }

  // ------------------------------------------------------------------ the links

  /** What the documents say of each other, and the receipt of them. */
  predicate CrossLinked(t: TrialManifest, spec: RunSpec, fault: FaultManifest, result: TrialResult, e: Evidence,
                   report: ReportDoc, links: Links)
  {
    var b, f := result.body, e.finalization;
    && t.faultManifest == Some(Sha(fault)) && b.trial == Sha(t) && b.pairKey == PairKey(t) && b.runSpec == Sha(spec)
    && b.actionTrace == Sha(e.entries) && b.cleanTrace == f.cleanTrace && b.deliveredTrace == f.deliveredTrace
    && b.validationPassed == Some(report.report.passed) && b.validationCodes == report.report.codes
    && f.manifest == Some(Sha(fault)) && report == ReportDocOf(f, report.report)
    && links == LinksOf(t, spec, fault, result)
  }

  /** The report is the one that the validator gives again, without rest frames, and it passes. */
  ghost predicate Agreed(g: Gauge, clean: Trace, delivered: Trace, fault: FaultManifest, report: Report)
    requires ManifestOk(fault)
  {
    && Passes(g, clean, delivered, fault, None)
    && report == Report(true, [], Tally(ChangedTest(clean, delivered, fault), 0, |clean|))
  }

  /** Everything that the loader checks once the documents are typed and the evidence is loaded. */
  ghost predicate Verified(g: Gauge, t: TrialManifest, spec: RunSpec, fault: FaultManifest, result: TrialResult,
                           e: Evidence, report: ReportDoc, links: Links)
    requires ManifestOk(fault)
  {
    && Accepts(t, spec, result.body, e.finalization, e.entries)
    && (t.condition.Faulted? || t.condition.Restored?) && !NeedsRest(fault.instance.op)
    && Agreed(g, e.finalization.clean, e.finalization.delivered, fault, report.report)
    && CrossLinked(t, spec, fault, result, e, report, links)
  }

  /** Validates the delivery again, and compares. */
  method Rerun(g: Gauge, clean: Trace, delivered: Trace, fault: FaultManifest, report: Report) returns (ok: bool)
    requires ManifestOk(fault) && ReportOk(report) && |clean| == |delivered|
    ensures ok <==> Agreed(g, clean, delivered, fault, report)
  {
    var again := ValidateDelivery(g, clean, delivered, fault, None);
    if again.Raised? || again.value != report {
      RerunDiffers(g, clean, delivered, fault, again, report);
      return false;
    }
    RerunAgrees(g, clean, delivered, fault, report);
    return report.passed && report.affected >= 1;
  }

  lemma {:induction false} RerunDiffers(g: Gauge, clean: Trace, delivered: Trace, fault: FaultManifest,
                                        again: Reply<Report>, report: Report)
    requires ManifestOk(fault) && |clean| == |delivered| && again != Returned(report)
    requires again.Returned? <==> Measurable(clean, fault, None)
    requires again.Returned? ==>
               && ReportOk(again.value)
               && (forall c :: c in again.value.codes <==> c in Findings(g, clean, delivered, fault, None))
               && again.value.affected == Tally(ChangedTest(clean, delivered, fault), 0, |clean|)
    ensures !Agreed(g, clean, delivered, fault, report)
  {
    if again.Returned? && again.value.codes != [] { assert again.value.codes[0] in again.value.codes; }
  }

  /** A report that lists the findings agrees exactly when it passes, and then something changed. */
  lemma {:induction false} RerunAgrees(g: Gauge, clean: Trace, delivered: Trace, fault: FaultManifest,
                                       report: Report)
    requires ManifestOk(fault) && |clean| == |delivered| && Measurable(clean, fault, None) && ReportOk(report)
    requires forall c :: c in report.codes <==> c in Findings(g, clean, delivered, fault, None)
    requires report.affected == Tally(ChangedTest(clean, delivered, fault), 0, |clean|)
    ensures report.passed && report.affected >= 1 <==> Agreed(g, clean, delivered, fault, report)
  {
    TallyPositive(ChangedTest(clean, delivered, fault), 0, |clean|);
    if report.codes != [] { assert report.codes[0] in report.codes; }
    if Findings(g, clean, delivered, fault, None) == {} {
      assert InactiveOperator !in Findings(g, clean, delivered, fault, None);
    }
  }

  // ------------------------------------------------------------------ the loader

  lemma {:induction false} PartsTyped(draw: Draw, contents: Contents)
    requires PartsOf(draw, contents).Returned?
    ensures var p := PartsOf(draw, contents).value;
            ManifestOk(p.fault) && ReportOk(p.report.report) && TrialOk(p.trial) && Coherent(p.result)
            && p.bundle.files == ArraysIn(contents)
  {
    FromDictOk(draw, JsonAt(contents, FaultKind).fields);
  }

  lemma {:induction false} FromDictOk(draw: Draw, d: Document)
    requires FromDict(draw, d).Returned?
    ensures ManifestOk(FromDict(draw, d).value)
  {
    var fields := ReadFields(draw, d).value;
    MakeOk(fields.instance, fields.observability, fields.parameters);
  }

  /** What a directory loads as, if every check passes. */
  ghost predicate Loads(l: Lengths, g: Gauge, draw: Draw, d: Directory) {
    && InventoryOk(l, d) && PartsOf(draw, d.contents).Returned?
    && var p := PartsOf(draw, d.contents).value;
       PartsTyped(draw, d.contents);
       && BundlePaths(p.bundle) == p.bundle.files.Keys
       && LoadEvidence(l.arrays, p.bundle, p.report.report).Returned?
       && Verified(g, p.trial, p.spec, p.fault, p.result,
                   LoadEvidence(l.arrays, p.bundle, p.report.report).value, p.report, d.root.value.links)
  }

  function LoadedOf(l: Lengths, draw: Draw, d: Directory): Loaded
    requires d.root.Some? && PartsOf(draw, d.contents).Returned?
    requires var p := PartsOf(draw, d.contents).value; LoadEvidence(l.arrays, p.bundle, p.report.report).Returned?
  {
    var p := PartsOf(draw, d.contents).value;
    Loaded(p.trial, p.spec, p.fault, p.result, LoadEvidence(l.arrays, p.bundle, p.report.report).value, d.root.value)
  }

  /** The cross-links, the chronology and the validator, over typed documents. */
  method CrossCheck(g: Gauge, p: Parts, e: Evidence, links: Links) returns (ok: bool)
    requires ManifestOk(p.fault) && ReportOk(p.report.report) && FinalizationOk(e.finalization)
    ensures ok <==> Verified(g, p.trial, p.spec, p.fault, p.result, e, p.report, links)
  {
    if !Accepts(p.trial, p.spec, p.result.body, e.finalization, e.entries) { return false; }
    if !p.trial.condition.Faulted? && !p.trial.condition.Restored? { return false; }
    if NeedsRest(p.fault.instance.op) { return false; }
    var agreed := Rerun(g, e.finalization.clean, e.finalization.delivered, p.fault, p.report.report);
    if !agreed { return false; }
    return CrossLinked(p.trial, p.spec, p.fault, p.result, e, p.report, links);
  }

  method LoadBundle(l: Lengths, g: Gauge, draw: Draw, d: Directory) returns (r: Reply<Loaded>)
    ensures r.Returned? <==> Loads(l, g, draw, d)
    ensures r.Returned? ==> r.value == LoadedOf(l, draw, d)
  {
    var root := ReadInventory(l, d);
    if root.Raised? { return Raised(root.error); }
    var parts := PartsOf(draw, d.contents);
    if parts.Raised? { return Raised(parts.error); }
    PartsTyped(draw, d.contents);
    var p := parts.value;
    var e := ReadBundle(l.arrays, p.bundle, p.report.report);
    if e.Raised? { return Raised(e.error); }
    EvidenceFinal(l.arrays, p.bundle, p.report.report);
    var ok := CrossCheck(g, p, e.value, root.value.links);
    if !ok { return Raised(OtherError); }
    return Returned(Loaded(p.trial, p.spec, p.fault, p.result, e.value, root.value));
  }

  lemma {:induction false} EvidenceFinal(size: Sizes, b: Bundle, report: Report)
    requires LoadEvidence(size, b, report).Returned?
    ensures FinalizationOk(LoadEvidence(size, b, report).value.finalization)
  {
  }

  // ------------------------------------------------------------------ what was written, loaded

  lemma {:induction false} ArraysBack(documents: Documents, files: Files)
    ensures ArraysIn(ContentsOf(documents, files)) == files
  {
    var contents := ContentsOf(documents, files);
    forall p ensures p in ArraysIn(contents) <==> p in files {
      assert ArrayMember(p) in contents <==> p in files;
    }
    forall p <- files ensures ArraysIn(contents)[p] == files[p] {
      assert contents[ArrayMember(p)] == ArrayBytes(files[p]);
    }
  }

  lemma {:induction false} JsonBack(documents: Documents, files: Files, kind: Kind)
    requires documents.Keys == KINDS
    ensures kind in documents && JsonAt(ContentsOf(documents, files), kind) == documents[kind]
  {
    EveryKind(kind);
    assert ContentsOf(documents, files)[JsonPath(kind)] == JsonBytes(documents[kind]);
  }

  lemma {:induction false} EveryKind(kind: Kind)
    ensures kind in KINDS
  {
    match kind
    case TrialKind | SpecKind | FaultKind | ResultKind | ActionsKind | DeliveryKind | ReportKind =>
  }

  /** Seven documents, as a loader finds them. */
  predicate Documented(contents: Contents, t: TrialManifest, spec: RunSpec, fault: FaultManifest, result: TrialResult,
                       entries: seq<EntryDoc>, delivery: DeliveryDoc, report: ReportDoc)
  {
    && JsonAt(contents, TrialKind) == TrialJson(t) && JsonAt(contents, SpecKind) == SpecJson(spec)
    && JsonAt(contents, FaultKind) == FaultJson(ManifestDict(fault))
    && JsonAt(contents, ResultKind) == ResultJson(result) && JsonAt(contents, ActionsKind) == ActionsJson(entries)
    && JsonAt(contents, DeliveryKind) == DeliveryJson(delivery) && JsonAt(contents, ReportKind) == ReportJson(report)
  }

  lemma {:induction false} DocumentBack(kind: Kind, t: TrialManifest, spec: RunSpec, fault: FaultManifest,
                                        result: TrialResult, entries: seq<EntryDoc>, delivery: DeliveryDoc,
                                        report: ReportDoc, files: Files)
    ensures JsonAt(ContentsOf(DocumentsOf(t, spec, fault, result, entries, delivery, report), files), kind)
            == DocumentFor(kind, t, spec, fault, result, entries, delivery, report)
  {
    JsonBack(DocumentsOf(t, spec, fault, result, entries, delivery, report), files, kind);
  }

  lemma {:induction false} DocumentsBack(t: TrialManifest, spec: RunSpec, fault: FaultManifest, result: TrialResult,
                                         entries: seq<EntryDoc>, delivery: DeliveryDoc, report: ReportDoc,
                                         files: Files, contents: Contents)
    requires contents == ContentsOf(DocumentsOf(t, spec, fault, result, entries, delivery, report), files)
    ensures Documented(contents, t, spec, fault, result, entries, delivery, report)
  {
    forall k: Kind ensures JsonAt(contents, k) == DocumentFor(k, t, spec, fault, result, entries, delivery, report) {
      DocumentBack(k, t, spec, fault, result, entries, delivery, report, files);
    }
    EachDocumented(t, spec, fault, result, entries, delivery, report, contents);
  }

  lemma {:induction false} EachDocumented(t: TrialManifest, spec: RunSpec, fault: FaultManifest, result: TrialResult,
                                          entries: seq<EntryDoc>, delivery: DeliveryDoc, report: ReportDoc,
                                          contents: Contents)
    requires forall k: Kind :: JsonAt(contents, k)
                               == DocumentFor(k, t, spec, fault, result, entries, delivery, report)
    ensures Documented(contents, t, spec, fault, result, entries, delivery, report)
  {
    assert JsonAt(contents, TrialKind) == TrialJson(t) && JsonAt(contents, SpecKind) == SpecJson(spec);
    assert JsonAt(contents, FaultKind) == FaultJson(ManifestDict(fault));
    assert JsonAt(contents, ResultKind) == ResultJson(result) && JsonAt(contents, ActionsKind) == ActionsJson(entries);
  }

  /** Documents are typed back as what they were written from. */
  lemma {:induction false} PartsBack(draw: Draw, contents: Contents, t: TrialManifest, spec: RunSpec,
                                     fault: FaultManifest, result: TrialResult, report: ReportDoc,
                                     entries: seq<EntryDoc>, delivery: DeliveryDoc)
    requires Documented(contents, t, spec, fault, result, entries, delivery, report)
    requires TrialOk(t) && Coherent(result) && ReportOk(report.report)
    requires FromDict(draw, ManifestDict(fault)) == Returned(fault)
    ensures PartsOf(draw, contents)
            == Returned(Parts(t, spec, fault, result, report, Bundle(entries, delivery, ArraysIn(contents))))
  {
  }

  function PartsFrom(t: TrialManifest, spec: RunSpec, fault: FaultManifest, result: TrialResult, f: Finalization,
                     report: Report, entries: seq<ActionEntry>): Parts
  {
    Parts(t, spec, fault, result, ReportDocOf(f, report), ArtifactLoading.Written(entries, f))
  }

  lemma {:induction false} StoredParts(draw: Draw, t: TrialManifest, spec: RunSpec, fault: FaultManifest,
                                       result: TrialResult, f: Finalization, report: Report, entries: seq<ActionEntry>)
    requires TrialOk(t) && ManifestOk(fault) && Coherent(result) && ReportOk(report)
    requires fault.instance.template == draw(fault.instance.op, fault.instance.template.seed)
    ensures PartsOf(draw, StoredContents(t, spec, fault, result, f, report, entries))
            == Returned(PartsFrom(t, spec, fault, result, f, report, entries))
  {
    var docs, delivery, doc := EntryDocsOf(entries), DeliveryDocOf(f), ReportDocOf(f, report);
    var documents := DocumentsOf(t, spec, fault, result, docs, delivery, doc);
    var files := FilesOf(EvidenceArrays(entries, f));
    DocumentsBack(t, spec, fault, result, docs, delivery, doc, files, ContentsOf(documents, files));
    ArraysBack(documents, files);
    ManifestRoundTrip(draw, fault);
    PartsBack(draw, ContentsOf(documents, files), t, spec, fault, result, doc, docs, delivery);
  }

  lemma {:induction false} AllKinds(l: Lengths, documents: Documents, files: Files)
    requires documents.Keys == KINDS
    ensures KindsOf(MembersOf(l, ContentsOf(documents, files))) == KINDS
  {
    forall k ensures k in KindsOf(MembersOf(l, ContentsOf(documents, files))) <==> k in KINDS {
      assert JsonPath(k) in ContentsOf(documents, files) <==> k in documents;
      assert JsonPath(k) in MembersOf(l, ContentsOf(documents, files)) <==> k in documents;
    }
  }

  /** A receipt made of what it lies beside is accepted exactly within the caps. */
  lemma {:induction false} OwnInventory(l: Lengths, links: Links, contents: Contents)
    requires KindsOf(MembersOf(l, contents)) == KINDS && NeverEmpty(l)
    ensures var root := RootReceipt(links, MembersOf(l, contents));
            && (InventoryOk(l, Directory(Some(root), contents)) <==> CapsOk(l, contents, l.root(root)))
            && (CapsOk(l, contents, l.root(root)) ==> ReceiptOk(root))
  {
    SameCount(l, contents);
    assert TrialKind in KindsOf(MembersOf(l, contents));
  }

  // ------------------------------------------------------------------ publication

  /** Evidence of a validated faulted trial that the bundle's caps and loader can hold. */
  ghost predicate Publishable(l: Lengths, g: Gauge, t: TrialManifest, spec: RunSpec, fault: FaultManifest,
                              ev: Execution)
    requires ManifestOk(fault)
  {
    && Writable(t, spec, fault, ev)
    && var (f, report) := (ev.finalization.value, ev.finalization.value.validation.value);
       var contents := StoredContents(t, spec, fault, ev.result, f, report, ev.entries);
       && CapsOk(l, contents, l.root(ReceiptOf(l, t, spec, fault, ev.result, contents)))
       && EvidenceLoadable(ev.entries, f) && Agreed(g, f.clean, f.delivered, fault, report)
       && CrossLinked(t, spec, fault, ev.result, Evidence(ev.entries, f), ReportDocOf(f, report),
                 LinksOf(t, spec, fault, ev.result))
  }

  /** The inputs have passed their constructors, and no encoding is empty. */
  ghost predicate Typed(l: Lengths, draw: Draw, t: TrialManifest, fault: FaultManifest, ev: Execution) {
    && NeverEmpty(l) && (forall a :: l.arrays(a) > 0) && TrialOk(t) && ManifestOk(fault) && Coherent(ev.result)
    && fault.instance.template == draw(fault.instance.op, fault.instance.template.seed)
    && (ev.finalization.Some? ==>
          && FinalizationOk(ev.finalization.value)
          && (ev.finalization.value.validation.Some? ==> ReportOk(ev.finalization.value.validation.value)))
  }

  /** The directory a bundle is staged in. */
  function Staged(l: Lengths, t: TrialManifest, spec: RunSpec, fault: FaultManifest, ev: Execution): Directory
    requires Writable(t, spec, fault, ev)
  {
    var f := ev.finalization.value;
    var contents := StoredContents(t, spec, fault, ev.result, f, f.validation.value, ev.entries);
    Directory(Some(ReceiptOf(l, t, spec, fault, ev.result, contents)), contents)
  }

  /** The inventory of a staged bundle is in order exactly within the caps, and then its arrays fit. */
  lemma {:induction false} StagedInventory(l: Lengths, t: TrialManifest, spec: RunSpec, fault: FaultManifest,
                                           ev: Execution)
    requires Writable(t, spec, fault, ev) && NeverEmpty(l)
    ensures var d := Staged(l, t, spec, fault, ev);
            && (InventoryOk(l, d) <==> CapsOk(l, d.contents, l.root(d.root.value)))
            && (InventoryOk(l, d) ==> AllFit(l.arrays, EvidenceArrays(ev.entries, ev.finalization.value)))
  {
    var f := ev.finalization.value;
    var documents := DocumentsOf(t, spec, fault, ev.result, EntryDocsOf(ev.entries), DeliveryDocOf(f),
                                 ReportDocOf(f, f.validation.value));
    var files := FilesOf(EvidenceArrays(ev.entries, f));
    AllKinds(l, documents, files);
    OwnInventory(l, LinksOf(t, spec, fault, ev.result), ContentsOf(documents, files));
    FitsInside(l, documents, EvidenceArrays(ev.entries, f));
  }

  /** What the loader makes of typed documents. */
  lemma {:induction false} LoadsMeans(l: Lengths, g: Gauge, draw: Draw, d: Directory, p: Parts, e: Reply<Evidence>)
    requires PartsOf(draw, d.contents) == Returned(p) && ManifestOk(p.fault)
    requires BundlePaths(p.bundle) == p.bundle.files.Keys && e == LoadEvidence(l.arrays, p.bundle, p.report.report)
    ensures Loads(l, g, draw, d) <==>
            && InventoryOk(l, d) && e.Returned?
            && Verified(g, p.trial, p.spec, p.fault, p.result, e.value, p.report, d.root.value.links)
    ensures Loads(l, g, draw, d) ==>
              LoadedOf(l, draw, d) == Loaded(p.trial, p.spec, p.fault, p.result, e.value, d.root.value)
  {
  }

  /** The loader's checks of a writable execution, loaded back, that the writer has not made. */
  lemma {:induction false} WritableVerified(g: Gauge, t: TrialManifest, spec: RunSpec, fault: FaultManifest,
                                            ev: Execution, f: Finalization, report: Report)
    requires ManifestOk(fault) && Writable(t, spec, fault, ev)
    requires ev.finalization == Some(f) && f.validation == Some(report)
    ensures Verified(g, t, spec, fault, ev.result, Evidence(ev.entries, f), ReportDocOf(f, report),
                     LinksOf(t, spec, fault, ev.result)) <==>
            && Agreed(g, f.clean, f.delivered, fault, report)
            && CrossLinked(t, spec, fault, ev.result, Evidence(ev.entries, f), ReportDocOf(f, report),
                      LinksOf(t, spec, fault, ev.result))
  {
  }

  /** A staged bundle loads exactly if it is publishable, and then as what it was written from. */
  lemma {:induction false} StagedLoads(l: Lengths, g: Gauge, draw: Draw, t: TrialManifest, spec: RunSpec,
                                       fault: FaultManifest, ev: Execution, f: Finalization, report: Report,
                                       d: Directory)
    requires Typed(l, draw, t, fault, ev) && Writable(t, spec, fault, ev) && d == Staged(l, t, spec, fault, ev)
    requires ev.finalization == Some(f) && f.validation == Some(report)
    ensures Loads(l, g, draw, d) <==> Publishable(l, g, t, spec, fault, ev)
    ensures Loads(l, g, draw, d) ==>
              LoadedOf(l, draw, d) == Loaded(t, spec, fault, ev.result, Evidence(ev.entries, f), d.root.value)
  {
    StoredParts(draw, t, spec, fault, ev.result, f, report, ev.entries);
    StagedInventory(l, t, spec, fault, ev);
    InventoryBijective(ev.entries, f);
    WritableVerified(g, t, spec, fault, ev, f, report);
    var p := PartsFrom(t, spec, fault, ev.result, f, report, ev.entries);
    LoadsMeans(l, g, draw, d, p, LoadEvidence(l.arrays, p.bundle, report));
    if InventoryOk(l, d) { EvidenceRoundTrip(l.arrays, ev.entries, f, report); }
  }

  /** Stages a bundle and publishes it once it has loaded back: exactly the publishable evidence is
      published, and it loads as what it was made from. */
  method PublishBundle(l: Lengths, g: Gauge, draw: Draw, t: TrialManifest, spec: RunSpec, fault: FaultManifest,
                       ev: Execution) returns (r: Reply<Loaded>)
    requires Typed(l, draw, t, fault, ev)
    ensures r.Returned? <==> Publishable(l, g, t, spec, fault, ev)
    ensures r.Returned? ==>
              r.value == Loaded(t, spec, fault, ev.result, Evidence(ev.entries, ev.finalization.value),
                                Staged(l, t, spec, fault, ev).root.value)
  {
    var staged := BuildBundle(l, t, spec, fault, ev);
    if Writable(t, spec, fault, ev) {
      StagedInventory(l, t, spec, fault, ev);
      StagedLoads(l, g, draw, t, spec, fault, ev, ev.finalization.value, ev.finalization.value.validation.value,
                  Staged(l, t, spec, fault, ev));
    }
    if staged.Raised? { return Raised(OtherError); }
    var loaded := LoadBundle(l, g, draw, staged.value);
    if loaded.Raised? { return Raised(OtherError); }
    if Some(loaded.value.root) != staged.value.root { return Raised(OtherError); }
    r := LoadBundle(l, g, draw, staged.value);
  }

  /** What is published speaks of itself: the receipt's links are the digests of this trial, its pair, its
      budget, this fault and this result, of the actions on file, and of the clean and the delivered
      records on file, in that order; the trial names the fault, and the delivery passes its gate. */
  lemma {:induction false} PublishedTells(l: Lengths, g: Gauge, draw: Draw, t: TrialManifest, spec: RunSpec,
                                          fault: FaultManifest, ev: Execution)
    requires Typed(l, draw, t, fault, ev) && Publishable(l, g, t, spec, fault, ev)
    ensures var (f, links) := (ev.finalization.value, Staged(l, t, spec, fault, ev).root.value.links);
            && links.trial == Sha(t) && links.pairKey == PairKey(t) && links.runSpec == Sha(spec)
            && links.fault == Sha(fault) && t.faultManifest == Some(Sha(fault))
            && links.result == Sha(ev.result) && links.terminalTrace == Sha(ev.result.body)
            && links.actionTrace == Sha(ev.entries)
            && links.cleanTrace == Sha(CleanRecords(Delivery.Contents(f.clean)))
            && links.deliveredTrace == Sha(FaultRecords(Sha(fault), Delivery.Contents(f.delivered)))
            && Passes(g, f.clean, f.delivered, fault, None)
  {
  }

  /** A bundle holds seven documents, so at most 505 arrays: evidence with more is never published. */
  lemma {:induction false} CrowdedRefused(l: Lengths, g: Gauge, t: TrialManifest, spec: RunSpec, fault: FaultManifest,
                                          ev: Execution)
    requires ManifestOk(fault) && ev.finalization.Some?
    requires |EvidenceArrays(ev.entries, ev.finalization.value)| > MAX_MEMBER_COUNT - 7
    ensures !Publishable(l, g, t, spec, fault, ev)
  {
    if Writable(t, spec, fault, ev) {
      var f := ev.finalization.value;
      StoredCount(t, spec, fault, ev.result, f, f.validation.value, ev.entries);
    }
  }
}
