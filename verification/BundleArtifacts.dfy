/** One bundle on disk: built from validated evidence, staged, reloaded, and only then published. */
module BundleArtifacts {
  import opened Basics
  import opened OperatorParameters
  import opened Manifests
  import opened Trials
  import opened ValidationCodes
  import opened Delivery
  import opened Results
  import opened Chronology
  import opened ArtifactArrays
  import opened ArtifactRecords
  import opened ArtifactLoading
  import opened RootReceipts

  /** What the runner hands to the evaluator. */
  datatype Execution = Execution(result: TrialResult, finalization: Option<Finalization>, entries: seq<ActionEntry>)

  /** What a bundle loads as. */
  datatype Loaded = Loaded(trial: TrialManifest, spec: RunSpec, fault: FaultManifest, result: TrialResult,
                           evidence: Evidence, root: RootReceipt)

  // ------------------------------------------------------------------ what may be written

  /** A trial that was run under this fault, on record as validated. */
  predicate Claims(t: TrialManifest, spec: RunSpec, fault: FaultManifest, b: ResultBody, report: Report) {
    && (t.condition.Faulted? || t.condition.Restored?) && t.faultManifest == Some(Sha(fault))
    && b.trial == Sha(t) && b.runSpec == Sha(spec) && report.passed && b.validationPassed == Some(true)
    && !NeedsRest(fault.instance.op)
  }

  /** The writer's input checks. */
  predicate Writable(t: TrialManifest, spec: RunSpec, fault: FaultManifest, ev: Execution) {
    && ev.finalization.Some? && ev.finalization.value.validation.Some?
    && Claims(t, spec, fault, ev.result.body, ev.finalization.value.validation.value)
    && Accepts(t, spec, ev.result.body, ev.finalization.value, ev.entries)
  }

  // ------------------------------------------------------------------ what is written

  function ReportDocOf(f: Finalization, report: Report): ReportDoc {
    ReportDoc(report, f.manifest, f.cleanTrace, f.deliveredTrace)
  }

  /** The document of each kind. */
  function DocumentFor(kind: Kind, t: TrialManifest, spec: RunSpec, fault: FaultManifest, result: TrialResult,
                       entries: seq<EntryDoc>, delivery: DeliveryDoc, report: ReportDoc): Json
  {
    match kind
    case TrialKind => TrialJson(t)
    case SpecKind => SpecJson(spec)
    case FaultKind => FaultJson(ManifestDict(fault))
    case ResultKind => ResultJson(result)
    case ActionsKind => ActionsJson(entries)
    case DeliveryKind => DeliveryJson(delivery)
    case ReportKind => ReportJson(report)
  }

  function DocumentsOf(t: TrialManifest, spec: RunSpec, fault: FaultManifest, result: TrialResult,
                       entries: seq<EntryDoc>, delivery: DeliveryDoc, report: ReportDoc): Documents
  {
    map kind | kind in KINDS :: DocumentFor(kind, t, spec, fault, result, entries, delivery, report)
  }

  function LinksOf(t: TrialManifest, spec: RunSpec, fault: FaultManifest, result: TrialResult): Links {
    var b := result.body;
    Links(Sha(t), PairKey(t), Sha(spec), Sha(fault), Sha(result), result.terminalTrace, b.actionTrace, b.cleanTrace,
          b.deliveredTrace)
  }

  /** Everything but the receipt. */
  function StoredContents(t: TrialManifest, spec: RunSpec, fault: FaultManifest, result: TrialResult, f: Finalization,
                  report: Report, entries: seq<ActionEntry>): Contents
  {
    ContentsOf(DocumentsOf(t, spec, fault, result, EntryDocsOf(entries), DeliveryDocOf(f), ReportDocOf(f, report)),
               FilesOf(EvidenceArrays(entries, f)))
  }

  function ReceiptOf(l: Lengths, t: TrialManifest, spec: RunSpec, fault: FaultManifest, result: TrialResult,
                     contents: Contents): RootReceipt
  {
    RootReceipt(LinksOf(t, spec, fault, result), MembersOf(l, contents))
  }

  /** Builds the files of a bundle, its receipt last. */
  method BuildBundle(l: Lengths, t: TrialManifest, spec: RunSpec, fault: FaultManifest, ev: Execution)
    returns (r: Reply<Directory>)
    requires NeverEmpty(l) && forall a :: l.arrays(a) > 0
    ensures r.Returned? ==> Writable(t, spec, fault, ev)
    ensures Writable(t, spec, fault, ev) ==>
              var f := ev.finalization.value;
              var contents := StoredContents(t, spec, fault, ev.result, f, f.validation.value, ev.entries);
              var root := ReceiptOf(l, t, spec, fault, ev.result, contents);
              r == if ReceiptOk(root) then Returned(Directory(Some(root), contents)) else Raised(OtherError)
  {
    if !Writable(t, spec, fault, ev) { return Raised(OtherError); }
    var f := ev.finalization.value;
    var bundle := WriteEvidence(l.arrays, ev.entries, f);
    ghost var contents := StoredContents(t, spec, fault, ev.result, f, f.validation.value, ev.entries);
    FitsInside(l, DocumentsOf(t, spec, fault, ev.result, EntryDocsOf(ev.entries), DeliveryDocOf(f),
                              ReportDocOf(f, f.validation.value)), EvidenceArrays(ev.entries, f));
    if bundle.Raised? { return Raised(OtherError); }
    var documents := DocumentsOf(t, spec, fault, ev.result, bundle.value.actions, bundle.value.delivery,
                                 ReportDocOf(f, f.validation.value));
    var written := ContentsOf(documents, bundle.value.files);
    var root := BuildReceipt(LinksOf(t, spec, fault, ev.result), MembersOf(l, written));
    if root.Raised? { return Raised(OtherError); }
    return Returned(Directory(Some(root.value), written));
  }

  /** The receipt's cap on a member is the store's cap on an array. */
  lemma {:induction false} FitsInside(l: Lengths, documents: Documents, arrays: set<Array>)
    ensures SizesOk(MembersOf(l, ContentsOf(documents, FilesOf(arrays)))) ==> AllFit(l.arrays, arrays)
  {
    var contents := ContentsOf(documents, FilesOf(arrays));
    if SizesOk(MembersOf(l, contents)) {
      forall a <- arrays ensures Fits(l.arrays, a) {
        assert FilesOf(arrays)[PathOf(a)] == Npy(a);
        assert contents[ArrayMember(PathOf(a))] == ArrayBytes(Npy(a));
        assert MembersOf(l, contents)[ArrayMember(PathOf(a))].size == l.arrays(a);
      }
    }
  }

  /** Seven documents, and every array once. */
  lemma {:induction false} StoredCount(t: TrialManifest, spec: RunSpec, fault: FaultManifest, result: TrialResult,
                                       f: Finalization, report: Report, entries: seq<ActionEntry>)
    ensures |StoredContents(t, spec, fault, result, f, report, entries)| == 7 + |EvidenceArrays(entries, f)|
  {
    var documents := DocumentsOf(t, spec, fault, result, EntryDocsOf(entries), DeliveryDocOf(f),
                                 ReportDocOf(f, report));
    SevenKinds(documents);
    ContentsCount(documents, FilesOf(EvidenceArrays(entries, f)));
    FilesCount(EvidenceArrays(entries, f));
  }

  lemma {:induction false} SevenKinds(documents: Documents)
    requires documents.Keys == KINDS
    ensures |documents| == 7
  {
    assert |documents.Keys| == |documents|;
  }

  function JsonPaths(kinds: set<Kind>): set<MemberPath> {
    set k <- kinds :: JsonPath(k)
  }

  function ArrayPaths(paths: set<ArrayPath>): set<MemberPath> {
    set p <- paths :: ArrayMember(p)
  }

  lemma {:induction false} ContentsCount(documents: Documents, files: Files)
    ensures |ContentsOf(documents, files)| == |documents| + |files|
  {
    var jsons, paths := JsonPaths(documents.Keys), ArrayPaths(files.Keys);
    ContentsKeys(documents, files);
    assert |ContentsOf(documents, files).Keys| == |ContentsOf(documents, files)|;
    assert |documents.Keys| == |documents| && |files.Keys| == |files| && jsons !! paths;
    JsonsCount(documents.Keys);
    PathsCount(files.Keys);
  }

  lemma {:induction false} ContentsKeys(documents: Documents, files: Files)
    ensures ContentsOf(documents, files).Keys == JsonPaths(documents.Keys) + ArrayPaths(files.Keys)
  {
  }

  lemma {:induction false} JsonsCount(kinds: set<Kind>)
    ensures |JsonPaths(kinds)| == |kinds|
  {
    if kinds != {} {
      var k :| k in kinds;
      JsonsCount(kinds - {k});
      assert JsonPaths(kinds) == JsonPaths(kinds - {k}) + {JsonPath(k)};
    }
  }

  lemma {:induction false} PathsCount(paths: set<ArrayPath>)
    ensures |ArrayPaths(paths)| == |paths|
  {
    if paths != {} {
      var p :| p in paths;
      PathsCount(paths - {p});
      assert ArrayPaths(paths) == ArrayPaths(paths - {p}) + {ArrayMember(p)};
    }
  }

  /** Paths are addresses, so different arrays have different ones. */
  lemma {:induction false} FilesCount(arrays: set<Array>)
    ensures |FilesOf(arrays)| == |arrays|
  {
    FileAddresses(arrays);
    AddressCount(arrays);
    assert |FilesOf(arrays).Keys| == |FilesOf(arrays)|;
  }

  lemma {:induction false} AddressCount(arrays: set<Array>)
    ensures |AddressesOf(arrays)| == |arrays|
  {
    if arrays != {} {
      var a :| a in arrays;
      AddressCount(arrays - {a});
      assert AddressesOf(arrays) == AddressesOf(arrays - {a}) + {PathOf(a)};
      assert PathOf(a) !in AddressesOf(arrays - {a});
    }
  }
}
