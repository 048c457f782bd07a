/** The loader as it runs: it gathers every path it looks up, and compares them at the end. */
module ArtifactReader {
  import opened Basics
  import opened Records
  import opened ValidationCodes
  import opened Delivery
  import opened Results
  import opened ArtifactArrays
  import opened ArtifactRecords
  import opened ArtifactLoading

  /** Success has looked up exactly these paths more. */
  twostate predicate Grown(refs: References, paths: set<ArrayPath>, ok: bool)
    reads refs
  {
    ok ==> refs.paths == old(refs.paths) + paths
  }

  method ReadImage(size: Sizes, files: Files, d: Descriptor, refs: References) returns (r: Reply<Picture>)
    modifies refs
    ensures r == LoadImage(size, files, d) && Grown(refs, {d.path}, r.Returned?)
  {
    var a := refs.Load(size, files, d);
    if a.Raised? { return Raised(a.error); }
    if !a.value.Image? { return Raised(OtherError); }
    return Returned(a.value.pixels);
  }

  method ReadSensor(size: Sizes, files: Files, d: SensorDoc, refs: References) returns (r: Reply<Sensor>)
    modifies refs
    ensures r == LoadSensor(size, files, d) && Grown(refs, SensorPaths(d), r.Returned?)
  {
    if d.frameId == "" || d.calibrationId == "" || d.present != d.payload.Some? { return Raised(OtherError); }
    var payload: Option<Picture> := None;
    if d.payload.Some? {
      var p := ReadImage(size, files, d.payload.value, refs);
      if p.Raised? { return Raised(p.error); }
      payload := Some(p.value);
    }
    return Returned(Sensor(payload, d.validity, d.deliveryIndex, d.deliveryTime, d.visibleSourceTime, d.frameId,
                           d.calibrationId));
  }

  /** The pictures not remaining are loaded, and their paths looked up. */
  predicate PartlyRead(size: Sizes, files: Files, docs: map<string, Descriptor>, remaining: set<string>,
                       vision: map<string, Picture>, found: set<ArrayPath>)
  {
    && remaining <= docs.Keys && vision.Keys == docs.Keys - remaining
    && (forall name <- vision :: name != "" && LoadImage(size, files, docs[name]) == Returned(vision[name]))
    && found == NamedPaths(docs, vision.Keys)
  }

  lemma {:induction false} ReadNext(size: Sizes, files: Files, docs: map<string, Descriptor>,
                                    remaining: set<string>, vision: map<string, Picture>, found: set<ArrayPath>,
                                    name: string, p: Picture)
    requires PartlyRead(size, files, docs, remaining, vision, found) && name in remaining && name != ""
    requires LoadImage(size, files, docs[name]) == Returned(p)
    ensures PartlyRead(size, files, docs, remaining - {name}, vision[name := p], found + {docs[name].path})
  {
    var next := vision[name := p];
    assert next.Keys == docs.Keys - (remaining - {name});
    forall q ensures q in found + {docs[name].path} <==> q in NamedPaths(docs, next.Keys) {
      if q in found {
        var n :| n in vision && q == docs[n].path;
        assert n in next;
      }
      if q == docs[name].path { assert name in next; }
    }
  }

  lemma {:induction false} ReadAll(size: Sizes, files: Files, docs: map<string, Descriptor>,
                                   vision: map<string, Picture>, found: set<ArrayPath>)
    requires docs != map[] && PartlyRead(size, files, docs, {}, vision, found)
    ensures LoadVision(size, files, docs) == Returned(vision)
    ensures found == VisionPaths(docs)
  {
    assert docs.Keys - {} == docs.Keys;
    forall name <- docs ensures name != "" && LoadImage(size, files, docs[name]) == Returned(vision[name]) {
      assert name in vision;
    }
    assert (map name <- docs :: LoadImage(size, files, docs[name]).value) == vision;
  }

  lemma {:induction false} VisionFails(size: Sizes, files: Files, docs: map<string, Descriptor>, name: string)
    requires name in docs && LoadImage(size, files, docs[name]).Raised?
    ensures LoadVision(size, files, docs) == Raised(OtherError)
  {
  }

  method ReadVision(size: Sizes, files: Files, docs: map<string, Descriptor>, refs: References)
    returns (r: Reply<map<string, Picture>>)
    modifies refs
    ensures r == LoadVision(size, files, docs) && Grown(refs, VisionPaths(docs), r.Returned?)
  {
    if docs == map[] || "" in docs { return Raised(OtherError); }
    r := ReadPictures(size, files, docs, refs);
  }

  /** One more picture. */
  method ReadPicture(size: Sizes, files: Files, docs: map<string, Descriptor>, name: string, remaining: set<string>,
                     vision: map<string, Picture>, refs: References, ghost base: set<ArrayPath>,
                     ghost found: set<ArrayPath>)
    returns (r: Reply<map<string, Picture>>)
    requires PartlyRead(size, files, docs, remaining, vision, found) && refs.paths == base + found
    requires name in remaining && name != ""
    modifies refs
    ensures r.Raised? ==> r == LoadVision(size, files, docs)
    ensures r.Returned? ==> PartlyRead(size, files, docs, remaining - {name}, r.value, found + {docs[name].path})
    ensures r.Returned? ==> refs.paths == base + (found + {docs[name].path})
  {
    var p := ReadImage(size, files, docs[name], refs);
    if p.Raised? {
      VisionFails(size, files, docs, name);
      return Raised(OtherError);
    }
    ReadNext(size, files, docs, remaining, vision, found, name, p.value);
    return Returned(vision[name := p.value]);
  }

  /** Loads the pictures one by one, in whatever order the mapping yields them. */
  method ReadPictures(size: Sizes, files: Files, docs: map<string, Descriptor>, refs: References)
    returns (r: Reply<map<string, Picture>>)
    requires docs != map[] && "" !in docs
    modifies refs
    ensures r == LoadVision(size, files, docs) && Grown(refs, VisionPaths(docs), r.Returned?)
  {
    var vision: map<string, Picture> := map[];
    var remaining := docs.Keys;
    ghost var found: set<ArrayPath> := {};
    ghost var base := refs.paths;
    while remaining != {}
      invariant PartlyRead(size, files, docs, remaining, vision, found) && refs.paths == base + found
      decreases |remaining|
    {
      var name :| name in remaining;
      var next := ReadPicture(size, files, docs, name, remaining, vision, refs, base, found);
      if next.Raised? { return next; }
      found := found + {docs[name].path};
      vision := next.value;
      remaining := remaining - {name};
    }
    ReadAll(size, files, docs, vision, found);
    return Returned(vision);
  }

  method ReadObservation(size: Sizes, files: Files, d: RecordDoc, refs: References) returns (r: Reply<Observation>)
    modifies refs
    ensures r == LoadObservation(size, files, d) && Grown(refs, RecordPaths(d), r.Returned?)
  {
    if d.episodeId == Foreign("") || d.task == "" || d.seed < 0 || d.stepIndex < 0 { return Raised(OtherError); }
    var left := ReadSensor(size, files, d.tactile.left, refs);
    if left.Raised? { return Raised(left.error); }
    var right := ReadSensor(size, files, d.tactile.right, refs);
    if right.Raised? { return Raised(right.error); }
    var vision := ReadVision(size, files, d.vision, refs);
    if vision.Raised? { return Raised(vision.error); }
    var proprio := refs.Load(size, files, d.proprio);
    if proprio.Raised? { return Raised(proprio.error); }
    if !proprio.value.Vector? { return Raised(OtherError); }
    return Returned(Observation(d.episodeId, d.task, d.seed, d.stepIndex,
                                PerSlot(left.value, right.value, d.tactile.leftFirst), vision.value,
                                proprio.value.values));
  }

  method ReadRecord(size: Sizes, files: Files, d: RecordDoc, refs: References) returns (r: Reply<EvaluationRecord>)
    modifies refs
    ensures r == LoadRecord(size, files, d) && Grown(refs, RecordPaths(d), r.Returned?)
  {
    var o := ReadObservation(size, files, d, refs);
    if o.Raised? { return Raised(o.error); }
    if d.provenance.left.physicalSource == "" || d.provenance.right.physicalSource == "" { return Raised(OtherError); }
    var built := BuildRecord(Content(o.value, d.provenance), Some(d.cleanHash));
    if built.Raised? { return Raised(built.error); }
    if built.value.deliveredHash != d.deliveredHash { return Raised(OtherError); }
    return built;
  }

  method ReadTrace(size: Sizes, files: Files, docs: seq<RecordDoc>, refs: References) returns (r: Reply<Trace>)
    modifies refs
    ensures r == LoadTrace(size, files, docs) && Grown(refs, TracePaths(docs), r.Returned?)
  {
    var trace: Trace := [];
    for n := 0 to |docs|
      invariant LoadTrace(size, files, docs[..n]) == Returned(trace)
      invariant refs.paths == old(refs.paths) + TracePaths(docs[..n])
    {
      assert docs[..n + 1][..n] == docs[..n];
      var record := ReadRecord(size, files, docs[n], refs);
      if record.Raised? {
        TraceFails(size, files, docs, n + 1);
        return Raised(record.error);
      }
      trace := trace + [record.value];
    }
    assert docs[..|docs|] == docs;
    return Returned(trace);
  }

  lemma {:induction false} TraceFails(size: Sizes, files: Files, docs: seq<RecordDoc>, n: nat)
    requires n <= |docs| && LoadTrace(size, files, docs[..n]).Raised?
    ensures LoadTrace(size, files, docs) == LoadTrace(size, files, docs[..n])
    decreases |docs| - n
  {
    if n < |docs| {
      assert docs[..n + 1][..n] == docs[..n];
      TraceFails(size, files, docs, n + 1);
    } else {
      assert docs[..n] == docs;
    }
  }

  method ReadEntries(size: Sizes, files: Files, docs: seq<EntryDoc>, refs: References)
    returns (r: Reply<seq<ActionEntry>>)
    modifies refs
    ensures r == LoadEntries(size, files, docs) && Grown(refs, EntryPaths(docs), r.Returned?)
  {
    var entries: seq<ActionEntry> := [];
    for n := 0 to |docs|
      invariant LoadEntries(size, files, docs[..n]) == Returned(entries)
      invariant refs.paths == old(refs.paths) + EntryPaths(docs[..n])
    {
      assert docs[..n + 1][..n] == docs[..n];
      var a := refs.Load(size, files, docs[n].actions);
      var entry := LoadEntry(size, files, docs[n]);
      if a.Raised? || !a.value.Table? || !EntryOk(a.value.rows, docs[n].sourceStep) {
        EntriesFail(size, files, docs, n + 1);
        return Raised(entry.error);
      }
      entries := entries + [ActionEntry(docs[n].plan, docs[n].sourceStep, a.value.rows)];
    }
    assert docs[..|docs|] == docs;
    return Returned(entries);
  }

  lemma {:induction false} EntriesFail(size: Sizes, files: Files, docs: seq<EntryDoc>, n: nat)
    requires n <= |docs| && LoadEntries(size, files, docs[..n]).Raised?
    ensures LoadEntries(size, files, docs) == LoadEntries(size, files, docs[..n])
    decreases |docs| - n
  {
    if n < |docs| {
      assert docs[..n + 1][..n] == docs[..n];
      EntriesFail(size, files, docs, n + 1);
    } else {
      assert docs[..n] == docs;
    }
  }

  /** Loads a bundle; its documents must refer to exactly the arrays it stores. */
  method ReadBundle(size: Sizes, b: Bundle, report: Report) returns (r: Reply<Evidence>)
    ensures r == if LoadEvidence(size, b, report).Returned? && BundlePaths(b) != b.files.Keys
                 then Raised(OtherError) else LoadEvidence(size, b, report)
  {
    var refs := new References();
    var entries := ReadEntries(size, b.files, b.actions, refs);
    if entries.Raised? { return Raised(entries.error); }
    if b.delivery.manifest.None? { return Raised(OtherError); }
    var clean := ReadTrace(size, b.files, b.delivery.clean, refs);
    if clean.Raised? { return Raised(clean.error); }
    var delivered := ReadTrace(size, b.files, b.delivery.delivered, refs);
    if delivered.Raised? { return Raised(delivered.error); }
    var f := Finalization(clean.value, delivered.value, Some(report), b.delivery.cleanTrace,
                          b.delivery.deliveredTrace, b.delivery.manifest);
    if !FinalizationOk(f) || refs.paths != b.files.Keys { return Raised(OtherError); }
    return Returned(Evidence(entries.value, f));
  }
}
