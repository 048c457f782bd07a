/** The independent checker of execution evidence: record identity, counts and chronology. */
module Chronology {
  import opened Basics
  import opened Trials
  import opened Records
  import opened ValidationCodes
  import opened Delivery
  import opened Results
  import opened RunnerChecks
  import opened RunnerInvariant

  predicate SlotShaped(sensor: Sensor, p: Provenance, step: int) {
    && sensor.deliveryIndex == step
    && p.payloadHash == (if sensor.payload.None? then None else Some(Sha(sensor.payload.value)))
  }

  predicate RecordShaped(r: EvaluationRecord, step: int) {
    && r.content.observation.tactile.leftFirst == r.content.provenance.leftFirst
    && SlotShaped(r.Sensor(Left), r.Prov(Left), step) && SlotShaped(r.Sensor(Right), r.Prov(Right), step)
  }

  predicate RecordIdentified(r: EvaluationRecord, step: int, c: EpisodeContext) {
    var o := r.Observed();
    o.stepIndex == step && o.episodeId == c.episodeId && o.task == c.task && o.seed == c.initialSeed
  }

  predicate RecordOk(r: EvaluationRecord, step: int, c: EpisodeContext, faultFree: bool) {
    RecordIdentified(r, step, c) && RecordShaped(r, step) && (faultFree ==> FaultFree(r))
  }

  predicate TraceOk(trace: Trace, c: EpisodeContext, faultFree: bool) {
    forall i :: 0 <= i < |trace| ==> RecordOk(trace[i], i, c, faultFree)
  }

  predicate CountsOk(spec: RunSpec, b: ResultBody, clean: Trace, delivered: Trace, entries: seq<ActionEntry>) {
    && b.controlCycleCount <= spec.maxControlCycles && b.observationCount <= spec.maxObservationSteps
    && b.controlCycleCount == |entries| && b.observationCount == |clean| == |delivered|
  }

  /** Every entry starts at the observation that the entries before it lead to. */
  predicate EntryInOrder(spec: RunSpec, e: ActionEntry, before: nat, delivered: Trace) {
    && |e.actions| <= spec.executeActionSteps && before < |delivered|
    && e.sourceStep == delivered[before].Observed().stepIndex
  }

  predicate InOrder(spec: RunSpec, entries: seq<ActionEntry>, delivered: Trace) {
    forall k :: 0 <= k < |entries| ==> EntryInOrder(spec, entries[k], Executed(entries[..k]), delivered)
  }

  /** The evidence of a run is accepted. */
  predicate Accepts(trial: TrialManifest, spec: RunSpec, b: ResultBody, f: Finalization, entries: seq<ActionEntry>) {
    var c := BuildEpisodeContext(trial, spec.prompt);
    && TraceOk(f.clean, c, true) && TraceOk(f.delivered, c, false)
    && CountsOk(spec, b, f.clean, f.delivered, entries)
    && InOrder(spec, entries, f.delivered) && b.observationCount == Executed(entries) + 1
  }

  method CheckTrace(trace: Trace, c: EpisodeContext, faultFree: bool) returns (ok: bool)
    ensures ok <==> TraceOk(trace, c, faultFree)
  {
    for step := 0 to |trace|
      invariant forall i :: 0 <= i < step ==> RecordOk(trace[i], i, c, faultFree)
    {
      if !RecordOk(trace[step], step, c, faultFree) { return false; }
    }
    return true;
  }

  method CheckEntry(spec: RunSpec, e: ActionEntry, before: nat, delivered: Trace) returns (ok: bool)
    ensures ok <==> EntryInOrder(spec, e, before, delivered)
  {
    if |e.actions| > spec.executeActionSteps { return false; }
    if before >= |delivered| { return false; }
    return e.sourceStep == delivered[before].Observed().stepIndex;
  }

  /** Walks the action entries with a running total of executed actions. */
  method CheckEntries(spec: RunSpec, entries: seq<ActionEntry>, delivered: Trace)
    returns (ok: bool, executed: nat)
    ensures ok <==> InOrder(spec, entries, delivered)
    ensures ok ==> executed == Executed(entries)
  {
    executed := 0;
    for k := 0 to |entries|
      invariant executed == Executed(entries[..k]) && InOrder(spec, entries[..k], delivered)
    {
      var inOrder := CheckEntry(spec, entries[k], executed, delivered);
      if !inOrder { return false, executed; }
      InOrderNext(spec, entries, k, delivered);
      executed := executed + |entries[k].actions|;
    }
    assert entries[..|entries|] == entries;
    return true, executed;
  }

  lemma {:induction false} InOrderNext(spec: RunSpec, entries: seq<ActionEntry>, k: nat, delivered: Trace)
    requires k < |entries| && InOrder(spec, entries[..k], delivered)
    requires EntryInOrder(spec, entries[k], Executed(entries[..k]), delivered)
    ensures InOrder(spec, entries[..k + 1], delivered)
    ensures Executed(entries[..k + 1]) == Executed(entries[..k]) + |entries[k].actions|
  {
    var front, next := entries[..k], entries[..k + 1];
    assert next[..k] == front;
    forall i | 0 <= i < |next| ensures EntryInOrder(spec, next[i], Executed(next[..i]), delivered) {
      assert next[..i] == entries[..i];
      if i < k { assert front[..i] == entries[..i] && EntryInOrder(spec, front[i], Executed(front[..i]), delivered); }
    }
  }

  method ValidateExecution(trial: TrialManifest, spec: RunSpec, b: ResultBody, f: Finalization,
                           entries: seq<ActionEntry>) returns (ok: bool)
    ensures ok <==> Accepts(trial, spec, b, f, entries)
  {
    var c := BuildEpisodeContext(trial, spec.prompt);
    ok := CheckTrace(f.clean, c, true);
    if !ok { return; }
    ok := CheckTrace(f.delivered, c, false);
    if !ok { return; }
    if !CountsOk(spec, b, f.clean, f.delivered, entries) { return false; }
    var executed;
    ok, executed := CheckEntries(spec, entries, f.delivered);
    if !ok { return; }
    return b.observationCount == executed + 1;
  }
}
