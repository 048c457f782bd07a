/** What accepted execution evidence looks like, record by record and action by action. */
module ChronologyProperties {
  import opened Basics
  import opened Trials
  import opened Records
  import opened ValidationCodes
  import opened Delivery
  import opened Results
  import opened RunnerChecks
  import opened RunnerInvariant
  import opened Chronology

  /** A slot says that it was delivered at this step, and its provenance holds the digest of exactly the
      payload it shows. */
  predicate SlotTold(r: EvaluationRecord, slot: Slot, step: int) {
    var (sensor, prov) := (r.content.observation.tactile.At(slot), r.content.provenance.At(slot));
    && sensor.deliveryIndex == step
    && (sensor.payload.Some? ==> prov.payloadHash == Some(Sha(sensor.payload.value)))
    && (sensor.payload.None? ==> prov.payloadHash.None?)
  }

  /** A record of the trial's episode at this step. */
  predicate RecordTold(r: EvaluationRecord, trial: TrialManifest, step: int) {
    var o := r.content.observation;
    && o.stepIndex == step && o.episodeId == Sha(trial) && o.task == trial.task && o.seed == trial.initialSeed
    && o.tactile.leftFirst == r.content.provenance.leftFirst
    && SlotTold(r, Left, step) && SlotTold(r, Right, step)
  }

  predicate CleanTold(r: EvaluationRecord, trial: TrialManifest, step: int) {
    RecordTold(r, trial, step) && forall slot: Slot :: r.content.provenance.At(slot).faults == []
  }

  /** How many actions the first k entries executed. */
  function ActionsBefore(entries: seq<ActionEntry>, k: nat): nat
    requires k <= |entries|
  {
    if k == 0 then 0 else ActionsBefore(entries, k - 1) + |entries[k - 1].actions|
  }

  lemma {:induction false} ActionsBeforeIs(entries: seq<ActionEntry>, k: nat)
    requires k <= |entries|
    ensures Executed(entries[..k]) == ActionsBefore(entries, k)
  {
    if k > 0 {
      ActionsBeforeIs(entries, k - 1);
      assert entries[..k][..k - 1] == entries[..k - 1];
    }
  }

  /** Entry k was planned at the step that the actions before it lead to, and keeps the prefix budget. */
  predicate EntryTold(spec: RunSpec, entries: seq<ActionEntry>, k: int) {
    && 0 <= k < |entries|
    && entries[k].sourceStep == ActionsBefore(entries, k)
    && |entries[k].actions| <= spec.executeActionSteps
  }

  /** Evidence is accepted if and only if every record is of the trial's episode at its own step, the clean
      ones free of faults, every entry was planned at the step the actions before it lead to, with a
      record to spare for it, and the counts are those of the run and within its budgets. */
  lemma {:induction false} AcceptsExactly(trial: TrialManifest, spec: RunSpec, b: ResultBody, f: Finalization,
                                          entries: seq<ActionEntry>)
    ensures Accepts(trial, spec, b, f, entries) <==>
              && (forall i :: 0 <= i < |f.clean| ==> CleanTold(f.clean[i], trial, i))
              && (forall i :: 0 <= i < |f.delivered| ==> RecordTold(f.delivered[i], trial, i))
              && (forall k :: 0 <= k < |entries| ==> EntryTold(spec, entries, k))
              && |f.clean| == |f.delivered| == 1 + ActionsBefore(entries, |entries|)
              && b.observationCount == |f.clean| <= spec.maxObservationSteps
              && b.controlCycleCount == |entries| <= spec.maxControlCycles
  {
    var c := BuildEpisodeContext(trial, spec.prompt);
    CleanExactly(f.clean, trial, spec.prompt);
    DeliveredExactly(f.delivered, trial, spec.prompt);
    ActionsBeforeIs(entries, |entries|);
    assert entries[..|entries|] == entries;
    if TraceOk(f.delivered, c, false) && |f.delivered| == 1 + ActionsBefore(entries, |entries|) {
      EntriesExactly(trial, spec, entries, f.delivered);
    }
  }

  lemma {:induction false} CleanExactly(trace: Trace, trial: TrialManifest, prompt: string)
    ensures TraceOk(trace, BuildEpisodeContext(trial, prompt), true) <==>
            forall i :: 0 <= i < |trace| ==> CleanTold(trace[i], trial, i)
  {
    forall i | 0 <= i < |trace|
      ensures RecordOk(trace[i], i, BuildEpisodeContext(trial, prompt), true) <==> CleanTold(trace[i], trial, i)
    {
      RecordExactly(trace[i], i, trial, prompt);
    }
  }

  lemma {:induction false} DeliveredExactly(trace: Trace, trial: TrialManifest, prompt: string)
    ensures TraceOk(trace, BuildEpisodeContext(trial, prompt), false) <==>
            forall i :: 0 <= i < |trace| ==> RecordTold(trace[i], trial, i)
  {
    forall i | 0 <= i < |trace|
      ensures RecordOk(trace[i], i, BuildEpisodeContext(trial, prompt), false) <==> RecordTold(trace[i], trial, i)
    {
      RecordExactly(trace[i], i, trial, prompt);
    }
  }

  lemma {:induction false} RecordExactly(r: EvaluationRecord, step: int, trial: TrialManifest, prompt: string)
    ensures RecordOk(r, step, BuildEpisodeContext(trial, prompt), false) <==> RecordTold(r, trial, step)
    ensures RecordOk(r, step, BuildEpisodeContext(trial, prompt), true) <==> CleanTold(r, trial, step)
  {
  }

  lemma {:induction false} BeforeGrows(entries: seq<ActionEntry>, k: nat, n: nat)
    requires k <= n <= |entries|
    ensures ActionsBefore(entries, k) <= ActionsBefore(entries, n)
  {
    if k < n { BeforeGrows(entries, k, n - 1); }
  }

  lemma {:induction false} EntriesExactly(trial: TrialManifest, spec: RunSpec, entries: seq<ActionEntry>,
                                          delivered: Trace)
    requires forall i :: 0 <= i < |delivered| ==> RecordTold(delivered[i], trial, i)
    requires |delivered| == 1 + ActionsBefore(entries, |entries|)
    ensures InOrder(spec, entries, delivered) <==> forall k :: 0 <= k < |entries| ==> EntryTold(spec, entries, k)
  {
    forall k | 0 <= k < |entries|
      ensures EntryInOrder(spec, entries[k], Executed(entries[..k]), delivered) <==> EntryTold(spec, entries, k)
    {
      ActionsBeforeIs(entries, k);
      BeforeGrows(entries, k, |entries|);
      assert RecordTold(delivered[ActionsBefore(entries, k)], trial, ActionsBefore(entries, k));
    }
  }
}
