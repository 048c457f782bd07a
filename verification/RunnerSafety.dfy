/** What a run does to its policy and its backend, how far it goes, and when it scores. */
module RunnerSafety {
  import opened Basics
  import opened Trials
  import opened Records
  import opened Delivery
  import opened Results
  import opened RunnerChecks
  import opened Runner
  import opened RunnerInvariant
  import opened RunnerProperties

  // ----------------------------------------------------------------- the policy's view

  /** What a spectator that was only ever shown legal things can conclude. */
  lemma {:induction false} ShownMeans(calls: seq<PolicyCall>, stream: seq<Observation>)
    requires var v := Follow(calls, stream); v.Shown? || v.Unmet?
    ensures forall i :: 0 <= i < |calls| ==> !calls[i].Abort? && !calls[i].PolicyClose?
    ensures calls == [] <==> Follow(calls, stream).Unmet?
    ensures calls != [] ==> calls[0].PolicyReset?
    ensures forall i :: 0 < i < |calls| ==> !calls[i].PolicyReset?
  {
    if calls != [] { ShownMeans(calls[..|calls| - 1], stream); }
  }

  /** Every accepted call sequence closes the policy once, at the end, aborts it at most
      once, just before, and only after having reset it. */
  lemma {:induction false} DoneMeans(calls: seq<PolicyCall>, stream: seq<Observation>)
    requires Follow(calls, stream) == Done
    ensures calls != [] && calls[|calls| - 1].PolicyClose?
    ensures forall i :: 0 <= i < |calls| - 1 ==> !calls[i].PolicyClose?
    ensures forall i :: 0 <= i < |calls| - 2 ==> !calls[i].Abort?
    ensures |calls| >= 2 ==> calls[0].PolicyReset?
  {
    var n := |calls|;
    var rest := calls[..n - 1];
    if n >= 2 && calls[n - 2].Abort? {
      ShownMeans(rest[..n - 2], stream);
      assert forall i :: 0 <= i < n - 2 ==> rest[..n - 2][i] == calls[i];
    } else {
      assert rest != [] ==> rest[|rest| - 1] == calls[n - 2];
      ShownMeans(rest, stream);
    }
  }

  /** All observations handed over by commits, in order. */
  function Committed(calls: seq<PolicyCall>): seq<Observation> {
    if calls == [] then []
    else
      var last := calls[|calls| - 1];
      Committed(calls[..|calls| - 1]) + if last.Commit? then last.observations else []
  }

  /** The initial observation and the committed ones are the stream, without gap or repeat. */
  lemma {:induction false} CommittedIsStream(calls: seq<PolicyCall>, stream: seq<Observation>)
    requires Follow(calls, stream).Shown? && stream != []
    ensures var last := Follow(calls, stream).last;
            last < |stream| && Committed(calls) == stream[1..last + 1]
  {
    var rest, call := calls[..|calls| - 1], calls[|calls| - 1];
    if call.PolicyReset? {
      assert Follow(rest, stream).Unmet?;
      ShownMeans(rest, stream);
    } else {
      CommittedIsStream(rest, stream);
      if call.Commit? { CommitJoins(calls, stream); }
    }
  }

  lemma {:induction false} CommitJoins(calls: seq<PolicyCall>, stream: seq<Observation>)
    requires calls != [] && calls[|calls| - 1].Commit? && Follow(calls, stream).Shown?
    requires var v := Follow(calls[..|calls| - 1], stream);
             v.Shown? ==> v.last < |stream| && Committed(calls[..|calls| - 1]) == stream[1..v.last + 1]
    ensures var last := Follow(calls, stream).last; last < |stream| && Committed(calls) == stream[1..last + 1]
  {
    var mid, call := Follow(calls[..|calls| - 1], stream).last + 1, calls[|calls| - 1];
    Adjacent(stream, mid, mid + |call.observations|);
  }

  lemma {:induction false} Adjacent(stream: seq<Observation>, mid: nat, hi: nat)
    requires 1 <= mid <= hi <= |stream|
    ensures stream[1..mid] + stream[mid..hi] == stream[1..hi]
  {
  }

  lemma {:induction false} CloseFollows(calls: seq<PolicyCall>, stream: seq<Observation>)
    requires var v := Follow(calls, stream); !v.Done? && !v.Wronged?
    ensures Follow(calls + [PolicyClose], stream) == Done
  {
    FollowNext(calls, PolicyClose, stream);
  }

  /** The policy calls of an attempted run, before the final close. */
  function PolicyLog(j: Job, w: World): seq<PolicyCall>
    requires Schedulable(j.channel)
  {
    var s := Attempt(j, w).0;
    if Caught(j, w).None? || !s.entered then s.policyCalls
    else
      AttemptEnds(j, w);
      var (t, p) := Attempt(j, w);
      var stage := if p.Broken? then t.stage else ValidationStage;
      t.policyCalls + [Abort(CrashCode(stage, Caught(j, w).value))]
  }

  lemma {:induction false} LogIsLog(j: Job, w: World)
    requires Schedulable(j.channel) && Attempted(j)
    ensures RunTrial(j, w).policyCalls == PolicyLog(j, w) + [PolicyClose]
  {
    AttemptEnds(j, w);
  }

  lemma {:induction false} AttemptSpectated(j: Job, w: World)
    ensures var s := Attempt(j, w).0;
            var v := Follow(s.policyCalls, Observed(s.session.delivered));
            if s.entered then v.Shown? else v.Unmet?
  {
    AttemptKeeps(j, w);
    AttemptEnds(j, w);
    var s := Attempt(j, w).0;
    if Early(j, s) && s.entered {
      FollowNext([], PolicyReset(Context(j)), Observed(s.session.delivered));
      assert [] + [PolicyReset(Context(j))] == s.policyCalls;
    }
  }

  lemma {:induction false} LogSpectated(j: Job, w: World)
    requires Schedulable(j.channel) && Attempted(j)
    ensures var v := Follow(PolicyLog(j, w), Stream(j, w)); !v.Done? && !v.Wronged?
  {
    AttemptSpectated(j, w);
    LogExtends(j, w);
    var s := Attempt(j, w).0;
    var log := PolicyLog(j, w);
    if log != s.policyCalls { FollowNext(s.policyCalls, log[|s.policyCalls|], Stream(j, w)); }
  }

  /** The handler adds at most one abort, and only for a policy that was met. */
  lemma {:induction false} LogExtends(j: Job, w: World)
    requires Schedulable(j.channel)
    ensures var (s, log) := (Attempt(j, w).0, PolicyLog(j, w));
            log == s.policyCalls
            || (s.entered && |log| == |s.policyCalls| + 1 && log[|s.policyCalls|].Abort?
                && log == s.policyCalls + [log[|s.policyCalls|]])
  {
  }

  /** In every run, whatever the environment does, the policy is a spectator of the delivered
      stream: reset once, then asked about the latest delivered observation and told the next
      ones in turn, aborted at most once, closed exactly once. */
  lemma {:induction false} PolicyIsSpectator(j: Job, w: World)
    requires Schedulable(j.channel)
    ensures Follow(RunTrial(j, w).policyCalls, Stream(j, w)) == Done
  {
    if Attempted(j) {
      LogIsLog(j, w);
      LogSpectated(j, w);
      CloseFollows(PolicyLog(j, w), Stream(j, w));
    } else {
      CloseFollows([], []);
      assert [] + [PolicyClose] == [PolicyClose];
    }
  }

  /** A run that no exception reaches has shown its policy the whole delivered trace, which
      is exactly the trace the evaluator receives; the calls form reset (infer commit)*,
      unless the last plan proposed no action. */
  lemma {:induction false} CompletedRunShowsAll(j: Job, w: World)
    requires JobOk(j) && Attempted(j) && Caught(j, w).None?
    ensures var r := RunTrial(j, w);
            && r.finalization.Some? && Observed(r.finalization.value.delivered) == Stream(j, w)
            && ShowsAll(w, Stream(j, w), r.policyCalls[..|r.policyCalls| - 1], r.entries)
  {
    CompletedFinalization(j, w);
    CompletedSteady(j, w);
    var s := Attempt(j, w).0;
    SteadyShowsAll(j, w, s);
    assert (s.policyCalls + [PolicyClose])[..|s.policyCalls|] == s.policyCalls;
  }

  /** The policy was shown the whole stream: its commits hand over everything after the initial
      observation and acknowledge exactly the recorded actions, and every plan was committed
      unless the last one proposed nothing. */
  predicate ShowsAll(w: World, stream: seq<Observation>, calls: seq<PolicyCall>, entries: seq<ActionEntry>) {
    && stream != [] && Committed(calls) == stream[1..] && Acknowledged(calls) == Recorded(entries)
    && Follow(calls, stream).Shown? && (Follow(calls, stream).asked ==> AskedInVain(w, |entries|))
  }

  lemma {:induction false} SteadyShowsAll(j: Job, w: World, s: State)
    requires Steady(j, w, s) && (s.stage.InferStage? ==> AskedInVain(w, s.cycles))
    ensures ShowsAll(w, Observed(s.session.delivered), s.policyCalls, s.entries)
  {
    CommittedIsStream(s.policyCalls, Observed(s.session.delivered));
  }

  /** A run that no exception reaches ends steadily, and its session finalizes. */
  lemma {:induction false} CompletedSteady(j: Job, w: World)
    requires JobOk(j) && Attempted(j) && Caught(j, w).None?
    ensures var s := Attempt(j, w).0;
            && Schedulable(s.session.channel) && !s.signal.Running? && Conclude(j, s).1.Some?
            && Conclude(j, s).1.value.delivered == s.session.delivered
            && Steady(j, w, s) && (s.stage.InferStage? ==> AskedInVain(w, s.cycles))
  {
    AttemptEnds(j, w);
    AttemptKeeps(j, w);
    var s := Attempt(j, w).0;
    ConcludeReports(j, s);
    FinalizeSound(s.session);
  }

  lemma {:induction false} CompletedFinalization(j: Job, w: World)
    requires Schedulable(j.channel) && Attempted(j) && Caught(j, w).None?
    ensures var s := Attempt(j, w).0;
            && Schedulable(s.session.channel) && !s.signal.Running?
            && RunTrial(j, w).finalization == Conclude(j, s).1 && RunTrial(j, w).entries == s.entries
            && RunTrial(j, w).policyCalls == s.policyCalls + [PolicyClose]
  {
    AttemptEnds(j, w);
  }

  // ------------------------------------------------------------------ the backend's calls

  /** Reset, one observation, then one execution per cycle. */
  ghost predicate Driven(j: Job, s: State) {
    var calls := s.backendCalls;
    && |calls| == s.cycles + 2 && calls[0] == BackendReset(Context(j)) && calls[1] == Observe
    && forall i :: 2 <= i < |calls| ==> calls[i].Execute? && 1 <= |calls[i].actions| <= j.spec.executeActionSteps
  }

  lemma {:induction false} CycleDriven(j: Job, w: World, s: State)
    requires Driven(j, s) && s.current.Some?
    ensures Driven(j, Cycle(j, w, s).0)
  {
    var t := Cycle(j, w, s).0;
    CycleCalls(j, w, s);
    if t.cycles > s.cycles { DrivenNext(j, s, t); }
  }

  lemma {:induction false} DrivenNext(j: Job, s: State, t: State)
    requires Driven(j, s) && t.cycles == s.cycles + 1 && |t.backendCalls| == |s.backendCalls| + 1
    requires t.backendCalls[..|s.backendCalls|] == s.backendCalls
    requires var call := t.backendCalls[|s.backendCalls|];
             call.Execute? && 1 <= |call.actions| <= j.spec.executeActionSteps
    ensures Driven(j, t)
  {
    assert forall i :: 0 <= i < |s.backendCalls| ==> t.backendCalls[i] == s.backendCalls[i];
  }

  lemma {:induction false} HandCalls(w: World, s: State, plan: ActionPlan, b: Batch)
    requires 1 <= |b.transitions| <= |plan.actions| && 1 <= s.cycles
    ensures Hand(w, s, plan, b).0.backendCalls == s.backendCalls && Hand(w, s, plan, b).0.cycles == s.cycles
  {
  }

  lemma {:induction false} CycleCalls(j: Job, w: World, s: State)
    requires s.current.Some?
    ensures var t := Cycle(j, w, s).0;
            if t.cycles == s.cycles then t.backendCalls == s.backendCalls
            else
              && t.cycles == s.cycles + 1 && |t.backendCalls| == |s.backendCalls| + 1
              && t.backendCalls[..|s.backendCalls|] == s.backendCalls
              && t.backendCalls[|s.backendCalls|].Execute?
              && 1 <= |t.backendCalls[|s.backendCalls|].actions| <= j.spec.executeActionSteps
  {
    var (asked, plan) := Consult(w, s);
    if Poll(j, w, s).1.Going? && plan.Returned? && Requested(j, asked, plan.value) >= 1 {
      var (acted, batch) := Act(j, w, asked, plan.value);
      if batch.Returned? {
        ActAccepts(j, w, asked, plan.value);
        HandCalls(w, acted, plan.value, batch.value);
      }
    }
  }

  lemma {:induction false} LoopDriven(j: Job, w: World, s: State)
    requires Driven(j, s) && s.current.Some?
    ensures Driven(j, Loop(j, w, s).0)
    decreases j.spec.maxControlCycles - s.cycles
  {
    CycleDriven(j, w, s);
    if Cycle(j, w, s).1.Going? { LoopDriven(j, w, Cycle(j, w, s).0); }
  }

  /** What is asked of the backend before it is closed. */
  lemma {:induction false} AttemptDriven(j: Job, w: World)
    ensures var s := Attempt(j, w).0;
            Driven(j, s) || (s.cycles == 0 && s.backendCalls == [BackendReset(Context(j))])
  {
    var (prepared, p) := Prepare(j, w);
    if p.Going? && Greet(j, w, prepared).1.Going? { LoopDriven(j, w, Greet(j, w, prepared).0); }
  }

  /** A whole call log of a backend: reset, one observation, one execution of between one and
      the configured number of actions per cycle, and one final close. */
  ghost predicate WellDriven(j: Job, calls: seq<BackendCall>, cycles: nat) {
    var n := |calls|;
    && n >= 2 && calls[0] == BackendReset(Context(j)) && calls[n - 1].BackendClose?
    && (if n == 2 then cycles == 0 else n == cycles + 3 && calls[1] == Observe)
    && (forall i :: 2 <= i < n - 1 ==> calls[i].Execute? && 1 <= |calls[i].actions| <= j.spec.executeActionSteps)
  }

  lemma {:induction false} DrivenClosed(j: Job, s: State)
    requires Driven(j, s) || (s.cycles == 0 && s.backendCalls == [BackendReset(Context(j))])
    ensures WellDriven(j, s.backendCalls + [BackendClose], s.cycles)
  {
    var log := s.backendCalls;
    assert forall i :: 0 <= i < |log| ==> (log + [BackendClose])[i] == log[i];
  }

  /** In every run the backend is closed exactly once, after everything else; an attempted run
      resets it first, then observes once, then executes once per control cycle. */
  lemma {:induction false} BackendIsDriven(j: Job, w: World)
    requires Schedulable(j.channel)
    ensures if Attempted(j) then WellDriven(j, RunTrial(j, w).backendCalls, Attempt(j, w).0.cycles)
            else RunTrial(j, w).backendCalls == [BackendClose]
  {
    BackendLog(j, w);
    if Attempted(j) {
      AttemptDriven(j, w);
      DrivenClosed(j, Attempt(j, w).0);
    }
  }

  lemma {:induction false} BackendLog(j: Job, w: World)
    requires Schedulable(j.channel)
    ensures RunTrial(j, w).backendCalls ==
            (if Attempted(j) then Attempt(j, w).0.backendCalls else []) + [BackendClose]
  {
    AttemptEnds(j, w);
  }

  // ------------------------------------------------------------------ budgets and receipts

  /** What a receipt has in common with the state it was assembled from. */
  predicate Tells(b: ResultBody, j: Job, s: State, f: Option<Finalization>) {
    && b.trial == Sha(j.trial) && b.initialState == s.initialState && b.actionTrace == Sha(s.entries)
    && b.pairKey == PairKey(j.trial) && b.runSpec == Sha(j.spec)
    && b.observationCount == s.observations && b.controlCycleCount == s.cycles
    && (b.validationPassed == Some(true) ==> f.Some? && TraceVerdict(f).passed == Some(true))
    && (f.Some? ==> b.cleanTrace == f.value.cleanTrace && b.deliveredTrace == f.value.deliveredTrace)
  }

  lemma {:induction false} CrashTells(j: Job, s: State, error: Exn)
    requires Schedulable(s.session.channel)
    ensures var (t, f, r) := Crashed(j, s, error);
            && t.entries == s.entries && (r.Returned? ==> Tells(r.value.body, j, s, f))
  {
  }

  lemma {:induction false} ConcludeTells(j: Job, s: State)
    requires Schedulable(s.session.channel) && !s.signal.Running?
    ensures var (t, f, r) := Conclude(j, s);
            && t.(stage := s.stage, session := s.session) == s && (r.Returned? ==> Tells(r.value.body, j, s, f))
  {
  }

  lemma {:induction false} ClosedTells(j: Job, w: World, s: State, f: Option<Finalization>, normal: TrialResult)
    requires Tells(normal.body, j, s, f) && Closed(j, w, s, f, normal).Returned?
    ensures Tells(Closed(j, w, s, f, normal).value.body, j, s, f)
  {
  }

  lemma {:induction false} SettleTells(j: Job, w: World, s: State, p: Progress)
    requires Schedulable(s.session.channel) && !p.Going? && (p.Halted? ==> !s.signal.Running?)
    requires Settle(j, w, s, p).outcome.Returned?
    ensures var r := Settle(j, w, s, p);
            r.entries == s.entries && Tells(r.outcome.value.body, j, s, r.finalization)
  {
    if p.Broken? {
      CrashTells(j, s, p.error);
    } else {
      ConcludeTells(j, s);
      var (t, f, r) := Conclude(j, s);
      if r.Raised? { CrashTells(j, t, r.error); } else { ClosedTells(j, w, t, f, r.value); }
    }
  }

  /** What the receipt of an attempted run reports. */
  lemma {:induction false} ReceiptTells(j: Job, w: World)
    requires Schedulable(j.channel) && Attempted(j) && RunTrial(j, w).outcome.Returned?
    ensures var (r, s) := (RunTrial(j, w), Attempt(j, w).0);
            r.entries == s.entries && Tells(r.outcome.value.body, j, s, r.finalization)
  {
    AttemptEnds(j, w);
    SettleTells(j, w, Attempt(j, w).0, Attempt(j, w).1);
  }

  /** No run exceeds a budget: cycles stay within the cycle budget and below the observation
      budget, and each cycle that completes adds between one and the configured number of
      observations to the initial one. */
  lemma {:induction false} BudgetsHold(j: Job, w: World)
    requires Schedulable(j.channel) && Attempted(j) && RunTrial(j, w).outcome.Returned?
    ensures var r := RunTrial(j, w);
            var b := r.outcome.value.body;
            && b.controlCycleCount <= Min(j.spec.maxControlCycles, j.spec.maxObservationSteps - 1)
            && b.observationCount <= j.spec.maxObservationSteps
            && |r.entries| <= b.controlCycleCount <= |r.entries| + 1
            && (b.observationCount == 0 ==> r.entries == [])
            && (b.observationCount > 0 ==> b.observationCount == 1 + Executed(r.entries))
            && (forall k :: 0 <= k < |r.entries| ==> 1 <= |r.entries[k].actions| <= j.spec.executeActionSteps)
  {
    ReceiptTells(j, w);
    AttemptKeeps(j, w);
    AttemptEnds(j, w);
    ExecutedAtLeastAll(j, w, Attempt(j, w).0);
    BooksWithin(j, w, Attempt(j, w).0);
  }

  /** The counts of any state that a run can end in. */
  lemma {:induction false} BooksWithin(j: Job, w: World, s: State)
    requires Early(j, s) || Steady(j, w, s) || Broke(j, w, s)
    requires Executed(s.entries) >= |s.entries|
    ensures s.cycles <= Min(j.spec.maxControlCycles, j.spec.maxObservationSteps - 1)
    ensures s.observations <= j.spec.maxObservationSteps && |s.entries| <= s.cycles <= |s.entries| + 1
    ensures s.observations == 0 ==> s.entries == []
    ensures s.observations > 0 ==> s.observations == 1 + Executed(s.entries)
  {
  }

  lemma {:induction false} ExecutedAtLeastAll(j: Job, w: World, s: State)
    requires Early(j, s) || Steady(j, w, s) || Broke(j, w, s)
    ensures Executed(s.entries) >= |s.entries|
    ensures forall k :: 0 <= k < |s.entries| ==> 1 <= |s.entries[k].actions| <= j.spec.executeActionSteps
  {
    var shown := Observed(s.session.delivered);
    if !Early(j, s) {
      forall k | 0 <= k < |s.entries| ensures 1 <= |s.entries[k].actions| <= j.spec.executeActionSteps {
        assert EntryFits(j, w, s.entries[k], k, shown[Executed(s.entries[..k])]);
      }
    }
    ExecutedAtLeast(s.entries);
  }

  /** A trial scores a success exactly when its backend signalled success, its delivery was
      validated, its restoration was observed, and nothing raised, not even on closing. */
  lemma {:induction false} ScoresExactly(j: Job, w: World)
    requires JobOk(j) && Attempted(j) && RunTrial(j, w).outcome.Returned?
    ensures var r := RunTrial(j, w);
            r.outcome.value.body.scoreSuccess == Some(true) <==>
            && Caught(j, w).None? && CloseCodes(w) == [] && Attempt(j, w).0.signal.Succeeded?
            && r.finalization.Some? && !Rejected(j.trial, r.finalization.value)
  {
    AttemptEnds(j, w);
    var (s, p) := Attempt(j, w);
    if p.Halted? { SettleScores(j, w, s); }
  }

  lemma {:induction false} SettleScores(j: Job, w: World, s: State)
    requires Schedulable(s.session.channel) && !s.signal.Running? && Settle(j, w, s, Halted).outcome.Returned?
    ensures var r := Settle(j, w, s, Halted);
            r.outcome.value.body.scoreSuccess == Some(true) <==>
            && Conclude(j, s).2.Returned? && CloseCodes(w) == [] && s.signal.Succeeded?
            && r.finalization.Some? && !Rejected(j.trial, r.finalization.value)
  {
    var (t, f, r) := Conclude(j, s);
    if r.Raised? {
      CrashNeverScores(j, t, r.error);
    } else {
      ConcludeScores(j, s);
      ClosedScores(j, w, t, f, r.value);
    }
  }

  lemma {:induction false} CrashNeverScores(j: Job, s: State, error: Exn)
    requires Schedulable(s.session.channel)
    ensures Crashed(j, s, error).2.Returned? ==> Crashed(j, s, error).2.value.body.scoreSuccess == Some(false)
  {
  }

  lemma {:induction false} ConcludeScores(j: Job, s: State)
    requires Schedulable(s.session.channel) && !s.signal.Running? && Conclude(j, s).2.Returned?
    ensures Conclude(j, s).1.Some?
    ensures Conclude(j, s).2.value.body.scoreSuccess == Some(true) <==>
            s.signal.Succeeded? && !Rejected(j.trial, Conclude(j, s).1.value)
  {
  }

  lemma {:induction false} ClosedScores(j: Job, w: World, s: State, f: Option<Finalization>, normal: TrialResult)
    requires Closed(j, w, s, f, normal).Returned?
    ensures Closed(j, w, s, f, normal).value.body.scoreSuccess
            == if CloseCodes(w) == [] then normal.body.scoreSuccess else Some(false)
  {
  }
}
