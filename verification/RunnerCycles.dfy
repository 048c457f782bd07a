/** What each cycle of a run asks, executes and commits, told from its call logs, the replies of its
    environment and its three budgets alone; and why the control loop ends. */
module RunnerCycles {
  import opened Basics
  import opened Trials
  import opened Records
  import opened ValidationCodes
  import opened Delivery
  import opened Results
  import opened RunnerChecks
  import opened Runner
  import opened RunnerInvariant
  import opened RunnerProperties
  import opened RunnerSafety

  // ------------------------------------------------------------------ one cycle

  /** The actions a cycle executes when `seen` observations were made before it: a prefix of the
      plan within all three bounds, and as long as one of them allows. */
  predicate Due(spec: RunSpec, plan: seq<Action>, seen: int, actions: seq<Action>) {
    && actions <= plan && 1 <= |actions| <= spec.executeActionSteps && |actions| <= spec.maxObservationSteps - seen
    && (|actions| == |plan| || |actions| == spec.executeActionSteps || |actions| == spec.maxObservationSteps - seen)
  }

  /** The clock reading before cycle k is within the wall-clock budget. */
  predicate InTime(j: Job, w: World, k: nat) {
    && w.clock(0).Returned? && w.clock(k + 1).Returned?
    && w.clock(k + 1).value - w.clock(0).value < j.spec.wallTimeout
  }

  /** Cycle k was begun within every budget, asked for a plan, and executes what is due of it. */
  predicate Begun(j: Job, w: World, call: BackendCall, k: nat, seen: int) {
    && InTime(j, w, k) && k < j.spec.maxControlCycles && seen < j.spec.maxObservationSteps
    && w.infer(k).Returned? && w.infer(k).value.actionSpec == ACTION_SPEC
    && call.Execute? && Due(j.spec, w.infer(k).value.actions, seen, call.actions)
  }

  /** The signal that ends cycle k. */
  function EndSignal(w: World, k: nat): Signal {
    if w.execute(k).Returned? && w.execute(k).value.transitions != []
    then w.execute(k).value.transitions[|w.execute(k).value.transitions| - 1].signal else Running
  }

  /** Cycle k is on record with the part of its actions that the backend executed, and its commit
      told the policy the plan, that part and the signal. */
  predicate OnRecord(w: World, executed: seq<Action>, e: ActionEntry, commit: PolicyCall, k: nat) {
    && w.infer(k).Returned? && w.execute(k).Returned?
    && e.plan == Sha(w.infer(k).value) && e.sourceStep == w.infer(k).value.sourceStep
    && e.actions <= executed && |e.actions| == |w.execute(k).value.transitions|
    && commit.Commit? && commit.plan == e.plan && commit.executed == e.actions && commit.signal == EndSignal(w, k)
  }

  // ------------------------------------------------------------------ all cycles

  predicate BegunAt(j: Job, w: World, calls: seq<BackendCall>, entries: seq<ActionEntry>, k: nat)
    requires k + 2 < |calls| && k <= |entries|
  {
    Begun(j, w, calls[k + 2], k, 1 + Executed(entries[..k]))
  }

  predicate CompleteAt(w: World, calls: seq<BackendCall>, policy: seq<PolicyCall>, entries: seq<ActionEntry>, k: nat)
    requires k + 2 < |calls| && 2 * k + 2 < |policy| && k < |entries|
  {
    calls[k + 2].Execute? && OnRecord(w, calls[k + 2].actions, entries[k], policy[2 * k + 2], k)
  }

  /** The executions of a log, one per cycle. */
  predicate Executions(j: Job, w: World, calls: seq<BackendCall>, entries: seq<ActionEntry>, cycles: nat) {
    && |calls| == cycles + 2 && |entries| <= cycles <= |entries| + 1
    && forall k :: 0 <= k < cycles ==> BegunAt(j, w, calls, entries, k)
  }

  /** The completed cycles of a log; all but the last one left the episode running. */
  predicate Completions(w: World, calls: seq<BackendCall>, policy: seq<PolicyCall>, entries: seq<ActionEntry>) {
    && |calls| >= |entries| + 2 && |policy| >= 2 * |entries| + 1
    && (forall k :: 0 <= k < |entries| ==> CompleteAt(w, calls, policy, entries, k))
    && (forall k :: 0 <= k < |entries| - 1 ==> EndSignal(w, k).Running?)
  }

  predicate Told(j: Job, w: World, s: State) {
    && Executions(j, w, s.backendCalls, s.entries, s.cycles)
    && Completions(w, s.backendCalls, s.policyCalls, s.entries)
  }

  /** Why a loop that met no exception ended: the last cycle ended the episode, a budget was spent,
      or the policy proposed nothing. */
  predicate Ended(j: Job, w: World, s: State) {
    && s.cycles == |s.entries|
    && if s.cycles >= 1 && s.stage.CommitStage? && !EndSignal(w, s.cycles - 1).Running?
       then s.signal == EndSignal(w, s.cycles - 1)
       else
         && s.signal == TimedOut && w.clock(s.cycles + 1).Returned?
         && if s.stage.InferStage? then InTime(j, w, s.cycles) && AskedInVain(w, s.cycles)
            else !InTime(j, w, s.cycles) || s.cycles >= j.spec.maxControlCycles
                 || 1 + Executed(s.entries) >= j.spec.maxObservationSteps
  }

  /** The loop when it polls its budgets. */
  predicate Open(j: Job, w: World, s: State) {
    && Told(j, w, s) && s.cycles == |s.entries| && s.observations == 1 + Executed(s.entries)
    && |s.policyCalls| == 2 * |s.entries| + 1 && w.clock(0) == Returned(s.startedAt) && s.current.Some?
    && (s.stage.DeliveryStage? || s.stage.CommitStage?)
    && (s.cycles >= 1 ==> EndSignal(w, s.cycles - 1).Running?)
  }

  /** What a step of the loop leaves behind. */
  predicate Leaves(j: Job, w: World, r: (State, Progress)) {
    Told(j, w, r.0) && (r.1.Going? ==> Open(j, w, r.0)) && (r.1.Halted? ==> Ended(j, w, r.0))
  }

  // ------------------------------------------------------------------ logs grow

  lemma {:induction false} ExecutionsNext(j: Job, w: World, calls: seq<BackendCall>, entries: seq<ActionEntry>,
                                          cycles: nat, call: BackendCall)
    requires Executions(j, w, calls, entries, cycles) && cycles == |entries|
    requires Begun(j, w, call, cycles, 1 + Executed(entries))
    ensures Executions(j, w, calls + [call], entries, cycles + 1)
  {
    assert entries[..|entries|] == entries;
    forall k | 0 <= k < cycles + 1 ensures BegunAt(j, w, calls + [call], entries, k) {
      if k < cycles {
        assert BegunAt(j, w, calls, entries, k) && (calls + [call])[k + 2] == calls[k + 2];
      }
    }
  }

  lemma {:induction false} ExecutionsFilled(j: Job, w: World, calls: seq<BackendCall>, entries: seq<ActionEntry>,
                                            cycles: nat, e: ActionEntry)
    requires Executions(j, w, calls, entries, cycles) && cycles == |entries| + 1
    ensures Executions(j, w, calls, entries + [e], cycles)
  {
    forall k | 0 <= k < cycles ensures BegunAt(j, w, calls, entries + [e], k) {
      assert BegunAt(j, w, calls, entries, k) && (entries + [e])[..k] == entries[..k];
    }
  }

  lemma {:induction false} CompletionsGrow(w: World, calls: seq<BackendCall>, policy: seq<PolicyCall>,
                                           entries: seq<ActionEntry>, more: seq<BackendCall>, said: seq<PolicyCall>)
    requires Completions(w, calls, policy, entries)
    ensures Completions(w, calls + more, policy + said, entries)
  {
    forall k | 0 <= k < |entries| ensures CompleteAt(w, calls + more, policy + said, entries, k) {
      assert CompleteAt(w, calls, policy, entries, k);
      assert (calls + more)[k + 2] == calls[k + 2] && (policy + said)[2 * k + 2] == policy[2 * k + 2];
    }
  }

  lemma {:induction false} CompletionsNext(w: World, calls: seq<BackendCall>, policy: seq<PolicyCall>,
                                           entries: seq<ActionEntry>, e: ActionEntry, commit: PolicyCall)
    requires Completions(w, calls, policy, entries)
    requires |calls| == |entries| + 3 && |policy| == 2 * |entries| + 2
    requires |entries| >= 1 ==> EndSignal(w, |entries| - 1).Running?
    requires calls[|entries| + 2].Execute?
    requires OnRecord(w, calls[|entries| + 2].actions, e, commit, |entries|)
    ensures Completions(w, calls, policy + [commit], entries + [e])
  {
    var more, said := entries + [e], policy + [commit];
    forall k | 0 <= k < |more| ensures CompleteAt(w, calls, said, more, k) {
      if k < |entries| {
        assert CompleteAt(w, calls, policy, entries, k);
        assert more[k] == entries[k] && said[2 * k + 2] == policy[2 * k + 2];
      }
    }
  }

  // ------------------------------------------------------------------ phase by phase

  lemma {:induction false} PollTold(j: Job, w: World, s: State)
    requires Open(j, w, s)
    ensures Poll(j, w, s).1.Going? ==>
              Poll(j, w, s).0 == s && InTime(j, w, s.cycles) && s.cycles < j.spec.maxControlCycles
              && s.observations < j.spec.maxObservationSteps
    ensures !Poll(j, w, s).1.Going? ==> Leaves(j, w, Poll(j, w, s))
  {
  }

  lemma {:induction false} ConsultTold(j: Job, w: World, s: State)
    requires Open(j, w, s)
    ensures var (t, r) := Consult(w, s);
            && Told(j, w, t) && t.policyCalls == s.policyCalls + [Infer(s.current.value)]
            && t == s.(stage := InferStage, policyCalls := t.policyCalls)
            && (r.Returned? ==> w.infer(s.cycles) == r && r.value.actionSpec == ACTION_SPEC)
  {
    CompletionsGrow(w, s.backendCalls, s.policyCalls, s.entries, [], [Infer(s.current.value)]);
    assert s.backendCalls + [] == s.backendCalls;
  }

  /** Where the runner stands when it has a plan and time to execute it. */
  predicate Planned(j: Job, w: World, s: State, plan: ActionPlan) {
    && Told(j, w, s) && s.cycles == |s.entries| && s.observations == 1 + Executed(s.entries)
    && |s.policyCalls| == 2 * |s.entries| + 2 && w.clock(0) == Returned(s.startedAt)
    && (s.cycles >= 1 ==> EndSignal(w, s.cycles - 1).Running?)
    && InTime(j, w, s.cycles) && s.cycles < j.spec.maxControlCycles && s.observations < j.spec.maxObservationSteps
    && w.infer(s.cycles) == Returned(plan) && plan.actionSpec == ACTION_SPEC
  }

  /** The requested prefix is what is due. */
  lemma {:induction false} RequestedIsDue(j: Job, s: State, plan: ActionPlan)
    requires 1 <= Requested(j, s, plan)
    ensures Due(j.spec, plan.actions, s.observations, plan.actions[..Requested(j, s, plan)])
  {
  }

  /** With budgets left, nothing is due only of a plan that proposes nothing. */
  lemma {:induction false} NothingDue(j: Job, s: State, plan: ActionPlan)
    requires s.observations < j.spec.maxObservationSteps && Requested(j, s, plan) < 1
    ensures plan.actions == []
  {
  }

  lemma {:induction false} ActTold(j: Job, w: World, s: State, plan: ActionPlan)
    requires Planned(j, w, s, plan) && 1 <= Requested(j, s, plan)
    ensures var (t, r) := Act(j, w, s, plan);
            var call := Execute(plan.actions[..Requested(j, s, plan)]);
            && Told(j, w, t) && t.backendCalls == s.backendCalls + [call]
            && t == s.(stage := ExecuteStage, cycles := s.cycles + 1, native := t.native,
                       backendCalls := s.backendCalls + [call])
            && (r.Returned? ==> w.execute(s.cycles) == r)
  {
    RequestedIsDue(j, s, plan);
    var call := Execute(plan.actions[..Requested(j, s, plan)]);
    ExecutionsNext(j, w, s.backendCalls, s.entries, s.cycles, call);
    CompletionsGrow(w, s.backendCalls, s.policyCalls, s.entries, [call], []);
    assert s.policyCalls + [] == s.policyCalls;
  }

  /** Where the runner stands when it holds a valid batch. */
  predicate Acted(j: Job, w: World, s: State, plan: ActionPlan, b: Batch) {
    && Told(j, w, s) && s.cycles == |s.entries| + 1 && s.observations == 1 + Executed(s.entries)
    && |s.policyCalls| == 2 * |s.entries| + 2 && w.clock(0) == Returned(s.startedAt)
    && (s.cycles >= 2 ==> EndSignal(w, s.cycles - 2).Running?)
    && w.infer(s.cycles - 1) == Returned(plan) && w.execute(s.cycles - 1) == Returned(b)
    && s.backendCalls[s.cycles + 1].Execute? && s.backendCalls[s.cycles + 1].actions <= plan.actions
    && 1 <= |b.transitions| <= |s.backendCalls[s.cycles + 1].actions|
  }

  lemma {:induction false} ExecutedNext(entries: seq<ActionEntry>, e: ActionEntry)
    ensures Executed(entries + [e]) == Executed(entries) + |e.actions|
  {
    assert (entries + [e])[..|entries|] == entries;
  }

  /** The entry and the commit of a delivered batch. */
  function EntryFor(plan: ActionPlan, n: nat): ActionEntry
    requires n <= |plan.actions|
  {
    ActionEntry(Sha(plan), plan.sourceStep, plan.actions[..n])
  }

  function CommitFor(plan: ActionPlan, news: seq<Observation>, signal: Signal): PolicyCall
    requires |news| <= |plan.actions|
  {
    Commit(Sha(plan), plan.actions[..|news|], news, signal)
  }

  /** What keeping the books of a delivered batch changes. */
  predicate Booked(s: State, plan: ActionPlan, b: Batch, news: seq<Observation>, t: State)
    requires 1 <= |news| == |b.transitions| <= |plan.actions|
  {
    && t.entries == s.entries + [EntryFor(plan, |news|)]
    && t.policyCalls == s.policyCalls + [CommitFor(plan, news, b.transitions[|news| - 1].signal)]
    && t.backendCalls == s.backendCalls && t.cycles == s.cycles && t.observations == s.observations + |news|
    && t.signal == b.transitions[|news| - 1].signal && t.stage.CommitStage? && t.startedAt == s.startedAt
    && t.current.Some?
  }

  lemma {:induction false} BookkeepIs(s: State, plan: ActionPlan, b: Batch, delivered: Trace)
    requires 1 <= |delivered| == |b.transitions| <= |plan.actions|
    ensures Booked(s, plan, b, Observed(delivered), Bookkeep(s, plan, b, delivered))
  {
  }

  lemma {:induction false} ActedOnRecord(j: Job, w: World, s: State, plan: ActionPlan, b: Batch,
                                         news: seq<Observation>)
    requires Acted(j, w, s, plan, b) && |news| == |b.transitions|
    ensures var signal := b.transitions[|news| - 1].signal;
            && signal == EndSignal(w, s.cycles - 1)
            && OnRecord(w, s.backendCalls[s.cycles + 1].actions, EntryFor(plan, |news|),
                        CommitFor(plan, news, signal), s.cycles - 1)
  {
  }

  /** The loop after a cycle that was delivered and booked. */
  predicate Settled(j: Job, w: World, t: State) {
    && Told(j, w, t) && 1 <= t.cycles == |t.entries| && t.observations == 1 + Executed(t.entries)
    && |t.policyCalls| == 2 * |t.entries| + 1 && t.signal == EndSignal(w, t.cycles - 1)
    && t.stage.CommitStage? && w.clock(0) == Returned(t.startedAt) && t.current.Some?
  }

  /** A delivered batch puts its cycle on record. */
  lemma {:induction false} BookedTold(j: Job, w: World, s: State, plan: ActionPlan, b: Batch,
                                      news: seq<Observation>, t: State)
    requires Acted(j, w, s, plan, b) && |news| == |b.transitions| && Booked(s, plan, b, news, t)
    ensures Settled(j, w, t)
  {
    var n := |news|;
    var e, commit := EntryFor(plan, n), CommitFor(plan, news, b.transitions[n - 1].signal);
    ActedOnRecord(j, w, s, plan, b, news);
    ExecutedNext(s.entries, e);
    ExecutionsFilled(j, w, s.backendCalls, s.entries, s.cycles, e);
    CompletionsNext(w, s.backendCalls, s.policyCalls, s.entries, e, commit);
  }

  /** Delivery, books and commit. */
  lemma {:induction false} HandTold(j: Job, w: World, s: State, plan: ActionPlan, b: Batch)
    requires Acted(j, w, s, plan, b)
    ensures Leaves(j, w, Hand(w, s, plan, b))
  {
    var (session, reply) := DeliverFirst(s.session, b.transitions, |b.transitions|);
    var s1 := s.(stage := DeliveryStage, session := session);
    DeliverCount(s.session, b.transitions, |b.transitions|);
    if reply.Returned? {
      BookkeepIs(s1, plan, b, reply.value);
      BookedTold(j, w, s1, plan, b, Observed(reply.value), Bookkeep(s1, plan, b, reply.value));
    }
    HandLeaves(j, w, s, plan, b, session, reply);
  }

  /** How a cycle ends, once its delivery is known. */
  function HandedOver(w: World, s: State, plan: ActionPlan, b: Batch, reply: Reply<Trace>): (State, Progress)
    requires 1 <= |b.transitions| <= |plan.actions| && 1 <= s.cycles
    requires reply.Returned? ==> |reply.value| == |b.transitions|
  {
    if reply.Raised? then (s, Broken(reply.error))
    else
      var t := Bookkeep(s, plan, b, reply.value);
      (t, if w.commit(s.cycles - 1).Raised? then Broken(w.commit(s.cycles - 1).error)
          else if t.signal.Running? then Going else Halted)
  }

  lemma {:induction false} HandIs(w: World, s: State, plan: ActionPlan, b: Batch, session: Session,
                                  reply: Reply<Trace>)
    requires 1 <= |b.transitions| <= |plan.actions| && 1 <= s.cycles
    requires DeliverFirst(s.session, b.transitions, |b.transitions|) == (session, reply)
    requires reply.Returned? ==> |reply.value| == |b.transitions|
    ensures Hand(w, s, plan, b) == HandedOver(w, s.(stage := DeliveryStage, session := session), plan, b, reply)
  {
  }

  lemma {:induction false} ClosedLeaves(j: Job, w: World, t: State, p: Progress)
    requires Settled(j, w, t) && (p.Going? ==> t.signal.Running?) && (p.Halted? ==> !t.signal.Running?)
    ensures Leaves(j, w, (t, p))
  {
  }

  lemma {:induction false} HandLeaves(j: Job, w: World, s: State, plan: ActionPlan, b: Batch, session: Session,
                                      reply: Reply<Trace>)
    requires Acted(j, w, s, plan, b)
    requires DeliverFirst(s.session, b.transitions, |b.transitions|) == (session, reply)
    requires reply.Returned? ==>
               && |reply.value| == |b.transitions|
               && Settled(j, w, Bookkeep(s.(stage := DeliveryStage, session := session), plan, b, reply.value))
    ensures Leaves(j, w, Hand(w, s, plan, b))
  {
    HandIs(w, s, plan, b, session, reply);
    if reply.Returned? {
      var r := HandedOver(w, s.(stage := DeliveryStage, session := session), plan, b, reply);
      ClosedLeaves(j, w, r.0, r.1);
    }
  }

  lemma {:induction false} CycleTold(j: Job, w: World, s: State)
    requires Open(j, w, s)
    ensures Leaves(j, w, Cycle(j, w, s))
  {
    PollTold(j, w, s);
    if Poll(j, w, s).1.Going? {
      ConsultTold(j, w, s);
      var (asked, plan) := Consult(w, s);
      if plan.Returned? {
        if Requested(j, asked, plan.value) >= 1 {
          PlannedLeaves(j, w, asked, plan.value);
          CycleIsPass(j, w, s);
        } else {
          NothingDue(j, asked, plan.value);
        }
      }
    }
  }

  lemma {:induction false} PlannedLeaves(j: Job, w: World, s: State, plan: ActionPlan)
    requires Planned(j, w, s, plan) && 1 <= Requested(j, s, plan)
    ensures Leaves(j, w, Pass(j, w, s, plan))
  {
    ActTold(j, w, s, plan);
    var (acted, batch) := Act(j, w, s, plan);
    if batch.Returned? {
      ActAccepts(j, w, s, plan);
      HandTold(j, w, acted, plan, batch.value);
    }
  }

  lemma {:induction false} LoopTold(j: Job, w: World, s: State)
    requires Open(j, w, s)
    ensures Leaves(j, w, Loop(j, w, s))
    decreases j.spec.maxControlCycles - s.cycles
  {
    CycleTold(j, w, s);
    if Cycle(j, w, s).1.Going? { LoopTold(j, w, Cycle(j, w, s).0); }
  }

  lemma {:induction false} GreetOpens(j: Job, w: World)
    requires Prepare(j, w).1.Going? && Greet(j, w, Prepare(j, w).0).1.Going?
    ensures Open(j, w, Greet(j, w, Prepare(j, w).0).0)
  {
    assert Executed([]) == 0;
  }

  // ------------------------------------------------------------------ whole runs

  lemma {:induction false} AttemptTold(j: Job, w: World)
    ensures var (s, p) := Attempt(j, w);
            && (s.cycles >= 1 ==> Told(j, w, s)) && (p.Halted? ==> Told(j, w, s) && Ended(j, w, s))
            && (s.cycles == 0 ==> s.entries == [])
  {
    var (prepared, p) := Prepare(j, w);
    if p.Going? && Greet(j, w, prepared).1.Going? {
      GreetOpens(j, w);
      LoopTold(j, w, Greet(j, w, prepared).0);
    }
  }

  /** The executions in a backend's log. */
  function ExecutesOf(calls: seq<BackendCall>): seq<BackendCall> {
    if |calls| <= 2 then [] else calls[2..|calls| - 1]
  }

  /** The cycles of a run, by its logs.  The k-th execute carries the prefix of the k-th plan that is
      due after the observations made before it, and was begun within every budget; every cycle on
      record is what the backend executed of that prefix, committed to the policy with its plan and
      the signal that ended it; and all of them but the last left the episode running. */
  predicate DueCycles(j: Job, w: World, calls: seq<BackendCall>, policy: seq<PolicyCall>, entries: seq<ActionEntry>) {
    var xs := ExecutesOf(calls);
    && |entries| <= |xs| <= |entries| + 1 && |policy| >= 2 * |entries| + 1
    && (forall k :: 0 <= k < |xs| ==> Begun(j, w, xs[k], k, 1 + Executed(entries[..k])))
    && (forall k :: 0 <= k < |entries| ==>
          xs[k].Execute? && OnRecord(w, xs[k].actions, entries[k], policy[2 * k + 2], k))
    && (forall k :: 0 <= k < |entries| - 1 ==> EndSignal(w, k).Running?)
  }

  lemma {:induction false} ToldCycles(j: Job, w: World, s: State, policy: seq<PolicyCall>)
    requires Told(j, w, s) && s.policyCalls <= policy
    ensures DueCycles(j, w, s.backendCalls + [BackendClose], policy, s.entries)
  {
    var calls, xs := s.backendCalls, ExecutesOf(s.backendCalls + [BackendClose]);
    assert xs == calls[2..];
    forall k | 0 <= k < |xs| ensures Begun(j, w, xs[k], k, 1 + Executed(s.entries[..k])) {
      assert BegunAt(j, w, calls, s.entries, k) && xs[k] == calls[k + 2];
    }
    forall k | 0 <= k < |s.entries|
      ensures xs[k].Execute? && OnRecord(w, xs[k].actions, s.entries[k], policy[2 * k + 2], k)
    {
      assert CompleteAt(w, calls, s.policyCalls, s.entries, k) && xs[k] == calls[k + 2];
      assert policy[2 * k + 2] == s.policyCalls[2 * k + 2];
    }
  }

  lemma {:induction false} NoCycles(j: Job, w: World, calls: seq<BackendCall>, policy: seq<PolicyCall>)
    requires |calls| <= 3 && policy != []
    ensures DueCycles(j, w, calls, policy, [])
  {
  }

  /** Over every attempted run, told without the runner's own arithmetic. */
  lemma {:induction false} CyclesAreDue(j: Job, w: World)
    requires Schedulable(j.channel) && Attempted(j)
    ensures var r := RunTrial(j, w); DueCycles(j, w, r.backendCalls, r.policyCalls, r.entries)
  {
    var s, policy := Attempt(j, w).0, RunTrial(j, w).policyCalls;
    AttemptTold(j, w);
    BackendLog(j, w);
    LogStarts(j, w);
    if s.cycles >= 1 {
      ToldCycles(j, w, s, policy);
    } else {
      AttemptDriven(j, w);
      NoCycles(j, w, s.backendCalls + [BackendClose], policy);
    }
  }

  /** The policy's log begins with the calls of the attempt. */
  lemma {:induction false} LogStarts(j: Job, w: World)
    requires Schedulable(j.channel) && Attempted(j)
    ensures Attempt(j, w).0.policyCalls <= RunTrial(j, w).policyCalls && RunTrial(j, w).policyCalls != []
    ensures RunTrial(j, w).entries == Attempt(j, w).0.entries
  {
    AttemptEnds(j, w);
    LogIsLog(j, w);
    LogExtends(j, w);
  }

  /** A run that no exception reaches ended for one of three reasons: its last cycle ended the
      episode, a budget was spent, or the policy proposed nothing. */
  lemma {:induction false} EndsExactly(j: Job, w: World)
    requires JobOk(j) && Attempted(j) && Caught(j, w).None?
    ensures Ended(j, w, Attempt(j, w).0)
  {
    AttemptEnds(j, w);
    AttemptTold(j, w);
  }

  // ------------------------------------------------------------------ what is told of the end

  /** The status of a run that ended with a signal. */
  predicate StatusFits(signal: Signal, status: TerminalStatus) {
    && (signal.Succeeded? ==> status.Success?) && (signal.Failed? ==> status.TaskFailure?)
    && (signal.StoppedEarly? ==> status.EarlyStop?) && (signal.TimedOut? ==> status.Timeout?)
  }

  /** Without an exception, the receipt says how the run executed: what its last signal says. */
  lemma {:induction false} CompletedStatus(j: Job, w: World)
    requires JobOk(j) && Attempted(j) && Caught(j, w).None? && RunTrial(j, w).outcome.Returned?
    ensures var signal := Attempt(j, w).0.signal;
            !signal.Running? && Executes(signal, RunTrial(j, w).outcome.value.body)
  {
    AttemptEnds(j, w);
    SettleStatus(j, w, Attempt(j, w).0);
  }

  /** A receipt of a run that ended with a signal, whatever validation and closing did. */
  predicate Executes(signal: Signal, b: ResultBody) {
    && b.executionStatus.Some? && StatusFits(signal, b.executionStatus.value)
    && (b.terminalStatus == b.executionStatus.value || b.terminalStatus.ValidatorRejected?
        || (b.terminalStatus.Crash? && b.failureStage == Some(CloseStage)))
  }

  lemma {:induction false} ConcludeStatus(j: Job, s: State)
    requires Schedulable(s.session.channel) && !s.signal.Running? && Conclude(j, s).2.Returned?
    ensures Executes(s.signal, Conclude(j, s).2.value.body)
  {
  }

  lemma {:induction false} ClosedStatus(j: Job, w: World, s: State, f: Option<Finalization>, normal: TrialResult,
                                        signal: Signal)
    requires Executes(signal, normal.body) && Closed(j, w, s, f, normal).Returned?
    ensures Executes(signal, Closed(j, w, s, f, normal).value.body)
  {
  }

  lemma {:induction false} SettleStatus(j: Job, w: World, s: State)
    requires Schedulable(s.session.channel) && !s.signal.Running?
    requires Conclude(j, s).2.Returned? && Settle(j, w, s, Halted).outcome.Returned?
    ensures Executes(s.signal, Settle(j, w, s, Halted).outcome.value.body)
  {
    var (t, f, r) := Conclude(j, s);
    ConcludeStatus(j, s);
    ClosedStatus(j, w, t, f, r.value, s.signal);
  }

  /** What the handler reports of an exception: the stage it came from, and its own code or one
      named after the stage. */
  predicate Coded(b: ResultBody, stage: Stage, e: Exn) {
    && b.terminalStatus.Crash? && b.executionStatus == Some(Crash) && b.failureStage == Some(stage)
    && b.failureCode == Some(if e.Violation? then e.code else StageName(stage) + "_failed")
  }

  /** The receipt of an exception names its stage and code, and the policy, if it was met, has been
      told the same code just before it was closed. */
  lemma {:induction false} CrashCoded(j: Job, w: World)
    requires Schedulable(j.channel) && Attempted(j) && Caught(j, w).Some? && RunTrial(j, w).outcome.Returned?
    ensures var (r, s, p) := (RunTrial(j, w), Attempt(j, w).0, Attempt(j, w).1);
            && Coded(r.outcome.value.body, if p.Broken? then s.stage else ValidationStage, Caught(j, w).value)
            && (if s.entered
                then |r.policyCalls| >= 2
                     && r.policyCalls[|r.policyCalls| - 2] == Abort(r.outcome.value.body.failureCode.value)
                else r.policyCalls == s.policyCalls + [PolicyClose])
  {
    AttemptEnds(j, w);
  }

  /** The delivered trace shows the index at which a restored trial resumes. */
  predicate Resumed(t: TrialManifest, delivered: Trace) {
    t.condition.Restored? ==>
      exists i :: 0 <= i < |delivered| && t.restorationIndex == Some(delivered[i].content.observation.stepIndex)
  }

  /** A rejection says why: what the validator found, and that the restoration was not observed. */
  predicate Accused(t: TrialManifest, f: Finalization, b: ResultBody) {
    && b.failureStage == Some(ValidationStage) && b.failureCode == Some("validator_rejected")
    && b.validationPassed == Some(false)
    && forall code :: code in b.validationCodes <==>
         || (f.validation.Some? && code in f.validation.value.codes)
         || (code == RestorationNotObserved && !Resumed(t, f.delivered))
  }

  lemma {:induction false} ResumedIsSeen(t: TrialManifest, f: Finalization)
    ensures RestorationSeen(t, f) <==> Resumed(t, f.delivered)
  {
    if t.condition.Restored? {
      if RestorationSeen(t, f) {
        var r :| r in f.delivered && Some(r.Observed().stepIndex) == t.restorationIndex;
        var i :| 0 <= i < |f.delivered| && f.delivered[i] == r;
      }
      forall i | 0 <= i < |f.delivered| ensures f.delivered[i] in f.delivered {}
    }
  }

  lemma {:induction false} ConcludeAccuses(j: Job, s: State)
    requires Schedulable(s.session.channel) && !s.signal.Running? && Conclude(j, s).2.Returned?
    ensures var (t, f, r) := Conclude(j, s);
            && f.Some?
            && (r.value.body.terminalStatus.ValidatorRejected? ==> Accused(j.trial, f.value, r.value.body))
  {
    ResumedIsSeen(j.trial, Conclude(j, s).1.value);
  }

  /** Every rejected run says exactly why. */
  lemma {:induction false} RejectionAccuses(j: Job, w: World)
    requires Schedulable(j.channel) && Attempted(j) && RunTrial(j, w).outcome.Returned?
    requires RunTrial(j, w).outcome.value.body.terminalStatus.ValidatorRejected?
    ensures var r := RunTrial(j, w);
            r.finalization.Some? && Accused(j.trial, r.finalization.value, r.outcome.value.body)
  {
    AttemptEnds(j, w);
    var (s, p) := Attempt(j, w);
    assert p.Halted?;
    SettleAccuses(j, w, s);
  }

  lemma {:induction false} SettleAccuses(j: Job, w: World, s: State)
    requires Schedulable(s.session.channel) && !s.signal.Running? && Settle(j, w, s, Halted).outcome.Returned?
    requires Settle(j, w, s, Halted).outcome.value.body.terminalStatus.ValidatorRejected?
    ensures var r := Settle(j, w, s, Halted);
            r.finalization.Some? && Accused(j.trial, r.finalization.value, r.outcome.value.body)
  {
    if Conclude(j, s).2.Returned? { ConcludeAccuses(j, s); }
  }
}
