/** The runner driving the UniVTAC backend: the checks it makes of a backend never fire. */
module BackendRunner {
  import opened Basics
  import opened Results
  import opened RunnerChecks
  import opened Runner
  import opened RunnerInvariant
  import B = Backend
  import P = BackendProperties

  /** The actions that the next cycle asks the backend to execute, if it gets that far. */
  function Asks(j: Job, w: World, s: State): Option<seq<Action>>
    requires s.current.Some?
  {
    var (asked, plan) := Consult(w, s);
    if Poll(j, w, s).1.Going? && plan.Returned? && 1 <= Requested(j, asked, plan.value)
    then Some(plan.value.actions[..Requested(j, asked, plan.value)]) else None
  }

  /** From this state of the loop on, the environment's execute replies are this backend's. */
  ghost predicate Backed(c: B.Config, sim: B.Simulator, j: Job, w: World, s: State, b: B.State)
    requires B.ConfigOk(c) && s.current.Some?
    decreases j.spec.maxControlCycles - s.cycles
  {
    Asks(j, w, s).Some? ==>
      var (next, reply) := B.ExecuteTo(c, sim, b, Asks(j, w, s).value);
      && w.execute(s.cycles) == reply
      && (Cycle(j, w, s).1.Going? ==> Backed(c, sim, j, w, Cycle(j, w, s).0, next))
  }

  /** The environment's backend is this one, from reset to the last execute. */
  ghost predicate Backs(c: B.Config, sim: B.Simulator, j: Job, w: World)
    requires B.ConfigOk(c)
  {
    var (restarted, receipt) := B.ResetTo(c, sim, B.Initially(), Context(j));
    var (ready, first) := B.ObserveTo(restarted);
    && w.reset == receipt && w.observe == first
    && (Prepare(j, w).1.Going? && Greet(j, w, Prepare(j, w).0).1.Going? ==>
          Backed(c, sim, j, w, Greet(j, w, Prepare(j, w).0).0, ready))
  }

  /** Runner and backend agree on the episode, the step, and the native clock. */
  ghost predicate Linked(j: Job, s: State, b: B.State) {
    && b.context == Some(Context(j)) && s.observations == b.step + 1
    && (s.native.Some? ==> s.native == b.native)
  }

  /** A cycle that asks nothing of the backend never ends in execute. */
  lemma {:induction false} IdleCycle(j: Job, w: World, s: State)
    requires s.current.Some? && !s.stage.ExecuteStage? && Asks(j, w, s).None?
    ensures var (t, p) := Cycle(j, w, s); !p.Going? && !t.stage.ExecuteStage?
  {
  }

  lemma {:induction false} FailedCycle(j: Job, w: World, s: State)
    requires s.current.Some? && Asks(j, w, s).Some? && w.execute(s.cycles).Raised?
    ensures var (t, p) := Cycle(j, w, s);
            t.stage.ExecuteStage? && t.cycles == s.cycles + 1 && p == Broken(w.execute(s.cycles).error)
  {
  }

  /** A cycle whose batch meets the contract gets past execute, and takes over its counts. */
  lemma {:induction false} GoodCycle(j: Job, w: World, s: State, batch: Batch)
    requires s.current.Some? && Asks(j, w, s).Some? && w.execute(s.cycles) == Returned(batch)
    requires BatchOk(batch, |Asks(j, w, s).value|, Context(j), s.observations, s.native)
    ensures var (t, p) := Cycle(j, w, s);
            && !t.stage.ExecuteStage?
            && (p.Going? ==> t.observations == s.observations + batch.executed
                             && t.native == Some(batch.transitions[batch.executed - 1].nativeStep))
  {
    var (asked, plan) := Consult(w, s);
    var requested := Requested(j, asked, plan.value);
    BatchVerdictExact(batch, requested, Context(j), s.observations, s.native);
    var acted := Act(j, w, asked, plan.value).0;
    HandCounts(w, acted, plan.value, batch);
    assert Cycle(j, w, s) == Hand(w, acted, plan.value, batch);
  }

  lemma {:induction false} HandCounts(w: World, s: State, plan: ActionPlan, b: Batch)
    requires 1 <= |b.transitions| <= |plan.actions| && 1 <= s.cycles
    ensures var (t, p) := Hand(w, s, plan, b);
            && !t.stage.ExecuteStage? && t.native == s.native
            && (!p.Broken? ==> t.observations == s.observations + |b.transitions|)
  {
    DeliverCount(s.session, b.transitions, |b.transitions|);
  }

  /** An exception that breaks the loop inside execute is the backend's own. */
  predicate OwnFailure(w: World, r: (State, Progress)) {
    r.1.Broken? && r.0.stage.ExecuteStage? ==> r.0.cycles >= 1 && w.execute(r.0.cycles - 1) == Raised(r.1.error)
  }

  /** The exception that breaks the loop inside execute is the backend's own. */
  lemma {:induction false} LoopAccepts(c: B.Config, sim: B.Simulator, j: Job, w: World, s: State, b: B.State)
    requires B.ConfigOk(c) && s.current.Some? && Backed(c, sim, j, w, s, b) && Linked(j, s, b)
    requires !s.stage.ExecuteStage?
    ensures OwnFailure(w, Loop(j, w, s))
    decreases j.spec.maxControlCycles - s.cycles
  {
    var r := Cycle(j, w, s);
    assert Loop(j, w, s) == if r.1.Going? then Loop(j, w, r.0) else r;
    if Asks(j, w, s).None? {
      IdleCycle(j, w, s);
    } else if w.execute(s.cycles).Raised? {
      FailedCycle(j, w, s);
    } else {
      LinkedCycle(c, sim, j, w, s, b);
      if r.1.Going? { LoopAccepts(c, sim, j, w, r.0, B.ExecuteTo(c, sim, b, Asks(j, w, s).value).0); }
    }
  }

  /** A batch returned by the backend keeps runner and backend in agreement. */
  lemma {:induction false} LinkedCycle(c: B.Config, sim: B.Simulator, j: Job, w: World, s: State, b: B.State)
    requires B.ConfigOk(c) && s.current.Some? && Backed(c, sim, j, w, s, b) && Linked(j, s, b)
    requires Asks(j, w, s).Some? && w.execute(s.cycles).Returned?
    ensures var (t, next) := (Cycle(j, w, s).0, B.ExecuteTo(c, sim, b, Asks(j, w, s).value).0);
            && !t.stage.ExecuteStage?
            && (Cycle(j, w, s).1.Going? ==> Linked(j, t, next) && Backed(c, sim, j, w, t, next))
  {
    ExecuteLinks(c, sim, j, s, b, Asks(j, w, s).value);
    GoodCycle(j, w, s, w.execute(s.cycles).value);
  }

  lemma {:induction false} ExecuteLinks(c: B.Config, sim: B.Simulator, j: Job, s: State, b: B.State,
                                        actions: seq<Action>)
    requires B.ConfigOk(c) && Linked(j, s, b) && B.ExecuteTo(c, sim, b, actions).1.Returned?
    ensures var (next, r) := B.ExecuteTo(c, sim, b, actions);
            && BatchOk(r.value, |actions|, Context(j), s.observations, s.native)
            && next.context == b.context && next.step == b.step + r.value.executed
            && next.native == Some(r.value.transitions[r.value.executed - 1].nativeStep)
  {
    P.BatchMeetsContract(c, sim, b, actions);
    B.RowsKeepContext(c, sim, b, b.context.value, |actions|);
  }

  /** Over every run with this backend, whatever policy, clock and delivery do: an exception at
      a backend stage is one the backend itself raised.  Neither the reset receipt, nor the
      initial record, nor any batch is ever found in violation of the contract. */
  lemma {:induction false} BackendNeverViolates(c: B.Config, sim: B.Simulator, j: Job, w: World)
    requires B.ConfigOk(c) && Backs(c, sim, j, w)
    ensures var (s, p) := Attempt(j, w);
            p.Broken? ==>
              && (s.stage.ResetStage? ==> w.reset == Raised(p.error))
              && (s.stage.ObserveStage? ==> w.observe == Raised(p.error))
              && (s.stage.ExecuteStage? ==> s.cycles >= 1 && w.execute(s.cycles - 1) == Raised(p.error))
  {
    ResetLinks(c, sim, j, w);
    var (s, p) := Prepare(j, w);
    if p.Going? {
      GreetLinks(j, w, s);
      GreetSteady(j, w);
      var (t, q) := Greet(j, w, s);
      if q.Going? {
        LoopKeeps(j, w, t);
        LoopStages(j, w, t);
        LoopAccepts(c, sim, j, w, t, B.ObserveTo(B.ResetTo(c, sim, B.Initially(), Context(j)).0).0);
      }
    }
  }

  lemma {:induction false} LoopStages(j: Job, w: World, s: State)
    requires s.current.Some? && Kept(j, w, Loop(j, w, s))
    ensures !Loop(j, w, s).0.stage.ResetStage? && !Loop(j, w, s).0.stage.ObserveStage?
  {
  }

  lemma {:induction false} GreetLinks(j: Job, w: World, s: State)
    requires w.observe.Returned? ==> CleanViolation(w.observe.value, Context(j), 0).None?
    ensures var (t, p) := Greet(j, w, s);
            if p.Going? then t.observations == 1 && t.native == s.native && t.stage.DeliveryStage?
            else !t.stage.ResetStage? && !t.stage.ExecuteStage?
                 && (t.stage.ObserveStage? ==> w.observe == Raised(p.error))
  {
  }

  lemma {:induction false} ResetLinks(c: B.Config, sim: B.Simulator, j: Job, w: World)
    requires B.ConfigOk(c) && Backs(c, sim, j, w)
    ensures w.reset.Returned? ==> ResetMatches(w.reset.value, Context(j))
    ensures w.observe.Returned? ==> CleanViolation(w.observe.value, Context(j), 0).None?
    ensures var ready := B.ObserveTo(B.ResetTo(c, sim, B.Initially(), Context(j)).0).0;
            w.observe.Returned? ==> ready.context == Some(Context(j)) && ready.step == 0
  {
    var frame := sim.frame(0);
    if frame.Returned? {
      P.ConvertedClean(c, frame.value, Context(j), 0, B.Initially().contact);
    }
  }
}
