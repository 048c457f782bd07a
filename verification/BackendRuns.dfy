/** Whole runs of the UniVTAC backend: the traces it feeds them, and the environments it makes. */
module BackendRuns {
  import opened Basics
  import opened Records
  import opened ValidationCodes
  import opened StreamingProperties
  import opened Delivery
  import opened Results
  import opened RunnerChecks
  import opened Runner
  import opened RunnerInvariant
  import opened RunnerProperties
  import opened Chronology
  import opened RunnerChronology
  import opened BackendRunner
  import B = Backend
  import P = BackendProperties

  // ------------------------------------------------------------------ the clean trace

  function TimeOf(step: nat): real {
    step as real / B.STEPS_PER_SECOND as real
  }

  function SlotIdentityFor(c: B.Config, s: Slot): SlotIdentity {
    SlotIdentity(c.slots.At(s).physicalSource, c.slots.At(s).frameId, c.calibrationId, c.calibration)
  }

  /** What identifies the stream of this backend in an episode. */
  function IdentityFor(c: B.Config, e: EpisodeContext): StreamIdentity {
    StreamIdentity(e.episodeId, e.task, e.initialSeed, true,
                   PerSlot(SlotIdentityFor(c, Left), SlotIdentityFor(c, Right), true))
  }

  /** Both slots show what the simulator's cameras saw in one of its frames. */
  ghost predicate ShowsFrame(sim: B.Simulator, r: EvaluationRecord) {
    exists n: nat :: sim.frame(n).Returned? && ShowsTouch(sim.frame(n).value, r)
  }

  predicate ShowsTouch(f: B.Frame, r: EvaluationRecord) {
    forall s: Slot :: r.Sensor(s).payload == Some(f.touch.At(s).pixels)
  }

  /** A record as this backend makes them: well-formed, clean, of its stream, stamped with its
      step, and showing a frame of the simulator. */
  ghost predicate Made(c: B.Config, sim: B.Simulator, e: EpisodeContext, r: EvaluationRecord, step: nat) {
    && RecordOk(r, step, e, true) && CleanRecordOk(r, step) && IdentityOf(r) == IdentityFor(c, e)
    && r.Sensor(Left).deliveryTime == TimeOf(step) && ShowsFrame(sim, r)
  }

  ghost predicate MadeTrace(c: B.Config, sim: B.Simulator, e: EpisodeContext, clean: Trace) {
    forall i :: 0 <= i < |clean| ==> Made(c, sim, e, clean[i], i)
  }

  lemma {:induction false} ConvertedMade(c: B.Config, sim: B.Simulator, n: nat, e: EpisodeContext, step: nat,
                                         contact: PerSlot<bool>)
    requires sim.frame(n).Returned?
    ensures var v := B.Convert(c, sim.frame(n).value, e, step, contact);
            v.Returned? && Made(c, sim, e, v.value.record, step)
  {
    P.ConvertedClean(c, sim.frame(n).value, e, step, contact);
    var r := B.Convert(c, sim.frame(n).value, e, step, contact).value.record;
    assert CleanSlotOk(r, step, Left) && CleanSlotOk(r, step, Right);
    ConvertedShows(c, sim.frame(n).value, e, step, contact);
  }

  lemma {:induction false} ConvertedShows(c: B.Config, f: B.Frame, e: EpisodeContext, step: nat,
                                          contact: PerSlot<bool>)
    requires B.Convert(c, f, e, step, contact).Returned?
    ensures ShowsTouch(f, B.Convert(c, f, e, step, contact).value.record)
  {
  }

  lemma {:induction false} RowMade(c: B.Config, sim: B.Simulator, s: B.State, e: EpisodeContext)
    requires B.Row(c, sim, s, e).1.Returned? && s.step >= -1
    ensures Made(c, sim, e, B.Row(c, sim, s, e).1.value.clean, s.step + 1)
  {
    ConvertedMade(c, sim, s.taken + 1, e, s.step + 1, s.contact);
  }

  /** The records of a batch whose first one belongs at a step. */
  ghost predicate MadeFrom(c: B.Config, sim: B.Simulator, e: EpisodeContext, ts: seq<Transition>, step: nat) {
    forall i :: 0 <= i < |ts| ==> Made(c, sim, e, ts[i].clean, step + i)
  }

  lemma {:induction false} MadeNext(c: B.Config, sim: B.Simulator, e: EpisodeContext, ts: seq<Transition>, step: nat,
                                    tr: Transition)
    requires MadeFrom(c, sim, e, ts, step) && Made(c, sim, e, tr.clean, step + |ts|)
    ensures MadeFrom(c, sim, e, ts + [tr], step)
  {
  }

  lemma {:induction false} RowsMade(c: B.Config, sim: B.Simulator, s: B.State, e: EpisodeContext, n: nat,
                                    t: B.State, ts: seq<Transition>)
    requires !s.terminal && s.step >= 0 && B.Rows(c, sim, s, e, n) == (t, Returned(ts))
    ensures MadeFrom(c, sim, e, ts, s.step + 1)
  {
    if n > 0 {
      var (before, done) := B.Rows(c, sim, s, e, n - 1);
      FrontReturns(c, sim, s, e, n);
      RowsMade(c, sim, s, e, n - 1, before, done.value);
      LastMade(c, sim, s, e, n, before, done.value, ts);
    }
  }

  lemma {:induction false} FrontReturns(c: B.Config, sim: B.Simulator, s: B.State, e: EpisodeContext, n: nat)
    requires n > 0 && B.Rows(c, sim, s, e, n).1.Returned?
    ensures B.Rows(c, sim, s, e, n - 1).1.Returned?
  {
  }

  lemma {:induction false} LastMade(c: B.Config, sim: B.Simulator, s: B.State, e: EpisodeContext, n: nat,
                                    before: B.State, done: seq<Transition>, ts: seq<Transition>)
    requires !s.terminal && s.step >= 0 && n > 0 && MadeFrom(c, sim, e, done, s.step + 1)
    requires B.Rows(c, sim, s, e, n - 1) == (before, Returned(done)) && B.Rows(c, sim, s, e, n).1 == Returned(ts)
    ensures MadeFrom(c, sim, e, ts, s.step + 1)
  {
    if before.terminal {
      assert ts == done;
    } else {
      RowsStep(c, sim, s, e, n - 1);
      LastRow(c, sim, s, e, n, before, done, ts);
      NextRowMade(c, sim, before, e, done, s.step + 1);
    }
  }

  lemma {:induction false} LastRow(c: B.Config, sim: B.Simulator, s: B.State, e: EpisodeContext, n: nat,
                                   before: B.State, done: seq<Transition>, ts: seq<Transition>)
    requires n > 0 && B.Rows(c, sim, s, e, n - 1) == (before, Returned(done)) && !before.terminal
    requires B.Rows(c, sim, s, e, n).1 == Returned(ts)
    ensures B.Row(c, sim, before, e).1.Returned? && ts == done + [B.Row(c, sim, before, e).1.value]
  {
  }

  lemma {:induction false} NextRowMade(c: B.Config, sim: B.Simulator, s: B.State, e: EpisodeContext,
                                       ts: seq<Transition>, step: nat)
    requires MadeFrom(c, sim, e, ts, step) && s.step == step - 1 + |ts|
    ensures B.Row(c, sim, s, e).1.Returned? ==> MadeFrom(c, sim, e, ts + [B.Row(c, sim, s, e).1.value], step)
  {
    if B.Row(c, sim, s, e).1.Returned? {
      RowMade(c, sim, s, e);
      MadeNext(c, sim, e, ts, step, B.Row(c, sim, s, e).1.value);
    }
  }

  lemma {:induction false} RowsStep(c: B.Config, sim: B.Simulator, s: B.State, e: EpisodeContext, n: nat)
    requires !s.terminal && B.Rows(c, sim, s, e, n).1.Returned?
    ensures B.Rows(c, sim, s, e, n).0.step == s.step + |B.Rows(c, sim, s, e, n).1.value|
  {
    P.RowsTellAll(c, sim, s, e, n);
  }

  lemma {:induction false} BatchMade(c: B.Config, sim: B.Simulator, s: B.State, actions: seq<Action>)
    requires B.ConfigOk(c) && s.step >= 0 && B.ExecuteTo(c, sim, s, actions).1.Returned?
    ensures s.context.Some?
            && MadeFrom(c, sim, s.context.value, B.ExecuteTo(c, sim, s, actions).1.value.transitions, s.step + 1)
  {
    var (t, done) := B.Rows(c, sim, s, s.context.value, |actions|);
    RowsMade(c, sim, s, s.context.value, |actions|, t, done.value);
  }

  /** Delivering made records, from where the session stands, keeps its trace made. */
  lemma {:induction false} DeliveredMade(c: B.Config, sim: B.Simulator, e: EpisodeContext, s: Session,
                                         ts: seq<Transition>)
    requires |s.clean| == |s.delivered| && MadeTrace(c, sim, e, s.clean)
    requires MadeFrom(c, sim, e, ts, |s.clean|)
    ensures MadeTrace(c, sim, e, DeliverFirst(s, ts, |ts|).0.clean)
  {
    DeliverFirstKeeps(s, ts, |ts|);
    var t := DeliverFirst(s, ts, |ts|).0;
    forall i | 0 <= i < |t.clean| ensures Made(c, sim, e, t.clean[i], i) {
      if i < |s.clean| {
        assert t.clean[i] == s.clean[i];
      } else {
        assert t.clean[i] == ts[i - |s.clean|].clean && |s.clean| + (i - |s.clean|) == i;
      }
    }
  }

  /** What one cycle does to the session: nothing, or the delivery of its batch. */
  lemma {:induction false} CycleDelivers(j: Job, w: World, s: State)
    requires s.current.Some?
    ensures var t := Cycle(j, w, s).0;
            || t.session == s.session
            || (Asks(j, w, s).Some? && w.execute(s.cycles).Returned?
                && var ts := w.execute(s.cycles).value.transitions;
                   t.session == DeliverFirst(s.session, ts, |ts|).0)
  {
    var (asked, plan) := Consult(w, s);
    if Asks(j, w, s).Some? {
      var (acted, batch) := Act(j, w, asked, plan.value);
      if batch.Returned? {
        BatchVerdictExact(batch.value, Requested(j, asked, plan.value), Context(j), s.observations, s.native);
        assert Cycle(j, w, s) == Hand(w, acted, plan.value, batch.value);
        HandDelivers(w, acted, plan.value, batch.value);
      }
    }
  }

  lemma {:induction false} HandDelivers(w: World, s: State, plan: ActionPlan, b: Batch)
    requires 1 <= |b.transitions| <= |plan.actions| && 1 <= s.cycles
    ensures Hand(w, s, plan, b).0.session == DeliverFirst(s.session, b.transitions, |b.transitions|).0
  {
  }

  /** A cycle of this backend keeps the clean trace made. */
  lemma {:induction false} CycleMade(c: B.Config, sim: B.Simulator, j: Job, w: World, s: State, b: B.State)
    requires B.ConfigOk(c) && s.current.Some? && Backed(c, sim, j, w, s, b) && Linked(j, s, b) && b.step >= 0
    requires Complete(s.session, s.observations) && MadeTrace(c, sim, Context(j), s.session.clean)
    ensures MadeTrace(c, sim, Context(j), Cycle(j, w, s).0.session.clean)
  {
    CycleDelivers(j, w, s);
    if Asks(j, w, s).Some? && w.execute(s.cycles).Returned? {
      ExecutedMade(c, sim, j, w, s, b);
      DeliveredMade(c, sim, Context(j), s.session, w.execute(s.cycles).value.transitions);
    }
  }

  lemma {:induction false} ExecutedMade(c: B.Config, sim: B.Simulator, j: Job, w: World, s: State, b: B.State)
    requires B.ConfigOk(c) && s.current.Some? && Backed(c, sim, j, w, s, b) && Linked(j, s, b) && b.step >= 0
    requires Asks(j, w, s).Some? && w.execute(s.cycles).Returned? && Complete(s.session, s.observations)
    ensures MadeFrom(c, sim, Context(j), w.execute(s.cycles).value.transitions, |s.session.clean|)
  {
    BatchMade(c, sim, b, Asks(j, w, s).value);
  }

  lemma {:induction false} LoopMade(c: B.Config, sim: B.Simulator, j: Job, w: World, s: State, b: B.State)
    requires B.ConfigOk(c) && s.current.Some? && Backed(c, sim, j, w, s, b) && Linked(j, s, b) && b.step >= 0
    requires Steady(j, w, s) && !s.stage.InferStage? && s.signal.Running?
    requires MadeTrace(c, sim, Context(j), s.session.clean)
    ensures MadeTrace(c, sim, Context(j), Loop(j, w, s).0.session.clean)
    decreases j.spec.maxControlCycles - s.cycles
  {
    CycleMade(c, sim, j, w, s, b);
    var r := Cycle(j, w, s);
    if r.1.Going? {
      CycleKeeps(j, w, s);
      GoingAsks(j, w, s);
      LinkedCycle(c, sim, j, w, s, b);
      LoopMade(c, sim, j, w, r.0, B.ExecuteTo(c, sim, b, Asks(j, w, s).value).0);
    }
  }

  /** A cycle that goes on has executed a batch. */
  lemma {:induction false} GoingAsks(j: Job, w: World, s: State)
    requires s.current.Some? && !s.stage.ExecuteStage? && Cycle(j, w, s).1.Going?
    ensures Asks(j, w, s).Some? && w.execute(s.cycles).Returned?
  {
    if Asks(j, w, s).None? {
      IdleCycle(j, w, s);
    } else if w.execute(s.cycles).Raised? {
      FailedCycle(j, w, s);
    }
  }

  /** Every clean record of a run of this backend is as the backend makes them, at its step. */
  lemma {:induction false} RunMade(c: B.Config, sim: B.Simulator, j: Job, w: World)
    requires B.ConfigOk(c) && Backs(c, sim, j, w)
    ensures MadeTrace(c, sim, Context(j), Attempt(j, w).0.session.clean)
  {
    ResetLinks(c, sim, j, w);
    var (s, p) := Prepare(j, w);
    if p.Going? {
      FirstMade(c, sim, j, w);
      GreetLinks(j, w, s);
      GreetSteady(j, w);
      var (t, q) := Greet(j, w, s);
      if q.Going? {
        LoopMade(c, sim, j, w, t, Ready(c, sim, j));
      }
    }
  }

  lemma {:induction false} FirstMade(c: B.Config, sim: B.Simulator, j: Job, w: World)
    requires B.ConfigOk(c) && Backs(c, sim, j, w) && Prepare(j, w).1.Going?
    ensures MadeTrace(c, sim, Context(j), Greet(j, w, Prepare(j, w).0).0.session.clean)
  {
    if sim.frame(0).Returned? { ConvertedMade(c, sim, 0, Context(j), 0, B.Initially().contact); }
  }

  // ------------------------------------------------------------------ accepted evidence

  /** With a faithful channel, the chronology checker accepts the evidence of a run of this backend
      exactly when it did not crash inside a cycle's execution or delivery: the backend itself
      guarantees everything else that the checker asks of clean records. */
  lemma {:induction false} BackedEvidenceAccepted(c: B.Config, sim: B.Simulator, j: Job, w: World)
    requires B.ConfigOk(c) && Backs(c, sim, j, w)
    requires JobOk(j) && Attempted(j) && Faithful(j.channel, Context(j))
    requires RunTrial(j, w).finalization.Some? && RunTrial(j, w).outcome.Returned?
    ensures var r := RunTrial(j, w);
            var b := r.outcome.value.body;
            Accepts(j.trial, j.spec, b, r.finalization.value, r.entries) <==>
            !(b.terminalStatus.Crash?
              && (b.failureStage == Some(ExecuteStage)
                  || (b.failureStage == Some(DeliveryStage) && b.controlCycleCount >= 1)))
  {
    EvidenceIsSession(j, w);
    RunMade(c, sim, j, w);
    MadeShaped(c, sim, Context(j), Attempt(j, w).0.session.clean);
    FaithfulEvidenceAccepted(j, w);
  }

  lemma {:induction false} MadeShaped(c: B.Config, sim: B.Simulator, e: EpisodeContext, clean: Trace)
    requires MadeTrace(c, sim, e, clean)
    ensures forall i :: 0 <= i < |clean| ==> RecordShaped(clean[i], i)
  {
  }

  lemma {:induction false} MadeClean(c: B.Config, sim: B.Simulator, e: EpisodeContext, clean: Trace)
    requires MadeTrace(c, sim, e, clean)
    ensures CleanTraceOk(clean)
  {
  }

  // ------------------------------------------------------------------ environments

  /** The backend when it has answered reset and observe. */
  function Ready(c: B.Config, sim: B.Simulator, j: Job): B.State {
    B.ObserveTo(B.ResetTo(c, sim, B.Initially(), Context(j)).0).0
  }

  /** An environment whose reset and observe are this backend's. */
  function WithOpening(c: B.Config, sim: B.Simulator, j: Job, w: World): World {
    var (restarted, receipt) := B.ResetTo(c, sim, B.Initially(), Context(j));
    w.(reset := receipt, observe := B.ObserveTo(restarted).1)
  }

  /** A run up to the first cycle. */
  function Opens(j: Job, w: World): (State, Progress) {
    var (prepared, p) := Prepare(j, w);
    if p.Going? then Greet(j, w, prepared) else (prepared, p)
  }

  /** The replies of an environment, its backend's taken from this one as far as a run gets: the
      states of runner and backend when cycle n starts, if it does. */
  function Trail(c: B.Config, sim: B.Simulator, j: Job, w: World, n: nat): Option<(State, B.State)>
    requires B.ConfigOk(c)
  {
    if n == 0 then
      var (s, p) := Opens(j, WithOpening(c, sim, j, w));
      if p.Going? then Some((s, Ready(c, sim, j))) else None
    else
      var before := Trail(c, sim, j, w, n - 1);
      if before.None? then None
      else
        var (s, b) := before.value;
        if s.current.None? || Asks(j, w, s).None? then None
        else
          var (next, reply) := B.ExecuteTo(c, sim, b, Asks(j, w, s).value);
          var (t, p) := Cycle(j, w.(execute := _ => reply), s);
          if p.Going? then Some((t, next)) else None
  }

  /** What this backend answers in cycle n. */
  function Answer(c: B.Config, sim: B.Simulator, j: Job, w: World, n: nat): Reply<Batch>
    requires B.ConfigOk(c)
  {
    var start := Trail(c, sim, j, w, n);
    if start.None? || start.value.0.current.None? || Asks(j, w, start.value.0).None? then Raised(OtherError)
    else B.ExecuteTo(c, sim, start.value.1, Asks(j, w, start.value.0).value).1
  }

  /** The same environment around this backend. */
  function WorldOf(c: B.Config, sim: B.Simulator, j: Job, w: World): World
    requires B.ConfigOk(c)
  {
    WithOpening(c, sim, j, w).(execute := (n: nat) => Answer(c, sim, j, w, n))
  }

  /** Two environments around different backends. */
  ghost predicate Around(w: World, v: World) {
    v.clock == w.clock && v.infer == w.infer && v.commit == w.commit
  }

  lemma {:induction false} AsksReadsNone(j: Job, w: World, v: World, s: State)
    requires s.current.Some? && Around(w, v)
    ensures Poll(j, v, s) == Poll(j, w, s) && Consult(v, s) == Consult(w, s) && Asks(j, v, s) == Asks(j, w, s)
  {
  }

  lemma {:induction false} ActReadsOne(j: Job, w: World, v: World, s: State, plan: ActionPlan)
    requires 1 <= Requested(j, s, plan) && v.execute(s.cycles) == w.execute(s.cycles)
    ensures Act(j, v, s, plan) == Act(j, w, s, plan)
  {
  }

  lemma {:induction false} HandReadsNone(w: World, v: World, s: State, plan: ActionPlan, b: Batch)
    requires 1 <= |b.transitions| <= |plan.actions| && 1 <= s.cycles && Around(w, v)
    ensures Hand(v, s, plan, b) == Hand(w, s, plan, b)
  {
  }

  /** Environments that answer a cycle alike drive it alike. */
  lemma {:induction false} CycleReadsOne(j: Job, w: World, v: World, s: State)
    requires s.current.Some? && Around(w, v) && v.execute(s.cycles) == w.execute(s.cycles)
    ensures Cycle(j, v, s) == Cycle(j, w, s)
  {
    AsksReadsNone(j, w, v, s);
    var (asked, plan) := Consult(w, s);
    if plan.Returned? && 1 <= Requested(j, asked, plan.value) {
      ActReadsOne(j, w, v, asked, plan.value);
      var (acted, batch) := Act(j, w, asked, plan.value);
      if batch.Returned? {
        BatchVerdictExact(batch.value, Requested(j, asked, plan.value), Context(j), s.observations, s.native);
        HandReadsNone(w, v, acted, plan.value, batch.value);
      }
    }
  }

  lemma {:induction false} WorldBacked(c: B.Config, sim: B.Simulator, j: Job, w: World, s: State, b: B.State, n: nat)
    requires B.ConfigOk(c) && s.current.Some? && Trail(c, sim, j, w, n) == Some((s, b)) && s.cycles == n
    ensures Backed(c, sim, j, WorldOf(c, sim, j, w), s, b)
    decreases j.spec.maxControlCycles - s.cycles
  {
    var v := WorldOf(c, sim, j, w);
    AsksReadsNone(j, w, v, s);
    if Asks(j, w, s).Some? {
      var (next, reply) := B.ExecuteTo(c, sim, b, Asks(j, w, s).value);
      TrailGoesOn(c, sim, j, w, s, b, n);
      if Cycle(j, v, s).1.Going? { WorldBacked(c, sim, j, w, Cycle(j, v, s).0, next, n + 1); }
    }
  }

  /** In this environment, a cycle asks the backend, and goes on where its trail goes on. */
  lemma {:induction false} TrailGoesOn(c: B.Config, sim: B.Simulator, j: Job, w: World, s: State, b: B.State, n: nat)
    requires B.ConfigOk(c) && s.current.Some? && Trail(c, sim, j, w, n) == Some((s, b)) && s.cycles == n
    requires Asks(j, w, s).Some?
    ensures var (next, reply) := B.ExecuteTo(c, sim, b, Asks(j, w, s).value);
            var v := WorldOf(c, sim, j, w);
            && v.execute(n) == reply
            && Trail(c, sim, j, w, n + 1)
               == (if Cycle(j, v, s).1.Going? then Some((Cycle(j, v, s).0, next)) else None)
  {
    var (next, reply) := B.ExecuteTo(c, sim, b, Asks(j, w, s).value);
    var v, u := WorldOf(c, sim, j, w), w.(execute := _ => reply);
    assert v.execute(n) == Answer(c, sim, j, w, n) == reply == u.execute(n);
    CycleReadsOne(j, u, v, s);
  }

  /** What happens before the first cycle reads nothing of the executions. */
  lemma {:induction false} OpensReadsNone(j: Job, w: World, v: World)
    requires v == w.(execute := v.execute)
    ensures Opens(j, v) == Opens(j, w)
  {
  }

  lemma {:induction false} OpensCurrent(j: Job, w: World)
    requires Opens(j, w).1.Going?
    ensures Opens(j, w).0.current.Some? && Opens(j, w).0.cycles == 0
  {
  }

  lemma {:induction false} OpenBacks(c: B.Config, sim: B.Simulator, j: Job, w: World)
    requires B.ConfigOk(c) && w == WithOpening(c, sim, j, w)
    requires Opens(j, w).1.Going? ==>
               Opens(j, w).0.current.Some? && Backed(c, sim, j, w, Opens(j, w).0, Ready(c, sim, j))
    ensures Backs(c, sim, j, w)
  {
  }

  /** Every backend has environments: around any policy, clock and closing, there is one whose
      backend is this one. */
  lemma {:induction false} WorldExists(c: B.Config, sim: B.Simulator, j: Job, w: World)
    requires B.ConfigOk(c)
    ensures Backs(c, sim, j, WorldOf(c, sim, j, w))
  {
    var v := WorldOf(c, sim, j, w);
    OpensReadsNone(j, WithOpening(c, sim, j, w), v);
    if Opens(j, v).1.Going? {
      OpensCurrent(j, v);
      WorldBacked(c, sim, j, w, Opens(j, v).0, Ready(c, sim, j), 0);
    }
    OpenBacks(c, sim, j, v);
  }
}
