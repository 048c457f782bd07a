/** Which reply of the environment an exception of a run comes from. */
module RunnerReplies {
  import opened Basics
  import opened Records
  import opened ValidationCodes
  import opened Delivery
  import opened Results
  import opened RunnerChecks
  import opened Runner
  import opened RunnerInvariant
  import opened RunnerProperties

  const SILENT := Violation("")

  function ErrorOf<T>(reply: Reply<T>): Option<Exn> {
    if reply.Raised? then Some(reply.error) else None
  }

  /** The exception of the streaming step, when a clean record was left without its delivery. */
  function StreamError(s: Session): Option<Exn> {
    if s.channel.Online? && |s.delivered| < |s.clean|
    then ErrorOf(s.channel.stream(s.clean[..|s.clean| - 1], s.clean[|s.clean| - 1])) else None
  }

  /** The exception in the last reply that the runner received before an attempt broke off. */
  function BreakError(w: World, s: State): Option<Exn> {
    match s.stage
    case ResetStage => ErrorOf(w.reset)
    case PolicyResetStage => if w.policyReset.Raised? then ErrorOf(w.policyReset) else ErrorOf(w.clock(0))
    case ObserveStage => ErrorOf(w.observe)
    case DeliveryStage => if s.cycles == 0 && s.observations == 1 then ErrorOf(w.clock(1)) else StreamError(s.session)
    case InferStage => ErrorOf(w.infer(s.cycles))
    case ExecuteStage => if s.cycles == 0 then None else ErrorOf(w.execute(s.cycles - 1))
    case CommitStage =>
      if s.cycles > 0 && w.commit(s.cycles - 1).Raised? then ErrorOf(w.commit(s.cycles - 1))
      else ErrorOf(w.clock(s.cycles + 1))
    case _ => None
  }

  /** The exception in the last reply of a run's environment, closing aside. */
  function LastError(j: Job, w: World): Option<Exn> {
    var (s, p) := Attempt(j, w);
    if p.Broken? then BreakError(w, s)
    else if j.channel.Online? then ErrorOf(j.channel.validate(s.session.clean, s.session.delivered)) else None
  }

  /** An exception is that of the last reply, or else the runner's own and never silent. */
  predicate Traces(last: Option<Exn>, e: Exn) {
    if last.Some? then e == last.value else e != SILENT
  }

  /** If an attempt broke off, the exception traces to the last reply. */
  predicate Located(w: World, r: (State, Progress)) {
    r.1.Broken? ==> Traces(BreakError(w, r.0), r.1.error)
  }

  predicate Whole(s: Session) {
    |s.clean| == |s.delivered|
  }

  /** Where the loop stands when it polls its budgets. */
  predicate Resumes(w: World, s: State) {
    && s.current.Some? && Whole(s.session)
    && (|| (s.stage.DeliveryStage? && s.cycles == 0 && s.observations == 1)
        || (s.stage.CommitStage? && s.cycles >= 1 && w.commit(s.cycles - 1).Returned?))
  }

  lemma {:induction false} PrepareLocated(j: Job, w: World)
    ensures Located(w, Prepare(j, w)) && Prepare(j, w).0.session == Opened(j.channel)
    ensures Prepare(j, w).0.cycles == Prepare(j, w).0.observations == 0
  {
  }

  lemma {:induction false} DeliveryLocated(s: Session, r: EvaluationRecord)
    requires Whole(s)
    ensures var (t, d) := DeliverTo(s, r); if d.Raised? then Traces(StreamError(t), d.error) else Whole(t)
  {
  }

  lemma {:induction false} BatchLocated(s: Session, ts: seq<Transition>, n: nat)
    requires Whole(s) && n <= |ts|
    ensures var (t, d) := DeliverFirst(s, ts, n); if d.Raised? then Traces(StreamError(t), d.error) else Whole(t)
  {
    if n > 0 {
      BatchLocated(s, ts, n - 1);
      var (t, d) := DeliverFirst(s, ts, n - 1);
      if d.Returned? { DeliveryLocated(t, ts[n - 1].clean); }
    }
  }

  /** An admitted initial record is delivered; otherwise the loop is not entered. */
  lemma {:induction false} GreetLocated(j: Job, w: World, s: State)
    requires s.session == Opened(j.channel) && s.cycles == s.observations == 0
    ensures Located(w, Greet(j, w, s)) && (Greet(j, w, s).1.Going? ==> Resumes(w, Greet(j, w, s).0))
  {
    if w.observe.Raised? || CleanViolation(w.observe.value, Context(j), 0).Some? {
      GreetRefused(j, w, s);
    } else {
      DeliveryLocated(s.session, w.observe.value);
      GreetDelivered(j, w, s);
    }
  }

  lemma {:induction false} GreetRefused(j: Job, w: World, s: State)
    requires w.observe.Raised? || CleanViolation(w.observe.value, Context(j), 0).Some?
    ensures Located(w, Greet(j, w, s)) && Greet(j, w, s).1.Broken?
  {
  }

  lemma {:induction false} GreetDelivered(j: Job, w: World, s: State)
    requires s.session == Opened(j.channel) && s.cycles == s.observations == 0
    requires w.observe.Returned? && CleanViolation(w.observe.value, Context(j), 0).None?
    requires var (t, d) := DeliverTo(s.session, w.observe.value);
             if d.Raised? then Traces(StreamError(t), d.error) else Whole(t)
    ensures Located(w, Greet(j, w, s)) && (Greet(j, w, s).1.Going? ==> Resumes(w, Greet(j, w, s).0))
  {
  }

  lemma {:induction false} PollLocated(j: Job, w: World, s: State)
    requires Resumes(w, s)
    ensures Located(w, Poll(j, w, s))
  {
  }

  lemma {:induction false} ConsultLocated(w: World, s: State)
    requires s.current.Some?
    ensures Consult(w, s).1.Raised? ==> Traces(BreakError(w, Consult(w, s).0), Consult(w, s).1.error)
  {
  }

  lemma {:induction false} ActLocated(j: Job, w: World, s: State, plan: ActionPlan)
    requires 1 <= Requested(j, s, plan)
    ensures Act(j, w, s, plan).1.Raised? ==> Traces(BreakError(w, Act(j, w, s, plan).0), Act(j, w, s, plan).1.error)
    ensures Act(j, w, s, plan).0.session == s.session && Act(j, w, s, plan).0.cycles == s.cycles + 1
  {
    var executed := w.execute(s.cycles);
    if executed.Returned? {
      WalkNamed(executed.value.transitions, 0, Context(j), s.observations, false, s.native);
    }
  }

  lemma {:induction false} HandFailed(w: World, s: State, plan: ActionPlan, b: Batch, t: Session, error: Exn)
    requires 1 <= |b.transitions| <= |plan.actions| && 1 <= s.cycles
    requires DeliverFirst(s.session, b.transitions, |b.transitions|) == (t, Raised(error))
    requires Traces(StreamError(t), error)
    ensures Located(w, Hand(w, s, plan, b)) && Hand(w, s, plan, b).1.Broken?
  {
    assert Hand(w, s, plan, b) == (s.(stage := DeliveryStage, session := t), Broken(error));
  }

  /** The last phase of a cycle, once its batch is delivered. */
  predicate Committed(w: World, r: (State, Progress)) {
    && r.0.stage.CommitStage? && r.0.cycles >= 1 && r.0.current.Some? && Whole(r.0.session)
    && (if r.1.Broken? then w.commit(r.0.cycles - 1) == Raised(r.1.error) else w.commit(r.0.cycles - 1).Returned?)
  }

  lemma {:induction false} HandDone(w: World, s: State, plan: ActionPlan, b: Batch, t: Session, sofar: Trace)
    requires 1 <= |b.transitions| <= |plan.actions| && 1 <= s.cycles && Whole(t)
    requires DeliverFirst(s.session, b.transitions, |b.transitions|) == (t, Returned(sofar))
    ensures Committed(w, Hand(w, s, plan, b))
  {
    DeliverCount(s.session, b.transitions, |b.transitions|);
  }

  lemma {:induction false} CommittedLocated(w: World, r: (State, Progress))
    requires Committed(w, r)
    ensures Located(w, r) && (r.1.Going? ==> Resumes(w, r.0))
  {
  }

  lemma {:induction false} HandLocated(w: World, s: State, plan: ActionPlan, b: Batch)
    requires Whole(s.session) && 1 <= |b.transitions| <= |plan.actions| && 1 <= s.cycles
    ensures Located(w, Hand(w, s, plan, b))
    ensures Hand(w, s, plan, b).1.Going? ==> Resumes(w, Hand(w, s, plan, b).0)
  {
    var (t, d) := DeliverFirst(s.session, b.transitions, |b.transitions|);
    BatchLocated(s.session, b.transitions, |b.transitions|);
    if d.Raised? {
      HandFailed(w, s, plan, b, t, d.error);
    } else {
      HandDone(w, s, plan, b, t, d.value);
      CommittedLocated(w, Hand(w, s, plan, b));
    }
  }

  lemma {:induction false} CycleLocated(j: Job, w: World, s: State)
    requires Resumes(w, s)
    ensures Located(w, Cycle(j, w, s)) && (Cycle(j, w, s).1.Going? ==> Resumes(w, Cycle(j, w, s).0))
  {
    PollLocated(j, w, s);
    ConsultLocated(w, s);
    var (asked, plan) := Consult(w, s);
    if plan.Returned? && Requested(j, asked, plan.value) >= 1 {
      ActLocated(j, w, asked, plan.value);
      var (acted, batch) := Act(j, w, asked, plan.value);
      if batch.Returned? {
        BatchVerdictExact(batch.value, Requested(j, asked, plan.value), Context(j), s.observations, s.native);
        HandLocated(w, acted, plan.value, batch.value);
      }
    }
  }

  lemma {:induction false} LoopLocated(j: Job, w: World, s: State)
    requires Resumes(w, s)
    ensures Located(w, Loop(j, w, s))
    decreases j.spec.maxControlCycles - s.cycles
  {
    CycleLocated(j, w, s);
    if Cycle(j, w, s).1.Going? { LoopLocated(j, w, Cycle(j, w, s).0); }
  }

  lemma {:induction false} AttemptLocated(j: Job, w: World)
    ensures Located(w, Attempt(j, w))
  {
    PrepareLocated(j, w);
    var (s, p) := Prepare(j, w);
    if p.Going? {
      GreetLocated(j, w, s);
      if Greet(j, w, s).1.Going? { LoopLocated(j, w, Greet(j, w, s).0); }
    }
  }

  /** The exception that reaches the handler, whatever the run: if the last reply of the environment
      raised, it is that very exception, and otherwise one the runner made, never a silent one. */
  lemma {:induction false} CaughtIsLast(j: Job, w: World)
    requires JobOk(j)
    ensures LastError(j, w).Some? ==> Caught(j, w) == LastError(j, w)
    ensures LastError(j, w).None? ==> Caught(j, w) != Some(SILENT)
  {
    AttemptLocated(j, w);
    AttemptEnds(j, w);
    var (s, p) := Attempt(j, w);
    if p.Halted? {
      EndsNamed(j, w);
      AttemptKeeps(j, w);
      ConcludeReports(j, s);
      FinalizeLocated(s.session);
    }
  }

  lemma {:induction false} FinalizeLocated(s: Session)
    requires Schedulable(s.channel)
    ensures var last := if s.channel.Online? then ErrorOf(s.channel.validate(s.clean, s.delivered)) else None;
            && (last.Some? && !s.finalized && s.clean != [] ==> Finalize(s).1 == Raised(last.value))
            && (last.None? ==> Finalize(s).1 != Raised(SILENT))
  {
  }

  /** Totality, told by replies: an attempted run leaves no receipt if and only if the last reply
      of its environment raised a runner violation with an empty code. */
  lemma {:induction false} SilentExactly(j: Job, w: World)
    requires JobOk(j) && Attempted(j)
    ensures RunTrial(j, w).outcome.Raised? <==> LastError(j, w) == Some(SILENT)
  {
    CaughtIsLast(j, w);
    RunAlwaysReports(j, w);
  }

  // ------------------------------------------------------------------ the last execute

  /** Every execute so far returned, or the last one broke the run off. */
  predicate ExecuteTells(w: World, r: (State, Progress)) {
    r.0.cycles >= 1 && w.execute(r.0.cycles - 1).Raised? ==> r.1.Broken? && r.0.stage.ExecuteStage?
  }

  lemma {:induction false} CycleExecutes(j: Job, w: World, s: State)
    requires s.current.Some? && (s.cycles >= 1 ==> w.execute(s.cycles - 1).Returned?)
    ensures ExecuteTells(w, Cycle(j, w, s))
  {
    var (asked, plan) := Consult(w, s);
    if plan.Returned? && Requested(j, asked, plan.value) >= 1 {
      ActExecutes(j, w, asked, plan.value);
      var (acted, batch) := Act(j, w, asked, plan.value);
      if batch.Returned? {
        BatchVerdictExact(batch.value, Requested(j, asked, plan.value), Context(j), s.observations, s.native);
        HandExecutes(w, acted, plan.value, batch.value);
      }
    }
  }

  lemma {:induction false} ActExecutes(j: Job, w: World, s: State, plan: ActionPlan)
    requires 1 <= Requested(j, s, plan)
    ensures var (t, r) := Act(j, w, s, plan);
            && t.cycles == s.cycles + 1
            && if r.Raised? then ExecuteTells(w, (t, Broken(r.error))) else w.execute(s.cycles).Returned?
  {
  }

  lemma {:induction false} HandExecutes(w: World, s: State, plan: ActionPlan, b: Batch)
    requires 1 <= |b.transitions| <= |plan.actions| && 1 <= s.cycles && w.execute(s.cycles - 1).Returned?
    ensures ExecuteTells(w, Hand(w, s, plan, b))
  {
    assert Hand(w, s, plan, b).0.cycles == s.cycles;
  }

  lemma {:induction false} LoopExecutes(j: Job, w: World, s: State)
    requires s.current.Some? && (s.cycles >= 1 ==> w.execute(s.cycles - 1).Returned?)
    ensures ExecuteTells(w, Loop(j, w, s))
    decreases j.spec.maxControlCycles - s.cycles
  {
    CycleExecutes(j, w, s);
    if Cycle(j, w, s).1.Going? { LoopExecutes(j, w, Cycle(j, w, s).0); }
  }

  /** If the last execute that a run asked for raised, it broke off there. */
  lemma {:induction false} AttemptExecutes(j: Job, w: World)
    ensures ExecuteTells(w, Attempt(j, w))
  {
    var (s, p) := Prepare(j, w);
    if p.Going? && Greet(j, w, s).1.Going? { LoopExecutes(j, w, Greet(j, w, s).0); }
  }
}
