/** The UniVTAC backend: one simulated episode behind reset, observe and execute. */
module Backend {
  import opened Basics
  import opened Trials
  import opened Records
  import opened ContactPhases
  import opened Results
  import opened RunnerChecks

  // ------------------------------------------------------------------ configuration

  const PHYSICS_STEPS_PER_ACTION := 1
  const STEPS_PER_SECOND := 120

  /** What differs between the two tactile slots. */
  datatype SlotConfig = SlotConfig(physicalSource: string, frameId: string)

  datatype Config = Config(task: string, prompt: string, horizon: nat, earlyStopCapable: bool,
                           silenceMeansNoStop: bool, lower: seq<real>, upper: seq<real>, farPlane: real,
                           slots: PerSlot<SlotConfig>, calibrationId: string, calibration: Sha<string>,
                           tracker: DepthPhaseTracker)

  predicate ConfigOk(c: Config) {
    && c.horizon >= 1 && |c.lower| == |c.upper| == 8 && (forall i :: 0 <= i < 8 ==> c.lower[i] < c.upper[i])
    && c.slots.leftFirst
  }

  /** The complete batch is validated before anything is executed. */
  predicate ActionsOk(c: Config, actions: seq<Action>)
    requires ConfigOk(c)
  {
    && 1 <= |actions|
    && forall a <- actions :: |a| == 8 && forall i :: 0 <= i < 8 ==> c.lower[i] <= a[i] <= c.upper[i]
  }

  // ------------------------------------------------------------------ the simulator

  datatype Touch = Touch(pixels: Picture, nearest: real)

  /** One raw observation; what cannot be converted counts as an exception of the simulator. */
  datatype Frame = Frame(nativeStep: nat, head: Picture, wrist: Picture, touch: PerSlot<Touch>,
                         qpos: seq<real>, digest: string)

  datatype Feedback = Feedback(executionSuccess: bool, evalSuccess: bool)

  /** Everything the simulator answers.  Rows of actions are numbered as they are attempted;
      observations and checks by the number of actions taken before them. */
  datatype Simulator = Simulator(reset: Reply<()>, encode: nat -> Reply<()>, take: nat -> Reply<Feedback>,
                                 frame: nat -> Reply<Frame>, success: nat -> Reply<bool>,
                                 plan: nat -> Reply<bool>, earlyStop: nat -> Reply<Option<bool>>,
                                 shutdown: Reply<()>)

  function ResolveSignal(success: bool, executionSuccess: bool, planSuccess: bool, earlyStop: bool,
                         horizonReached: bool): Signal
  {
    if success then Succeeded
    else if !executionSuccess || !planSuccess then Failed
    else if earlyStop then StoppedEarly
    else if horizonReached then TimedOut
    else Running
  }

  // ------------------------------------------------------------------ conversion

  datatype Converted = Converted(record: EvaluationRecord, native: nat, digest: string, contact: PerSlot<bool>)

  function Indentation(c: Config, t: Touch): real {
    if c.farPlane - t.nearest >= 0.0 then c.farPlane - t.nearest else 0.0
  }

  function SensorOf(c: Config, f: Frame, s: Slot, step: nat): Sensor {
    Sensor(Some(f.touch.At(s).pixels), Some(true), step, step as real / STEPS_PER_SECOND as real, None,
           c.slots.At(s).frameId, c.calibrationId)
  }

  function ProvenanceOf(c: Config, f: Frame, s: Slot, step: nat, phase: ContactPhase): Provenance {
    Provenance(c.slots.At(s).physicalSource, Some(step), Some(step as real / STEPS_PER_SECOND as real),
               Some(Sha(f.touch.At(s).pixels)), c.calibration, phase, [])
  }

  function PhaseOf(c: Config, f: Frame, s: Slot, contact: PerSlot<bool>): (ContactPhase, bool) {
    Update(c.tracker, Indentation(c, f.touch.At(s)), contact.At(s))
  }

  function ContentOf(c: Config, f: Frame, e: EpisodeContext, step: nat, contact: PerSlot<bool>): Content {
    Content(Observation(e.episodeId, e.task, e.initialSeed, step,
                        PerSlot(SensorOf(c, f, Left, step), SensorOf(c, f, Right, step), true),
                        map["top" := f.head, "wrist_l" := f.wrist], f.qpos),
            PerSlot(ProvenanceOf(c, f, Left, step, PhaseOf(c, f, Left, contact).0),
                    ProvenanceOf(c, f, Right, step, PhaseOf(c, f, Right, contact).0), true))
  }

  /** A raw frame as the record of a benchmark step. */
  function Convert(c: Config, f: Frame, e: EpisodeContext, step: int, contact: PerSlot<bool>): Reply<Converted> {
    if step < 0 then Raised(OtherError)
    else
      var record :- BuildRecord(ContentOf(c, f, e, step, contact), None);
      Returned(Converted(record, f.nativeStep, f.digest,
                         PerSlot(PhaseOf(c, f, Left, contact).1, PhaseOf(c, f, Right, contact).1, true)))
  }

  // ------------------------------------------------------------------ the backend, as a function

  datatype State = State(context: Option<EpisodeContext>, cached: Option<EvaluationRecord>, delivered: bool,
                         resetAttempted: bool, closed: bool, terminal: bool, step: int, executed: nat,
                         native: Option<nat>, contact: PerSlot<bool>, rows: nat, taken: nat)

  function Initially(): State {
    State(None, None, false, false, false, false, 0, 0, None, PerSlot(false, false, true), 0, 0)
  }

  function Accept(s: State, v: Converted): State {
    s.(contact := v.contact, step := v.record.Observed().stepIndex, native := Some(v.native))
  }

  function ResetTo(c: Config, sim: Simulator, s: State, e: EpisodeContext): (State, Reply<ResetReceipt>)
  {
    if s.closed || s.resetAttempted || e.task != c.task || e.instruction != c.prompt || e.actionSpec != ACTION_SPEC
    then (s, Raised(OtherError))
    else
      var s1 := s.(resetAttempted := true);
      if sim.reset.Raised? then (s1, Raised(sim.reset.error))
      else
        var s2 := s1.(context := Some(e));
        var frame := sim.frame(s.taken);
        if frame.Raised? then (s2, Raised(frame.error))
        else
          var v := Convert(c, frame.value, e, 0, s.contact);
          if v.Raised? then (s2, Raised(v.error))
          else
            (Accept(s2, v.value).(cached := Some(v.value.record)),
             Returned(ResetReceipt(e.episodeId, e.initialSeed, e.exogenousSeed, v.value.digest)))
  }

  function ObserveTo(s: State): (State, Reply<EvaluationRecord>) {
    if s.cached.None? || s.context.None? || s.delivered then (s, Raised(OtherError))
    else (s.(delivered := true), Returned(s.cached.value))
  }

  /** Whether the task stops early; a missing answer means no for the registered tasks. */
  function StopsEarly(c: Config, sim: Simulator, taken: nat): Reply<bool> {
    if !c.earlyStopCapable then Returned(false)
    else
      var answer :- sim.earlyStop(taken);
      if answer.None? then if c.silenceMeansNoStop then Returned(false) else Raised(OtherError)
      else Returned(answer.value)
  }

  /** The signal after an action, once its observation is known. */
  function SignalAfter(c: Config, sim: Simulator, s: State, feedback: Feedback): Reply<Signal> {
    var success :- sim.success(s.taken);
    var plan :- sim.plan(s.taken);
    var early :- StopsEarly(c, sim, s.taken);
    Returned(ResolveSignal(feedback.evalSuccess || success, feedback.executionSuccess, plan, early,
                           s.executed >= c.horizon))
  }

  /** Observes the outcome of an action and checks that the simulator moved exactly one action. */
  function Outcome(c: Config, sim: Simulator, s: State, e: EpisodeContext): Reply<Converted> {
    var frame :- sim.frame(s.taken);
    var v :- Convert(c, frame, e, s.step + 1, s.contact);
    if s.native.None? || v.native != s.native.value + PHYSICS_STEPS_PER_ACTION then Raised(OtherError)
    else Returned(v)
  }

  /** One row of a batch. */
  function Row(c: Config, sim: Simulator, s: State, e: EpisodeContext): (State, Reply<Transition>) {
    var s1 := s.(rows := s.rows + 1);
    if sim.encode(s.rows).Raised? then (s1, Raised(sim.encode(s.rows).error))
    else
      var s2 := s1.(taken := s.taken + 1);
      var feedback := sim.take(s.rows);
      if feedback.Raised? then (s2, Raised(feedback.error))
      else
        var s3 := s2.(executed := s.executed + 1);
        var v := Outcome(c, sim, s3, e);
        if v.Raised? then (s3, Raised(v.error))
        else
          var signal := SignalAfter(c, sim, s3, feedback.value);
          if signal.Raised? then (s3, Raised(signal.error))
          else
            (Accept(s3, v.value).(terminal := !signal.value.Running?),
             Returned(Transition(v.value.record, signal.value, v.value.native)))
  }

  /** The first n rows, stopping after a failure or a terminal signal. */
  function Rows(c: Config, sim: Simulator, s: State, e: EpisodeContext, n: nat): (State, Reply<seq<Transition>>) {
    if n == 0 then (s, Returned([]))
    else
      var (before, done) := Rows(c, sim, s, e, n - 1);
      if done.Raised? || before.terminal then (before, done)
      else
        var (after, next) := Row(c, sim, before, e);
        if next.Raised? then (after, Raised(next.error)) else (after, Returned(done.value + [next.value]))
  }

  predicate Executable(s: State) {
    s.context.Some? && s.delivered && !s.closed && !s.terminal
  }

  function ExecuteTo(c: Config, sim: Simulator, s: State, actions: seq<Action>): (State, Reply<Batch>)
    requires ConfigOk(c)
  {
    if !Executable(s) || !ActionsOk(c, actions) then (s, Raised(OtherError))
    else
      var (t, done) := Rows(c, sim, s, s.context.value, |actions|);
      if done.Raised? then (t, Raised(done.error)) else (t, Returned(Batch(done.value, |done.value|)))
  }

  // ------------------------------------------------------------------ the backend, as it runs

  class UniVTACIsaacBackend {
    const config: Config
    const sim: Simulator
    var context: Option<EpisodeContext>
    var cached: Option<EvaluationRecord>
    var delivered: bool
    var resetAttempted: bool
    var closed: bool
    var terminal: bool
    var step: int
    var executed: nat
    var native: Option<nat>
    var contact: PerSlot<bool>
    var rows: nat
    var taken: nat
    var took: seq<Action>

    function View(): State
      reads this
    {
      State(context, cached, delivered, resetAttempted, closed, terminal, step, executed, native, contact, rows,
            taken)
    }

    constructor (config: Config, sim: Simulator)
      ensures View() == Initially() && this.config == config && this.sim == sim && took == []
    {
      this.config, this.sim := config, sim;
      context, cached, delivered, resetAttempted, closed, terminal := None, None, false, false, false, false;
      step, executed, native, contact, rows, taken := 0, 0, None, PerSlot(false, false, true), 0, 0;
      took := [];
    }

    method AcceptConversion(v: Converted)
      modifies this`contact, this`step, this`native
      ensures View() == Accept(old(View()), v)
    {
      contact, step, native := v.contact, v.record.Observed().stepIndex, Some(v.native);
    }

    method Reset(e: EpisodeContext) returns (reply: Reply<ResetReceipt>)
      modifies this
      ensures (View(), reply) == ResetTo(config, sim, old(View()), e) && took == old(took)
    {
      if closed || resetAttempted { return Raised(OtherError); }
      if e.task != config.task || e.instruction != config.prompt || e.actionSpec != ACTION_SPEC {
        return Raised(OtherError);
      }
      resetAttempted := true;
      if sim.reset.Raised? { return Raised(sim.reset.error); }
      context := Some(e);
      var frame := sim.frame(taken);
      if frame.Raised? { return Raised(frame.error); }
      var v := Convert(config, frame.value, e, 0, contact);
      if v.Raised? { return Raised(v.error); }
      AcceptConversion(v.value);
      cached := Some(v.value.record);
      return Returned(ResetReceipt(e.episodeId, e.initialSeed, e.exogenousSeed, v.value.digest));
    }

    method Observe() returns (reply: Reply<EvaluationRecord>)
      modifies this
      ensures (View(), reply) == ObserveTo(old(View())) && took == old(took)
    {
      if cached.None? || context.None? || delivered { return Raised(OtherError); }
      delivered := true;
      return Returned(cached.value);
    }

    /** One row; the simulator takes its action once it is encoded. */
    method ExecuteRow(e: EpisodeContext, action: Action) returns (reply: Reply<Transition>)
      modifies this
      ensures (View(), reply) == Row(config, sim, old(View()), e)
      ensures took == if taken > old(taken) then old(took) + [action] else old(took)
    {
      var row := rows;
      rows := rows + 1;
      if sim.encode(row).Raised? { return Raised(sim.encode(row).error); }
      reply := TakeAction(e, action, old(View()));
    }

    /** Takes an encoded action, observes and judges its outcome. */
    method TakeAction(e: EpisodeContext, action: Action, ghost start: State) returns (reply: Reply<Transition>)
      requires View() == start.(rows := start.rows + 1) && sim.encode(start.rows).Returned?
      modifies this
      ensures (View(), reply) == Row(config, sim, start, e)
      ensures taken == old(taken) + 1 && took == old(took) + [action]
    {
      taken, took := taken + 1, took + [action];
      var feedback := sim.take(rows - 1);
      if feedback.Raised? { return Raised(feedback.error); }
      reply := Judge(e, feedback.value, start);
    }

    /** Observes and judges the outcome of an action that was taken. */
    method Judge(e: EpisodeContext, feedback: Feedback, ghost start: State) returns (reply: Reply<Transition>)
      requires View() == start.(rows := start.rows + 1, taken := start.taken + 1)
      requires sim.encode(start.rows).Returned? && sim.take(start.rows) == Returned(feedback)
      modifies this`executed, this`contact, this`step, this`native, this`terminal
      ensures (View(), reply) == Row(config, sim, start, e)
    {
      executed := executed + 1;
      var v := Outcome(config, sim, View(), e);
      if v.Raised? { return Raised(v.error); }
      var signal := SignalAfter(config, sim, View(), feedback);
      if signal.Raised? { return Raised(signal.error); }
      AcceptConversion(v.value);
      terminal := !signal.value.Running?;
      return Returned(Transition(v.value.record, signal.value, v.value.native));
    }

    /** The n-th row of a batch, after those before it. */
    method NextRow(e: EpisodeContext, actions: seq<Action>, n: nat, done: seq<Transition>, ghost start: State)
      returns (reply: Reply<seq<Transition>>)
      requires n < |actions| && !terminal && (View(), Returned(done)) == Rows(config, sim, start, e, n)
      modifies this
      ensures (View(), reply) == Rows(config, sim, start, e, n + 1)
      ensures old(taken) <= taken <= old(taken) + 1 && (reply.Returned? ==> taken == old(taken) + 1)
      ensures took == if taken > old(taken) then old(took) + [actions[n]] else old(took)
    {
      RowsNext(config, sim, start, e, n, View(), done);
      RowTakes(config, sim, View(), e);
      var next := ExecuteRow(e, actions[n]);
      if next.Raised? { return Raised(next.error); }
      return Returned(done + [next.value]);
    }

    /** The rows of a batch, in order, until one fails or ends the episode; n of them were begun. */
    method BeginRows(e: EpisodeContext, actions: seq<Action>, ghost start: State, ghost given: seq<Action>)
      returns (reply: Reply<seq<Transition>>, n: nat)
      requires !terminal && View() == start && took == given
      modifies this
      ensures n <= |actions| && (n == |actions| || reply.Raised? || terminal)
      ensures (View(), reply) == Rows(config, sim, start, e, n)
      ensures GivenSome(given, start.taken, actions, took, taken)
    {
      reply, n := Returned([]), 0;
      while n < |actions| && !terminal
        invariant n <= |actions| && reply.Returned?
        invariant (View(), reply) == Rows(config, sim, start, e, n)
        invariant taken == start.taken + n && GivenSome(given, start.taken, actions, took, taken)
      {
        ghost var before, from := took, taken;
        reply := NextRow(e, actions, n, reply.value, start);
        GivenNext(given, start.taken, actions, n, before, from, took, taken);
        n := n + 1;
        if reply.Raised? { return; }
      }
    }

    method ExecuteRows(e: EpisodeContext, actions: seq<Action>) returns (reply: Reply<seq<Transition>>)
      requires !terminal
      modifies this
      ensures (View(), reply) == Rows(config, sim, old(View()), e, |actions|)
      ensures GivenSome(old(took), old(taken), actions, took, taken)
    {
      var n;
      reply, n := BeginRows(e, actions, View(), took);
      RowsSettle(config, sim, old(View()), e, n, |actions|);
    }

    method Execute(actions: seq<Action>) returns (reply: Reply<Batch>)
      requires ConfigOk(config)
      modifies this
      ensures (View(), reply) == ExecuteTo(config, sim, old(View()), actions)
      ensures 0 <= taken - old(taken) <= |actions| && took == old(took) + actions[..taken - old(taken)]
    {
      if context.None? || !delivered || closed || terminal { return Raised(OtherError); }
      if !ActionsOk(config, actions) { return Raised(OtherError); }
      var transitions := ExecuteRows(context.value, actions);
      GivenIsPrefix(old(took), actions, taken - old(taken));
      if transitions.Raised? { return Raised(transitions.error); }
      return Returned(Batch(transitions.value, |transitions.value|));
    }

    method Close() returns (reply: Reply<()>)
      modifies this
      ensures View() == old(View()).(closed := true) && took == old(took)
      ensures reply == if old(closed) then Returned(()) else sim.shutdown
    {
      if closed { return Returned(()); }
      closed := true;
      return sim.shutdown;
    }
  }

  /** A row takes its action at most once, and always if it returns. */
  lemma {:induction false} RowTakes(c: Config, sim: Simulator, s: State, e: EpisodeContext)
    ensures var (t, r) := Row(c, sim, s, e);
            s.taken <= t.taken <= s.taken + 1 && (r.Returned? ==> t.taken == s.taken + 1)
  {
  }

  /** A log after the first n actions were added to it. */
  ghost function Given(took: seq<Action>, actions: seq<Action>, n: nat): seq<Action>
    requires n <= |actions|
  {
    if n == 0 then took else Given(took, actions, n - 1) + [actions[n - 1]]
  }

  /** Some first actions were added to a log, as many as were taken. */
  ghost predicate GivenSome(before: seq<Action>, from: nat, actions: seq<Action>, after: seq<Action>, taken: nat) {
    from <= taken <= from + |actions| && after == Given(before, actions, taken - from)
  }

  lemma {:induction false} GivenNext(given: seq<Action>, from: nat, actions: seq<Action>, n: nat, before: seq<Action>,
                                     taken: nat, after: seq<Action>, now: nat)
    requires n < |actions| && taken == from + n && GivenSome(given, from, actions, before, taken)
    requires taken <= now <= taken + 1 && after == if now > taken then before + [actions[n]] else before
    ensures GivenSome(given, from, actions, after, now)
  {
  }

  lemma {:induction false} GivenIsPrefix(took: seq<Action>, actions: seq<Action>, n: nat)
    requires n <= |actions|
    ensures Given(took, actions, n) == took + actions[..n]
  {
    if n > 0 { GivenIsPrefix(took, actions, n - 1); }
  }

  lemma {:induction false} RowsNext(c: Config, sim: Simulator, s: State, e: EpisodeContext, n: nat, before: State,
                                    done: seq<Transition>)
    requires Rows(c, sim, s, e, n) == (before, Returned(done)) && !before.terminal
    ensures var (after, next) := Row(c, sim, before, e);
            Rows(c, sim, s, e, n + 1)
            == (after, if next.Raised? then Raised(next.error) else Returned(done + [next.value]))
  {
  }

  lemma {:induction false} RowsSettle(c: Config, sim: Simulator, s: State, e: EpisodeContext, n: nat, m: nat)
    requires n <= m && (n == m || Rows(c, sim, s, e, n).1.Raised? || Rows(c, sim, s, e, n).0.terminal)
    ensures Rows(c, sim, s, e, m) == Rows(c, sim, s, e, n)
  {
    if n < m { RowsSettle(c, sim, s, e, n, m - 1); }
  }

  /** Executing rows keeps what reset and observe established. */
  lemma {:induction false} RowsKeepContext(c: Config, sim: Simulator, s: State, e: EpisodeContext, n: nat)
    ensures Rows(c, sim, s, e, n).0.context == s.context && Rows(c, sim, s, e, n).0.delivered == s.delivered
  {
    if n > 0 {
      RowsKeepContext(c, sim, s, e, n - 1);
      RowKeepsContext(c, sim, Rows(c, sim, s, e, n - 1).0, e);
    }
  }

  lemma {:induction false} RowKeepsContext(c: Config, sim: Simulator, s: State, e: EpisodeContext)
    ensures Row(c, sim, s, e).0.context == s.context && Row(c, sim, s, e).0.delivered == s.delivered
  {
  }
}
