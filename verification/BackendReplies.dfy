/** What this backend's records and signals say, in terms of the simulator's replies alone. */
module BackendReplies {
  import opened Basics
  import opened Trials
  import opened Records
  import opened ContactPhases
  import opened Results
  import opened RunnerChecks
  import opened Backend
  import opened BackendProperties

  // ------------------------------------------------------------------ signals

  /** The task was reported successful after an action, by its feedback or by the check. */
  predicate Achieved(sim: Simulator, feedback: Feedback, taken: nat) {
    feedback.evalSuccess || sim.success(taken) == Returned(true)
  }

  /** The action was not carried out, or its motion plan failed. */
  predicate Botched(sim: Simulator, feedback: Feedback, taken: nat) {
    !feedback.executionSuccess || sim.plan(taken) == Returned(false)
  }

  /** The task asked to stop. */
  predicate AskedToStop(c: Config, sim: Simulator, taken: nat) {
    c.earlyStopCapable && sim.earlyStop(taken) == Returned(Some(true))
  }

  /** What each signal after an action means, in the order of precedence. */
  predicate SignalMeans(c: Config, sim: Simulator, feedback: Feedback, taken: nat, executed: nat, signal: Signal) {
    var achieved, botched, stop := Achieved(sim, feedback, taken), Botched(sim, feedback, taken),
                                   AskedToStop(c, sim, taken);
    && (signal.Succeeded? <==> achieved)
    && (signal.Failed? <==> !achieved && botched)
    && (signal.StoppedEarly? <==> !achieved && !botched && stop)
    && (signal.TimedOut? <==> !achieved && !botched && !stop && executed >= c.horizon)
    && (signal.Running? <==> !achieved && !botched && !stop && executed < c.horizon)
  }

  lemma {:induction false} SignalTold(c: Config, sim: Simulator, s: State, feedback: Feedback)
    requires SignalAfter(c, sim, s, feedback).Returned?
    ensures SignalMeans(c, sim, feedback, s.taken, s.executed, SignalAfter(c, sim, s, feedback).value)
    ensures sim.success(s.taken).Returned? && sim.plan(s.taken).Returned?
  {
  }

  // ------------------------------------------------------------------ records

  /** How deep a slot is pressed in a frame. */
  function Depth(c: Config, sim: Simulator, slot: Slot, i: nat): real {
    if sim.frame(i).Raised? then 0.0
    else
      var d := c.farPlane - sim.frame(i).value.touch.At(slot).nearest;
      if d > 0.0 then d else 0.0
  }

  /** The depths of the first n frames. */
  function Depths(c: Config, sim: Simulator, slot: Slot, n: nat): seq<real> {
    seq(n, i requires 0 <= i < n => Depth(c, sim, slot, i))
  }

  /** A slot of a record, by the frame it was made from. */
  predicate SlotShows(c: Config, f: Frame, slot: Slot, step: nat, r: EvaluationRecord) {
    var sensor, prov, time := r.Sensor(slot), r.Prov(slot), step as real / 120.0;
    && sensor.payload == Some(f.touch.At(slot).pixels) && sensor.validity == Some(true)
    && sensor.deliveryIndex == step && sensor.deliveryTime == time && sensor.visibleSourceTime == None
    && sensor.frameId == c.slots.At(slot).frameId && sensor.calibrationId == c.calibrationId
    && prov.physicalSource == c.slots.At(slot).physicalSource && prov.sourceIndex == Some(step)
    && prov.sourceTime == Some(time) && prov.payloadHash == Some(Sha(f.touch.At(slot).pixels))
    && prov.calibrationHash == c.calibration && prov.faults == []
  }

  /** A record, by the frame it was made from. */
  predicate Shows(c: Config, f: Frame, e: EpisodeContext, step: nat, r: EvaluationRecord) {
    var o := r.Observed();
    && o.episodeId == e.episodeId && o.task == e.task && o.seed == e.initialSeed && o.stepIndex == step
    && o.vision.Keys == {"top", "wrist_l"} && o.vision["top"] == f.head && o.vision["wrist_l"] == f.wrist
    && o.proprio == f.qpos && o.tactile.leftFirst && r.content.provenance.leftFirst
    && r.cleanHash == r.deliveredHash == Sha(r.content)
    && SlotShows(c, f, Left, step, r) && SlotShows(c, f, Right, step, r)
  }

  lemma {:induction false} ConvertedShowsAll(c: Config, f: Frame, e: EpisodeContext, step: int,
                                             contact: PerSlot<bool>)
    requires step >= 0 && Convert(c, f, e, step, contact).Returned?
    ensures Shows(c, f, e, step, Convert(c, f, e, step, contact).value.record)
    ensures Convert(c, f, e, step, contact).value.native == f.nativeStep
    ensures Convert(c, f, e, step, contact).value.digest == f.digest
  {
    assert step as real / STEPS_PER_SECOND as real == step as real / 120.0;
  }

  // ------------------------------------------------------------------ contact

  /** What was in contact after some depths is what it was, whatever follows. */
  lemma {:induction false} ContactReadsPast(t: DepthPhaseTracker, a: seq<real>, b: seq<real>, n: nat)
    requires n <= |a| && n <= |b| && a[..n] == b[..n]
    ensures InContact(t, a, n) == InContact(t, b, n)
  {
    if n > 0 {
      assert a[..n][n - 1] == b[..n][n - 1] && a[..n][..n - 1] == a[..n - 1] && b[..n][..n - 1] == b[..n - 1];
      ContactReadsPast(t, a, b, n - 1);
    }
  }

  /** The backend's contact flags are those of the frames seen so far, by hysteresis. */
  predicate ContactKnown(c: Config, sim: Simulator, s: State, seen: nat) {
    forall slot: Slot :: s.contact.At(slot) <==> InContact(c.tracker, Depths(c, sim, slot, seen), seen)
  }

  /** One more frame: the phase of each slot is that of its depths, and so are the flags after it. */
  lemma {:induction false} ContactNext(c: Config, sim: Simulator, slot: Slot, seen: nat, contact: bool)
    requires sim.frame(seen).Returned?
    requires contact <==> InContact(c.tracker, Depths(c, sim, slot, seen), seen)
    ensures var r := Update(c.tracker, Indentation(c, sim.frame(seen).value.touch.At(slot)), contact);
            var depths := Depths(c, sim, slot, seen + 1);
            r.0 == PhaseAt(c.tracker, depths, seen) && (r.1 <==> InContact(c.tracker, depths, seen + 1))
  {
    var before, depths := Depths(c, sim, slot, seen), Depths(c, sim, slot, seen + 1);
    assert before[..seen] == depths[..seen];
    ContactReadsPast(c.tracker, before, depths, seen);
    assert depths[seen] == Indentation(c, sim.frame(seen).value.touch.At(slot));
  }

  /** Both slots of a record show the phase that the depths so far give. */
  predicate PhasesShown(c: Config, sim: Simulator, seen: nat, r: EvaluationRecord) {
    forall slot: Slot :: r.Prov(slot).phase == PhaseAt(c.tracker, Depths(c, sim, slot, seen + 1), seen)
  }

  lemma {:induction false} ConvertedPhases(c: Config, sim: Simulator, s: State, e: EpisodeContext, step: int,
                                           seen: nat)
    requires sim.frame(seen).Returned? && Convert(c, sim.frame(seen).value, e, step, s.contact).Returned?
    requires ContactKnown(c, sim, s, seen)
    ensures var v := Convert(c, sim.frame(seen).value, e, step, s.contact).value;
            && PhasesShown(c, sim, seen, v.record)
            && forall slot: Slot ::
                 v.contact.At(slot) <==> InContact(c.tracker, Depths(c, sim, slot, seen + 1), seen + 1)
  {
    ContactNext(c, sim, Left, seen, s.contact.left);
    ContactNext(c, sim, Right, seen, s.contact.right);
  }

  // ------------------------------------------------------------------ one row, one batch

  /** Transition i of a batch that started in a state, by the simulator's replies. */
  predicate TransitionTold(c: Config, sim: Simulator, s: State, e: EpisodeContext, i: nat, tr: Transition)
    requires s.step >= 0
  {
    var row, taken := s.rows + i, s.taken + i + 1;
    && sim.encode(row).Returned? && sim.take(row).Returned? && sim.frame(taken).Returned?
    && SignalMeans(c, sim, sim.take(row).value, taken, s.executed + i + 1, tr.signal)
    && Shows(c, sim.frame(taken).value, e, s.step + i + 1, tr.clean) && PhasesShown(c, sim, taken, tr.clean)
    && tr.nativeStep == sim.frame(taken).value.nativeStep
  }

  /** The state of a row once its action was taken. */
  function Taken(s: State): State {
    s.(rows := s.rows + 1, taken := s.taken + 1, executed := s.executed + 1)
  }

  lemma {:induction false} RowParts(c: Config, sim: Simulator, s: State, e: EpisodeContext)
    requires Row(c, sim, s, e).1.Returned?
    ensures sim.encode(s.rows).Returned? && sim.take(s.rows).Returned? && Outcome(c, sim, Taken(s), e).Returned?
    ensures SignalAfter(c, sim, Taken(s), sim.take(s.rows).value).Returned?
    ensures var (v, signal) := (Outcome(c, sim, Taken(s), e).value,
                                SignalAfter(c, sim, Taken(s), sim.take(s.rows).value).value);
            && Row(c, sim, s, e).1.value == Transition(v.record, signal, v.native)
            && Row(c, sim, s, e).0 == Accept(Taken(s), v).(terminal := !signal.Running?)
  {
  }

  lemma {:induction false} RowTold(c: Config, sim: Simulator, s: State, e: EpisodeContext)
    requires s.step >= 0 && ContactKnown(c, sim, s, s.taken + 1) && Row(c, sim, s, e).1.Returned?
    ensures var (t, r) := Row(c, sim, s, e);
            && TransitionTold(c, sim, s, e, 0, r.value) && ContactKnown(c, sim, t, t.taken + 1)
  {
    RowParts(c, sim, s, e);
    SignalTold(c, sim, Taken(s), sim.take(s.rows).value);
    OutcomeTold(c, sim, Taken(s), e);
    TransitionMade(c, sim, s, e, Outcome(c, sim, Taken(s), e).value,
                   SignalAfter(c, sim, Taken(s), sim.take(s.rows).value).value);
  }

  lemma {:induction false} TransitionMade(c: Config, sim: Simulator, s: State, e: EpisodeContext, v: Converted,
                                          signal: Signal)
    requires s.step >= 0 && sim.encode(s.rows).Returned? && sim.take(s.rows).Returned?
    requires sim.frame(s.taken + 1).Returned?
    requires SignalMeans(c, sim, sim.take(s.rows).value, s.taken + 1, s.executed + 1, signal)
    requires Shows(c, sim.frame(s.taken + 1).value, e, s.step + 1, v.record)
    requires PhasesShown(c, sim, s.taken + 1, v.record) && v.native == sim.frame(s.taken + 1).value.nativeStep
    ensures TransitionTold(c, sim, s, e, 0, Transition(v.record, signal, v.native))
  {
  }

  lemma {:induction false} OutcomeTold(c: Config, sim: Simulator, s: State, e: EpisodeContext)
    requires s.step >= 0 && ContactKnown(c, sim, s, s.taken) && Outcome(c, sim, s, e).Returned?
    ensures var v := Outcome(c, sim, s, e).value;
            && sim.frame(s.taken).Returned? && Shows(c, sim.frame(s.taken).value, e, s.step + 1, v.record)
            && PhasesShown(c, sim, s.taken, v.record) && v.native == sim.frame(s.taken).value.nativeStep
            && forall slot: Slot ::
                 v.contact.At(slot) <==> InContact(c.tracker, Depths(c, sim, slot, s.taken + 1), s.taken + 1)
  {
    ConvertedShowsAll(c, sim.frame(s.taken).value, e, s.step + 1, s.contact);
    ConvertedPhases(c, sim, s, e, s.step + 1, s.taken);
  }

  /** What the first rows of a batch did, all of them returned. */
  predicate RowsTold(c: Config, sim: Simulator, s: State, e: EpisodeContext, t: State, ts: seq<Transition>)
    requires s.step >= 0
  {
    && (forall i :: 0 <= i < |ts| ==> TransitionTold(c, sim, s, e, i, ts[i]))
    && ContactKnown(c, sim, t, t.taken + 1) && t.step == s.step + |ts| && t.rows == s.rows + |ts|
    && t.taken == s.taken + |ts| && t.executed == s.executed + |ts|
  }

  lemma {:induction false} RowsToldNext(c: Config, sim: Simulator, s: State, e: EpisodeContext, before: State,
                                        ts: seq<Transition>, after: State, tr: Transition)
    requires s.step >= 0 && RowsTold(c, sim, s, e, before, ts) && TransitionTold(c, sim, before, e, 0, tr)
    requires ContactKnown(c, sim, after, after.taken + 1) && after.step == before.step + 1
    requires after.rows == before.rows + 1 && after.taken == before.taken + 1
    requires after.executed == before.executed + 1
    ensures RowsTold(c, sim, s, e, after, ts + [tr])
  {
    assert TransitionTold(c, sim, s, e, |ts|, tr);
  }

  lemma {:induction false} RowsToldAll(c: Config, sim: Simulator, s: State, e: EpisodeContext, n: nat)
    requires s.step >= 0 && ContactKnown(c, sim, s, s.taken + 1) && Rows(c, sim, s, e, n).1.Returned?
    ensures RowsTold(c, sim, s, e, Rows(c, sim, s, e, n).0, Rows(c, sim, s, e, n).1.value)
  {
    if n > 0 {
      RowsToldAll(c, sim, s, e, n - 1);
      var (before, done) := Rows(c, sim, s, e, n - 1);
      if !before.terminal {
        RowTold(c, sim, before, e);
        RowTellsAll(c, sim, before, e);
        var (after, r) := Row(c, sim, before, e);
        RowsToldNext(c, sim, s, e, before, done.value, after, r.value);
      }
    }
  }

  /** Every transition of every batch that execute returns, told by the simulator's replies alone:
      its signal means what the feedback, the checks and the horizon say; its record shows the frame
      observed after its action, field by field; and its contact phases are those of all frames
      so far. */
  lemma {:induction false} BatchTold(c: Config, sim: Simulator, s: State, actions: seq<Action>)
    requires ConfigOk(c) && s.step >= 0 && ContactKnown(c, sim, s, s.taken + 1)
    requires ExecuteTo(c, sim, s, actions).1.Returned?
    ensures var (t, r) := ExecuteTo(c, sim, s, actions);
            && s.context.Some? && r.value.executed == |r.value.transitions|
            && RowsTold(c, sim, s, s.context.value, t, r.value.transitions)
  {
    RowsToldAll(c, sim, s, s.context.value, |actions|);
  }

  /** Reset and observe: the receipt names the episode and the first frame's state, the record that
      is handed out shows that frame, and contact is known from then on. */
  lemma {:induction false} ResetTold(c: Config, sim: Simulator, e: EpisodeContext)
    requires ResetTo(c, sim, Initially(), e).1.Returned?
    ensures var (t, r) := ResetTo(c, sim, Initially(), e);
            && sim.reset.Returned? && sim.frame(0).Returned?
            && r.value == ResetReceipt(e.episodeId, e.initialSeed, e.exogenousSeed, sim.frame(0).value.digest)
            && e.task == c.task && e.instruction == c.prompt && e.actionSpec == ACTION_SPEC
            && t.cached.Some? && Shows(c, sim.frame(0).value, e, 0, t.cached.value)
            && PhasesShown(c, sim, 0, t.cached.value) && ContactKnown(c, sim, t, 1)
            && t.context == Some(e) && t.step == t.taken == t.executed == 0
            && t.native == Some(sim.frame(0).value.nativeStep)
            && ObserveTo(t) == (t.(delivered := true), Returned(t.cached.value))
  {
    ConvertedShowsAll(c, sim.frame(0).value, e, 0, Initially().contact);
    ConvertedPhases(c, sim, Initially(), e, 0, 0);
  }
}
