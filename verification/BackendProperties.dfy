/** The backend refines the runner's contract, respects its horizon, and fails closed. */
module BackendProperties {
  import opened Basics
  import opened Records
  import opened Results
  import opened RunnerChecks
  import opened Backend
  import opened Chronology

  // ------------------------------------------------------------------ one row

  /** The record of a frame is a clean record of its step, whatever the frame shows. */
  lemma {:induction false} ConvertedClean(c: Config, f: Frame, e: EpisodeContext, step: int,
                                          contact: PerSlot<bool>)
    requires step >= 0
    ensures var v := Convert(c, f, e, step, contact);
            && v.Returned? && CleanViolation(v.value.record, e, step).None? && RecordOk(v.value.record, step, e, true)
            && v.value.native == f.nativeStep && v.value.record.Observed().stepIndex == step
  {
    assert Causal(ContentOf(c, f, e, step, contact));
  }

  /** What an accepted row says: the next benchmark step, exactly one native step further, and
      terminal exactly with its signal, which it is once the horizon is reached. */
  ghost predicate RowTells(c: Config, s: State, t: State, e: EpisodeContext, tr: Transition) {
    && CleanViolation(tr.clean, e, s.step + 1).None? && RecordOk(tr.clean, s.step + 1, e, true)
    && s.native.Some? && tr.nativeStep == s.native.value + PHYSICS_STEPS_PER_ACTION
    && t == s.(step := s.step + 1, native := Some(tr.nativeStep), terminal := !tr.signal.Running?,
               executed := s.executed + 1, rows := s.rows + 1, taken := s.taken + 1, contact := t.contact)
    && (tr.signal.Running? ==> t.executed < c.horizon)
  }

  lemma {:induction false} RowTellsAll(c: Config, sim: Simulator, s: State, e: EpisodeContext)
    requires Row(c, sim, s, e).1.Returned?
    ensures RowTells(c, s, Row(c, sim, s, e).0, e, Row(c, sim, s, e).1.value)
  {
    var s3 := s.(rows := s.rows + 1, taken := s.taken + 1, executed := s.executed + 1);
    OutcomeTells(c, sim, s3, e);
    SignalTells(c, sim, s3, sim.take(s.rows).value);
  }

  lemma {:induction false} OutcomeTells(c: Config, sim: Simulator, s: State, e: EpisodeContext)
    requires Outcome(c, sim, s, e).Returned?
    ensures var v := Outcome(c, sim, s, e).value;
            && CleanViolation(v.record, e, s.step + 1).None? && RecordOk(v.record, s.step + 1, e, true)
            && s.native.Some? && v.native == s.native.value + PHYSICS_STEPS_PER_ACTION
            && v.record.Observed().stepIndex == s.step + 1
            && sim.frame(s.taken).Returned? && v.native == sim.frame(s.taken).value.nativeStep
  {
    ConvertedClean(c, sim.frame(s.taken).value, e, s.step + 1, s.contact);
  }

  lemma {:induction false} SignalTells(c: Config, sim: Simulator, s: State, feedback: Feedback)
    requires SignalAfter(c, sim, s, feedback).Returned?
    ensures SignalAfter(c, sim, s, feedback).value.Running? ==> s.executed < c.horizon
  {
  }

  /** What a failed row leaves unchanged. */
  lemma {:induction false} RowFails(c: Config, sim: Simulator, s: State, e: EpisodeContext)
    requires Row(c, sim, s, e).1.Raised?
    ensures var t := Row(c, sim, s, e).0;
            && t == s.(rows := t.rows, taken := t.taken, executed := t.executed)
            && s.taken <= t.taken <= s.taken + 1 && s.executed <= t.executed
  {
  }

  // ------------------------------------------------------------------ a batch

  /** What the first rows of a batch have in common. */
  ghost predicate RowsTell(c: Config, s: State, t: State, e: EpisodeContext, ts: seq<Transition>, n: nat) {
    && |ts| <= n && (|ts| < n ==> t.terminal)
    && (t.terminal <==> ts != [] && !ts[|ts| - 1].signal.Running?)
    && t.step == s.step + |ts|
    && (forall i :: 0 <= i < |ts| - 1 ==> ts[i].signal.Running?)
    && (forall i :: 0 <= i < |ts| ==>
          && CleanViolation(ts[i].clean, e, s.step + 1 + i).None?
          && RecordOk(ts[i].clean, s.step + 1 + i, e, true)
          && s.native.Some? && ts[i].nativeStep == s.native.value + (i + 1) * PHYSICS_STEPS_PER_ACTION)
    && (if ts == [] then t.native == s.native else t.native == Some(ts[|ts| - 1].nativeStep))
  }

  lemma {:induction false} RowsTellAll(c: Config, sim: Simulator, s: State, e: EpisodeContext, n: nat)
    requires !s.terminal && Rows(c, sim, s, e, n).1.Returned?
    ensures var (t, r) := Rows(c, sim, s, e, n); RowsTell(c, s, t, e, r.value, n)
  {
    if n > 0 {
      RowsTellAll(c, sim, s, e, n - 1);
      var (before, done) := Rows(c, sim, s, e, n - 1);
      if !before.terminal {
        RowTellsAll(c, sim, before, e);
        RowsTellNext(c, s, before, e, done.value, n - 1, Row(c, sim, before, e).0, Row(c, sim, before, e).1.value);
      }
    }
  }

  lemma {:induction false} RowsTellNext(c: Config, s: State, before: State, e: EpisodeContext, ts: seq<Transition>,
                                        n: nat, after: State, tr: Transition)
    requires RowsTell(c, s, before, e, ts, n) && !before.terminal && RowTells(c, before, after, e, tr)
    ensures RowsTell(c, s, after, e, ts + [tr], n + 1)
  {
    assert |ts| == n && before.step + 1 == s.step + 1 + n;
  }

  /** Every batch returned is one the runner accepts: dense benchmark steps, native ids that
      advance by exactly the configured increment, terminal only at its last transition, short
      only if terminal, and clean records of this episode. */
  lemma {:induction false} BatchMeetsContract(c: Config, sim: Simulator, s: State, actions: seq<Action>)
    requires ConfigOk(c) && ExecuteTo(c, sim, s, actions).1.Returned?
    ensures var (t, r) := ExecuteTo(c, sim, s, actions);
            var b := r.value;
            && s.context.Some? && s.native.Some?
            && BatchOk(b, |actions|, s.context.value, s.step + 1, None)
            && BatchOk(b, |actions|, s.context.value, s.step + 1, s.native)
            && (forall i :: 0 <= i < |b.transitions| ==>
                  && b.transitions[i].nativeStep == s.native.value + (i + 1) * PHYSICS_STEPS_PER_ACTION
                  && RecordOk(b.transitions[i].clean, s.step + 1 + i, s.context.value, true))
            && t.step == s.step + b.executed
            && t.native == Some(b.transitions[b.executed - 1].nativeStep)
            && (t.terminal <==> !b.transitions[b.executed - 1].signal.Running?)
  {
    RowsTellAll(c, sim, s, s.context.value, |actions|);
    RowsNonEmpty(c, sim, s, s.context.value, |actions|);
  }

  lemma {:induction false} RowsNonEmpty(c: Config, sim: Simulator, s: State, e: EpisodeContext, n: nat)
    requires n >= 1 && !s.terminal && Rows(c, sim, s, e, n).1.Returned?
    ensures |Rows(c, sim, s, e, n).1.value| >= 1
  {
    if n > 1 { RowsNonEmpty(c, sim, s, e, n - 1); }
  }

  // ------------------------------------------------------------------ whole histories

  datatype Call = Reset(e: EpisodeContext) | Observe | Execute(actions: seq<Action>) | Close

  function Step(c: Config, sim: Simulator, s: State, call: Call): State
    requires ConfigOk(c)
  {
    match call
    case Reset(e) => ResetTo(c, sim, s, e).0
    case Observe => ObserveTo(s).0
    case Execute(actions) => ExecuteTo(c, sim, s, actions).0
    case Close => s.(closed := true)
  }

  /** The backend after any sequence of calls. */
  function After(c: Config, sim: Simulator, calls: seq<Call>): State
    requires ConfigOk(c)
  {
    if calls == [] then Initially() else Step(c, sim, After(c, sim, calls[..|calls| - 1]), calls[|calls| - 1])
  }

  /** The actions whose outcomes were returned to the caller. */
  function Accepted(c: Config, sim: Simulator, calls: seq<Call>): nat
    requires ConfigOk(c)
  {
    if calls == [] then 0
    else
      var before, last := calls[..|calls| - 1], calls[|calls| - 1];
      Accepted(c, sim, before)
      + if last.Execute? && ExecuteTo(c, sim, After(c, sim, before), last.actions).1.Returned?
        then |ExecuteTo(c, sim, After(c, sim, before), last.actions).1.value.transitions| else 0
  }

  predicate WithinHorizon(c: Config, s: State) {
    && 0 <= s.step <= s.executed && s.step <= c.horizon && (!s.terminal ==> s.step < c.horizon)
    && (!s.resetAttempted ==> s.step == 0 && s.context.None? && s.taken == 0)
  }

  lemma {:induction false} RowsWithin(c: Config, sim: Simulator, s: State, e: EpisodeContext, n: nat)
    requires WithinHorizon(c, s) && s.resetAttempted && !s.terminal
    ensures var (t, r) := Rows(c, sim, s, e, n);
            && WithinHorizon(c, t) && t.resetAttempted && (r.Returned? ==> t.step == s.step + |r.value|)
            && t.step >= s.step
  {
    if n > 0 {
      RowsWithin(c, sim, s, e, n - 1);
      var (before, done) := Rows(c, sim, s, e, n - 1);
      if done.Returned? && !before.terminal {
        if Row(c, sim, before, e).1.Returned? {
          RowTellsAll(c, sim, before, e);
        } else {
          RowFails(c, sim, before, e);
        }
      }
    }
  }

  lemma {:induction false} StepWithin(c: Config, sim: Simulator, s: State, call: Call)
    requires ConfigOk(c) && WithinHorizon(c, s)
    ensures WithinHorizon(c, Step(c, sim, s, call)) && Step(c, sim, s, call).step >= s.step
    ensures call.Execute? && ExecuteTo(c, sim, s, call.actions).1.Returned? ==>
              Step(c, sim, s, call).step == s.step + |ExecuteTo(c, sim, s, call.actions).1.value.transitions|
  {
    match call
    case Execute(actions) =>
      if Executable(s) && ActionsOk(c, actions) { RowsWithin(c, sim, s, s.context.value, |actions|); }
    case Reset(e) =>
      if sim.frame(s.taken).Returned? { ConvertedClean(c, sim.frame(s.taken).value, e, 0, s.contact); }
    case Observe =>
    case Close =>
  }

  /** No history of calls, failing or not, gets more actions accepted than the task's horizon. */
  lemma {:induction false} NeverBeyondHorizon(c: Config, sim: Simulator, calls: seq<Call>)
    requires ConfigOk(c)
    ensures WithinHorizon(c, After(c, sim, calls))
    ensures Accepted(c, sim, calls) <= After(c, sim, calls).step <= c.horizon
  {
    if calls != [] {
      NeverBeyondHorizon(c, sim, calls[..|calls| - 1]);
      StepWithin(c, sim, After(c, sim, calls[..|calls| - 1]), calls[|calls| - 1]);
    }
  }

  // ------------------------------------------------------------------ failing closed

  /** The simulator's own counter: every observation reports it, every action advances it. */
  ghost predicate Counts(sim: Simulator, counter: nat -> int) {
    && (forall t: nat :: counter(t) < counter(t + 1))
    && (forall t: nat :: sim.frame(t).Returned? ==> sim.frame(t).value.nativeStep == counter(t))
  }

  ghost predicate InSync(s: State, counter: nat -> int) {
    s.native.Some? ==> s.native.value == counter(s.taken)
  }

  /** The simulator is ahead of what the backend has accounted for. */
  ghost predicate Ahead(s: State, counter: nat -> int) {
    s.native.Some? && counter(s.taken) > s.native.value
  }

  /** An action was taken whose outcome was never accepted. */
  predicate Lost(s: State, t: State) {
    t.taken - s.taken > t.step - s.step
  }

  /** A row that is accepted was in sync before and is in sync after. */
  lemma {:induction false} RowReturnsInSync(c: Config, sim: Simulator, s: State, e: EpisodeContext,
                                            counter: nat -> int)
    requires Counts(sim, counter) && s.native.Some? && Row(c, sim, s, e).1.Returned?
    ensures var t := Row(c, sim, s, e).0;
            !Ahead(s, counter) && t.native.Some? && InSync(t, counter) && t.taken - s.taken == t.step - s.step
  {
    RowTellsAll(c, sim, s, e);
    assert sim.frame(s.taken + 1).value.nativeStep == counter(s.taken + 1);
    assert counter(s.taken) < counter(s.taken + 1);
  }

  /** A row that raises has taken its action exactly when the action was encoded. */
  lemma {:induction false} RowRaisesAhead(c: Config, sim: Simulator, s: State, e: EpisodeContext,
                                          counter: nat -> int)
    requires Counts(sim, counter) && s.native.Some? && Row(c, sim, s, e).1.Raised?
    ensures var t := Row(c, sim, s, e).0;
            && t.native == s.native && t.step == s.step && t.rows == s.rows + 1
            && t.taken == (if sim.encode(s.rows).Returned? then s.taken + 1 else s.taken)
            && (Ahead(s, counter) ==> Ahead(t, counter))
            && (InSync(s, counter) ==> if Lost(s, t) then Ahead(t, counter) else InSync(t, counter))
  {
    assert counter(s.taken) < counter(s.taken + 1);
  }

  /** What is known of a state reached by rows from a state in sync: either all outcomes are
      accepted, or the last row was encoded and its action lost. */
  ghost predicate RowsAligned(sim: Simulator, s: State, t: State, raised: bool, counter: nat -> int) {
    && t.native.Some? && t.step >= s.step && t.rows >= s.rows && t.taken >= s.taken
    && (if Lost(s, t)
        then raised && Ahead(t, counter) && t.rows > s.rows && sim.encode(t.rows - 1).Returned?
        else InSync(t, counter) && t.taken - s.taken == t.step - s.step
             && (raised ==> t.rows > s.rows && sim.encode(t.rows - 1).Raised?))
  }

  lemma {:induction false} RowsAlignedNext(c: Config, sim: Simulator, s: State, before: State, e: EpisodeContext,
                                           counter: nat -> int)
    requires Counts(sim, counter) && RowsAligned(sim, s, before, false, counter)
    ensures var (after, r) := Row(c, sim, before, e); RowsAligned(sim, s, after, r.Raised?, counter)
  {
    if Row(c, sim, before, e).1.Returned? {
      RowReturnsInSync(c, sim, before, e, counter);
      RowTellsAll(c, sim, before, e);
    } else {
      RowRaisesAhead(c, sim, before, e, counter);
    }
  }

  lemma {:induction false} RowsSync(c: Config, sim: Simulator, s: State, e: EpisodeContext, n: nat,
                                    counter: nat -> int)
    requires Counts(sim, counter) && s.native.Some? && InSync(s, counter) && !s.terminal
    ensures var (t, r) := Rows(c, sim, s, e, n); RowsAligned(sim, s, t, r.Raised?, counter)
  {
    if n > 0 {
      RowsSync(c, sim, s, e, n - 1, counter);
      var (before, done) := Rows(c, sim, s, e, n - 1);
      if done.Returned? && !before.terminal { RowsAlignedNext(c, sim, s, before, e, counter); }
    }
  }

  lemma {:induction false} AheadRowsRaise(c: Config, sim: Simulator, s: State, e: EpisodeContext, n: nat,
                                          counter: nat -> int)
    requires Counts(sim, counter) && Ahead(s, counter) && !s.terminal && n >= 1
    ensures Rows(c, sim, s, e, n).1.Raised? && Ahead(Rows(c, sim, s, e, n).0, counter)
  {
    AheadRowRaises(c, sim, s, e, counter);
    RowsSettle(c, sim, s, e, 1, n);
  }

  lemma {:induction false} AheadRowRaises(c: Config, sim: Simulator, s: State, e: EpisodeContext,
                                          counter: nat -> int)
    requires Counts(sim, counter) && Ahead(s, counter) && !s.terminal
    ensures Rows(c, sim, s, e, 1).1.Raised? && Ahead(Rows(c, sim, s, e, 1).0, counter)
  {
    if Row(c, sim, s, e).1.Returned? {
      RowReturnsInSync(c, sim, s, e, counter);
    } else {
      RowRaisesAhead(c, sim, s, e, counter);
    }
    FirstRow(c, sim, s, e);
  }

  lemma {:induction false} FirstRow(c: Config, sim: Simulator, s: State, e: EpisodeContext)
    requires !s.terminal
    ensures Rows(c, sim, s, e, 1).0 == Row(c, sim, s, e).0
    ensures var r := Row(c, sim, s, e).1;
            Rows(c, sim, s, e, 1).1 == if r.Raised? then Raised(r.error) else Returned([r.value])
  {
    assert Rows(c, sim, s, e, 0) == (s, Returned([]));
    var r := Row(c, sim, s, e).1;
    if r.Returned? { assert [] + [r.value] == [r.value]; }
  }

  /** Once the simulator is ahead, no call to execute returns, and it stays ahead. */
  lemma {:induction false} AheadForever(c: Config, sim: Simulator, s: State, call: Call, counter: nat -> int)
    requires ConfigOk(c) && Counts(sim, counter) && Ahead(s, counter) && s.resetAttempted
    ensures Ahead(Step(c, sim, s, call), counter) && Step(c, sim, s, call).resetAttempted
    ensures call.Execute? ==> ExecuteTo(c, sim, s, call.actions).1.Raised?
  {
    if call.Execute? && Executable(s) && ActionsOk(c, call.actions) {
      AheadRowsRaise(c, sim, s, s.context.value, |call.actions|, counter);
      RowsReset(c, sim, s, s.context.value, |call.actions|);
    }
  }

  lemma {:induction false} RowsReset(c: Config, sim: Simulator, s: State, e: EpisodeContext, n: nat)
    ensures Rows(c, sim, s, e, n).0.resetAttempted == s.resetAttempted
  {
    if n > 0 {
      RowsReset(c, sim, s, e, n - 1);
      var (before, done) := Rows(c, sim, s, e, n - 1);
      if done.Returned? && !before.terminal {
        if Row(c, sim, before, e).1.Returned? { RowTellsAll(c, sim, before, e); } else { RowFails(c, sim, before, e); }
      }
    }
  }

  /** In sync, a call loses an action exactly when it puts the simulator ahead; such a call
      raises. */
  lemma {:induction false} LosingIsAhead(c: Config, sim: Simulator, s: State, actions: seq<Action>,
                                         counter: nat -> int)
    requires ConfigOk(c) && Counts(sim, counter) && s.native.Some? && InSync(s, counter)
    ensures var (t, r) := ExecuteTo(c, sim, s, actions);
            if Lost(s, t) then Ahead(t, counter) && r.Raised? else InSync(t, counter)
  {
    if Executable(s) && ActionsOk(c, actions) {
      RowsSync(c, sim, s, s.context.value, |actions|, counter);
    }
  }

  lemma {:induction false} RowsStayOpen(c: Config, sim: Simulator, s: State, e: EpisodeContext, n: nat)
    requires !s.terminal
    ensures var (t, r) := Rows(c, sim, s, e, n);
            t.closed == s.closed && (r.Raised? ==> !t.terminal)
  {
    if n > 0 {
      RowsStayOpen(c, sim, s, e, n - 1);
      var (before, done) := Rows(c, sim, s, e, n - 1);
      if done.Returned? && !before.terminal { RowStaysOpen(c, sim, before, e); }
    }
  }

  lemma {:induction false} RowStaysOpen(c: Config, sim: Simulator, s: State, e: EpisodeContext)
    ensures var (t, r) := Row(c, sim, s, e);
            t.closed == s.closed && (r.Raised? ==> t.terminal == s.terminal)
  {
  }

  /** What a raised call leaves behind, exactly: the simulator is ahead if and only if an action
      was lost, which is if and only if the last row attempted was encoded; otherwise
      everything taken was accepted, and the two stay in sync. */
  ghost predicate RaisedTells(sim: Simulator, s: State, t: State, counter: nat -> int) {
    && t.native.Some? && (Ahead(t, counter) <==> Lost(s, t))
    && (Lost(s, t) <==> t.rows > s.rows && sim.encode(t.rows - 1).Returned?)
    && (!Lost(s, t) ==> InSync(t, counter) && t.taken - s.taken == t.step - s.step)
  }

  lemma {:induction false} AlignedTells(sim: Simulator, s: State, t: State, counter: nat -> int)
    requires RowsAligned(sim, s, t, true, counter)
    ensures RaisedTells(sim, s, t, counter)
  {
  }

  /** Which raising calls fail closed: those whose last row was encoded.  After any other, the
      backend is in sync and, if it was open, open to be executed again. */
  lemma {:induction false} RaisedExactly(c: Config, sim: Simulator, s: State, actions: seq<Action>,
                                         counter: nat -> int)
    requires ConfigOk(c) && Counts(sim, counter) && s.native.Some? && InSync(s, counter)
    requires ExecuteTo(c, sim, s, actions).1.Raised?
    ensures RaisedTells(sim, s, ExecuteTo(c, sim, s, actions).0, counter)
    ensures Executable(s) ==> Executable(ExecuteTo(c, sim, s, actions).0)
  {
    if Executable(s) && ActionsOk(c, actions) {
      RowsSync(c, sim, s, s.context.value, |actions|, counter);
      AlignedTells(sim, s, Rows(c, sim, s, s.context.value, |actions|).0, counter);
      RowsReopen(c, sim, s, s.context.value, |actions|);
    }
  }

  lemma {:induction false} RowsReopen(c: Config, sim: Simulator, s: State, e: EpisodeContext, n: nat)
    requires Executable(s) && Rows(c, sim, s, e, n).1.Raised?
    ensures Executable(Rows(c, sim, s, e, n).0)
  {
    RowsKeepContext(c, sim, s, e, n);
    RowsStayOpen(c, sim, s, e, n);
  }

  /** The simulator answers the next row of a state, and counts one for it. */
  predicate Answers(c: Config, sim: Simulator, s: State, counter: nat -> int) {
    && sim.encode(s.rows).Returned? && sim.take(s.rows).Returned?
    && sim.frame(s.taken + 1).Returned? && counter(s.taken + 1) == counter(s.taken) + PHYSICS_STEPS_PER_ACTION
    && sim.success(s.taken + 1).Returned? && sim.plan(s.taken + 1).Returned?
    && StopsEarly(c, sim, s.taken + 1).Returned?
  }

  /** An open backend in sync whose simulator answers does return, whatever went before. */
  lemma {:induction false} AnsweredReturns(c: Config, sim: Simulator, s: State, action: Action, counter: nat -> int)
    requires ConfigOk(c) && Counts(sim, counter) && s.native.Some? && InSync(s, counter) && s.step >= 0
    requires Executable(s) && ActionsOk(c, [action]) && Answers(c, sim, s, counter)
    ensures var r := ExecuteTo(c, sim, s, [action]).1;
            && r.Returned? && |r.value.transitions| == 1
            && r.value.transitions[0].clean.Observed().stepIndex == s.step + 1
  {
    var e := s.context.value;
    AnsweredRow(c, sim, s, e, counter);
    FirstRow(c, sim, s, e);
  }

  lemma {:induction false} AnsweredRow(c: Config, sim: Simulator, s: State, e: EpisodeContext, counter: nat -> int)
    requires Counts(sim, counter) && s.native.Some? && InSync(s, counter) && s.step >= 0
    requires Answers(c, sim, s, counter)
    ensures var r := Row(c, sim, s, e).1; r.Returned? && r.value.clean.Observed().stepIndex == s.step + 1
  {
    ConvertedClean(c, sim.frame(s.taken + 1).value, e, s.step + 1, s.contact);
  }

  ghost predicate Aligned(s: State, counter: nat -> int) {
    && (s.native.Some? ==> s.resetAttempted) && (s.native.None? ==> !s.delivered && s.cached.None?)
    && (InSync(s, counter) || Ahead(s, counter))
  }

  lemma {:induction false} StepAligned(c: Config, sim: Simulator, s: State, call: Call, counter: nat -> int)
    requires ConfigOk(c) && Counts(sim, counter) && Aligned(s, counter)
    ensures Aligned(Step(c, sim, s, call), counter)
  {
    if Ahead(s, counter) {
      AheadForever(c, sim, s, call, counter);
    } else if call.Execute? {
      if s.native.Some? { ExecuteAligned(c, sim, s, call.actions, counter); }
    } else if call.Reset? {
      ResetAligned(c, sim, s, call.e, counter);
    }
  }

  lemma {:induction false} ExecuteAligned(c: Config, sim: Simulator, s: State, actions: seq<Action>,
                                          counter: nat -> int)
    requires ConfigOk(c) && Counts(sim, counter) && s.native.Some? && s.resetAttempted && InSync(s, counter)
    ensures Aligned(ExecuteTo(c, sim, s, actions).0, counter)
  {
    LosingIsAhead(c, sim, s, actions, counter);
    if Executable(s) && ActionsOk(c, actions) {
      RowsSync(c, sim, s, s.context.value, |actions|, counter);
      RowsReset(c, sim, s, s.context.value, |actions|);
    }
  }

  lemma {:induction false} ResetAligned(c: Config, sim: Simulator, s: State, e: EpisodeContext,
                                        counter: nat -> int)
    requires Counts(sim, counter) && Aligned(s, counter)
    ensures Aligned(ResetTo(c, sim, s, e).0, counter)
  {
    if sim.frame(s.taken).Returned? { ConvertedClean(c, sim.frame(s.taken).value, e, 0, s.contact); }
  }

  lemma {:induction false} AlwaysAligned(c: Config, sim: Simulator, calls: seq<Call>, counter: nat -> int)
    requires ConfigOk(c) && Counts(sim, counter)
    ensures Aligned(After(c, sim, calls), counter)
  {
    if calls != [] {
      AlwaysAligned(c, sim, calls[..|calls| - 1], counter);
      StepAligned(c, sim, After(c, sim, calls[..|calls| - 1]), calls[|calls| - 1], counter);
    }
  }

  /** The call that loses an action puts the simulator ahead. */
  lemma {:induction false} LostIsAhead(c: Config, sim: Simulator, calls: seq<Call>, lost: seq<Action>,
                                       counter: nat -> int)
    requires ConfigOk(c) && Counts(sim, counter)
    requires var s := After(c, sim, calls); Lost(s, ExecuteTo(c, sim, s, lost).0)
    ensures Ahead(After(c, sim, calls + [Execute(lost)]), counter)
    ensures After(c, sim, calls + [Execute(lost)]).resetAttempted
  {
    var all, s := calls + [Execute(lost)], After(c, sim, calls);
    assert all[..|all| - 1] == calls && all[|all| - 1] == Execute(lost);
    AlwaysAligned(c, sim, calls, counter);
    AlwaysAligned(c, sim, all, counter);
    if Ahead(s, counter) {
      AheadForever(c, sim, s, Execute(lost), counter);
    } else {
      LosingIsAhead(c, sim, s, lost, counter);
    }
  }

  /** Any further call leaves a simulator that is ahead, ahead. */
  lemma {:induction false} AheadNext(c: Config, sim: Simulator, before: seq<Call>, call: Call,
                                     counter: nat -> int)
    requires ConfigOk(c) && Counts(sim, counter)
    requires Ahead(After(c, sim, before), counter) && After(c, sim, before).resetAttempted
    ensures Ahead(After(c, sim, before + [call]), counter)
    ensures After(c, sim, before + [call]).resetAttempted
  {
    assert (before + [call])[..|before|] == before;
    AheadForever(c, sim, After(c, sim, before), call, counter);
  }

  lemma {:induction false} StaysAhead(c: Config, sim: Simulator, calls: seq<Call>, n: nat, counter: nat -> int)
    requires ConfigOk(c) && Counts(sim, counter) && n <= |calls|
    requires Ahead(After(c, sim, calls[..n]), counter) && After(c, sim, calls[..n]).resetAttempted
    ensures Ahead(After(c, sim, calls), counter) && After(c, sim, calls).resetAttempted
    decreases |calls| - n
  {
    if n == |calls| {
      assert calls[..n] == calls;
    } else {
      AheadNext(c, sim, calls[..n], calls[n], counter);
      assert calls[..n] + [calls[n]] == calls[..n + 1];
      StaysAhead(c, sim, calls, n + 1, counter);
    }
  }

  /** Fail closed, over whole histories: if the simulator's counter strictly advances with every
      action, then after any call that took an action without accepting its outcome, no later
      call to execute ever returns. */
  lemma {:induction false} FailsClosed(c: Config, sim: Simulator, calls: seq<Call>, lost: seq<Action>,
                                       later: seq<Call>, again: seq<Action>, counter: nat -> int)
    requires ConfigOk(c) && Counts(sim, counter)
    requires var s := After(c, sim, calls); Lost(s, ExecuteTo(c, sim, s, lost).0)
    ensures ExecuteTo(c, sim, After(c, sim, calls + [Execute(lost)] + later), again).1.Raised?
  {
    var all := calls + [Execute(lost)] + later;
    LostIsAhead(c, sim, calls, lost, counter);
    assert all[..|calls| + 1] == calls + [Execute(lost)];
    StaysAhead(c, sim, all, |calls| + 1, counter);
    AheadForever(c, sim, After(c, sim, all), Execute(again), counter);
  }

  /** After these calls, whatever follows, execute never returns. */
  ghost predicate NeverReturns(c: Config, sim: Simulator, calls: seq<Call>)
    requires ConfigOk(c)
  {
    forall later, again :: ExecuteTo(c, sim, After(c, sim, calls + later), again).1.Raised?
  }

  /** Fail closed, exactly: when a simulator that counts would answer the next row, then no call
      to execute ever returns after one that raised if and only if that one had lost an action,
      which is if and only if it raised after encoding its last row.  A batch that raises on
      encoding a later row has had its earlier rows accepted, and the next batch goes on from
      there, past steps that its caller never saw. */
  lemma {:induction false} FailsClosedExactly(c: Config, sim: Simulator, calls: seq<Call>, failed: seq<Action>,
                                              s: State, t: State, action: Action, counter: nat -> int)
    requires ConfigOk(c) && Counts(sim, counter) && ActionsOk(c, [action])
    requires s == After(c, sim, calls) && Executable(s) && s.native.Some? && InSync(s, counter)
    requires ExecuteTo(c, sim, s, failed).1.Raised? && t == ExecuteTo(c, sim, s, failed).0
    requires Answers(c, sim, t, counter)
    ensures NeverReturns(c, sim, calls + [Execute(failed)]) <==> Lost(s, t)
    ensures Lost(s, t) <==> t.rows > s.rows && sim.encode(t.rows - 1).Returned?
  {
    RaisedReady(c, sim, calls, failed, s, t, counter);
    RaisedDecides(c, sim, calls, failed, s, t, action, counter);
  }

  lemma {:induction false} RaisedReady(c: Config, sim: Simulator, calls: seq<Call>, failed: seq<Action>, s: State,
                                       t: State, counter: nat -> int)
    requires ConfigOk(c) && Counts(sim, counter)
    requires s == After(c, sim, calls) && Executable(s) && s.native.Some? && InSync(s, counter)
    requires ExecuteTo(c, sim, s, failed).1.Raised? && t == ExecuteTo(c, sim, s, failed).0
    ensures t == After(c, sim, calls + [Execute(failed)]) && Executable(t) && RaisedTells(sim, s, t, counter)
  {
    RaisedExactly(c, sim, s, failed, counter);
    AfterExecute(c, sim, calls, failed);
  }

  lemma {:induction false} RaisedDecides(c: Config, sim: Simulator, calls: seq<Call>, failed: seq<Action>, s: State,
                                         t: State, action: Action, counter: nat -> int)
    requires ConfigOk(c) && Counts(sim, counter) && ActionsOk(c, [action])
    requires s == After(c, sim, calls) && t == ExecuteTo(c, sim, s, failed).0
    requires t == After(c, sim, calls + [Execute(failed)])
    requires Executable(t) && RaisedTells(sim, s, t, counter) && Answers(c, sim, t, counter)
    ensures NeverReturns(c, sim, calls + [Execute(failed)]) <==> Lost(s, t)
  {
    if Lost(s, t) {
      LostNeverReturns(c, sim, calls, failed, counter);
    } else {
      OpenReturns(c, sim, calls + [Execute(failed)], t, action, counter);
    }
  }

  lemma {:induction false} OpenReturns(c: Config, sim: Simulator, calls: seq<Call>, s: State, action: Action,
                                       counter: nat -> int)
    requires ConfigOk(c) && Counts(sim, counter) && ActionsOk(c, [action]) && s == After(c, sim, calls)
    requires Executable(s) && s.native.Some? && InSync(s, counter) && Answers(c, sim, s, counter)
    ensures !NeverReturns(c, sim, calls)
  {
    NeverBeyondHorizon(c, sim, calls);
    AnsweredReturns(c, sim, s, action, counter);
    ReturnsAtOnce(c, sim, calls, [action]);
  }

  lemma {:induction false} AfterExecute(c: Config, sim: Simulator, calls: seq<Call>, actions: seq<Action>)
    requires ConfigOk(c)
    ensures After(c, sim, calls + [Execute(actions)]) == ExecuteTo(c, sim, After(c, sim, calls), actions).0
  {
    assert (calls + [Execute(actions)])[..|calls|] == calls;
  }

  lemma {:induction false} LostNeverReturns(c: Config, sim: Simulator, calls: seq<Call>, lost: seq<Action>,
                                            counter: nat -> int)
    requires ConfigOk(c) && Counts(sim, counter)
    requires var s := After(c, sim, calls); Lost(s, ExecuteTo(c, sim, s, lost).0)
    ensures NeverReturns(c, sim, calls + [Execute(lost)])
  {
    forall later, again
      ensures ExecuteTo(c, sim, After(c, sim, calls + [Execute(lost)] + later), again).1.Raised?
    {
      FailsClosed(c, sim, calls, lost, later, again, counter);
    }
  }

  lemma {:induction false} ReturnsAtOnce(c: Config, sim: Simulator, calls: seq<Call>, again: seq<Action>)
    requires ConfigOk(c) && ExecuteTo(c, sim, After(c, sim, calls), again).1.Returned?
    ensures !NeverReturns(c, sim, calls)
  {
    assert calls + [] == calls;
    assert !ExecuteTo(c, sim, After(c, sim, calls + []), again).1.Raised?;
  }
}
