/** What every reachable state of the runner keeps: counts, chronology, and the stream the
    policy has been shown. */
module RunnerInvariant {
  import opened Basics
  import opened Records
  import opened ValidationCodes
  import opened Delivery
  import opened Results
  import opened RunnerChecks
  import opened Runner

  // ------------------------------------------------------- the policy as a spectator

  /** A policy that is told only legal things about one observation stream: met, shown the
      observation at `last` (and possibly asked for a plan), dismissed, done. */
  datatype Spectator = Unmet | Shown(last: nat, asked: bool) | Dismissed | Done | Wronged

  function Watch(v: Spectator, call: PolicyCall, stream: seq<Observation>): Spectator {
    match call
    case PolicyReset(_) => if v.Unmet? then Shown(0, false) else Wronged
    case Infer(shown) =>
      if v.Shown? && !v.asked && v.last < |stream| && shown == stream[v.last]
      then v.(asked := true) else Wronged
    case Commit(_, executed, news, _) =>
      if v.Shown? && v.asked && 1 <= |news| == |executed| && v.last + |news| < |stream|
         && news == stream[v.last + 1..v.last + 1 + |news|]
      then Shown(v.last + |news|, false) else Wronged
    case Abort(_) => if v.Shown? then Dismissed else Wronged
    case PolicyClose => if v.Done? || v.Wronged? then Wronged else Done
  }

  function Follow(calls: seq<PolicyCall>, stream: seq<Observation>): Spectator {
    if calls == [] then Unmet
    else Watch(Follow(calls[..|calls| - 1], stream), calls[|calls| - 1], stream)
  }

  lemma {:induction false} FollowNext(calls: seq<PolicyCall>, call: PolicyCall, stream: seq<Observation>)
    ensures Follow(calls + [call], stream) == Watch(Follow(calls, stream), call, stream)
  {
    assert (calls + [call])[..|calls|] == calls;
  }

  /** What was shown of a stream stays valid when the stream grows. */
  lemma {:induction false} FollowGrows(calls: seq<PolicyCall>, stream: seq<Observation>, more: seq<Observation>)
    requires !Follow(calls, stream).Wronged?
    ensures Follow(calls, stream + more) == Follow(calls, stream)
  {
    if calls != [] {
      FollowGrows(calls[..|calls| - 1], stream, more);
      var v, call := Follow(calls[..|calls| - 1], stream), calls[|calls| - 1];
      if call.Commit? {
        var lo, hi := v.last + 1, v.last + 1 + |call.observations|;
        assert (stream + more)[lo..hi] == stream[lo..hi];
      }
    }
  }

  // ------------------------------------------------------------------------ action trace

  function Executed(entries: seq<ActionEntry>): nat {
    if entries == [] then 0 else Executed(entries[..|entries| - 1]) + |entries[|entries| - 1].actions|
  }

  /** Entry k is the executed, non-empty prefix of the plan that the policy proposed in cycle
      k for the observation then current. */
  ghost predicate EntryFits(j: Job, w: World, e: ActionEntry, k: nat, source: Observation) {
    && w.infer(k).Returned?
    && e.plan == Sha(w.infer(k).value) && e.sourceStep == w.infer(k).value.sourceStep == source.stepIndex
    && 1 <= |e.actions| <= j.spec.executeActionSteps && e.actions <= w.infer(k).value.actions
  }

  ghost predicate Chronicled(j: Job, w: World, entries: seq<ActionEntry>, stream: seq<Observation>) {
    && Executed(entries) < |stream|
    && forall k :: 0 <= k < |entries| ==>
         Executed(entries[..k]) < |stream| && EntryFits(j, w, entries[k], k, stream[Executed(entries[..k])])
  }

  lemma {:induction false} ChronicledNext(j: Job, w: World, entries: seq<ActionEntry>, e: ActionEntry,
                                          stream: seq<Observation>, source: int)
    requires Chronicled(j, w, entries, stream) && Executed(entries) == source < |stream|
    requires EntryFits(j, w, e, |entries|, stream[source]) && source + |e.actions| < |stream|
    ensures Chronicled(j, w, entries + [e], stream) && Executed(entries + [e]) == source + |e.actions|
  {
    var next := entries + [e];
    assert next[..|entries|] == entries;
    forall k | 0 <= k < |next|
      ensures Executed(next[..k]) < |stream| && EntryFits(j, w, next[k], k, stream[Executed(next[..k])])
    {
      assert next[..k] == entries[..k];
      if k == |entries| { assert entries[..k] == entries; }
    }
  }

  lemma {:induction false} ChronicledGrows(j: Job, w: World, entries: seq<ActionEntry>, stream: seq<Observation>,
                                           more: seq<Observation>)
    requires Chronicled(j, w, entries, stream)
    ensures Chronicled(j, w, entries, stream + more)
  {
  }

  lemma {:induction false} ExecutedAtLeast(entries: seq<ActionEntry>)
    requires forall k :: 0 <= k < |entries| ==> 1 <= |entries[k].actions|
    ensures Executed(entries) >= |entries|
  {
    if entries != [] { ExecutedAtLeast(entries[..|entries| - 1]); }
  }

  // --------------------------------------------------------------------- the invariant

  predicate CleanStream(c: EpisodeContext, clean: Trace) {
    forall i :: 0 <= i < |clean| ==> CleanViolation(clean[i], c, i).None?
  }

  /** What the commits of a call sequence acknowledge, and what action entries record. */
  datatype Acknowledgement = Acknowledgement(plan: Sha<ActionPlan>, actions: seq<Action>)

  function Acknowledged(calls: seq<PolicyCall>): seq<Acknowledgement> {
    if calls == [] then []
    else
      var last := calls[|calls| - 1];
      Acknowledged(calls[..|calls| - 1]) + if last.Commit? then [Acknowledgement(last.plan, last.executed)] else []
  }

  function Recorded(entries: seq<ActionEntry>): seq<Acknowledgement> {
    seq(|entries|, i requires 0 <= i < |entries| => Acknowledgement(entries[i].plan, entries[i].actions))
  }

  lemma {:induction false} AcknowledgedNext(calls: seq<PolicyCall>, call: PolicyCall)
    ensures Acknowledged(calls + [call])
         == Acknowledged(calls) + if call.Commit? then [Acknowledgement(call.plan, call.executed)] else []
  {
    assert (calls + [call])[..|calls|] == calls;
  }

  lemma {:induction false} RecordedNext(entries: seq<ActionEntry>, e: ActionEntry)
    ensures Recorded(entries + [e]) == Recorded(entries) + [Acknowledgement(e.plan, e.actions)]
  {
  }

  /** The action entries explain the first `seen` observations of a stream, and the policy
      has been shown exactly those. */
  ghost predicate Explained(j: Job, w: World, stream: seq<Observation>, entries: seq<ActionEntry>,
                            calls: seq<PolicyCall>, seen: int, asked: bool)
  {
    && 1 <= seen <= |stream|
    && Chronicled(j, w, entries, stream) && Executed(entries) == seen - 1
    && Told(calls, stream, Recorded(entries), seen, asked)
  }

  predicate Told(calls: seq<PolicyCall>, stream: seq<Observation>, recorded: seq<Acknowledgement>, seen: int,
                 asked: bool)
  {
    1 <= seen && Follow(calls, stream) == Shown(seen - 1, asked) && Acknowledged(calls) == recorded
  }

  lemma {:induction false} ToldCommit(calls: seq<PolicyCall>, stream: seq<Observation>,
                                      recorded: seq<Acknowledgement>, seen: int, plan: Sha<ActionPlan>,
                                      actions: seq<Action>, news: seq<Observation>, signal: Signal)
    requires 1 <= seen < seen + |actions| <= |stream| && Told(calls, stream, recorded, seen, true)
    requires |news| == |actions| && news == stream[seen..seen + |news|]
    ensures Told(calls + [Commit(plan, actions, news, signal)], stream,
                 recorded + [Acknowledgement(plan, actions)], seen + |actions|, false)
  {
    FollowNext(calls, Commit(plan, actions, news, signal), stream);
    AcknowledgedNext(calls, Commit(plan, actions, news, signal));
  }

  lemma {:induction false} ToldRecorded(stream: seq<Observation>, entries: seq<ActionEntry>,
                                        calls: seq<PolicyCall>, seen: int, e: ActionEntry, news: seq<Observation>,
                                        signal: Signal)
    requires Told(calls, stream, Recorded(entries), seen, true) && 1 <= seen < seen + |news| <= |stream|
    requires |news| == |e.actions| && news == stream[seen..seen + |news|]
    ensures Told(calls + [Commit(e.plan, e.actions, news, signal)], stream, Recorded(entries + [e]),
                 seen + |news|, false)
  {
    ToldCommit(calls, stream, Recorded(entries), seen, e.plan, e.actions, news, signal);
    RecordedNext(entries, e);
  }

  /** An open session whose records are the clean ones of this episode. */
  ghost predicate Ordered(j: Job, session: Session) {
    && session.channel == j.channel && !session.finalized
    && |session.delivered| <= |session.clean| && CleanStream(Context(j), session.clean)
  }

  /** Reset happened; the policy may have been met; nothing was delivered. */
  ghost predicate Early(j: Job, s: State) {
    && s.session.channel == j.channel && !s.session.finalized && s.session.delivered == []
    && s.entries == [] && s.cycles == s.observations == 0
    && (s.stage.ResetStage? || s.stage.PolicyResetStage? || s.stage.ObserveStage? || s.stage.DeliveryStage?)
    && (!s.stage.ResetStage? ==> s.initialState.Some?)
    && s.policyCalls == (if s.entered then [PolicyReset(Context(j))] else [])
  }

  ghost predicate Underway(j: Job, s: State) {
    && s.entered && s.initialState.Some?
    && s.observations <= j.spec.maxObservationSteps && s.cycles <= j.spec.maxControlCycles
  }

  predicate Complete(session: Session, seen: int) {
    |session.clean| == |session.delivered| == seen
  }

  /** Whole cycles only: every delivered record is accounted for. */
  ghost predicate Steady(j: Job, w: World, s: State) {
    && Underway(j, s) && (s.stage.DeliveryStage? || s.stage.InferStage? || s.stage.CommitStage?)
    && s.cycles == |s.entries| && (s.stage.DeliveryStage? ==> s.cycles == 0)
    && Ordered(j, s.session) && Complete(s.session, s.observations)
    && Explained(j, w, Observed(s.session.delivered), s.entries, s.policyCalls, s.observations, s.stage.InferStage?)
    && s.current == Some(s.session.delivered[s.observations - 1].Observed())
  }

  /** A cycle broke inside execute or inside the delivery of its batch. */
  ghost predicate Broke(j: Job, w: World, s: State) {
    && Underway(j, s) && (s.stage.ExecuteStage? || s.stage.DeliveryStage?)
    && s.cycles == |s.entries| + 1 && s.observations < j.spec.maxObservationSteps
    && Ordered(j, s.session)
    && Explained(j, w, Observed(s.session.delivered), s.entries, s.policyCalls, s.observations, true)
  }

  /** The plan of this cycle proposes no action at all. */
  predicate AskedInVain(w: World, cycle: nat) {
    w.infer(cycle).Returned? && w.infer(cycle).value.actions == []
  }

  // --------------------------------------------------------------- how the books are kept

  lemma {:induction false} ExplainedAsk(j: Job, w: World, stream: seq<Observation>, entries: seq<ActionEntry>,
                                        calls: seq<PolicyCall>, seen: int)
    requires Explained(j, w, stream, entries, calls, seen, false)
    ensures Explained(j, w, stream, entries, calls + [Infer(stream[seen - 1])], seen, true)
  {
    FollowNext(calls, Infer(stream[seen - 1]), stream);
    AcknowledgedNext(calls, Infer(stream[seen - 1]));
  }

  lemma {:induction false} ExplainedGrows(j: Job, w: World, stream: seq<Observation>, entries: seq<ActionEntry>,
                                          calls: seq<PolicyCall>, seen: int, asked: bool, more: seq<Observation>)
    requires Explained(j, w, stream, entries, calls, seen, asked)
    ensures Explained(j, w, stream + more, entries, calls, seen, asked)
  {
    FollowGrows(calls, stream, more);
    ChronicledGrows(j, w, entries, stream, more);
  }

  lemma {:induction false} ExplainedCommit(j: Job, w: World, stream: seq<Observation>, entries: seq<ActionEntry>,
                                           calls: seq<PolicyCall>, seen: int, e: ActionEntry,
                                           news: seq<Observation>, signal: Signal)
    requires Explained(j, w, stream, entries, calls, seen, true)
    requires EntryFits(j, w, e, |entries|, stream[seen - 1])
    requires |news| == |e.actions| && seen + |news| <= |stream| && news == stream[seen..seen + |news|]
    ensures Explained(j, w, stream, entries + [e], calls + [Commit(e.plan, e.actions, news, signal)],
                      seen + |news|, false)
  {
    ChronicledNext(j, w, entries, e, stream, seen - 1);
    ToldRecorded(stream, entries, calls, seen, e, news, signal);
  }

  /** What delivering the first n transitions has done to a session, all of them or not. */
  ghost predicate BatchTold(s: Session, ts: seq<Transition>, n: nat, t: Session, r: Reply<Trace>)
    requires n <= |ts|
  {
    && t.channel == s.channel && t.finalized == s.finalized
    && s.clean <= t.clean && s.delivered <= t.delivered && |t.delivered| <= |t.clean| <= |s.clean| + n
    && (forall i :: |s.clean| <= i < |t.clean| ==> t.clean[i] == ts[i - |s.clean|].clean)
    && (r.Returned? ==> t.delivered == s.delivered + r.value && |t.delivered| == |t.clean| == |s.clean| + n)
  }

  ghost predicate OneTold(s: Session, r: EvaluationRecord, t: Session, reply: Reply<EvaluationRecord>) {
    && t.channel == s.channel && t.finalized == s.finalized
    && (t.clean == s.clean + [r] || (t.clean == s.clean && reply.Raised?))
    && t.delivered == if reply.Returned? then s.delivered + [reply.value] else s.delivered
  }

  lemma {:induction false} OneDelivery(s: Session, r: EvaluationRecord)
    ensures OneTold(s, r, DeliverTo(s, r).0, DeliverTo(s, r).1)
  {
  }

  lemma {:induction false} BatchNext(s: Session, ts: seq<Transition>, n: nat, before: Session, sofar: Trace,
                                     after: Session, reply: Reply<EvaluationRecord>)
    requires n < |ts| && BatchTold(s, ts, n, before, Returned(sofar)) && OneTold(before, ts[n].clean, after, reply)
    ensures BatchTold(s, ts, n + 1, after,
                      if reply.Raised? then Raised(reply.error) else Returned(sofar + [reply.value]))
  {
    if reply.Returned? {
      assert s.delivered + (sofar + [reply.value]) == (s.delivered + sofar) + [reply.value];
    }
  }

  lemma {:induction false} DeliverFirstKeeps(s: Session, ts: seq<Transition>, n: nat)
    requires n <= |ts| && |s.clean| == |s.delivered|
    ensures BatchTold(s, ts, n, DeliverFirst(s, ts, n).0, DeliverFirst(s, ts, n).1)
  {
    if n > 0 {
      DeliverFirstKeeps(s, ts, n - 1);
      var (before, sofar) := DeliverFirst(s, ts, n - 1);
      if sofar.Returned? {
        OneDelivery(before, ts[n - 1].clean);
        var (after, reply) := DeliverTo(before, ts[n - 1].clean);
        BatchNext(s, ts, n - 1, before, sofar.value, after, reply);
      }
    }
  }

  predicate CleanBatch(c: EpisodeContext, ts: seq<Transition>, step: int) {
    forall i :: 0 <= i < |ts| ==> CleanViolation(ts[i].clean, c, step + i).None?
  }

  lemma {:induction false} OrderedDeliver(j: Job, session: Session, ts: seq<Transition>)
    requires Ordered(j, session) && |session.clean| == |session.delivered|
    requires CleanBatch(Context(j), ts, |session.clean|)
    ensures Ordered(j, DeliverFirst(session, ts, |ts|).0)
  {
    var after, seen := DeliverFirst(session, ts, |ts|).0, |session.clean|;
    DeliverFirstKeeps(session, ts, |ts|);
    forall i | 0 <= i < |after.clean| ensures CleanViolation(after.clean[i], Context(j), i).None? {
      if i < seen {
        assert after.clean[i] == session.clean[i];
      } else {
        assert after.clean[i] == ts[i - seen].clean && seen + (i - seen) == i;
      }
    }
  }

  // --------------------------------------------------------------------- phase by phase

  lemma {:induction false} GreetSteady(j: Job, w: World)
    requires Prepare(j, w).1.Going?
    ensures var (s, p) := Greet(j, w, Prepare(j, w).0);
            if p.Going? then Steady(j, w, s) && s.signal.Running? && s.cycles == 0 else Early(j, s)
  {
    var s := Prepare(j, w).0;
    var (t, p) := Greet(j, w, s);
    if p.Going? {
      assert s.policyCalls == [PolicyReset(Context(j))] && t.policyCalls == s.policyCalls;
      assert |t.session.clean| == |t.session.delivered| == 1;
      MetExplained(j, w, Observed(t.session.delivered));
      assert t.session.clean == [w.observe.value];
    }
  }

  lemma {:induction false} MetExplained(j: Job, w: World, stream: seq<Observation>)
    requires |stream| == 1
    ensures Explained(j, w, stream, [], [PolicyReset(Context(j))], 1, false)
  {
    FollowNext([], PolicyReset(Context(j)), stream);
    AcknowledgedNext([], PolicyReset(Context(j)));
    assert [] + [PolicyReset(Context(j))] == [PolicyReset(Context(j))];
  }

  lemma {:induction false} ConsultSteady(j: Job, w: World, s: State)
    requires Steady(j, w, s) && !s.stage.InferStage?
    ensures Steady(j, w, Consult(w, s).0)
  {
    ExplainedAsk(j, w, Observed(s.session.delivered), s.entries, s.policyCalls, s.observations);
    SteadyAsked(j, w, s, Infer(Observed(s.session.delivered)[s.observations - 1]));
  }

  lemma {:induction false} SteadyAsked(j: Job, w: World, s: State, call: PolicyCall)
    requires Steady(j, w, s)
    requires Explained(j, w, Observed(s.session.delivered), s.entries, s.policyCalls + [call], s.observations, true)
    ensures Steady(j, w, s.(stage := InferStage, policyCalls := s.policyCalls + [call]))
  {
  }

  /** Executing opens the books; only a complete delivery closes them again. */
  lemma {:induction false} ActBreaks(j: Job, w: World, s: State, plan: ActionPlan)
    requires Steady(j, w, s) && s.stage.InferStage? && s.cycles < j.spec.maxControlCycles
    requires 1 <= Requested(j, s, plan)
    ensures Broke(j, w, Act(j, w, s, plan).0)
  {
  }

  lemma {:induction false} ObservedSlice(a: Trace, b: Trace, whole: Trace)
    requires whole == a + b
    ensures Observed(whole)[|a|..|whole|] == Observed(b) && Observed(whole) == Observed(a) + Observed(b)
  {
  }

  /** The entry a cycle adds for its executed prefix. */
  function EntryOf(plan: ActionPlan, n: nat): ActionEntry
    requires n <= |plan.actions|
  {
    ActionEntry(Sha(plan), plan.sourceStep, plan.actions[..n])
  }

  lemma {:induction false} EntryOfFits(j: Job, w: World, plan: ActionPlan, n: nat, k: nat, source: Observation)
    requires 1 <= n <= |plan.actions| && n <= j.spec.executeActionSteps
    requires w.infer(k) == Returned(plan) && plan.sourceStep == source.stepIndex
    ensures EntryFits(j, w, EntryOf(plan, n), k, source)
  {
  }

  /** A stream extended by news is explained once the news are committed. */
  lemma {:induction false} ExplainedNews(j: Job, w: World, stream: seq<Observation>, news: seq<Observation>,
                                         grown: seq<Observation>, seen: int, n: int, entries: seq<ActionEntry>,
                                         calls: seq<PolicyCall>, plan: ActionPlan, signal: Signal)
    requires grown == stream + news && seen == |stream| && n == |news|
    requires Explained(j, w, stream, entries, calls, seen, true)
    requires 1 <= n <= |plan.actions| && n <= j.spec.executeActionSteps
    requires w.infer(|entries|) == Returned(plan) && plan.sourceStep == stream[seen - 1].stepIndex
    ensures Explained(j, w, grown, entries + [EntryOf(plan, n)],
                      calls + [Commit(Sha(plan), plan.actions[..n], news, signal)], seen + n, false)
  {
    ExplainedGrows(j, w, stream, entries, calls, seen, true, news);
    EntryOfFits(j, w, plan, n, |entries|, stream[seen - 1]);
    ExplainedCommit(j, w, grown, entries, calls, seen, EntryOf(plan, n), news, signal);
  }

  lemma {:induction false} NewsObserved(before: Trace, news: Trace, stream: seq<Observation>,
                                        more: seq<Observation>, grown: seq<Observation>)
    requires before != [] && stream == Observed(before) && more == Observed(news) && grown == Observed(before + news)
    ensures |stream| == |before| && |more| == |news| && grown == stream + more
    ensures stream[|stream| - 1] == before[|before| - 1].Observed()
  {
  }

  /** Whatever a batch's deliveries add to the stream leaves the explanation in place. */
  lemma {:induction false} StillExplained(j: Job, w: World, session: Session, entries: seq<ActionEntry>,
                                          calls: seq<PolicyCall>, ts: seq<Transition>)
    requires |session.clean| == |session.delivered|
    requires Explained(j, w, Observed(session.delivered), entries, calls, |session.delivered|, true)
    ensures Explained(j, w, Observed(DeliverFirst(session, ts, |ts|).0.delivered), entries, calls,
                      |session.delivered|, true)
  {
    var before, after := session.delivered, DeliverFirst(session, ts, |ts|).0.delivered;
    DeliverFirstKeeps(session, ts, |ts|);
    var tail := after[|before|..];
    ObservedSlice(before, tail, after);
    ExplainedGrows(j, w, Observed(before), entries, calls, |before|, true, Observed(tail));
  }

  lemma {:induction false} BrokeWith(j: Job, w: World, s: State, session: Session)
    requires Broke(j, w, s) && Ordered(j, session)
    requires Explained(j, w, Observed(session.delivered), s.entries, s.policyCalls, s.observations, true)
    ensures Broke(j, w, s.(stage := DeliveryStage, session := session))
  {
  }

  /** A batch that fails to be delivered leaves the runner broken, its books intact. */
  lemma {:induction false} HandFails(j: Job, w: World, s: State, plan: ActionPlan, b: Batch)
    requires Broke(j, w, s) && Complete(s.session, s.observations)
    requires 1 <= |b.transitions| <= |plan.actions| && CleanBatch(Context(j), b.transitions, s.observations)
    requires DeliverFirst(s.session, b.transitions, |b.transitions|).1.Raised?
    ensures Hand(w, s, plan, b).1.Broken? && Broke(j, w, Hand(w, s, plan, b).0)
  {
    var (session, reply) := DeliverFirst(s.session, b.transitions, |b.transitions|);
    assert Hand(w, s, plan, b) == (s.(stage := DeliveryStage, session := session), Broken(reply.error));
    OrderedDeliver(j, s.session, b.transitions);
    StillExplained(j, w, s.session, s.entries, s.policyCalls, b.transitions);
    BrokeWith(j, w, s, session);
  }

  lemma {:induction false} SteadyWith(j: Job, w: World, s: State, session: Session, plan: ActionPlan, b: Batch,
                                      news: Trace)
    requires Broke(j, w, s) && Ordered(j, session) && Complete(session, s.observations + |news|)
    requires 1 <= |news| == |b.transitions| <= |plan.actions|
    requires |news| <= j.spec.maxObservationSteps - s.observations
    requires session.delivered[|session.delivered| - 1] == news[|news| - 1]
    requires Explained(j, w, Observed(session.delivered), s.entries + [EntryOf(plan, |news|)],
                       s.policyCalls + [Commit(Sha(plan), plan.actions[..|news|], Observed(news),
                                               b.transitions[|news| - 1].signal)],
                       s.observations + |news|, false)
    ensures Steady(j, w, Bookkeep(s.(stage := DeliveryStage, session := session), plan, b, news))
  {
  }

  lemma {:induction false} HandSucceeds(j: Job, w: World, s: State, plan: ActionPlan, b: Batch)
    requires Broke(j, w, s) && Complete(s.session, s.observations)
    requires w.infer(|s.entries|) == Returned(plan)
    requires plan.sourceStep == s.session.delivered[s.observations - 1].Observed().stepIndex
    requires 1 <= |b.transitions| <= |plan.actions| && |b.transitions| <= j.spec.executeActionSteps
    requires |b.transitions| <= j.spec.maxObservationSteps - s.observations
    requires CleanBatch(Context(j), b.transitions, s.observations)
    requires DeliverFirst(s.session, b.transitions, |b.transitions|).1.Returned?
    ensures var (t, p) := Hand(w, s, plan, b);
            && Steady(j, w, t) && t.stage.CommitStage? && (!p.Broken? ==> (p.Going? <==> t.signal.Running?))
  {
    var ts, n := b.transitions, |b.transitions|;
    var (session, reply) := DeliverFirst(s.session, ts, n);
    DeliverCount(s.session, ts, n);
    var t := Bookkeep(s.(stage := DeliveryStage, session := session), plan, b, reply.value);
    assert Hand(w, s, plan, b).0 == t;
    SuccessSteady(j, w, s, plan, b, session, reply.value);
  }

  lemma {:induction false} SuccessSteady(j: Job, w: World, s: State, plan: ActionPlan, b: Batch, session: Session,
                                         news: Trace)
    requires Broke(j, w, s) && Complete(s.session, s.observations)
    requires w.infer(|s.entries|) == Returned(plan)
    requires plan.sourceStep == s.session.delivered[s.observations - 1].Observed().stepIndex
    requires 1 <= |b.transitions| <= |plan.actions| && |b.transitions| <= j.spec.executeActionSteps
    requires |b.transitions| <= j.spec.maxObservationSteps - s.observations
    requires CleanBatch(Context(j), b.transitions, s.observations)
    requires DeliverFirst(s.session, b.transitions, |b.transitions|) == (session, Returned(news))
    requires |news| == |b.transitions|
    ensures Steady(j, w, Bookkeep(s.(stage := DeliveryStage, session := session), plan, b, news))
  {
    BatchDelivered(j, s.session, b.transitions, s.observations, session, news);
    BrokeCommits(j, w, s, session.delivered, plan, b.transitions[|news| - 1].signal, news);
    SteadyWith(j, w, s, session, plan, b, news);
  }

  lemma {:induction false} BrokeCommits(j: Job, w: World, s: State, after: Trace, plan: ActionPlan, signal: Signal,
                                        news: Trace)
    requires Broke(j, w, s) && Complete(s.session, s.observations) && w.infer(|s.entries|) == Returned(plan)
    requires plan.sourceStep == s.session.delivered[s.observations - 1].Observed().stepIndex
    requires 1 <= |news| <= |plan.actions| && |news| <= j.spec.executeActionSteps
    requires after == s.session.delivered + news
    ensures Explained(j, w, Observed(after), s.entries + [EntryOf(plan, |news|)],
                      s.policyCalls + [Commit(Sha(plan), plan.actions[..|news|], Observed(news), signal)],
                      s.observations + |news|, false)
  {
    BrokeStands(j, w, s);
    NewsExplained(j, w, s.session.delivered, s.observations, news, after, s.entries, s.policyCalls, plan, signal);
  }

  lemma {:induction false} BrokeStands(j: Job, w: World, s: State)
    requires Broke(j, w, s) && Complete(s.session, s.observations)
    ensures |s.session.delivered| == s.observations >= 1
    ensures Explained(j, w, Observed(s.session.delivered), s.entries, s.policyCalls, s.observations, true)
  {
  }

  /** A delivered batch extends the stream, and its commit explains the extension. */
  lemma {:induction false} NewsExplained(j: Job, w: World, before: Trace, seen: int, news: Trace, after: Trace,
                                         entries: seq<ActionEntry>, calls: seq<PolicyCall>, plan: ActionPlan,
                                         signal: Signal)
    requires before != [] && seen == |before| && after == before + news
    requires Explained(j, w, Observed(before), entries, calls, seen, true) && w.infer(|entries|) == Returned(plan)
    requires plan.sourceStep == before[|before| - 1].Observed().stepIndex
    requires 1 <= |news| <= |plan.actions| && |news| <= j.spec.executeActionSteps
    ensures Explained(j, w, Observed(after), entries + [EntryOf(plan, |news|)],
                      calls + [Commit(Sha(plan), plan.actions[..|news|], Observed(news), signal)],
                      seen + |news|, false)
  {
    NewsObserved(before, news, Observed(before), Observed(news), Observed(after));
    ExplainedNews(j, w, Observed(before), Observed(news), Observed(after), seen, |news|, entries, calls, plan, signal);
  }

  /** A batch that is delivered whole extends the session by exactly its records. */
  lemma {:induction false} BatchDelivered(j: Job, before: Session, ts: seq<Transition>, seen: int, after: Session,
                                          news: Trace)
    requires Ordered(j, before) && Complete(before, seen) && ts != [] && CleanBatch(Context(j), ts, seen)
    requires DeliverFirst(before, ts, |ts|) == (after, Returned(news))
    ensures Ordered(j, after) && Complete(after, seen + |news|) && |news| == |ts|
    ensures after.delivered == before.delivered + news && after.delivered[|after.delivered| - 1] == news[|news| - 1]
  {
    OrderedDeliver(j, before, ts);
    DeliverFirstKeeps(before, ts, |ts|);
  }

  /** How a cycle may leave the runner. */
  ghost predicate Kept(j: Job, w: World, r: (State, Progress)) {
    match r.1
    case Broken(_) => Steady(j, w, r.0) || Broke(j, w, r.0)
    case Going => Steady(j, w, r.0) && !r.0.stage.InferStage? && r.0.signal.Running?
    case Halted => Steady(j, w, r.0) && !r.0.signal.Running?
                   && (r.0.stage.InferStage? ==> AskedInVain(w, r.0.cycles))
  }

  /** One cycle keeps the books, or breaks in a way that shows. */
  lemma {:induction false} CycleKeeps(j: Job, w: World, s: State)
    requires Steady(j, w, s) && !s.stage.InferStage? && s.signal.Running?
    ensures Kept(j, w, Cycle(j, w, s))
  {
    if !Poll(j, w, s).1.Going? {
      IdleKeeps(j, w, s);
    } else {
      ConsultSteady(j, w, s);
      var (asked, plan) := Consult(w, s);
      if plan.Returned? && Requested(j, asked, plan.value) >= 1 {
        PassKeeps(j, w, asked, plan.value);
        CycleIsPass(j, w, s);
      } else {
        UnplannedKeeps(j, w, s);
      }
    }
  }

  lemma {:induction false} IdleKeeps(j: Job, w: World, s: State)
    requires Steady(j, w, s) && !s.stage.InferStage? && !Poll(j, w, s).1.Going?
    ensures Kept(j, w, Cycle(j, w, s))
  {
    SteadySignal(j, w, s, TimedOut);
    assert Cycle(j, w, s) == Poll(j, w, s);
  }

  lemma {:induction false} UnplannedKeeps(j: Job, w: World, s: State)
    requires Steady(j, w, s) && Poll(j, w, s).1.Going? && Steady(j, w, Consult(w, s).0)
    requires var (asked, plan) := Consult(w, s); plan.Raised? || Requested(j, asked, plan.value) < 1
    ensures Kept(j, w, Cycle(j, w, s))
  {
    var (asked, plan) := Consult(w, s);
    if plan.Raised? {
      RefusedCycle(j, w, s);
      Same(j, w, Cycle(j, w, s), (asked, Broken(plan.error)));
    } else {
      VainCycle(j, w, s);
      VainKept(j, w, asked);
      Same(j, w, Cycle(j, w, s), (asked.(signal := TimedOut), Halted));
    }
  }

  lemma {:induction false} Same(j: Job, w: World, r: (State, Progress), q: (State, Progress))
    requires r == q && Kept(j, w, q)
    ensures Kept(j, w, r)
  {
  }

  lemma {:induction false} VainKept(j: Job, w: World, s: State)
    requires Steady(j, w, s) && s.stage.InferStage? && AskedInVain(w, s.cycles)
    ensures Kept(j, w, (s.(signal := TimedOut), Halted))
  {
    SteadySignal(j, w, s, TimedOut);
  }

  lemma {:induction false} RefusedCycle(j: Job, w: World, s: State)
    requires s.current.Some? && Poll(j, w, s).1.Going? && Consult(w, s).1.Raised?
    ensures Cycle(j, w, s) == (Consult(w, s).0, Broken(Consult(w, s).1.error))
  {
  }

  lemma {:induction false} VainCycle(j: Job, w: World, s: State)
    requires Steady(j, w, s) && Poll(j, w, s).1.Going?
    requires var (asked, plan) := Consult(w, s); plan.Returned? && Requested(j, asked, plan.value) < 1
    ensures Cycle(j, w, s) == (Consult(w, s).0.(signal := TimedOut), Halted)
    ensures AskedInVain(w, Consult(w, s).0.cycles) && Consult(w, s).0.stage.InferStage?
  {
  }

  lemma {:induction false} CycleIsPass(j: Job, w: World, s: State)
    requires s.current.Some? && Poll(j, w, s).1.Going?
    requires var (asked, plan) := Consult(w, s); plan.Returned? && Requested(j, asked, plan.value) >= 1
    ensures Cycle(j, w, s) == Pass(j, w, Consult(w, s).0, Consult(w, s).1.value)
  {
  }

  /** The second half of a cycle: execute, deliver, commit. */
  function Pass(j: Job, w: World, s: State, plan: ActionPlan): (State, Progress)
    requires 1 <= Requested(j, s, plan)
  {
    var (acted, batch) := Act(j, w, s, plan);
    if batch.Raised? then (acted, Broken(batch.error))
    else
      BatchVerdictExact(batch.value, Requested(j, s, plan), Context(j), s.observations, s.native);
      Hand(w, acted, plan, batch.value)
  }

  lemma {:induction false} SteadySignal(j: Job, w: World, s: State, signal: Signal)
    requires Steady(j, w, s)
    ensures Steady(j, w, s.(signal := signal))
  {
  }

  /** A batch that Act lets through is one the books can absorb. */
  lemma {:induction false} ActAccepts(j: Job, w: World, s: State, plan: ActionPlan)
    requires 1 <= Requested(j, s, plan) && Act(j, w, s, plan).1.Returned?
    ensures var ts := Act(j, w, s, plan).1.value.transitions;
            && 1 <= |ts| <= Requested(j, s, plan) && CleanBatch(Context(j), ts, s.observations)
    ensures Act(j, w, s, plan).0 ==
            s.(stage := ExecuteStage, cycles := s.cycles + 1, native := Act(j, w, s, plan).0.native,
               backendCalls := s.backendCalls + [Execute(plan.actions[..Requested(j, s, plan)])])
  {
    BatchVerdictExact(w.execute(s.cycles).value, Requested(j, s, plan), Context(j), s.observations, s.native);
  }

  lemma {:induction false} PassKeeps(j: Job, w: World, s: State, plan: ActionPlan)
    requires Steady(j, w, s) && s.stage.InferStage? && s.cycles < j.spec.maxControlCycles
    requires w.infer(s.cycles) == Returned(plan) && 1 <= Requested(j, s, plan)
    requires plan.sourceStep == s.current.value.stepIndex
    ensures Kept(j, w, Pass(j, w, s, plan))
  {
    ActBreaks(j, w, s, plan);
    var (acted, batch) := Act(j, w, s, plan);
    if batch.Returned? {
      var ts := batch.value.transitions;
      ActAccepts(j, w, s, plan);
      if DeliverFirst(acted.session, ts, |ts|).1.Raised? {
        HandFails(j, w, acted, plan, batch.value);
      } else {
        HandSucceeds(j, w, acted, plan, batch.value);
      }
    }
  }

  lemma {:induction false} LoopKeeps(j: Job, w: World, s: State)
    requires Steady(j, w, s) && !s.stage.InferStage? && s.signal.Running?
    ensures Kept(j, w, Loop(j, w, s))
    decreases j.spec.maxControlCycles - s.cycles
  {
    CycleKeeps(j, w, s);
    if Cycle(j, w, s).1.Going? { LoopKeeps(j, w, Cycle(j, w, s).0); }
    LoopEnds(j, w, s);
  }

  /** The state in which any run leaves its loop, or meets its first exception. */
  lemma {:induction false} AttemptKeeps(j: Job, w: World)
    ensures var (s, p) := Attempt(j, w);
            if p.Broken? then Early(j, s) || Steady(j, w, s) || Broke(j, w, s)
            else Steady(j, w, s) && !s.signal.Running? && (s.stage.InferStage? ==> AskedInVain(w, s.cycles))
  {
    AttemptEnds(j, w);
    if Prepare(j, w).1.Going? {
      GreetSteady(j, w);
      var (s, p) := Greet(j, w, Prepare(j, w).0);
      if p.Going? { LoopKeeps(j, w, s); }
    }
  }

  // ------------------------------------------------------- where delivered records come from

  /** What the channel makes of a clean record that follows others. */
  predicate DeliveredAs(c: Channel, before: Trace, r: EvaluationRecord, d: EvaluationRecord) {
    if c.Identity? then d == r else c.stream(before, r) == Returned(d)
  }

  predicate Traced(session: Session) {
    && |session.delivered| <= |session.clean|
    && forall i :: 0 <= i < |session.delivered| ==>
         DeliveredAs(session.channel, session.clean[..i], session.clean[i], session.delivered[i])
  }

  lemma {:induction false} TracedNext(s: Session, r: EvaluationRecord)
    requires Traced(s) && |s.clean| == |s.delivered|
    ensures Traced(DeliverTo(s, r).0)
  {
    var t := DeliverTo(s, r).0;
    if t != s {
      assert forall i :: 0 <= i <= |s.clean| ==> t.clean[..i] == s.clean[..i];
      assert s.clean[..|s.clean|] == s.clean;
    }
  }

  lemma {:induction false} DeliveredPaired(s: Session, ts: seq<Transition>, n: nat)
    requires n <= |ts| && |s.clean| == |s.delivered| && DeliverFirst(s, ts, n).1.Returned?
    ensures var t := DeliverFirst(s, ts, n).0; |t.clean| == |t.delivered|
  {
    DeliverFirstKeeps(s, ts, n);
  }

  lemma {:induction false} TracedBatch(s: Session, ts: seq<Transition>, n: nat)
    requires n <= |ts| && Traced(s) && |s.clean| == |s.delivered|
    ensures Traced(DeliverFirst(s, ts, n).0)
  {
    if n > 0 {
      TracedBatch(s, ts, n - 1);
      var (before, sofar) := DeliverFirst(s, ts, n - 1);
      if sofar.Returned? {
        DeliveredPaired(s, ts, n - 1);
        TracedNext(before, ts[n - 1].clean);
      }
    }
  }

  lemma {:induction false} HandTraced(w: World, s: State, plan: ActionPlan, b: Batch)
    requires 1 <= |b.transitions| <= |plan.actions| && 1 <= s.cycles
    requires Traced(s.session) && |s.session.clean| == |s.session.delivered|
    ensures Traced(Hand(w, s, plan, b).0.session)
  {
    TracedBatch(s.session, b.transitions, |b.transitions|);
  }

  lemma {:induction false} CycleTraced(j: Job, w: World, s: State)
    requires s.current.Some? && Traced(s.session) && |s.session.clean| == |s.session.delivered|
    ensures Traced(Cycle(j, w, s).0.session)
  {
    var (asked, plan) := Consult(w, s);
    if Poll(j, w, s).1.Going? && plan.Returned? && Requested(j, asked, plan.value) >= 1 {
      var (acted, batch) := Act(j, w, asked, plan.value);
      if batch.Returned? {
        ActAccepts(j, w, asked, plan.value);
        HandTraced(w, acted, plan.value, batch.value);
      }
    }
  }

  lemma {:induction false} LoopTraced(j: Job, w: World, s: State)
    requires Steady(j, w, s) && !s.stage.InferStage? && s.signal.Running? && Traced(s.session)
    ensures Traced(Loop(j, w, s).0.session)
    decreases j.spec.maxControlCycles - s.cycles
  {
    CycleTraced(j, w, s);
    CycleKeeps(j, w, s);
    if Cycle(j, w, s).1.Going? { LoopTraced(j, w, Cycle(j, w, s).0); }
  }

  /** Every delivered record of a run is what the channel made of the clean one beside it. */
  lemma {:induction false} AttemptTraced(j: Job, w: World)
    ensures Traced(Attempt(j, w).0.session)
  {
    if Prepare(j, w).1.Going? {
      GreetSteady(j, w);
      var s := Prepare(j, w).0;
      if w.observe.Returned? { TracedNext(s.session, w.observe.value); }
      var (t, p) := Greet(j, w, s);
      if p.Going? { LoopTraced(j, w, t); }
    }
  }
}
