/** Whole-run safety of the N0 adapter: what every history of calls keeps. */
module N0Properties {
  import opened Basics
  import opened Records
  import opened N0Adapter

  datatype Call =
    | CallReset(episode: EpisodeId, prompt: string, seed: int, task: string)
    | CallAckReset(response: Response)
    | CallFailReset
    | CallInfer(record: EvaluationRecord)
    | CallAckInfer(response: Response)
    | CallFailInfer
    | CallCommit(chunk: Chunk, keyframes: seq<EvaluationRecord>)
    | CallAckCommit(response: Response)
    | CallFailCommit

  function Step(h: Handshake, s: Adapter, call: Call): (Adapter, Reply<Output>)
    requires HandshakeOk(h)
  {
    match call
    case CallReset(episode, prompt, seed, task) => ResetTo(s, episode, prompt, seed, task)
    case CallAckReset(r) => AckResetTo(s, r)
    case CallFailReset => FailTo(s, ResetPending)
    case CallInfer(r) => BuildInferTo(s, r)
    case CallAckInfer(r) => AckInferTo(h, s, r)
    case CallFailInfer => FailTo(s, InferPending)
    case CallCommit(chunk, keyframes) => BuildCommitTo(h, s, chunk, keyframes)
    case CallAckCommit(r) => AckCommitTo(s, r)
    case CallFailCommit => FailTo(s, CommitPending)
  }

  predicate IsAck(call: Call) {
    call.CallAckReset? || call.CallAckInfer? || call.CallAckCommit?
  }

  // ----------------------------------------------------- the history, without adapter state

  /** What an observer of the accepted calls of a run remembers: the keyframe steps committed
      in the current episode, the step the server last acknowledged, the action it last
      proposed, every transaction issued and every one acknowledged. */
  datatype History = History(steps: seq<int>, acked: Option<int>, proposed: Option<Chunk>,
                             issued: seq<Sha<Ticket>>, acks: seq<Sha<Ticket>>)

  function Remember(past: History, call: Call, reply: Reply<Output>): History {
    if reply.Raised? then past
    else
      var issued := if reply.value.Sent? then past.issued + [reply.value.request.request.transaction] else past.issued;
      match call
      case CallReset(_, _, _, _) => History([], None, None, issued, past.acks)
      case CallInfer(_) => past.(issued := issued)
      case CallCommit(_, keyframes) => past.(steps := past.steps + StepsOf(keyframes), issued := issued)
      case CallAckReset(r) => past.(acks := Acks(past, r))
      case CallAckInfer(r) => past.(proposed := if reply.value.Proposed? then Some(reply.value.chunk) else None,
                                    acks := Acks(past, r))
      case CallAckCommit(r) => past.(acked := if past.steps == [] then None else Some(past.steps[|past.steps| - 1]),
                                     proposed := None, acks := Acks(past, r))
      case _ => past
  }

  function Acks(past: History, r: Response): seq<Sha<Ticket>> {
    if r.transaction.None? then past.acks else past.acks + [r.transaction.value]
  }

  /** State and history after any sequence of calls. */
  function Run(h: Handshake, calls: seq<Call>): (Adapter, History)
    requires HandshakeOk(h)
  {
    if calls == [] then (Fresh(), History([], None, None, [], []))
    else
      var (s, past) := Run(h, calls[..|calls| - 1]);
      var (t, reply) := Step(h, s, calls[|calls| - 1]);
      (t, Remember(past, calls[|calls| - 1], reply))
  }

  // ----------------------------------------------------- the invariant

  /** Every issued ticket was stamped with its own counter value, in order. */
  predicate Stamped(issued: seq<Sha<Ticket>>, counter: nat) {
    |issued| == counter && forall i :: 0 <= i < |issued| ==> issued[i].Sha? && issued[i].content.counter == i + 1
  }

  /** Acknowledged tickets are issued ones, each later than those before. */
  predicate AckedInOrder(acks: seq<Sha<Ticket>>, limit: int) {
    && (forall i :: 0 <= i < |acks| ==> acks[i].Sha? && acks[i].content.counter <= limit)
    && (forall i, j :: 0 <= i < j < |acks| ==> acks[i].content.counter < acks[j].content.counter)
  }

  predicate Pending(p: Phase) {
    p.ResetPending? || p.InferPending? || p.CommitPending?
  }

  predicate LastStep(steps: seq<int>, step: Option<int>) {
    step == if steps == [] then None else Some(steps[|steps| - 1])
  }

  /** What the pending transaction is, phase by phase. */
  predicate Open(s: Adapter, past: History) {
    && (Pending(s.phase) ==> past.issued != [] && s.pendingTransaction == Some(past.issued[|past.issued| - 1])
                             && s.pendingRequest.Some? && s.episode.Some?)
    && (!s.phase.New? ==> s.episode.Some? && s.seed.Some?)
    && AckedInOrder(past.acks, if Pending(s.phase) then s.counter - 1 else s.counter)
    && Stamped(past.issued, s.counter)
  }

  /** Where the committed steps have got to, phase by phase. */
  predicate Progressed(s: Adapter, past: History) {
    && Increasing(past.steps)
    && (s.phase.New? || s.phase.ResetPending? ==> past.steps == [] && s.lastCommitted.None? && past.acked.None?)
    && (s.phase.Ready? ==> LastStep(past.steps, s.lastCommitted) && past.acked == s.lastCommitted)
    && (s.phase.InferPending? || s.phase.AwaitingCommit? ==>
          && LastStep(past.steps, s.lastCommitted) && past.acked == s.lastCommitted
          && s.inferStep.Some? && s.anchor.Some?
          && (past.steps != [] ==> s.inferStep == s.lastCommitted))
    && (s.phase.AwaitingCommit? ==> past.proposed.Some? && s.pendingAction == Some(Sha(past.proposed.value)))
    && (s.phase.CommitPending? ==> past.steps != [] && LastStep(past.steps, s.pendingLast))
  }

  predicate Invariant(s: Adapter, past: History) {
    Open(s, past) && Progressed(s, past)
  }

  lemma {:induction false} NeighboursSort(steps: seq<int>, i: nat, j: nat)
    requires NeighboursIncrease(steps) && i < j < |steps|
    ensures steps[i] < steps[j]
  {
    if i + 1 < j { NeighboursSort(steps, i, j - 1); }
  }

  /** Comparing neighbours sorts, and starting after everything before keeps sorted. */
  lemma {:induction false} IncreasingAppend(steps: seq<int>, more: seq<int>)
    requires Increasing(steps) && NeighboursIncrease(more) && more != []
    requires steps != [] ==> steps[|steps| - 1] < more[0]
    ensures Increasing(steps + more)
  {
    var all := steps + more;
    forall i, j | 0 <= i < j < |all| ensures all[i] < all[j] {
      if j >= |steps| {
        if j > |steps| { NeighboursSort(more, 0, j - |steps|); }
        if i >= |steps| { NeighboursSort(more, i - |steps|, j - |steps|); }
      }
    }
  }

  lemma {:induction false} StepsKeep(h: Handshake, s: Adapter, past: History, call: Call)
    requires HandshakeOk(h) && Invariant(s, past)
    ensures var (t, reply) := Step(h, s, call); Progressed(t, Remember(past, call, reply))
  {
    if call.CallCommit? { CommitKeeps(h, s, past, call.chunk, call.keyframes); }
  }

  lemma {:induction false} CommitKeeps(h: Handshake, s: Adapter, past: History, chunk: Chunk,
                                       keyframes: seq<EvaluationRecord>)
    requires HandshakeOk(h) && Invariant(s, past)
    ensures var (t, reply) := BuildCommitTo(h, s, chunk, keyframes);
            Progressed(t, Remember(past, CallCommit(chunk, keyframes), reply))
  {
    if CommitAdmissible(h, s, chunk, StepsOf(keyframes)) {
      IncreasingAppend(past.steps, StepsOf(keyframes));
      AnchoredCommit(h, s, chunk, keyframes);
    }
  }

  /** An admissible commit is sent, or refused without any change, as long as the anchor is there. */
  lemma {:induction false} AnchoredCommit(h: Handshake, s: Adapter, chunk: Chunk, keyframes: seq<EvaluationRecord>)
    requires HandshakeOk(h) && CommitAdmissible(h, s, chunk, StepsOf(keyframes)) && s.anchor.Some? && s.episode.Some?
    ensures var (t, reply) := BuildCommitTo(h, s, chunk, keyframes);
            if reply.Raised? then t == s
            else
              && reply.value.Sent? && t.phase.CommitPending?
              && LastStep(StepsOf(keyframes), t.pendingLast)
  {
  }

  lemma {:induction false} StampedNext(issued: seq<Sha<Ticket>>, counter: nat, ticket: Sha<Ticket>)
    requires Stamped(issued, counter) && ticket.Sha? && ticket.content.counter == counter + 1
    ensures Stamped(issued + [ticket], counter + 1)
  {
  }

  lemma {:induction false} AckedNext(acks: seq<Sha<Ticket>>, limit: int, ticket: Sha<Ticket>)
    requires AckedInOrder(acks, limit) && ticket.Sha? && ticket.content.counter == limit + 1
    ensures AckedInOrder(acks + [ticket], limit + 1)
  {
  }

  /** A call that sends a request issues the next ticket. */
  lemma {:induction false} SendKeeps(h: Handshake, s: Adapter, past: History, call: Call)
    requires HandshakeOk(h) && Invariant(s, past) && Step(h, s, call).1.Returned? && Step(h, s, call).1.value.Sent?
    ensures var (t, reply) := Step(h, s, call); Open(t, Remember(past, call, reply))
  {
    StampedNext(past.issued, s.counter, Step(h, s, call).1.value.request.request.transaction);
  }

  /** An accepted acknowledgement acknowledges the ticket issued last. */
  lemma {:induction false} AckKeeps(h: Handshake, s: Adapter, past: History, call: Call)
    requires HandshakeOk(h) && Invariant(s, past) && IsAck(call) && Step(h, s, call).1.Returned?
    ensures var (t, reply) := Step(h, s, call); Open(t, Remember(past, call, reply))
  {
    AckedNext(past.acks, s.counter - 1, past.issued[|past.issued| - 1]);
  }

  lemma {:induction false} OpenKeeps(h: Handshake, s: Adapter, past: History, call: Call)
    requires HandshakeOk(h) && Invariant(s, past)
    ensures var (t, reply) := Step(h, s, call); Open(t, Remember(past, call, reply))
  {
    var reply := Step(h, s, call).1;
    if reply.Returned? {
      if IsAck(call) {
        AckKeeps(h, s, past, call);
      } else if reply.value.Sent? {
        SendKeeps(h, s, past, call);
      }
    }
  }

  /** The invariant holds after every history of calls. */
  lemma {:induction false} InvariantHolds(h: Handshake, calls: seq<Call>)
    requires HandshakeOk(h)
    ensures Invariant(Run(h, calls).0, Run(h, calls).1)
  {
    if calls != [] {
      InvariantHolds(h, calls[..|calls| - 1]);
      var (s, past) := Run(h, calls[..|calls| - 1]);
      StepsKeep(h, s, past, calls[|calls| - 1]);
      OpenKeeps(h, s, past, calls[|calls| - 1]);
    }
  }

  // ----------------------------------------------------- what it gives

  /** Across all commits of an episode, keyframe steps strictly increase. */
  lemma {:induction false} KeyframesIncrease(h: Handshake, calls: seq<Call>)
    requires HandshakeOk(h)
    ensures Increasing(Run(h, calls).1.steps)
  {
    InvariantHolds(h, calls);
  }

  /** An accepted infer starts at the step of the last acknowledged commit of its episode, or
      is the first of its episode. */
  lemma {:induction false} InferStartsAtCommit(h: Handshake, calls: seq<Call>, r: EvaluationRecord)
    requires HandshakeOk(h) && Step(h, Run(h, calls).0, CallInfer(r)).1.Returned?
    ensures var past := Run(h, calls).1;
            if past.steps == [] then past.acked.None?
            else past.acked == Some(past.steps[|past.steps| - 1]) == Some(r.Observed().stepIndex)
  {
    InvariantHolds(h, calls);
  }

  /** An accepted commit carries exactly the action that the server proposed in the one infer
      acknowledged since the last commit, starts after that infer's step, and is anchored. */
  lemma {:induction false} CommitCarriesProposal(h: Handshake, calls: seq<Call>, chunk: Chunk,
                                                 keyframes: seq<EvaluationRecord>)
    requires HandshakeOk(h) && Step(h, Run(h, calls).0, CallCommit(chunk, keyframes)).1.Returned?
    ensures var (s, past) := Run(h, calls);
            && past.proposed == Some(chunk)
            && s.inferStep.Some? && (past.steps != [] ==> s.inferStep == Some(past.steps[|past.steps| - 1]))
            && |keyframes| >= 3 && s.inferStep.value < keyframes[0].Observed().stepIndex
            && Increasing(StepsOf(keyframes))
  {
    InvariantHolds(h, calls);
    IncreasingAppend([], StepsOf(keyframes));
    assert [] + StepsOf(keyframes) == StepsOf(keyframes);
  }

  /** Transaction identifiers never repeat. */
  lemma {:induction false} TransactionsUnique(h: Handshake, calls: seq<Call>)
    requires HandshakeOk(h)
    ensures var issued := Run(h, calls).1.issued; forall i, j :: 0 <= i < j < |issued| ==> issued[i] != issued[j]
  {
    InvariantHolds(h, calls);
  }

  /** Stale acknowledgements are never accepted: whatever answer is accepted names the very
      last transaction issued, and names it for the first time. */
  lemma {:induction false} StaleAcksRejected(h: Handshake, calls: seq<Call>, call: Call)
    requires HandshakeOk(h) && IsAck(call) && Step(h, Run(h, calls).0, call).1.Returned?
    ensures var past := Run(h, calls).1;
            && past.issued != [] && call.response.transaction == Some(past.issued[|past.issued| - 1])
            && call.response.transaction.value !in past.acks
  {
    InvariantHolds(h, calls);
  }

  /** The branch that has lost the infer anchor is unreachable. */
  lemma {:induction false} AnchorNeverLost(h: Handshake, calls: seq<Call>)
    requires HandshakeOk(h) && Run(h, calls).0.phase.AwaitingCommit?
    ensures Run(h, calls).0.anchor.Some? && Run(h, calls).0.episode.Some?
  {
    InvariantHolds(h, calls);
  }

  /** Every rejected call leaves the adapter exactly as it was. */
  lemma {:induction false} RejectedUnchanged(h: Handshake, calls: seq<Call>, call: Call)
    requires HandshakeOk(h) && Step(h, Run(h, calls).0, call).1.Raised?
    ensures Step(h, Run(h, calls).0, call).0 == Run(h, calls).0
  {
    InvariantHolds(h, calls);
  }

  /** Without reachability it does not: an adapter that awaits a commit without an anchor moves
      on while rejecting. */
  lemma {:induction false} LostAnchorMoves(h: Handshake, s: Adapter, chunk: Chunk,
                                           keyframes: seq<EvaluationRecord>)
    requires HandshakeOk(h) && s.anchor.None? && CommitAdmissible(h, s, chunk, StepsOf(keyframes))
    requires PayloadsOf(s, keyframes, |keyframes|).Returned?
    ensures var (t, reply) := Step(h, s, CallCommit(chunk, keyframes)); reply.Raised? && t != s
  {
  }

  /** A call that gives an episode up or starts another. */
  predicate Leaves(call: Call) {
    call.CallReset? || call.CallFailReset? || call.CallFailInfer? || call.CallFailCommit?
  }

  /** Awaiting a commit is the only state in which no failure and no reset is accepted. */
  lemma {:induction false} OnlyAwaitingIsStuck(h: Handshake, s: Adapter)
    requires HandshakeOk(h)
    ensures s.phase.AwaitingCommit? <==> forall call :: Leaves(call) ==> Step(h, s, call).1.Raised?
  {
    if Resettable(s.phase) {
      assert Step(h, s, CallReset(Foreign("episode"), "prompt", 0, "task")).1.Returned?;
    } else if s.phase.ResetPending? {
      assert Step(h, s, CallFailReset).1.Returned?;
    } else if s.phase.InferPending? {
      assert Step(h, s, CallFailInfer).1.Returned?;
    } else if s.phase.CommitPending? {
      assert Step(h, s, CallFailCommit).1.Returned?;
    }
  }

  /** The acknowledgement that fits a request. */
  function AckOf(op: Operation, r: Response): Call {
    match op
    case ResetOp => CallAckReset(r)
    case InferOp => CallAckInfer(r)
    case CommitOp => CallAckCommit(r)
  }

  /** Request and acknowledgement are a round trip: what a server builds from the request just
      sent is accepted, given (for an infer) an action of the registered shape and bounds. */
  lemma {:induction false} ServerRoundTrip(h: Handshake, calls: seq<Call>, call: Call, chunk: Option<Chunk>)
    requires HandshakeOk(h)
    requires Step(h, Run(h, calls).0, call).1.Returned? && Step(h, Run(h, calls).0, call).1.value.Sent?
    requires call.CallInfer? ==> chunk.Some? && Decodes(h, chunk.value)
    ensures var (t, sent) := (Step(h, Run(h, calls).0, call).0, Step(h, Run(h, calls).0, call).1.value.request);
            var answer := SuccessResponse(sent, chunk);
            answer.Returned? && Step(h, t, AckOf(sent.request.op, answer.value)).1.Returned?
  {
    InvariantHolds(h, calls);
  }
}
