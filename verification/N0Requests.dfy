/** What the N0 adapter sends: every request of every history, by the calls that were accepted before it. */
module N0Requests {
  import opened Basics
  import opened Records
  import opened N0Adapter
  import opened N0Properties

  /** What an observer remembers to check requests and answers by: the reset that opened the episode, the
      record of the last infer, and the request that is still unanswered. */
  datatype Memory = Memory(start: Option<Call>, shown: Option<EvaluationRecord>, open: Option<SignedRequest>)

  function Recall(h: Handshake, calls: seq<Call>): Memory
    requires HandshakeOk(h)
  {
    if calls == [] then Memory(None, None, None)
    else
      var front, call := calls[..|calls| - 1], calls[|calls| - 1];
      Learn(Recall(h, front), call, Step(h, Run(h, front).0, call).1)
  }

  function Learn(before: Memory, call: Call, reply: Reply<Output>): Memory {
    if reply.Raised? then before
    else
      var unanswered := if reply.value.Sent? then Some(reply.value.request) else None;
      if call.CallReset? then Memory(Some(call), None, unanswered)
      else if call.CallInfer? then Memory(before.start, Some(call.record), unanswered)
      else before.(open := unanswered)
  }

  // ------------------------------------------------------------------ what is sent, field by field

  /** The first eight values, or all if there are fewer. */
  predicate FirstEight(values: seq<real>, first: seq<real>) {
    first <= values && |first| == if |values| >= 8 then 8 else |values|
  }

  /** The pictures of a record, each in its place. */
  predicate Pictures(r: EvaluationRecord, p: Payload) {
    var o := r.Observed();
    && "top" in o.vision && p.top == o.vision["top"] && "wrist_l" in o.vision && p.wrist == o.vision["wrist_l"]
    && o.tactile.left.payload == Some(p.left) && o.tactile.right.payload == Some(p.right)
  }

  /** A record of the episode that a reset opened. */
  predicate OfEpisode(start: Call, r: EvaluationRecord) {
    start.CallReset? && r.Observed().episodeId == start.episode && r.Observed().task == start.task
    && r.Observed().seed == start.seed
  }

  /** The envelope of a request: the episode's, the next transaction's, and bound to its digest. */
  predicate Enveloped(sent: SignedRequest, op: Operation, episode: EpisodeId, issued: nat, step: Option<int>) {
    && sent.request.op == op && sent.request.episode == episode && sent.request.step == step
    && sent.request.transaction == Sha(Ticket(episode, issued + 1, op, step)) && sent.digest == Sha(sent.request)
  }

  predicate ResetSent(call: Call, issued: nat, sent: SignedRequest)
    requires call.CallReset?
  {
    && Enveloped(sent, ResetOp, call.episode, issued, None)
    && sent.request.body == ResetBody(call.prompt, call.task, call.seed)
  }

  predicate InferSent(m: Memory, r: EvaluationRecord, issued: nat, sent: SignedRequest) {
    && m.start.Some? && OfEpisode(m.start.value, r)
    && Enveloped(sent, InferOp, m.start.value.episode, issued, Some(r.Observed().stepIndex))
    && sent.request.body.InferBody? && Pictures(r, sent.request.body.input)
    && FirstEight(r.Observed().proprio, sent.request.body.state)
  }

  predicate CommitSent(m: Memory, past: History, keyframes: seq<EvaluationRecord>, issued: nat, sent: SignedRequest) {
    && m.start.Some? && m.start.value.CallReset? && m.shown.Some? && keyframes != []
    && Enveloped(sent, CommitOp, m.start.value.episode, issued,
                 Some(keyframes[|keyframes| - 1].Observed().stepIndex))
    && sent.request.body.CommitBody? && past.proposed == Some(sent.request.body.chunk)
    && |sent.request.body.inputs| == |keyframes|
    && (forall i :: 0 <= i < |keyframes| ==>
          OfEpisode(m.start.value, keyframes[i]) && Pictures(keyframes[i], sent.request.body.inputs[i]))
    && FirstEight(m.shown.value.Observed().proprio, sent.request.body.anchor)
    && m.shown.value.Observed().stepIndex < keyframes[0].Observed().stepIndex
  }

  // ------------------------------------------------------------------ the adapter remembers

  /** A phase in which a request of this kind is unanswered. */
  predicate Awaits(p: Phase, op: Operation) {
    match op
    case ResetOp => p.ResetPending?
    case InferOp => p.InferPending?
    case CommitOp => p.CommitPending?
  }

  /** The open transaction is that of the unanswered request. */
  predicate Binds(s: Adapter, m: Memory) {
    && (forall op: Operation :: Awaits(s.phase, op) <==> m.open.Some? && m.open.value.request.op == op)
    && (m.open.Some? ==>
          && s.pendingTransaction == Some(m.open.value.request.transaction)
          && s.pendingRequest == Some(m.open.value.digest) && s.episode == Some(m.open.value.request.episode))
  }

  /** The episode and the last infer are the remembered ones. */
  predicate Recalls(s: Adapter, m: Memory) {
    && (!s.phase.New? ==>
          && m.start.Some? && m.start.value.CallReset? && s.episode == Some(m.start.value.episode)
          && s.task == m.start.value.task && s.seed == Some(m.start.value.seed))
    && (s.phase.InferPending? || s.phase.AwaitingCommit? ==>
          && m.shown.Some? && s.inferStep == Some(m.shown.value.Observed().stepIndex)
          && s.anchor.Some? && FirstEight(m.shown.value.Observed().proprio, s.anchor.value))
  }

  /** The adapter's fields are what an observer remembers. */
  predicate Remembers(s: Adapter, m: Memory) {
    Binds(s, m) && Recalls(s, m)
  }

  lemma {:induction false} StepBinds(h: Handshake, s: Adapter, past: History, m: Memory, call: Call)
    requires HandshakeOk(h) && Invariant(s, past) && Binds(s, m)
    ensures var (t, reply) := Step(h, s, call); Binds(t, Learn(m, call, reply))
  {
    if call.CallCommit? { CommitBinds(h, s, m, call.chunk, call.keyframes); }
  }

  lemma {:induction false} CommitBinds(h: Handshake, s: Adapter, m: Memory, chunk: Chunk,
                                       keyframes: seq<EvaluationRecord>)
    requires HandshakeOk(h) && Binds(s, m) && (s.phase.AwaitingCommit? ==> s.anchor.Some? && s.episode.Some?)
    ensures var (t, reply) := BuildCommitTo(h, s, chunk, keyframes);
            Binds(t, Learn(m, CallCommit(chunk, keyframes), reply))
  {
  }

  lemma {:induction false} StepRecalls(h: Handshake, s: Adapter, past: History, m: Memory, call: Call)
    requires HandshakeOk(h) && Invariant(s, past) && Recalls(s, m)
    ensures var (t, reply) := Step(h, s, call); Recalls(t, Learn(m, call, reply))
  {
    if call.CallCommit? { CommitRecalls(h, s, m, call.chunk, call.keyframes); }
  }

  lemma {:induction false} CommitRecalls(h: Handshake, s: Adapter, m: Memory, chunk: Chunk,
                                         keyframes: seq<EvaluationRecord>)
    requires HandshakeOk(h) && Recalls(s, m)
    ensures var (t, reply) := BuildCommitTo(h, s, chunk, keyframes);
            Recalls(t, Learn(m, CallCommit(chunk, keyframes), reply))
  {
  }

  lemma {:induction false} AlwaysRemembers(h: Handshake, calls: seq<Call>)
    requires HandshakeOk(h)
    ensures Remembers(Run(h, calls).0, Recall(h, calls))
  {
    if calls != [] {
      var front, call := calls[..|calls| - 1], calls[|calls| - 1];
      AlwaysRemembers(h, front);
      InvariantHolds(h, front);
      StepBinds(h, Run(h, front).0, Run(h, front).1, Recall(h, front), call);
      StepRecalls(h, Run(h, front).0, Run(h, front).1, Recall(h, front), call);
    }
  }

  // ------------------------------------------------------------------ the requests

  lemma {:induction false} PayloadShows(s: Adapter, m: Memory, r: EvaluationRecord)
    requires Recalls(s, m) && !s.phase.New? && PayloadOf(s, r).Returned?
    ensures Pictures(r, PayloadOf(s, r).value) && OfEpisode(m.start.value, r)
  {
  }

  lemma {:induction false} PayloadsShow(s: Adapter, m: Memory, keyframes: seq<EvaluationRecord>, n: nat)
    requires Recalls(s, m) && !s.phase.New? && n <= |keyframes| && PayloadsOf(s, keyframes, n).Returned?
    ensures var inputs := PayloadsOf(s, keyframes, n).value;
            && |inputs| == n
            && forall i :: 0 <= i < n ==> OfEpisode(m.start.value, keyframes[i]) && Pictures(keyframes[i], inputs[i])
  {
    if n > 0 {
      PayloadsShow(s, m, keyframes, n - 1);
      PayloadShows(s, m, keyframes[n - 1]);
    }
  }

  /** A reset request opens the episode it names, with its prompt, task and seed. */
  lemma {:induction false} ResetRequest(h: Handshake, calls: seq<Call>, call: Call)
    requires HandshakeOk(h) && call.CallReset? && Step(h, Run(h, calls).0, call).1.Returned?
    ensures var reply := Step(h, Run(h, calls).0, call).1;
            reply.value.Sent? && ResetSent(call, |Run(h, calls).1.issued|, reply.value.request)
  {
    InvariantHolds(h, calls);
  }

  /** An infer request shows the record's four pictures and its first eight joint values, at its step. */
  lemma {:induction false} InferRequest(h: Handshake, calls: seq<Call>, r: EvaluationRecord)
    requires HandshakeOk(h) && Step(h, Run(h, calls).0, CallInfer(r)).1.Returned?
    ensures var reply := Step(h, Run(h, calls).0, CallInfer(r)).1;
            reply.value.Sent? && InferSent(Recall(h, calls), r, |Run(h, calls).1.issued|, reply.value.request)
  {
    InvariantHolds(h, calls);
    AlwaysRemembers(h, calls);
    PayloadShows(Run(h, calls).0, Recall(h, calls), r);
  }

  /** A commit request carries the action that the server proposed, the pictures of every keyframe in
      order, and the joint values of the infer it answers, at the last keyframe's step. */
  lemma {:induction false} CommitRequest(h: Handshake, calls: seq<Call>, chunk: Chunk,
                                         keyframes: seq<EvaluationRecord>)
    requires HandshakeOk(h) && Step(h, Run(h, calls).0, CallCommit(chunk, keyframes)).1.Returned?
    ensures var (past, reply) := (Run(h, calls).1, Step(h, Run(h, calls).0, CallCommit(chunk, keyframes)).1);
            reply.value.Sent? && CommitSent(Recall(h, calls), past, keyframes, |past.issued|, reply.value.request)
  {
    InvariantHolds(h, calls);
    AlwaysRemembers(h, calls);
    CommitBuilt(h, Run(h, calls).0, Run(h, calls).1, Recall(h, calls), chunk, keyframes);
  }

  lemma {:induction false} CommitBuilt(h: Handshake, s: Adapter, past: History, m: Memory, chunk: Chunk,
                                       keyframes: seq<EvaluationRecord>)
    requires HandshakeOk(h) && Invariant(s, past) && Recalls(s, m)
    requires BuildCommitTo(h, s, chunk, keyframes).1.Returned?
    ensures var reply := BuildCommitTo(h, s, chunk, keyframes).1;
            reply.value.Sent? && CommitSent(m, past, keyframes, |past.issued|, reply.value.request)
  {
    PayloadsShow(s, m, keyframes, |keyframes|);
  }

  // ------------------------------------------------------------------ the answers

  /** An answer that repeats a request's operation, transaction and episode, and its digest. */
  predicate Answers(r: Response, sent: SignedRequest) {
    && r.ok && r.op == Some(sent.request.op) && r.transaction == Some(sent.request.transaction)
    && r.episode == Some(sent.request.episode) && r.request == Some(sent.digest)
  }

  /** Eight joints of two frames of four steps, each within its joint's bounds. */
  predicate Playable(h: Handshake, chunk: Chunk)
    requires HandshakeOk(h)
  {
    && |chunk| == 8
    && (forall i :: 0 <= i < 8 ==> |chunk[i]| == 2 && |chunk[i][0]| == 4 && |chunk[i][1]| == 4)
    && (forall i, j, k :: 0 <= i < 8 && 0 <= j < 2 && 0 <= k < 4 && |chunk[i]| == 2 && |chunk[i][j]| == 4 ==>
          h.lower[i] <= chunk[i][j][k] <= h.upper[i])
  }

  function OperationOf(call: Call): Operation
    requires IsAck(call)
  {
    match call
    case CallAckReset(_) => ResetOp
    case CallAckInfer(_) => InferOp
    case CallAckCommit(_) => CommitOp
  }

  /** In every reachable state, an acknowledgement is accepted if and only if a request of its kind is
      unanswered and the answer is one to that very request, with a playable action if it answers an
      infer. */
  lemma {:induction false} AnswerExactly(h: Handshake, calls: seq<Call>, call: Call)
    requires HandshakeOk(h) && IsAck(call)
    ensures var open := Recall(h, calls).open;
            Step(h, Run(h, calls).0, call).1.Returned? <==>
            && open.Some? && open.value.request.op == OperationOf(call) && Answers(call.response, open.value)
            && (call.CallAckInfer? ==> call.response.chunk.Some? && Playable(h, call.response.chunk.value))
  {
    AlwaysRemembers(h, calls);
    var s := Run(h, calls).0;
    assert Awaits(s.phase, OperationOf(call)) <==>
           Recall(h, calls).open.Some? && Recall(h, calls).open.value.request.op == OperationOf(call);
    if call.CallAckInfer? && call.response.chunk.Some? { PlayableExactly(h, call.response.chunk.value); }
  }

  /** A failure is accepted if and only if a request of its kind is unanswered. */
  lemma {:induction false} FailureExactly(h: Handshake, calls: seq<Call>)
    requires HandshakeOk(h)
    ensures var (s, open) := (Run(h, calls).0, Recall(h, calls).open);
            && (Step(h, s, CallFailReset).1.Returned? <==> open.Some? && open.value.request.op.ResetOp?)
            && (Step(h, s, CallFailInfer).1.Returned? <==> open.Some? && open.value.request.op.InferOp?)
            && (Step(h, s, CallFailCommit).1.Returned? <==> open.Some? && open.value.request.op.CommitOp?)
  {
    AlwaysRemembers(h, calls);
    var s := Run(h, calls).0;
    assert Awaits(s.phase, ResetOp) <==> s.phase.ResetPending?;
    assert Awaits(s.phase, InferOp) <==> s.phase.InferPending?;
    assert Awaits(s.phase, CommitOp) <==> s.phase.CommitPending?;
  }

  lemma {:induction false} PlayableExactly(h: Handshake, chunk: Chunk)
    requires HandshakeOk(h)
    ensures Decodes(h, chunk) <==> Playable(h, chunk)
  {
    if Decodes(h, chunk) {
      forall i | 0 <= i < 8 ensures |chunk[i]| == 2 && |chunk[i][0]| == 4 && |chunk[i][1]| == 4 {
        assert chunk[i][0] in chunk[i] && chunk[i][1] in chunk[i];
      }
      forall i, j, k | 0 <= i < 8 && 0 <= j < 2 && 0 <= k < 4 ensures h.lower[i] <= chunk[i][j][k] <= h.upper[i] {
        assert chunk[i][j] in chunk[i] && chunk[i][j][k] in chunk[i][j];
      }
    }
    if Playable(h, chunk) { PlayableDecodes(h, chunk); }
  }

  lemma {:induction false} PlayableDecodes(h: Handshake, chunk: Chunk)
    requires HandshakeOk(h) && Playable(h, chunk)
    ensures Decodes(h, chunk)
  {
    forall i, frame | 0 <= i < ACTION_DIM && frame in chunk[i]
      ensures |frame| == ACTION_PER_FRAME && forall value <- frame :: h.lower[i] <= value <= h.upper[i]
    {
      var j :| 0 <= j < |chunk[i]| && chunk[i][j] == frame;
      assert |chunk[i]| == 2;
    }
  }

  /** What an accepted infer answer proposes is the playable action it carries. */
  lemma {:induction false} ProposalIsAnswer(h: Handshake, calls: seq<Call>, r: Response)
    requires HandshakeOk(h) && Step(h, Run(h, calls).0, CallAckInfer(r)).1.Returned?
    ensures var reply := Step(h, Run(h, calls).0, CallAckInfer(r)).1;
            reply.value.Proposed? && r.chunk == Some(reply.value.chunk) && Playable(h, reply.value.chunk)
  {
    PlayableExactly(h, r.chunk.value);
  }
}
