/** The N0 infer/commit adapter: typed requests under a stateful cache transaction. */
module N0Adapter {
  import opened Basics
  import opened Records

  // ------------------------------------------------------------------ wire values

  /** An action chunk: eight joints, frames, steps per frame. */
  type Chunk = seq<seq<seq<real>>>

  datatype Handshake = Handshake(minimumCommitKeyframes: nat, lower: seq<real>, upper: seq<real>)

  const ACTION_DIM := 8
  const FRAME_CHUNK_SIZE := 2
  const ACTION_PER_FRAME := 4
  const MAX_SEED := 0x7FFFFFFF

  predicate HandshakeOk(h: Handshake) {
    && h.minimumCommitKeyframes >= 3 && |h.lower| == |h.upper| == ACTION_DIM
    && forall i :: 0 <= i < ACTION_DIM ==> h.lower[i] < h.upper[i]
  }

  /** The chunk has the registered shape and stays within the physical bounds. */
  predicate Decodes(h: Handshake, chunk: Chunk)
    requires HandshakeOk(h)
  {
    && |chunk| == ACTION_DIM
    && forall i :: 0 <= i < ACTION_DIM ==>
         && |chunk[i]| == FRAME_CHUNK_SIZE
         && forall frame <- chunk[i] ::
              |frame| == ACTION_PER_FRAME && forall value <- frame :: h.lower[i] <= value <= h.upper[i]
  }

  datatype Operation = ResetOp | InferOp | CommitOp

  /** What a transaction identifier is the digest of. */
  datatype Ticket = Ticket(episode: EpisodeId, counter: nat, op: Operation, step: Option<int>)

  /** One model input: two cameras and two tactile pictures. */
  datatype Payload = Payload(top: Picture, wrist: Picture, left: Picture, right: Picture)

  datatype Body =
    | ResetBody(prompt: string, task: string, seed: int)
    | InferBody(input: Payload, state: seq<real>)
    | CommitBody(inputs: seq<Payload>, chunk: Chunk, anchor: seq<real>)

  datatype Request = Request(op: Operation, transaction: Sha<Ticket>, episode: EpisodeId, step: Option<int>,
                             body: Body)

  /** A request with the digest that binds its acknowledgement to it. */
  datatype SignedRequest = SignedRequest(request: Request, digest: Sha<Request>)

  /** An answer of the server; any field may be missing. */
  datatype Response = Response(ok: bool, op: Option<Operation>, transaction: Option<Sha<Ticket>>,
                               episode: Option<EpisodeId>, request: Option<Sha<Request>>, chunk: Option<Chunk>)

  /** The acknowledgement of a server that received a request intact. */
  function SuccessResponse(r: SignedRequest, chunk: Option<Chunk>): Reply<Response> {
    if r.digest != Sha(r.request) then Raised(OtherError)
    else
      Returned(Response(true, Some(r.request.op), Some(r.request.transaction), Some(r.request.episode),
                        Some(r.digest), chunk))
  }

  // ------------------------------------------------------------------ the adapter, as functions

  datatype Phase = New | ResetPending | Ready | InferPending | AwaitingCommit | CommitPending | Aborted

  datatype Adapter = Adapter(phase: Phase, episode: Option<EpisodeId>, task: string, seed: Option<int>,
                             inferStep: Option<int>, pendingTransaction: Option<Sha<Ticket>>,
                             pendingRequest: Option<Sha<Request>>, pendingAction: Option<Sha<Chunk>>,
                             anchor: Option<seq<real>>, pendingLast: Option<int>, lastCommitted: Option<int>,
                             counter: nat)

  datatype Output = Sent(request: SignedRequest) | Proposed(chunk: Chunk) | Done

  function Fresh(): Adapter {
    Adapter(New, None, "", None, None, None, None, None, None, None, None, 0)
  }

  /** Opens a transaction and binds its request. */
  function Send(s: Adapter, op: Operation, episode: EpisodeId, step: Option<int>, body: Body)
    : (Adapter, Reply<Output>)
  {
    var ticket := Sha(Ticket(episode, s.counter + 1, op, step));
    var request := Request(op, ticket, episode, step, body);
    (s.(counter := s.counter + 1, pendingTransaction := Some(ticket), pendingRequest := Some(Sha(request))),
     Returned(Sent(SignedRequest(request, Sha(request)))))
  }

  predicate Acknowledges(s: Adapter, r: Response, op: Operation) {
    && r.ok && r.op == Some(op) && r.transaction == s.pendingTransaction && r.episode == s.episode
    && r.request == s.pendingRequest
  }

  /** No transaction is open that reset would discard. */
  predicate Resettable(p: Phase) {
    p.New? || p.Ready? || p.Aborted?
  }

  predicate Startable(episode: EpisodeId, prompt: string, seed: int, task: string) {
    episode != Foreign("") && prompt != "" && task != "" && 0 <= seed <= MAX_SEED
  }

  /** A new episode forgets everything but the transaction counter. */
  function Begin(s: Adapter, episode: EpisodeId, seed: int, task: string): Adapter {
    Adapter(ResetPending, Some(episode), task, Some(seed), None, s.pendingTransaction, s.pendingRequest, None, None,
            None, None, s.counter)
  }

  function ResetTo(s: Adapter, episode: EpisodeId, prompt: string, seed: int, task: string): (Adapter, Reply<Output>) {
    if !Resettable(s.phase) || !Startable(episode, prompt, seed, task) then (s, Raised(OtherError))
    else
      Send(Begin(s, episode, seed, task), ResetOp, episode, None, ResetBody(prompt, task, seed))
  }

  function AckResetTo(s: Adapter, r: Response): (Adapter, Reply<Output>) {
    if !s.phase.ResetPending? || !Acknowledges(s, r, ResetOp) then (s, Raised(OtherError))
    else (s.(pendingTransaction := None, pendingRequest := None, phase := Ready), Returned(Done))
  }

  function FailTo(s: Adapter, from: Phase): (Adapter, Reply<Output>) {
    if s.phase != from then (s, Raised(OtherError)) else (s.(phase := Aborted), Returned(Done))
  }

  /** The pictures of a record of the current episode; absence is unsupported. */
  function PayloadOf(s: Adapter, r: EvaluationRecord): Reply<Payload> {
    var o := r.Observed();
    if Some(o.episodeId) != s.episode || o.task != s.task || Some(o.seed) != s.seed then Raised(OtherError)
    else if "top" !in o.vision || "wrist_l" !in o.vision then Raised(OtherError)
    else if r.Sensor(Left).payload.None? || r.Sensor(Right).payload.None? then Raised(OtherError)
    else
      Returned(Payload(o.vision["top"], o.vision["wrist_l"], r.Sensor(Left).payload.value,
                       r.Sensor(Right).payload.value))
  }

  function AnchorOf(r: EvaluationRecord): seq<real> {
    var p := r.Observed().proprio;
    if |p| >= ACTION_DIM then p[..ACTION_DIM] else p
  }

  function BuildInferTo(s: Adapter, r: EvaluationRecord): (Adapter, Reply<Output>) {
    var input := PayloadOf(s, r);
    var step := r.Observed().stepIndex;
    if !s.phase.Ready? then (s, Raised(OtherError))
    else if input.Raised? then (s, Raised(input.error))
    else if s.lastCommitted.Some? && step != s.lastCommitted.value then (s, Raised(OtherError))
    else
      var s1 := s.(inferStep := Some(step), anchor := Some(AnchorOf(r)), phase := InferPending);
      Send(s1, InferOp, s.episode.value, Some(step), InferBody(input.value, AnchorOf(r)))
  }

  function AckInferTo(h: Handshake, s: Adapter, r: Response): (Adapter, Reply<Output>)
    requires HandshakeOk(h)
  {
    if !s.phase.InferPending? || !Acknowledges(s, r, InferOp) then (s, Raised(OtherError))
    else if r.chunk.None? || !Decodes(h, r.chunk.value) then (s, Raised(OtherError))
    else
      (s.(pendingAction := Some(Sha(r.chunk.value)), pendingTransaction := None, pendingRequest := None,
          phase := AwaitingCommit), Returned(Proposed(r.chunk.value)))
  }

  function StepsOf(keyframes: seq<EvaluationRecord>): seq<int> {
    seq(|keyframes|, i requires 0 <= i < |keyframes| => keyframes[i].Observed().stepIndex)
  }

  predicate Increasing(steps: seq<int>) {
    forall i, j :: 0 <= i < j < |steps| ==> steps[i] < steps[j]
  }

  /** The source compares neighbours only. */
  predicate NeighboursIncrease(steps: seq<int>) {
    forall i :: 0 <= i < |steps| - 1 ==> steps[i] < steps[i + 1]
  }

  /** The inputs of all keyframes, or the first failure. */
  function PayloadsOf(s: Adapter, keyframes: seq<EvaluationRecord>, n: nat): Reply<seq<Payload>>
    requires n <= |keyframes|
  {
    if n == 0 then Returned([])
    else
      var before :- PayloadsOf(s, keyframes, n - 1);
      var last :- PayloadOf(s, keyframes[n - 1]);
      Returned(before + [last])
  }

  predicate CommitAdmissible(h: Handshake, s: Adapter, chunk: Chunk, steps: seq<int>)
    requires HandshakeOk(h)
  {
    && s.phase.AwaitingCommit? && |steps| >= h.minimumCommitKeyframes
    && NeighboursIncrease(steps) && s.inferStep.Some? && s.inferStep.value < steps[0]
    && Decodes(h, chunk) && s.pendingAction == Some(Sha(chunk))
  }

  /** The state moves before the anchor is looked at: a lost anchor would leave it moved. */
  function BuildCommitTo(h: Handshake, s: Adapter, chunk: Chunk, keyframes: seq<EvaluationRecord>)
    : (Adapter, Reply<Output>)
    requires HandshakeOk(h)
  {
    var steps := StepsOf(keyframes);
    var inputs := PayloadsOf(s, keyframes, |keyframes|);
    if !CommitAdmissible(h, s, chunk, steps) then (s, Raised(OtherError))
    else if inputs.Raised? then (s, Raised(inputs.error))
    else if s.anchor.None? || s.episode.None? then (s.(phase := CommitPending), Raised(OtherError))
    else
      var last := steps[|steps| - 1];
      Send(s.(phase := CommitPending, pendingLast := Some(last)), CommitOp, s.episode.value, Some(last),
           CommitBody(inputs.value, chunk, s.anchor.value))
  }

  function AckCommitTo(s: Adapter, r: Response): (Adapter, Reply<Output>) {
    if !s.phase.CommitPending? || !Acknowledges(s, r, CommitOp) then (s, Raised(OtherError))
    else
      (s.(inferStep := None, lastCommitted := s.pendingLast, pendingLast := None, pendingTransaction := None,
          pendingRequest := None, pendingAction := None, anchor := None, phase := Ready), Returned(Done))
  }

  // ------------------------------------------------------------------ the adapter, as it runs

  class N0TwamQpos8Adapter {
    const handshake: Handshake
    var phase: Phase
    var episode: Option<EpisodeId>
    var task: string
    var seed: Option<int>
    var inferStep: Option<int>
    var pendingTransaction: Option<Sha<Ticket>>
    var pendingRequest: Option<Sha<Request>>
    var pendingAction: Option<Sha<Chunk>>
    var anchor: Option<seq<real>>
    var pendingLast: Option<int>
    var lastCommitted: Option<int>
    var counter: nat

    function View(): Adapter
      reads this
    {
      Adapter(phase, episode, task, seed, inferStep, pendingTransaction, pendingRequest, pendingAction, anchor,
              pendingLast, lastCommitted, counter)
    }

    constructor (handshake: Handshake)
      ensures View() == Fresh() && this.handshake == handshake
    {
      this.handshake := handshake;
      phase, episode, task, seed, inferStep := New, None, "", None, None;
      pendingTransaction, pendingRequest, pendingAction, anchor := None, None, None, None;
      pendingLast, lastCommitted, counter := None, None, 0;
    }

    method Dispatch(op: Operation, id: EpisodeId, step: Option<int>, body: Body) returns (reply: Reply<Output>)
      modifies this`counter, this`pendingTransaction, this`pendingRequest
      ensures (View(), reply) == Send(old(View()), op, id, step, body)
    {
      counter := counter + 1;
      var ticket := Sha(Ticket(id, counter, op, step));
      pendingTransaction := Some(ticket);
      var request := Request(op, ticket, id, step, body);
      pendingRequest := Some(Sha(request));
      return Returned(Sent(SignedRequest(request, Sha(request))));
    }

    method StartEpisode(id: EpisodeId, episodeSeed: int, taskName: string)
      modifies this
      ensures View() == Begin(old(View()), id, episodeSeed, taskName)
    {
      episode, task, seed := Some(id), taskName, Some(episodeSeed);
      inferStep, lastCommitted, pendingAction, anchor, pendingLast := None, None, None, None, None;
      phase := ResetPending;
    }

    method Reset(id: EpisodeId, prompt: string, episodeSeed: int, taskName: string) returns (reply: Reply<Output>)
      modifies this
      ensures (View(), reply) == ResetTo(old(View()), id, prompt, episodeSeed, taskName)
    {
      if !Resettable(phase) { return Raised(OtherError); }
      if !Startable(id, prompt, episodeSeed, taskName) { return Raised(OtherError); }
      StartEpisode(id, episodeSeed, taskName);
      reply := Dispatch(ResetOp, id, None, ResetBody(prompt, taskName, episodeSeed));
    }

    method AckReset(r: Response) returns (reply: Reply<Output>)
      modifies this
      ensures (View(), reply) == AckResetTo(old(View()), r)
    {
      if !phase.ResetPending? || !Acknowledges(View(), r, ResetOp) { return Raised(OtherError); }
      pendingTransaction, pendingRequest, phase := None, None, Ready;
      return Returned(Done);
    }

    method Fail(from: Phase) returns (reply: Reply<Output>)
      modifies this`phase
      ensures (View(), reply) == FailTo(old(View()), from)
    {
      if phase != from { return Raised(OtherError); }
      phase := Aborted;
      return Returned(Done);
    }

    method BuildInfer(r: EvaluationRecord) returns (reply: Reply<Output>)
      modifies this
      ensures (View(), reply) == BuildInferTo(old(View()), r)
    {
      if !phase.Ready? { return Raised(OtherError); }
      var input := PayloadOf(View(), r);
      if input.Raised? { return Raised(input.error); }
      var step := r.Observed().stepIndex;
      if lastCommitted.Some? && step != lastCommitted.value { return Raised(OtherError); }
      inferStep, anchor, phase := Some(step), Some(AnchorOf(r)), InferPending;
      reply := Dispatch(InferOp, episode.value, Some(step), InferBody(input.value, AnchorOf(r)));
    }

    method AckInfer(r: Response) returns (reply: Reply<Output>)
      requires HandshakeOk(handshake)
      modifies this
      ensures (View(), reply) == AckInferTo(handshake, old(View()), r)
    {
      if !phase.InferPending? || !Acknowledges(View(), r, InferOp) { return Raised(OtherError); }
      if r.chunk.None? || !Decodes(handshake, r.chunk.value) { return Raised(OtherError); }
      pendingAction := Some(Sha(r.chunk.value));
      pendingTransaction, pendingRequest, phase := None, None, AwaitingCommit;
      return Returned(Proposed(r.chunk.value));
    }

    method CollectPayloads(keyframes: seq<EvaluationRecord>) returns (reply: Reply<seq<Payload>>)
      ensures reply == PayloadsOf(View(), keyframes, |keyframes|)
    {
      var inputs: seq<Payload> := [];
      for n := 0 to |keyframes|
        invariant PayloadsOf(View(), keyframes, n) == Returned(inputs)
      {
        var input := PayloadOf(View(), keyframes[n]);
        if input.Raised? {
          PayloadsFail(View(), keyframes, n + 1, |keyframes|);
          return Raised(input.error);
        }
        inputs := inputs + [input.value];
      }
      return Returned(inputs);
    }

    method BuildCommit(chunk: Chunk, keyframes: seq<EvaluationRecord>) returns (reply: Reply<Output>)
      requires HandshakeOk(handshake)
      modifies this
      ensures (View(), reply) == BuildCommitTo(handshake, old(View()), chunk, keyframes)
    {
      var steps := StepsOf(keyframes);
      if !CommitAdmissible(handshake, View(), chunk, steps) { return Raised(OtherError); }
      var inputs := CollectPayloads(keyframes);
      if inputs.Raised? { return Raised(inputs.error); }
      phase := CommitPending;
      if anchor.None? || episode.None? { return Raised(OtherError); }
      var last := steps[|steps| - 1];
      pendingLast := Some(last);
      reply := Dispatch(CommitOp, episode.value, Some(last), CommitBody(inputs.value, chunk, anchor.value));
    }

    method AckCommit(r: Response) returns (reply: Reply<Output>)
      modifies this
      ensures (View(), reply) == AckCommitTo(old(View()), r)
    {
      if !phase.CommitPending? || !Acknowledges(View(), r, CommitOp) { return Raised(OtherError); }
      inferStep, lastCommitted, pendingLast := None, pendingLast, None;
      pendingTransaction, pendingRequest, pendingAction, anchor := None, None, None, None;
      phase := Ready;
      return Returned(Done);
    }
  }

  lemma {:induction false} PayloadsFail(s: Adapter, keyframes: seq<EvaluationRecord>, n: nat, m: nat)
    requires n <= m <= |keyframes| && PayloadsOf(s, keyframes, n).Raised?
    ensures PayloadsOf(s, keyframes, m) == PayloadsOf(s, keyframes, n)
  {
    if n < m { PayloadsFail(s, keyframes, n, m - 1); }
  }
}
