/** Model-visible observations paired with evaluator-only provenance. */
module Records {
  import opened Basics
  import opened OperatorParameters
  import opened Trials

  datatype ContactPhase = Free | Onset | Sustained | Release

  /** An episode is named by the digest of the trial it realizes. */
  type EpisodeId = Sha<TrialManifest>

  /** One tactile slot as the policy sees it; the payload is present iff it is not None. */
  datatype Sensor = Sensor(payload: Option<Picture>, validity: Option<bool>, deliveryIndex: nat,
                           deliveryTime: real, visibleSourceTime: Option<real>,
                           frameId: string, calibrationId: string)

  datatype Observation = Observation(episodeId: EpisodeId, task: string, seed: int, stepIndex: int,
                                     tactile: PerSlot<Sensor>, vision: map<string, Picture>,
                                     proprio: seq<real>)

  datatype Provenance = Provenance(physicalSource: string, sourceIndex: Option<nat>,
                                   sourceTime: Option<real>, payloadHash: Option<Sha<Picture>>,
                                   calibrationHash: Sha<string>, phase: ContactPhase,
                                   faults: seq<OperatorId>)

  /** What a record digest covers. */
  datatype Content = Content(observation: Observation, provenance: PerSlot<Provenance>)

  datatype EvaluationRecord = EvaluationRecord(content: Content, cleanHash: Sha<Content>,
                                               deliveredHash: Sha<Content>)
  {
    function Sensor(s: Slot): Sensor {
      content.observation.tactile.At(s)
    }

    function Prov(s: Slot): Provenance {
      content.provenance.At(s)
    }

    function Observed(): Observation {
      content.observation
    }
  }

  /** Clock readings are compared with this slack. */
  const TICK := 0.000000000001

  /** Refuses content whose source lies in the future of its delivery. */
  predicate Causal(c: Content) {
    forall s: Slot :: SlotCausal(c.observation.tactile.At(s), c.provenance.At(s))
  }

  predicate SlotCausal(sensor: Sensor, provenance: Provenance) {
    && (provenance.sourceIndex.Some? ==> provenance.sourceIndex.value <= sensor.deliveryIndex)
    && (provenance.sourceTime.Some? ==> provenance.sourceTime.value <= sensor.deliveryTime + TICK)
    && (sensor.visibleSourceTime.Some? ==> sensor.visibleSourceTime.value <= sensor.deliveryTime + TICK)
  }

  function BuildRecord(c: Content, cleanHash: Option<Sha<Content>>): Reply<EvaluationRecord> {
    if !Causal(c) then Raised(OtherError)
    else Returned(EvaluationRecord(c, if cleanHash.None? then Sha(c) else cleanHash.value, Sha(c)))
  }

  predicate FaultFree(r: EvaluationRecord) {
    r.Prov(Left).faults == [] && r.Prov(Right).faults == []
  }

  /** Both cached digests of a clean record are those of its content. */
  predicate HashesFresh(r: EvaluationRecord) {
    r.cleanHash == Sha(r.content) == r.deliveredHash
  }
}
