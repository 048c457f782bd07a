/**
 Causal streaming delivery of the availability, temporal and identity-misrouting faults: one
 output per clean input, from a bounded cache of past records.
 */
module Streaming {
  import opened Basics
  import opened OperatorParameters
  import opened Manifests
  import opened Records
  import opened ValidationCodes
  import opened OperatorValidators
  import opened Validators

  /** The operators whose delivery is modelled here; pixel transforms are not. */
  predicate Streamed(op: OperatorId) {
    IsAvailability(op) || IsRouting(op) || op.C1?
  }

  /** Replaces one slot of a record, keeping its clean reference. */
  function ReplaceDelivery(r: EvaluationRecord, slot: Slot, sensor: Sensor, prov: Provenance)
    : Reply<EvaluationRecord>
  {
    var o := r.content.observation;
    BuildRecord(Content(o.(tactile := o.tactile.With(slot, sensor)), r.content.provenance.With(slot, prov)),
                Some(r.cleanHash))
  }

  function FaultValidity(m: FaultManifest, current: Sensor): Option<bool> {
    if m.observability.Declared? then Some(false) else current.validity
  }

  datatype Delivery = Delivery(sensor: Sensor, prov: Provenance)

  /** A withheld payload. */
  function Withheld(m: FaultManifest, clean: EvaluationRecord, slot: Slot): Delivery {
    Delivery(clean.Sensor(slot).(payload := None, validity := AbsentValidity(m), visibleSourceTime := None),
             clean.Prov(slot).(sourceIndex := None, sourceTime := None, payloadHash := None,
                               faults := [m.instance.op]))
  }

  /** A payload routed from another frame. */
  function Routed(m: FaultManifest, clean: EvaluationRecord, source: EvaluationRecord, slot: Slot): Delivery {
    var current := clean.Sensor(slot);
    Delivery(source.Sensor(slot).(deliveryIndex := current.deliveryIndex, deliveryTime := current.deliveryTime,
                                  validity := FaultValidity(m, current)),
             source.Prov(slot).(faults := [m.instance.op]))
  }

  /** A payload routed from the other slot of the same frame. */
  function Swapped(m: FaultManifest, clean: EvaluationRecord, slot: Slot): Delivery {
    var target, source := clean.Sensor(slot), clean.Sensor(Other(slot));
    Delivery(source.(deliveryIndex := target.deliveryIndex, deliveryTime := target.deliveryTime,
                     validity := FaultValidity(m, target), frameId := target.frameId,
                     calibrationId := target.calibrationId),
             clean.Prov(Other(slot)).(payloadHash := if source.payload.None? then None
                                                     else Some(Sha(source.payload.value)),
                                      faults := [m.instance.op]))
  }

  /** The source frame registered for an index (-1 outside the map, where it is never read). */
  function RegisteredFrame(m: FaultManifest, index: int, slot: Slot): int
    requires ParametersFit(m.instance.op, m.parameters) && IsRouting(m.instance.op)
  {
    var source, offset := SourceMap(m.parameters, slot), index - m.instance.start;
    if 0 <= offset < |source| then source[offset] else -1
  }

  /** Whether the operator rewrites the record at this index. */
  predicate Rewrites(m: FaultManifest, index: int)
    requires ParametersFit(m.instance.op, m.parameters) && Streamed(m.instance.op)
    requires m.instance.slots != []
  {
    if IsAvailability(m.instance.op) then Absent(m, index)
    else if m.instance.op.C1? then Misrouted(m, index)
    else m.Active(index) && (m.instance.op.T2? ==> RegisteredFrame(m, index, m.instance.slots[0]) != index)
  }

  type LookupFn = int -> Reply<EvaluationRecord>

  /** The delivery of one declared slot, given how past records are looked up. */
  function Deliver(m: FaultManifest, clean: EvaluationRecord, lookup: LookupFn, index: int, slot: Slot)
    : Reply<Delivery>
    requires ParametersFit(m.instance.op, m.parameters) && Streamed(m.instance.op)
  {
    if IsAvailability(m.instance.op) then Returned(Withheld(m, clean, slot))
    else if m.instance.op.C1? then Returned(Swapped(m, clean, slot))
    else
      var source :- lookup(RegisteredFrame(m, index, slot));
      Returned(Routed(m, clean, source, slot))
  }

  /** Applies the operator slot by slot. */
  function Rewrite(m: FaultManifest, clean: EvaluationRecord, lookup: LookupFn, index: int,
                   output: EvaluationRecord, slots: seq<Slot>): Reply<EvaluationRecord>
    requires ParametersFit(m.instance.op, m.parameters) && Streamed(m.instance.op)
    decreases |slots|
  {
    if slots == [] then Returned(output)
    else
      var delivery :- Deliver(m, clean, lookup, index, slots[0]);
      var next :- ReplaceDelivery(output, slots[0], delivery.sensor, delivery.prov);
      Rewrite(m, clean, lookup, index, next, slots[1..])
  }

  /** C1 visits both slots; every other operator the declared ones. */
  function Visited(m: FaultManifest): seq<Slot> {
    if m.instance.op.C1? then [Left, Right] else m.instance.slots
  }

  function DeliverOne(m: FaultManifest, clean: EvaluationRecord, lookup: LookupFn, index: int)
    : Reply<EvaluationRecord>
    requires ParametersFit(m.instance.op, m.parameters) && Streamed(m.instance.op)
    requires m.instance.slots != []
  {
    if !Rewrites(m, index) then Returned(clean)
    else Rewrite(m, clean, lookup, index, clean, Visited(m))
  }

  /** Every past record can be looked up. */
  function FullHistory(history: Trace): LookupFn {
    i => if 0 <= i < |history| then Returned(history[i]) else Raised(OtherError)
  }

  /** Reference semantics: what is delivered at an index, with the whole past at hand. */
  function StreamAt(m: FaultManifest, clean: Trace, index: nat): Reply<EvaluationRecord>
    requires ParametersFit(m.instance.op, m.parameters) && Streamed(m.instance.op)
    requires m.instance.slots != [] && index < |clean|
  {
    DeliverOne(m, clean[index], FullHistory(clean[..index + 1]), index)
  }

  // ------------------------------------------------------------ the bounded cache

  /** The greatest source age registered in the first n window positions of a slot. */
  function AgeOf(m: FaultManifest, slot: Slot, n: nat): int
    requires ParametersFit(m.instance.op, m.parameters) && IsRouting(m.instance.op)
  {
    if n == 0 then 0
    else Max(AgeOf(m, slot, n - 1), m.instance.start + n - 1 - RegisteredFrame(m, m.instance.start + n - 1, slot))
  }

  function AgeOver(m: FaultManifest, slots: seq<Slot>): (age: int)
    requires ParametersFit(m.instance.op, m.parameters) && IsRouting(m.instance.op)
    ensures age >= 0
  {
    if slots == [] then 0
    else Max(AgeOver(m, slots[..|slots| - 1]), AgeOf(m, slots[|slots| - 1], Max(0, Window(m.instance))))
  }

  lemma {:induction false} AgeCovers(m: FaultManifest, slot: Slot, n: nat, i: nat)
    requires ParametersFit(m.instance.op, m.parameters) && IsRouting(m.instance.op) && i < n
    ensures m.instance.start + i - RegisteredFrame(m, m.instance.start + i, slot) <= AgeOf(m, slot, n)
  {
    if i < n - 1 { AgeCovers(m, slot, n - 1, i); }
  }

  lemma {:induction false} AgeOverCovers(m: FaultManifest, slots: seq<Slot>, slot: Slot)
    requires ParametersFit(m.instance.op, m.parameters) && IsRouting(m.instance.op) && slot in slots
    ensures AgeOf(m, slot, Max(0, Window(m.instance))) <= AgeOver(m, slots)
  {
    var front := slots[..|slots| - 1];
    assert slots == front + [slots[|slots| - 1]];
    if slot in front { AgeOverCovers(m, front, slot); }
  }

  /** Lookups that agree on every registered source give the same delivery. */
  lemma {:induction false} RewriteAgrees(m: FaultManifest, clean: EvaluationRecord, a: LookupFn, b: LookupFn,
                                         index: int, output: EvaluationRecord, slots: seq<Slot>)
    requires ParametersFit(m.instance.op, m.parameters) && Streamed(m.instance.op)
    requires IsRouting(m.instance.op) ==>
               (forall s :: s in slots ==> a(RegisteredFrame(m, index, s)) == b(RegisteredFrame(m, index, s)))
    ensures Rewrite(m, clean, a, index, output, slots) == Rewrite(m, clean, b, index, output, slots)
    decreases |slots|
  {
    if slots != [] {
      assert slots[0] in slots;
      assert Deliver(m, clean, a, index, slots[0]) == Deliver(m, clean, b, index, slots[0]);
      var delivery := Deliver(m, clean, a, index, slots[0]);
      if delivery.Returned? {
        var next := ReplaceDelivery(output, slots[0], delivery.value.sensor, delivery.value.prov);
        if next.Returned? { RewriteAgrees(m, clean, a, b, index, next.value, slots[1..]); }
      }
    }
  }

  /** Looks past records up in the cache. */
  function Cached(cache: map<int, EvaluationRecord>): LookupFn {
    i => if i in cache then Returned(cache[i]) else Raised(OtherError)
  }

  /** The last age + 1 records of a history are cached. */
  ghost predicate Recent(cache: map<int, EvaluationRecord>, history: Trace, age: int) {
    forall i :: |history| - age - 1 <= i < |history| && 0 <= i ==> i in cache && cache[i] == history[i]
  }

  ghost predicate Bounded(cache: map<int, EvaluationRecord>, lo: int, hi: int) {
    forall i :: i in cache ==> lo <= i <= hi
  }

  /** Forgets what is older than the oldest index required. */
  function Trimmed(cache: map<int, EvaluationRecord>, oldest: int): map<int, EvaluationRecord> {
    map i | i in cache && oldest <= i :: cache[i]
  }

  lemma {:induction false} HoldKeeps(cache: map<int, EvaluationRecord>, history: Trace, clean: EvaluationRecord,
                                     age: int)
    requires age >= 0 && Recent(cache, history, age) && Bounded(cache, |history| - age - 1, |history|)
    ensures var held := cache[|history| := clean];
            Recent(held, history, age) && Bounded(held, |history| - age - 1, |history|)
  {
  }

  lemma {:induction false} TrimKeeps(cache: map<int, EvaluationRecord>, history: Trace, clean: EvaluationRecord,
                                     age: int)
    requires |history| in cache && cache[|history|] == clean
    requires Recent(cache, history, age) && Bounded(cache, |history| - age - 1, |history|)
    ensures var (next, trimmed) := (history + [clean], Trimmed(cache, |history| - age));
            Recent(trimmed, next, age) && Bounded(trimmed, |next| - age - 1, |next|)
  {
  }

  /** The streaming session: it retains only as many past records as the oldest registered
      source needs, and forgets the rest after every delivery. */
  class StreamingFaultSession {
    const manifest: FaultManifest
    const maximumAge: int
    var processed: nat
    var sources: map<int, EvaluationRecord>
    ghost var history: Trace

    /** The cache holds the recent past of the clean stream, and besides it at most the record
        of a delivery that raised. */
    ghost predicate Valid()
      reads this
    {
      && ManifestOk(manifest) && Streamed(manifest.instance.op)
      && processed == |history|
      && (IsRouting(manifest.instance.op) ==>
            maximumAge == AgeOver(manifest, manifest.instance.slots)
            && Recent(sources, history, maximumAge)
            && Bounded(sources, processed - maximumAge - 1, processed))
    }

    constructor (m: FaultManifest)
      requires ManifestOk(m) && Streamed(m.instance.op)
      ensures Valid() && manifest == m && history == []
    {
      manifest, processed, sources, history := m, 0, map[], [];
      maximumAge := if IsRouting(m.instance.op) then AgeOver(m, m.instance.slots) else 0;
    }

    /** The cached delivery is the reference delivery, for every index and operator: no lookup
        ever misses.  A delivery that raises is not counted, and the session stays usable. */
    method DeliverNext(clean: EvaluationRecord) returns (r: Reply<EvaluationRecord>)
      requires Valid()
      modifies this
      ensures Valid()
      ensures clean.Observed().stepIndex != old(processed) ==> r.Raised? && sources == old(sources)
      ensures clean.Observed().stepIndex == old(processed) ==>
                r == StreamAt(manifest, old(history) + [clean], |old(history)|)
      ensures history == if r.Returned? then old(history) + [clean] else old(history)
    {
      var index := clean.Observed().stepIndex;
      if index != processed { return Raised(OtherError); }
      if IsRouting(manifest.instance.op) {
        HoldKeeps(sources, history, clean, maximumAge);
        sources := sources[index := clean];
      }
      r := Lookup(clean);
      if r.Raised? { return; }
      Advance(clean);
    }

    /** The delivery of the current record, from the cache. */
    method Lookup(clean: EvaluationRecord) returns (r: Reply<EvaluationRecord>)
      requires Valid() && Current(clean)
      ensures r == StreamAt(manifest, history + [clean], |history|)
    {
      r := DeliverOne(manifest, clean, Cached(sources), processed);
      CacheDelivers(manifest, history, clean, sources, maximumAge);
    }

    /** Counts the current record and forgets what no later one needs. */
    method Advance(clean: EvaluationRecord)
      requires Valid() && Current(clean)
      modifies this
      ensures Valid() && history == old(history) + [clean]
    {
      if IsRouting(manifest.instance.op) {
        TrimKeeps(sources, history, clean, maximumAge);
        sources := Trimmed(sources, processed - maximumAge);
      }
      history := history + [clean];
      processed := processed + 1;
    }

    /** The current record is cached where it may be needed. */
    ghost predicate Current(clean: EvaluationRecord)
      reads this
    {
      IsRouting(manifest.instance.op) ==> processed in sources && sources[processed] == clean
    }
  }

  /** A cache reaching back by the maximum age answers every lookup the reference makes. */
  lemma {:induction false} CacheSuffices(m: FaultManifest, history: Trace, index: nat,
                                         cache: map<int, EvaluationRecord>, age: int)
    requires ManifestOk(m) && Streamed(m.instance.op) && index + 1 == |history|
    requires IsRouting(m.instance.op) ==>
               (age == AgeOver(m, m.instance.slots)
                && forall i :: index - age <= i <= index && 0 <= i ==> i in cache && cache[i] == history[i])
    ensures DeliverOne(m, history[index], Cached(cache), index) == StreamAt(m, history, index)
  {
    assert history[..index + 1] == history;
    if Rewrites(m, index) {
      if IsRouting(m.instance.op) {
        forall s | s in m.instance.slots
          ensures Cached(cache)(RegisteredFrame(m, index, s)) == FullHistory(history)(RegisteredFrame(m, index, s))
        {
          SourceMapsCausal(m.instance, m.parameters, s);
          AgeCovers(m, s, Window(m.instance), index - m.instance.start);
          AgeOverCovers(m, m.instance.slots, s);
          assert m.instance.start + (index - m.instance.start) == index;
        }
      }
      RewriteAgrees(m, history[index], Cached(cache), FullHistory(history), index, history[index], Visited(m));
    }
  }

  /** The same from the cache as the session holds it. */
  lemma {:induction false} CacheDelivers(m: FaultManifest, past: Trace, clean: EvaluationRecord,
                                         cache: map<int, EvaluationRecord>, age: int)
    requires ManifestOk(m) && Streamed(m.instance.op)
    requires IsRouting(m.instance.op) ==>
               age == AgeOver(m, m.instance.slots) && Recent(cache, past, age)
               && |past| in cache && cache[|past|] == clean
    ensures DeliverOne(m, clean, Cached(cache), |past|) == StreamAt(m, past + [clean], |past|)
  {
    CacheSuffices(m, past + [clean], |past|, cache, age);
  }
}
