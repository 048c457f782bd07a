/** Contact phases by depth hysteresis. */
module ContactPhases {
  import opened Records

  /** Thresholds as the tracker's constructor accepts them. */
  datatype Thresholds = Thresholds(on: real, off: real)

  type DepthPhaseTracker = t: Thresholds | 0.0 <= t.off < t.on witness Thresholds(1.0, 0.0)

  /** One step: the phase of a frame, and whether the sensor is then in contact. */
  function Update(t: DepthPhaseTracker, indentation: real, inContact: bool): (ContactPhase, bool) {
    if inContact then if indentation <= t.off then (Release, false) else (Sustained, true)
    else if indentation >= t.on then (Onset, true) else (Free, false)
  }

  /** In contact after the first n indentations. */
  predicate InContact(t: DepthPhaseTracker, depths: seq<real>, n: nat)
    requires n <= |depths|
  {
    n > 0 && Update(t, depths[n - 1], InContact(t, depths, n - 1)).1
  }

  function PhaseAt(t: DepthPhaseTracker, depths: seq<real>, n: nat): ContactPhase
    requires n < |depths|
  {
    Update(t, depths[n], InContact(t, depths, n)).0
  }

  function PhaseTrace(t: DepthPhaseTracker, depths: seq<real>): seq<ContactPhase> {
    seq(|depths|, i requires 0 <= i < |depths| => PhaseAt(t, depths, i))
  }

  /** Frame j reached the upper threshold, and none since has fallen to the lower one. */
  predicate TouchedAt(t: DepthPhaseTracker, depths: seq<real>, j: nat, n: nat)
    requires n <= |depths|
  {
    j < n && depths[j] >= t.on && forall k :: j < k < n ==> depths[k] > t.off
  }

  /** Hysteresis, without its state: a sensor is in contact exactly when some frame reached the
      upper threshold and no later one fell to the lower threshold. */
  lemma {:induction false} ContactMeans(t: DepthPhaseTracker, depths: seq<real>, n: nat)
    requires n <= |depths|
    ensures InContact(t, depths, n) <==> exists j: nat :: TouchedAt(t, depths, j, n)
  {
    if n > 0 {
      ContactMeans(t, depths, n - 1);
      if InContact(t, depths, n) {
        var j: nat := if depths[n - 1] >= t.on then n - 1 else (var i: nat :| TouchedAt(t, depths, i, n - 1); i);
        assert TouchedAt(t, depths, j, n);
      }
      forall j: nat | TouchedAt(t, depths, j, n) ensures InContact(t, depths, n) {
        if j < n - 1 { assert TouchedAt(t, depths, j, n - 1); }
      }
    }
  }

  /** Prefixes of (FREE* ONSET SUSTAINED* RELEASE)*, read from any point of a contact cycle. */
  predicate Cyclic(phases: seq<ContactPhase>, touching: bool)
    decreases |phases|
  {
    phases == [] ||
    match phases[0]
    case Free => !touching && Cyclic(phases[1..], false)
    case Onset => !touching && Cyclic(phases[1..], true)
    case Sustained => touching && Cyclic(phases[1..], true)
    case Release => touching && Cyclic(phases[1..], false)
  }

  lemma {:induction false} CyclicFrom(t: DepthPhaseTracker, depths: seq<real>, n: nat)
    requires n <= |depths|
    ensures Cyclic(PhaseTrace(t, depths)[n..], InContact(t, depths, n))
    decreases |depths| - n
  {
    if n < |depths| {
      CyclicFrom(t, depths, n + 1);
      assert PhaseTrace(t, depths)[n..][1..] == PhaseTrace(t, depths)[n + 1..];
    }
  }

  /** Whatever the depths, the phases of a sensor form whole contact cycles and at most one
      unfinished one. */
  lemma {:induction false} PhasesAreCycles(t: DepthPhaseTracker, depths: seq<real>)
    ensures Cyclic(PhaseTrace(t, depths), false)
  {
    CyclicFrom(t, depths, 0);
    assert PhaseTrace(t, depths)[0..] == PhaseTrace(t, depths);
  }

  /** FREE is exactly being out of contact before and after. */
  lemma {:induction false} FreeMeans(t: DepthPhaseTracker, depths: seq<real>, n: nat)
    requires n < |depths|
    ensures PhaseAt(t, depths, n) == Free <==> !InContact(t, depths, n) && !InContact(t, depths, n + 1)
  {
  }
}
