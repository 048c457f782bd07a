/** What a severity level does: how much of a window a fault covers and how strong it is, and that a
    higher level is never milder. */
module SeverityDoses {
  import opened Basics
  import opened OperatorParameters

  // ------------------------------------------------------------------ coverage

  /** The share of a window, in hundredths, that an availability or identity fault covers. */
  function Share(level: int): int
    requires 1 <= level <= 5
  {
    if level == 1 then 5 else 2 * Share(level - 1)
  }

  /** A count of frames of a window: at least one, at most all, and otherwise as close to the share as a
      whole number can be. */
  predicate Covers(count: int, window: int, level: int)
    requires 1 <= level <= 5
  {
    && 1 <= count <= window
    && -50 <= 100 * count - Share(level) * window
    && (count > 1 ==> 100 * count - Share(level) * window <= 50)
  }

  /** The offsets at which a fault that covers part of its window is shown. */
  function Shown(p: Parameters): seq<int>
    requires p.StreamAbsence? || p.FrameErasure? || p.Misrouting?
  {
    match p
    case StreamAbsence(affected) => affected
    case FrameErasure(erased) => erased
    case Misrouting(affected) => affected
  }

  predicate Partial(op: OperatorId) {
    op.A1? || op.A2? || op.C1?
  }

  lemma {:induction false} CountCovers(k: Instance)
    requires InstanceOk(k) && Partial(k.op)
    ensures Covers(CountOf(k), Window(k), k.level)
  {
    ShareDoubles(k.level);
    Product(Window(k), Share(k.level));
    NearestBounds(Window(k) * Share(k.level), 100);
  }

  lemma {:induction false} ShareDoubles(level: int)
    requires 1 <= level <= 5
    ensures Share(level) == [5, 10, 20, 40, 80][level - 1]
  {
    if level > 1 { ShareDoubles(level - 1); }
  }

  lemma {:induction false} Product(window: int, share: int)
    requires 1 <= window && 5 <= share <= 80
    ensures 0 <= window * share <= 80 * window && share * window == window * share
  {
  }

  /** How much of its window a registered fault covers: A1 and C1 a leading run, A2 scattered frames. */
  lemma {:induction false} CoverageExactly(k: Instance, p: Parameters)
    requires InstanceOk(k) && Registered(k, p) && Partial(k.op)
    ensures Covers(|Shown(p)|, Window(k), k.level) && StrictlyIncreasing(Shown(p)) && WithinWindow(Shown(p), Window(k))
    ensures !k.op.A2? ==> forall i :: 0 <= i < |Shown(p)| ==> Shown(p)[i] == i
  {
    CountCovers(k);
  }

  // ------------------------------------------------------------------ strength

  /** The second set of parameters is at least as strong a fault as the first: shown at least as often,
      or keeping strictly less of the signal, or moving it strictly further in space or time. */
  predicate NoMilder(p: Parameters, q: Parameters) {
    match p
    case StreamAbsence(affected) => q.StreamAbsence? && affected <= q.affected
    case FrameErasure(erased) => q.FrameErasure? && |erased| <= |q.erased|
    case Misrouting(affected) => q.Misrouting? && affected <= q.affected
    case GlobalDrift(_, gain) => q.GlobalDrift? && 0.0 < q.gain < gain < 1.0
    case SensitivityLoss(_, gain, x, y) =>
      q.SensitivityLoss? && 0.0 < q.gain < gain < 1.0 && q.centerX == x && q.centerY == y
    case SurfaceArtifact(_, intercept, scalar) =>
      q.SurfaceArtifact? && 0 < scalar < q.scalar && q.intercept == intercept
    case LocalPatch(_, x, y, scalar) =>
      q.LocalPatch? && 0 < scalar < q.scalar && q.centerX == x && q.centerY == y
    case ShapeDistortion(x, y, displacement) =>
      q.ShapeDistortion? && 0 < displacement < q.displacement && q.centerX == x && q.centerY == y
    case HistoryImprint(_, mix) => q.HistoryImprint? && 0.0 < mix < q.mix < 1.0
    case Saturation(knee) => q.Saturation? && 0.0 < q.knee < knee
    case FixedDelay(lag, _) => q.FixedDelay? && 0 < lag < q.lag
    case HeldLast(duration, held, _) => q.HeldLast? && 0 < duration <= q.duration && q.held == held
    case SensorSkew(delayed, skew, _, scope) =>
      q.SensorSkew? && 0 < skew < q.skew && q.delayed == delayed && q.scope == scope
    case Misregistration(_, shift) => q.Misregistration? && 0 < shift < q.shift
  }

  lemma {:induction false} CountRises(window: int, lo: int, hi: int)
    requires window > 0 && lo <= hi
    ensures AffectedCount(window, lo) <= AffectedCount(window, hi)
  {
    WiderProduct(window, lo, hi);
    HalfEvenMonotone(window * lo, window * hi, 100);
  }

  lemma {:induction false} WiderProduct(window: int, lo: int, hi: int)
    requires window > 0 && lo <= hi
    ensures window * lo <= window * hi
  {
  }

  lemma {:induction false} RangePrefix(lo: int, mid: int, hi: int)
    requires lo <= mid <= hi
    ensures Range(lo, mid) <= Range(lo, hi)
  {
  }

  // ------------------------------------------------------------------ values

  /** One at level 1, and twice as much at every level above. */
  function Doubled(level: int): int
    requires 1 <= level <= 5
  {
    if level == 1 then 1 else 2 * Doubled(level - 1)
  }

  /** Where a seed places a fault: up to 0.03 of the frame away from its middle. */
  predicate Placed(t: Template, x: real, y: real) {
    x - 0.5 == t.x && y - 0.5 == t.y && 0.47 <= x <= 0.53 && 0.47 <= y <= 0.53
  }

  /** The registered dose of every operator, in the operator's own unit: what is left of the signal,
      channels, pixels or frames. */
  predicate Dosed(k: Instance, p: Parameters)
    requires InstanceOk(k)
  {
    var n := k.level - 1;
    match p
    case StreamAbsence(_) => true
    case FrameErasure(_) => true
    case Misrouting(_) => true
    case GlobalDrift(_, gain) => gain == [0.95, 0.88, 0.78, 0.65, 0.50][n]
    case SensitivityLoss(_, gain, x, y) => gain == [0.90, 0.75, 0.55, 0.35, 0.15][n] && Placed(k.template, x, y)
    case SurfaceArtifact(_, intercept, scalar) => scalar == k.level && intercept - 0.18 == k.template.intercept
    case LocalPatch(_, x, y, scalar) => scalar == k.level && Placed(k.template, x, y)
    case ShapeDistortion(x, y, displacement) => displacement == k.level && Placed(k.template, x, y)
    case HistoryImprint(_, mix) => mix == [0.12, 0.22, 0.35, 0.50, 0.68][n]
    case Saturation(knee) => knee == [0.315, 0.252, 0.1925, 0.14, 0.098][n]
    case FixedDelay(lag, _) => lag == Doubled(k.level)
    case HeldLast(duration, held, _) =>
      && duration == (if 2 * Doubled(k.level) <= k.stop - k.start then 2 * Doubled(k.level) else k.stop - k.start)
      && held == (if k.start == 0 then 0 else k.start - 1)
    case SensorSkew(delayed, skew, _, scope) =>
      skew == k.level && delayed == k.slots[|k.slots| - 1] && forall s: Slot :: s in scope <==> s in k.slots
    case Misregistration(_, shift) => shift == k.level
  }

  lemma {:induction false} DoublesTo(level: int)
    requires 1 <= level <= 5
    ensures Doubled(level) == [1, 2, 4, 8, 16][level - 1]
  {
    if level > 1 { DoublesTo(level - 1); }
  }

  /** Every registered instance has its operator's registered dose, wherever its seed places it. */
  lemma {:induction false} DosedExactly(k: Instance, p: Parameters)
    requires InstanceOk(k) && Registered(k, p)
    ensures Dosed(k, p)
  {
    DoublesTo(k.level);
  }

  lemma {:induction false} PartialHardens(k: Instance, level: int, p: Parameters, q: Parameters)
    requires InstanceOk(k) && InstanceOk(k.(level := level)) && k.level < level && Partial(k.op)
    requires Registered(k, p) && Registered(k.(level := level), q)
    ensures NoMilder(p, q)
  {
    ShareRises(k.op, k.level, level);
    CountRises(Window(k), Dose(k.op, k.level), Dose(k.op, level));
    RangePrefix(0, CountOf(k), CountOf(k.(level := level)));
  }

  lemma {:induction false} ShareRises(op: OperatorId, low: int, high: int)
    requires 1 <= low < high <= 5 && Partial(op)
    ensures Dose(op, low) < Dose(op, high)
  {
  }

  lemma {:induction false} StepsRise(op: OperatorId, low: int, high: int)
    requires 1 <= low < high <= 5 && (op.F3? || op.F4? || op.F5? || op.C2? || op.T1? || op.T2? || op.T3?)
    ensures 0 < Steps(op, low) < Steps(op, high)
  {
  }

  lemma {:induction false} FractionsMove(op: OperatorId, low: int, high: int)
    requires 1 <= low < high <= 5 && (op.F1? || op.F2? || op.F6? || op.F7?)
    ensures if op.F6? then 0.0 < Fraction(op, low) < Fraction(op, high) < 1.0
            else 0.0 < Fraction(op, high) < Fraction(op, low) < 1.0
  {
  }

  lemma {:induction false} PixelHardens(k: Instance, level: int, p: Parameters, q: Parameters)
    requires InstanceOk(k) && InstanceOk(k.(level := level)) && k.level < level && IsPixel(k.op)
    requires Registered(k, p) && Registered(k.(level := level), q)
    ensures NoMilder(p, q)
  {
    if k.op.F1? || k.op.F2? || k.op.F6? || k.op.F7? { FractionsMove(k.op, k.level, level); }
    else { StepsRise(k.op, k.level, level); }
  }

  lemma {:induction false} RoutingHardens(k: Instance, level: int, p: Parameters, q: Parameters)
    requires InstanceOk(k) && InstanceOk(k.(level := level)) && k.level < level && IsRouting(k.op)
    requires Registered(k, p) && Registered(k.(level := level), q)
    ensures NoMilder(p, q)
  {
    StepsRise(k.op, k.level, level);
  }

  /** A higher level of one fault in one window is never a milder fault. */
  lemma {:induction false} LevelsHarden(k: Instance, level: int, p: Parameters, q: Parameters)
    requires InstanceOk(k) && InstanceOk(k.(level := level)) && k.level < level
    requires Registered(k, p) && Registered(k.(level := level), q)
    ensures NoMilder(p, q)
  {
    if Partial(k.op) {
      PartialHardens(k, level, p, q);
    } else if IsPixel(k.op) {
      PixelHardens(k, level, p, q);
    } else {
      RoutingHardens(k, level, p, q);
    }
  }
}
