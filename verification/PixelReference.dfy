/**
 The independent pixel reference: what each pixel fault must have delivered, computed from
 the clean trace and the manifest alone.  Pixel values are exact reals rounded once, at the
 end, to 8-bit channels.
 */
module PixelReference {
  import opened Basics
  import opened OperatorParameters
  import opened Manifests
  import opened Records

  /** The two transcendental kernels, left abstract: exp, and the Euclidean RGB norm. */
  datatype Kernels = Kernels(exp: real -> real, norm: (real, real, real) -> real)

  /** Frozen no-contact frames, addressed by the digest a manifest binds. */
  datatype RestBundle = RestBundle(address: string, payloads: PerSlot<Picture>,
                                   calibration: PerSlot<Sha<string>>)

  function Height(p: Picture): nat {
    |p|
  }

  function Width(p: Picture): nat {
    |p[0]|
  }

  predicate SameShape(p: Picture, q: Picture) {
    Height(p) == Height(q) && Width(p) == Width(q)
  }

  predicate Inside(p: Picture, y: int, x: int) {
    0 <= y < Height(p) && 0 <= x < Width(p)
  }

  /** One of the three channels. */
  function Channel(v: Rgb, c: int): int {
    if c == 0 then v.r else if c == 1 then v.g else v.b
  }

  /** Paints a picture of the given shape channel by channel. */
  function Paint(shape: Picture, ink: (int, int, int) -> int): (p: Picture)
    ensures SameShape(p, shape)
    ensures forall y, x {:trigger p[y][x]} :: Inside(shape, y, x) ==>
              p[y][x] == Rgb(ink(y, x, 0), ink(y, x, 1), ink(y, x, 2))
  {
    seq(Height(shape), y => seq(Width(shape), x => Rgb(ink(y, x, 0), ink(y, x, 1), ink(y, x, 2))))
  }

  function Clip(v: real): real {
    if v < 0.0 then 0.0 else if v > 1.0 then 1.0 else v
  }

  function Normalize(v: int): real {
    Clip(v as real / 255.0)
  }

  function Restore(v: real): int {
    Rint(Clip(v) * 255.0)
  }

  /** The normalized channel at a pixel (0 outside the picture, where it is never read). */
  function Lit(p: Picture, y: int, x: int, c: int): real {
    if Inside(p, y, x) then Normalize(Channel(p[y][x], c)) else 0.0
  }

  function MaxReal(a: real, b: real): real {
    if a >= b then a else b
  }

  function Abs(v: real): real {
    if v >= 0.0 then v else -v
  }

  function ShortSide(p: Picture): nat {
    if Height(p) <= Width(p) then Height(p) else Width(p)
  }

  // ------------------------------------------------------------ F1, F2, F3, F4, C2

  function DriftGain(m: FaultManifest, index: int): real
    requires m.parameters.GlobalDrift?
  {
    var span := Max(1, m.instance.stop - m.instance.start - 1);
    1.0 - (1.0 - m.parameters.gain) * ((index - m.instance.start) as real / span as real)
  }

  function GlobalDriftPicture(p: Picture, m: FaultManifest, index: int): Picture
    requires m.parameters.GlobalDrift?
  {
    Paint(p, DriftInk(p, DriftGain(m, index)))
  }

  function DriftInk(p: Picture, gain: real): (int, int, int) -> int {
    (y, x, c) => Gained(Lit(p, y, x, c), gain)
  }

  function Gained(lit: real, gain: real): int {
    Restore(lit * gain)
  }

  function SquaredDistance(y: int, x: int, cy: real, cx: real): real {
    (x as real - cx) * (x as real - cx) + (y as real - cy) * (y as real - cy)
  }

  function SensitivityPicture(k: Kernels, p: Picture, rest: Picture, m: FaultManifest): Picture
    requires m.parameters.SensitivityLoss?
  {
    Paint(p, SensitivityInk(k, p, rest, m.parameters.gain, HeatWidth(p), Across(Height(p), m.parameters.centerY),
                            Across(Width(p), m.parameters.centerX)))
  }

  /** A fraction of an extent. */
  function Across(extent: nat, fraction: real): real {
    extent as real * fraction
  }

  function HeatWidth(p: Picture): (sigma: real)
    ensures sigma > 0.0
  {
    MaxReal(2.0, ShortSide(p) as real * 0.22)
  }

  function SensitivityInk(k: Kernels, p: Picture, rest: Picture, retained: real, sigma: real, cy: real, cx: real)
    : (int, int, int) -> int
    requires sigma > 0.0
  {
    (y, x, c) =>
      Attenuated(Lit(rest, y, x, c), Lit(p, y, x, c), retained, Heat(k, sigma, SquaredDistance(y, x, cy, cx)))
  }

  /** A residual over the rest frame, attenuated where it is hot. */
  function Attenuated(rest: real, lit: real, retained: real, heat: real): int {
    var gain := 1.0 - (1.0 - retained) * heat;
    Restore(rest + gain * (lit - rest))
  }

  function Heat(k: Kernels, sigma: real, squared: real): real
    requires sigma > 0.0
  {
    k.exp(-squared / (2.0 * sigma * sigma))
  }

  function ScarDelta(scalar: int, c: int): real {
    scalar as real * (if c == 0 then 0.035 else if c == 1 then -0.018 else 0.010)
  }

  function ScarPicture(p: Picture, m: FaultManifest): Picture
    requires m.parameters.SurfaceArtifact?
  {
    Paint(p, ScarInk(p, m.parameters.intercept, m.parameters.scalar))
  }

  function ScarInk(p: Picture, intercept: real, scalar: int): (int, int, int) -> int {
    (y, x, c) =>
      var distance := Abs(y as real - (0.45 * x as real + Height(p) as real * intercept));
      Tinted(Lit(p, y, x, c), if distance <= ScarHalfWidth(scalar) then ScarDelta(scalar, c) else 0.0)
  }

  function Tinted(lit: real, delta: real): int {
    Restore(lit + delta)
  }

  /** F4 copies raw pixels; C2 shifts them over the rest frame. */
  function Raw(p: Picture, y: int, x: int, c: int): int {
    if Inside(p, y, x) then Channel(p[y][x], c) else 0
  }

  function PatchPicture(p: Picture, rest: Picture, m: FaultManifest): Picture
    requires m.parameters.LocalPatch?
  {
    Paint(p, PatchInk(p, rest, PatchRadius(p, m.parameters.scalar), Across(Height(p), m.parameters.centerY),
                      Across(Width(p), m.parameters.centerX)))
  }

  function PatchRadius(p: Picture, scalar: int): int {
    Max(2, Rint(Across(ShortSide(p), PatchFraction(scalar))))
  }

  function PatchInk(p: Picture, rest: Picture, radius: int, cy: real, cx: real): (int, int, int) -> int {
    (y, x, c) =>
      if SquaredDistance(y, x, cy, cx) <= (radius * radius) as real then Raw(rest, y, x, c) else Raw(p, y, x, c)
  }

  function ShiftPicture(p: Picture, rest: Picture, m: FaultManifest): Picture
    requires m.parameters.Misregistration?
  {
    Paint(rest, ShiftInk(p, rest, m.parameters.shift))
  }

  function ShiftInk(p: Picture, rest: Picture, shift: int): (int, int, int) -> int {
    (y, x, c) => if shift < Width(p) && shift <= x then Raw(p, y, x - shift, c) else Raw(rest, y, x, c)
  }

  // ------------------------------------------------------------------------- F5

  predicate ContactActive(phase: ContactPhase) {
    phase.Onset? || phase.Sustained?
  }

  /** The frame geometry of a warp: centre, support radius and peak displacement. */
  datatype Warp = Warp(cx: real, cy: real, radius: real, peak: real)

  function WarpOf(p: Picture, m: FaultManifest): Warp
    requires m.parameters.ShapeDistortion?
  {
    Warp(m.parameters.centerX * (Width(p) - 1) as real, m.parameters.centerY * (Height(p) - 1) as real,
         ShortSide(p) as real * 0.30, m.parameters.displacement as real)
  }

  /** One minus the squared normalized distance: positive exactly on the support. */
  function Depth(w: Warp, y: int, x: int): real
    requires w.radius > 0.0
  {
    var u, v := (x as real - w.cx) / w.radius, (y as real - w.cy) / w.radius;
    1.0 - (u * u + v * v)
  }

  predicate Support(w: Warp, y: int, x: int)
    requires w.radius > 0.0
  {
    Depth(w, y, x) > 0.0
  }

  function Weight(w: Warp, y: int, x: int): real
    requires w.radius > 0.0
  {
    if Support(w, y, x) then Depth(w, y, x) * Depth(w, y, x) else 0.0
  }

  /** Where the warp reads a pixel from, on its own row. */
  function SourceX(w: Warp, y: int, x: int): real
    requires w.radius > 0.0
  {
    x as real - w.peak * Weight(w, y, x)
  }

  /** The two guards of the reference: the map stays in the frame, and never folds. */
  predicate WarpInFrame(w: Warp, height: nat, width: nat)
    requires w.radius > 0.0
  {
    forall y, x :: 0 <= y < height && 0 <= x < width && Support(w, y, x) ==>
      0.0 <= SourceX(w, y, x) <= (width - 1) as real
  }

  predicate WarpUnfolded(w: Warp, height: nat, width: nat)
    requires w.radius > 0.0
  {
    forall y, x :: 0 <= y < height && 0 <= x && x + 1 < width ==> SourceX(w, y, x) < SourceX(w, y, x + 1)
  }

  function WarpPicture(p: Picture, m: FaultManifest): Picture
    requires m.parameters.ShapeDistortion?
  {
    WarpBy(p, WarpOf(p, m))
  }

  function WarpBy(p: Picture, w: Warp): Picture
    requires w.radius > 0.0
  {
    Paint(p, WarpInk(p, w))
  }

  function WarpInk(p: Picture, w: Warp): (int, int, int) -> int
    requires w.radius > 0.0
  {
    (y, x, c) => if Support(w, y, x) then Between(p, y, SourceX(w, y, x), c) else Raw(p, y, x, c)
  }

  /** A row read between two columns. */
  function Between(p: Picture, y: int, at: real, c: int): int {
    var left := at.Floor;
    var right := Min(left + 1, Width(p) - 1);
    var fraction := at - left as real;
    Mixed(Lit(p, y, left, c), Lit(p, y, right, c), fraction)
  }

  function Mixed(left: real, right: real, fraction: real): int {
    Restore((1.0 - fraction) * left + fraction * right)
  }

  // ------------------------------------------------------------------------- F6

  const BETA := 0.72

  /** An exponentially weighted history, updated once per frame from the first on. */
  function History(residual: int -> real, n: nat): real {
    BETA * (if n == 0 then 0.0 else History(residual, n - 1)) + (1.0 - BETA) * residual(n)
  }

  /** The residual of a channel over the whole trace; frames before the window count. */
  function Residual(clean: seq<EvaluationRecord>, rest: Picture, slot: Slot, y: int, x: int, c: int)
    : int -> real
  {
    i => if 0 <= i < |clean| && clean[i].Sensor(slot).payload.Some?
         then Lit(clean[i].Sensor(slot).payload.value, y, x, c) - Lit(rest, y, x, c) else 0.0
  }

  /** The delivered channel of an imprint: part of the residual replaced by its history. */
  function Imprint(rest: real, residual: real, history: real, mix: real): int {
    Restore(rest + (1.0 - mix) * residual + mix * history)
  }

  function ImprintPicture(clean: seq<EvaluationRecord>, rest: Picture, slot: Slot, m: FaultManifest, n: nat)
    : Picture
    requires m.parameters.HistoryImprint?
  {
    Paint(rest, ImprintInk(clean, rest, slot, m.parameters.mix, n))
  }

  function ImprintInk(clean: seq<EvaluationRecord>, rest: Picture, slot: Slot, mix: real, n: nat)
    : (int, int, int) -> int
  {
    (y, x, c) =>
      var residual := Residual(clean, rest, slot, y, x, c);
      Imprint(Lit(rest, y, x, c), residual(n), History(residual, n), mix)
  }

  // ------------------------------------------------------------------------- F7

  /** Index i of a length-n axis after reflection about its ends, edges not repeated. */
  function Reflect(length: int, i: int): int
    requires length >= 1
  {
    if length == 1 then 0
    else
      var period := 2 * (length - 1);
      var raw := i % period;
      if raw < length then raw else period - raw
  }

  function Sum(f: int -> real, lo: int, hi: int): real
    decreases hi - lo
  {
    if hi < lo then 0.0 else Sum(f, lo, hi - 1) + f(hi)
  }

  /** The mean of f over the offsets -radius..radius. */
  function Mean(f: int -> real, radius: nat): real {
    Sum(f, 0 - radius, radius) / (2 * radius + 1) as real
  }

  function AnchorRadius(p: Picture): nat {
    var requested := Max(2, (0.06 * ShortSide(p) as real + 0.5).Floor);
    Min((ShortSide(p) - 1) / 2, requested)
  }

  /** The separable box anchor: a vertical mean of reflected rows, then a horizontal mean. */
  function VerticalMean(p: Picture, y: int, x: int, c: int): real {
    Mean(ColumnAbout(p, y, x, c), AnchorRadius(p))
  }

  function Anchor(p: Picture, y: int, x: int, c: int): real {
    Mean(RowAbout(p, y, x, c), AnchorRadius(p))
  }

  function ColumnAbout(p: Picture, y: int, x: int, c: int): int -> real {
    o => Lit(p, Reflect(Height(p), y + o), x, c)
  }

  function RowAbout(p: Picture, y: int, x: int, c: int): int -> real {
    o => VerticalMean(p, y, Reflect(Width(p), x + o), c)
  }

  /** How much of an excess over the knee survives on a plateau of the given width. */
  function Plateau(width: real, excess: real): real
    requires width > 0.0 && excess >= 0.0
  {
    width * excess / (width + excess)
  }

  /** Identity up to the knee, then a rational approach to knee + plateau. */
  function Compress(knee: real, magnitude: real): real
    requires knee > 0.0
  {
    var plateau, excess := knee * 0.35, MaxReal(magnitude - knee, 0.0);
    if magnitude <= knee then magnitude else knee + Plateau(plateau, excess)
  }

  function SaturationPicture(k: Kernels, p: Picture, m: FaultManifest): Picture
    requires m.parameters.Saturation? && m.parameters.knee > 0.0
  {
    Paint(p, SaturationInk(k, p, m.parameters.knee))
  }

  function SaturationInk(k: Kernels, p: Picture, knee: real): (int, int, int) -> int
    requires knee > 0.0
  {
    (y, x, c) =>
      var magnitude := k.norm(Detail(p, y, x, 0), Detail(p, y, x, 1), Detail(p, y, x, 2));
      var scale := if magnitude > 0.000000000001 then Compress(knee, magnitude) / magnitude else 1.0;
      Rescaled(Anchor(p, y, x, c), Detail(p, y, x, c), scale)
  }

  function Rescaled(anchor: real, detail: real, scale: real): int {
    Restore(anchor + scale * detail)
  }

  /** What of a channel the anchor does not explain. */
  function Detail(p: Picture, y: int, x: int, c: int): real {
    Lit(p, y, x, c) - Anchor(p, y, x, c)
  }

  // ------------------------------------------------------- the reference realization

  predicate NeedsBaseline(op: OperatorId) {
    op.F2? || op.F4? || op.F6? || op.C2?
  }

  /** Refusals that apply to every frame, inside the window or not. */
  predicate FrameReadable(clean: seq<EvaluationRecord>, m: FaultManifest, rest: Option<RestBundle>,
                          index: int, slot: Slot)
    requires 0 <= index < |clean| && ParametersFit(m.instance.op, m.parameters)
  {
    && clean[index].Sensor(slot).payload.Some?
    && (NeedsBaseline(m.instance.op) ==>
          && rest.Some? && rest.value.address == m.parameters.rest
          && (m.instance.op.F6? || m.Active(index) ==>
                SameShape(clean[index].Sensor(slot).payload.value, rest.value.payloads.At(slot))))
    && (m.instance.op.F5? && m.Active(index) && ContactActive(clean[index].Prov(slot).phase) ==>
          var p := clean[index].Sensor(slot).payload.value;
          WarpInFrame(WarpOf(p, m), Height(p), Width(p)) && WarpUnfolded(WarpOf(p, m), Height(p), Width(p)))
  }

  /** The picture the manifest dictates for one in-window frame and slot. */
  function ExpectedPicture(k: Kernels, clean: seq<EvaluationRecord>, m: FaultManifest,
                           rest: Option<RestBundle>, index: nat, slot: Slot): Picture
    requires index < |clean| && ManifestOk(m) && IsPixel(m.instance.op)
    requires FrameReadable(clean, m, rest, index, slot)
  {
    var p, phase := clean[index].Sensor(slot).payload.value, clean[index].Prov(slot).phase;
    match m.instance.op
    case F1 => GlobalDriftPicture(p, m, index)
    case F2 => SensitivityPicture(k, p, rest.value.payloads.At(slot), m)
    case F3 => ScarPicture(p, m)
    case F4 => PatchPicture(p, rest.value.payloads.At(slot), m)
    case F5 => if ContactActive(phase) then WarpPicture(p, m) else p
    case F6 => ImprintPicture(clean, rest.value.payloads.At(slot), slot, m, index)
    case F7 => if ContactActive(phase) then SaturationPicture(k, p, m) else p
    case C2 => ShiftPicture(p, rest.value.payloads.At(slot), m)
  }

  /** When the reference can be computed at all. */
  predicate TraceReadable(clean: seq<EvaluationRecord>, m: FaultManifest, rest: Option<RestBundle>)
    requires ParametersFit(m.instance.op, m.parameters)
  {
    && (m.instance.op.F6? ==> rest.Some? && rest.value.address == m.parameters.rest)
    && forall i, slot :: 0 <= i < |clean| && slot in m.instance.slots ==> FrameReadable(clean, m, rest, i, slot)
  }

  type Plane = seq<seq<seq<real>>>

  function PlaneOf(shape: Picture, value: (int, int, int) -> real): (p: Plane)
    ensures |p| == Height(shape)
    ensures forall y :: 0 <= y < |p| ==> |p[y]| == Width(shape)
    ensures forall y, x {:trigger p[y][x]} :: Inside(shape, y, x) ==>
              p[y][x] == [value(y, x, 0), value(y, x, 1), value(y, x, 2)]
  {
    seq(Height(shape), y => seq(Width(shape), x => [value(y, x, 0), value(y, x, 1), value(y, x, 2)]))
  }

  function PlaneAt(p: Plane, y: int, x: int, c: int): real {
    if 0 <= y < |p| && 0 <= x < |p[y]| && 0 <= c < |p[y][x]| then p[y][x][c] else 0.0
  }

  /** The history plane of a slot before frame n. */
  function HistoryPlane(clean: seq<EvaluationRecord>, rest: Picture, slot: Slot, n: nat): Plane {
    PlaneOf(rest, (y, x, c) => if n == 0 then 0.0 else History(Residual(clean, rest, slot, y, x, c), n - 1))
  }

  lemma {:induction false} PlanesAgree(shape: Picture, f: (int, int, int) -> real, g: (int, int, int) -> real)
    requires forall y, x, c :: Inside(shape, y, x) && 0 <= c < 3 ==> f(y, x, c) == g(y, x, c)
    ensures PlaneOf(shape, f) == PlaneOf(shape, g)
  {
    var p, q := PlaneOf(shape, f), PlaneOf(shape, g);
    forall y | 0 <= y < |p| ensures p[y] == q[y] {
      forall x | 0 <= x < |p[y]| ensures p[y][x] == q[y][x] {
        assert Inside(shape, y, x);
      }
    }
  }

  lemma {:induction false} PaintsAgree(shape: Picture, f: (int, int, int) -> int, g: (int, int, int) -> int)
    requires forall y, x, c :: Inside(shape, y, x) && 0 <= c < 3 ==> f(y, x, c) == g(y, x, c)
    ensures Paint(shape, f) == Paint(shape, g)
  {
    var p, q := Paint(shape, f), Paint(shape, g);
    forall y | 0 <= y < |p| ensures p[y] == q[y] {
      forall x | 0 <= x < |p[y]| ensures p[y][x] == q[y][x] {
        assert Inside(shape, y, x);
      }
    }
  }

  /** One F6 update of a stored history plane. */
  function NextPlane(previous: Plane, clean: seq<EvaluationRecord>, rest: Picture, slot: Slot, n: nat): Plane {
    PlaneOf(rest, (y, x, c) => BETA * PlaneAt(previous, y, x, c)
                               + (1.0 - BETA) * Residual(clean, rest, slot, y, x, c)(n))
  }

  lemma {:induction false} NextPlaneIsHistory(clean: seq<EvaluationRecord>, rest: Picture, slot: Slot, n: nat)
    ensures NextPlane(HistoryPlane(clean, rest, slot, n), clean, rest, slot, n)
            == HistoryPlane(clean, rest, slot, n + 1)
  {
    var f := (y, x, c) => BETA * PlaneAt(HistoryPlane(clean, rest, slot, n), y, x, c)
                          + (1.0 - BETA) * Residual(clean, rest, slot, y, x, c)(n);
    var g := (y, x, c) => if n + 1 == 0 then 0.0 else History(Residual(clean, rest, slot, y, x, c), n + 1 - 1);
    forall y, x, c | Inside(rest, y, x) && 0 <= c < 3 ensures f(y, x, c) == g(y, x, c) {
      var plane := HistoryPlane(clean, rest, slot, n);
      assert plane[y][x][c] == if n == 0 then 0.0 else History(Residual(clean, rest, slot, y, x, c), n - 1);
    }
    PlanesAgree(rest, f, g);
  }

  function ImprintFromPlane(clean: seq<EvaluationRecord>, rest: Picture, slot: Slot, m: FaultManifest,
                            n: nat, plane: Plane): Picture
    requires m.parameters.HistoryImprint?
  {
    Paint(rest, (y, x, c) => Imprint(Lit(rest, y, x, c), Residual(clean, rest, slot, y, x, c)(n),
                                     PlaneAt(plane, y, x, c), m.parameters.mix))
  }

  lemma {:induction false} ImprintFromHistory(clean: seq<EvaluationRecord>, rest: Picture, slot: Slot,
                                              m: FaultManifest, n: nat)
    requires m.parameters.HistoryImprint?
    ensures ImprintFromPlane(clean, rest, slot, m, n, HistoryPlane(clean, rest, slot, n + 1))
            == ImprintPicture(clean, rest, slot, m, n)
  {
    var plane, mix := HistoryPlane(clean, rest, slot, n + 1), m.parameters.mix;
    var f := (y, x, c) => Imprint(Lit(rest, y, x, c), Residual(clean, rest, slot, y, x, c)(n),
                                  PlaneAt(plane, y, x, c), mix);
    var g := (y, x, c) => var residual := Residual(clean, rest, slot, y, x, c);
                          Imprint(Lit(rest, y, x, c), residual(n), History(residual, n), mix);
    forall y, x, c | Inside(rest, y, x) && 0 <= c < 3 ensures f(y, x, c) == g(y, x, c) {
      assert PlaneAt(plane, y, x, c) == plane[y][x][c];
      assert plane[y][x][c] == History(Residual(clean, rest, slot, y, x, c), n);
    }
    PaintsAgree(rest, f, g);
  }

  type Pictures = map<(int, Slot), Picture>

  predicate InWindow(clean: seq<EvaluationRecord>, m: FaultManifest, index: int, slot: Slot) {
    0 <= index < |clean| && m.Active(index) && slot in m.instance.slots
  }

  /** The pictures recorded so far: all slots of earlier frames, and the `done` slots of
      frame `index`. */
  ghost predicate Recorded(output: Pictures, k: Kernels, clean: seq<EvaluationRecord>, m: FaultManifest,
                           rest: Option<RestBundle>, index: nat, done: seq<Slot>)
    requires ManifestOk(m) && IsPixel(m.instance.op)
  {
    && (forall i, s :: (i, s) in output <==>
          InWindow(clean, m, i, s) && (i < index || (i == index && s in done)))
    && (forall i, s :: (i, s) in output ==>
          FrameReadable(clean, m, rest, i, s) && output[(i, s)] == ExpectedPicture(k, clean, m, rest, i, s))
  }

  lemma {:induction false} RecordSlot(output: Pictures, k: Kernels, clean: seq<EvaluationRecord>, m: FaultManifest,
                                      rest: Option<RestBundle>, index: nat, done: seq<Slot>, slot: Slot)
    requires ManifestOk(m) && IsPixel(m.instance.op)
    requires Recorded(output, k, clean, m, rest, index, done)
    requires index < |clean| && slot in m.instance.slots && FrameReadable(clean, m, rest, index, slot)
    ensures m.Active(index) ==>
              Recorded(output[(index, slot) := ExpectedPicture(k, clean, m, rest, index, slot)],
                       k, clean, m, rest, index, done + [slot])
    ensures !m.Active(index) ==> Recorded(output, k, clean, m, rest, index, done + [slot])
  {
  }

  lemma {:induction false} RecordedRow(output: Pictures, k: Kernels, clean: seq<EvaluationRecord>,
                                       m: FaultManifest, rest: Option<RestBundle>, index: nat)
    requires ManifestOk(m) && IsPixel(m.instance.op)
    requires Recorded(output, k, clean, m, rest, index, m.instance.slots)
    ensures Recorded(output, k, clean, m, rest, index + 1, [])
  {
  }

  /** The histories held while frame `index` is processed: one step ahead on `done` slots. */
  ghost predicate HistoriesHeld(histories: map<Slot, Plane>, clean: seq<EvaluationRecord>, m: FaultManifest,
                                rest: Option<RestBundle>, index: nat, done: seq<Slot>)
  {
    m.instance.op.F6? ==>
      (&& rest.Some?
       && (forall s <- m.instance.slots :: s in histories)
       && forall s <- m.instance.slots ::
            histories[s] == HistoryPlane(clean, rest.value.payloads.At(s), s,
                                         if s in done then index + 1 else index))
  }

  /** One frame of one slot: the history update, then the picture. */
  method ExpectedSlot(k: Kernels, clean: seq<EvaluationRecord>, m: FaultManifest, rest: Option<RestBundle>,
                      index: nat, slot: Slot, histories: map<Slot, Plane>, ghost done: seq<Slot>)
    returns (next: map<Slot, Plane>, picture: Picture)
    requires ManifestOk(m) && IsPixel(m.instance.op) && index < |clean|
    requires slot in m.instance.slots && slot !in done
    requires FrameReadable(clean, m, rest, index, slot)
    requires HistoriesHeld(histories, clean, m, rest, index, done)
    ensures HistoriesHeld(next, clean, m, rest, index, done + [slot])
    ensures picture == ExpectedPicture(k, clean, m, rest, index, slot)
  {
    if m.instance.op.F6? {
      var frame := rest.value.payloads.At(slot);
      NextPlaneIsHistory(clean, frame, slot, index);
      ImprintFromHistory(clean, frame, slot, m, index);
      next := histories[slot := NextPlane(histories[slot], clean, frame, slot, index)];
      picture := ImprintFromPlane(clean, frame, slot, m, index, next[slot]);
    } else {
      next := histories;
      picture := ExpectedPicture(k, clean, m, rest, index, slot);
    }
  }

  predicate SlotsReadable(clean: seq<EvaluationRecord>, m: FaultManifest, rest: Option<RestBundle>, index: nat,
                          slots: seq<Slot>)
    requires ParametersFit(m.instance.op, m.parameters) && index < |clean|
  {
    forall s <- slots :: FrameReadable(clean, m, rest, index, s)
  }

  lemma {:induction false} ReadableNext(clean: seq<EvaluationRecord>, m: FaultManifest, rest: Option<RestBundle>,
                                        index: nat, slots: seq<Slot>, n: nat)
    requires ParametersFit(m.instance.op, m.parameters) && index < |clean| && n < |slots|
    requires SlotsReadable(clean, m, rest, index, slots[..n]) && FrameReadable(clean, m, rest, index, slots[n])
    ensures SlotsReadable(clean, m, rest, index, slots[..n + 1]) && slots[..n + 1] == slots[..n] + [slots[n]]
  {
  }

  /** One frame of one slot, recorded. */
  method RecordedSlot(k: Kernels, clean: seq<EvaluationRecord>, m: FaultManifest, rest: Option<RestBundle>,
                      index: nat, slot: Slot, before: Pictures, earlier: map<Slot, Plane>, ghost done: seq<Slot>)
    returns (output: Pictures, histories: map<Slot, Plane>)
    requires ManifestOk(m) && IsPixel(m.instance.op) && index < |clean|
    requires slot in m.instance.slots && slot !in done && FrameReadable(clean, m, rest, index, slot)
    requires Recorded(before, k, clean, m, rest, index, done) && HistoriesHeld(earlier, clean, m, rest, index, done)
    ensures Recorded(output, k, clean, m, rest, index, done + [slot])
    ensures HistoriesHeld(histories, clean, m, rest, index, done + [slot])
  {
    RecordSlot(before, k, clean, m, rest, index, done, slot);
    var picture;
    histories, picture := ExpectedSlot(k, clean, m, rest, index, slot, earlier, done);
    output := if m.Active(index) then before[(index, slot) := picture] else before;
  }

  lemma {:induction false} HistoriesRow(histories: map<Slot, Plane>, clean: seq<EvaluationRecord>, m: FaultManifest,
                                        rest: Option<RestBundle>, index: nat)
    requires HistoriesHeld(histories, clean, m, rest, index, m.instance.slots)
    ensures HistoriesHeld(histories, clean, m, rest, index + 1, [])
  {
  }

  /** All declared slots of one frame, in manifest order. */
  method ExpectedRow(k: Kernels, clean: seq<EvaluationRecord>, m: FaultManifest, rest: Option<RestBundle>,
                     index: nat, before: Pictures, earlier: map<Slot, Plane>)
    returns (ok: bool, output: Pictures, histories: map<Slot, Plane>)
    requires ManifestOk(m) && IsPixel(m.instance.op) && index < |clean|
    requires Recorded(before, k, clean, m, rest, index, [])
    requires HistoriesHeld(earlier, clean, m, rest, index, [])
    ensures ok <==> SlotsReadable(clean, m, rest, index, m.instance.slots)
    ensures ok ==> Recorded(output, k, clean, m, rest, index + 1, [])
    ensures ok ==> HistoriesHeld(histories, clean, m, rest, index + 1, [])
  {
    output, histories := before, earlier;
    var slots, n := m.instance.slots, 0;
    SlotsDistinct(m);
    while n < |slots|
      invariant 0 <= n <= |slots|
      invariant SlotsReadable(clean, m, rest, index, slots[..n])
      invariant Recorded(output, k, clean, m, rest, index, slots[..n])
      invariant HistoriesHeld(histories, clean, m, rest, index, slots[..n])
    {
      var slot := slots[n];
      if !FrameReadable(clean, m, rest, index, slot) { return false, output, histories; }
      ReadableNext(clean, m, rest, index, slots, n);
      output, histories := RecordedSlot(k, clean, m, rest, index, slot, output, histories, slots[..n]);
      n := n + 1;
    }
    assert slots[..n] == slots;
    RecordedRow(output, k, clean, m, rest, index);
    HistoriesRow(histories, clean, m, rest, index);
    ok := true;
  }

  lemma {:induction false} SlotsDistinct(m: FaultManifest)
    requires ManifestOk(m)
    ensures forall i, j :: 0 <= i < j < |m.instance.slots| ==> m.instance.slots[i] != m.instance.slots[j]
  {
  }

  /** The rest frames are the ones the manifest names. */
  predicate RestBound(m: FaultManifest, rest: Option<RestBundle>)
    requires ParametersFit(m.instance.op, m.parameters) && m.instance.op.F6?
  {
    rest.Some? && rest.value.address == m.parameters.rest
  }

  /** The first n rows can be read. */
  predicate RowsReadable(clean: seq<EvaluationRecord>, m: FaultManifest, rest: Option<RestBundle>, n: nat)
    requires ParametersFit(m.instance.op, m.parameters) && n <= |clean|
  {
    forall i :: 0 <= i < n ==> SlotsReadable(clean, m, rest, i, m.instance.slots)
  }

  lemma {:induction false} RowsNext(clean: seq<EvaluationRecord>, m: FaultManifest, rest: Option<RestBundle>, n: nat)
    requires ParametersFit(m.instance.op, m.parameters) && n < |clean|
    requires RowsReadable(clean, m, rest, n) && SlotsReadable(clean, m, rest, n, m.instance.slots)
    ensures RowsReadable(clean, m, rest, n + 1)
  {
  }

  lemma {:induction false} NothingRecorded(k: Kernels, clean: seq<EvaluationRecord>, m: FaultManifest,
                                           rest: Option<RestBundle>)
    requires ManifestOk(m) && IsPixel(m.instance.op)
    ensures Recorded(map[], k, clean, m, rest, 0, [])
  {
  }

  lemma {:induction false} RowsMakeTrace(clean: seq<EvaluationRecord>, m: FaultManifest, rest: Option<RestBundle>)
    requires ParametersFit(m.instance.op, m.parameters) && (m.instance.op.F6? ==> RestBound(m, rest))
    ensures RowsReadable(clean, m, rest, |clean|) <==> TraceReadable(clean, m, rest)
  {
    if RowsReadable(clean, m, rest, |clean|) {
      forall i, s | 0 <= i < |clean| && s in m.instance.slots ensures FrameReadable(clean, m, rest, i, s) {
        assert SlotsReadable(clean, m, rest, i, m.instance.slots);
      }
    }
  }

  /** The histories before the first frame. */
  method FirstHistories(clean: seq<EvaluationRecord>, m: FaultManifest, rest: Option<RestBundle>)
    returns (histories: map<Slot, Plane>)
    requires ParametersFit(m.instance.op, m.parameters) && (m.instance.op.F6? ==> RestBound(m, rest))
    ensures HistoriesHeld(histories, clean, m, rest, 0, [])
  {
    if m.instance.op.F6? {
      histories := map slot | slot in m.instance.slots :: HistoryPlane(clean, rest.value.payloads.At(slot), slot, 0);
    } else {
      histories := map[];
    }
  }

  /** Records row after row, until one cannot be read. */
  method ExpectedRows(k: Kernels, clean: seq<EvaluationRecord>, m: FaultManifest, rest: Option<RestBundle>,
                      first: map<Slot, Plane>) returns (ok: bool, output: Pictures)
    requires ManifestOk(m) && IsPixel(m.instance.op) && HistoriesHeld(first, clean, m, rest, 0, [])
    ensures ok <==> RowsReadable(clean, m, rest, |clean|)
    ensures ok ==> Recorded(output, k, clean, m, rest, |clean|, [])
  {
    output := map[];
    NothingRecorded(k, clean, m, rest);
    var histories, index := first, 0;
    while index < |clean|
      invariant 0 <= index <= |clean|
      invariant RowsReadable(clean, m, rest, index)
      invariant Recorded(output, k, clean, m, rest, index, [])
      invariant HistoriesHeld(histories, clean, m, rest, index, [])
    {
      ok, output, histories := ExpectedRow(k, clean, m, rest, index, output, histories);
      if !ok { return; }
      RowsNext(clean, m, rest, index);
      index := index + 1;
    }
    ok := true;
  }

  /** Materializes the expected pictures in one pass; histories run from the first frame. */
  method ExpectedPixelPayloads(k: Kernels, clean: seq<EvaluationRecord>, m: FaultManifest,
                               rest: Option<RestBundle>) returns (r: Reply<Pictures>)
    requires ManifestOk(m) && IsPixel(m.instance.op)
    ensures r.Returned? <==> TraceReadable(clean, m, rest)
    ensures r.Returned? ==> Recorded(r.value, k, clean, m, rest, |clean|, [])
  {
    if m.instance.op.F6? && !RestBound(m, rest) { return Raised(OtherError); }
    var first := FirstHistories(clean, m, rest);
    var ok, output := ExpectedRows(k, clean, m, rest, first);
    RowsMakeTrace(clean, m, rest);
    return if ok then Returned(output) else Raised(OtherError);
  }

  /** What a completed pass holds: exactly the in-window frames of the declared slots, each
      with the picture its manifest dictates. */
  lemma {:induction false} RecordedWhole(output: Pictures, k: Kernels, clean: seq<EvaluationRecord>,
                                         m: FaultManifest, rest: Option<RestBundle>, i: int, s: Slot)
    requires ManifestOk(m) && IsPixel(m.instance.op)
    requires Recorded(output, k, clean, m, rest, |clean|, [])
    ensures (i, s) in output <==> InWindow(clean, m, i, s)
    ensures InWindow(clean, m, i, s) ==> FrameReadable(clean, m, rest, i, s)
                                         && output[(i, s)] == ExpectedPicture(k, clean, m, rest, i, s)
  {
  }
}
