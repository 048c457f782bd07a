/** What each pixel fault makes of each channel, stated on 8-bit values. */
module PixelValues {
  import opened Basics
  import opened OperatorParameters
  import opened Manifests
  import opened Records
  import opened PixelReference
  import opened PixelProperties

  // ------------------------------------------------------------------ 8-bit channels

  /** The three channels of a pixel. */
  function Tones(v: Rgb): seq<int> {
    [v.r, v.g, v.b]
  }

  /** A channel at a pixel of a picture. */
  function Tone(p: Picture, y: int, x: int, c: int): int
    requires Inside(p, y, x) && 0 <= c < 3
  {
    Tones(p[y][x])[c]
  }

  ghost predicate EightBit(p: Picture) {
    forall y, x, c :: Inside(p, y, x) && 0 <= c < 3 ==> 0 <= Tone(p, y, x, c) <= 255
  }

  /** The nearest channel value, half to even, within the 8-bit range. */
  function Shade(v: real): int {
    Rint(if v < 0.0 then 0.0 else if v > 255.0 then 255.0 else v)
  }

  /** Rounding gives the nearest integer, and the even one of two. */
  lemma {:induction false} RintNearest(x: real, n: int)
    ensures Rint(x) as real - 0.5 <= x <= Rint(x) as real + 0.5
    ensures n as real - 0.5 < x < n as real + 0.5 ==> Rint(x) == n
    ensures (x == n as real - 0.5 || x == n as real + 0.5) && n % 2 == 0 ==> Rint(x) == n
  {
    var q := x.Floor;
    assert q as real <= x < q as real + 1.0;
    if x == n as real - 0.5 { assert q == n - 1; }
    if x == n as real + 0.5 { assert q == n; }
  }

  /** An 8-bit value is its own shade, and shades keep the order. */
  lemma {:induction false} ShadeKeeps(v: int, a: real, b: real)
    ensures 0 <= v <= 255 ==> Shade(v as real) == v
    ensures 0 <= Shade(a) <= 255
    ensures a <= b ==> Shade(a) <= Shade(b)
  {
    RintNearest(v as real, v);
    var x, y := if a < 0.0 then 0.0 else if a > 255.0 then 255.0 else a,
                if b < 0.0 then 0.0 else if b > 255.0 then 255.0 else b;
    RintNearest(x, 0);
    RintNearest(x, 255);
    RintOrder(x, y);
  }

  lemma {:induction false} RintOrder(x: real, y: real)
    ensures x <= y ==> Rint(x) <= Rint(y)
  {
  }

  lemma {:induction false} RestoreIsShade(v: real)
    ensures Restore(v) == Shade(255.0 * v)
  {
  }

  lemma {:induction false} LitIsTone(p: Picture, y: int, x: int, c: int)
    requires EightBit(p) && Inside(p, y, x) && 0 <= c < 3
    ensures Lit(p, y, x, c) == Tone(p, y, x, c) as real / 255.0 && Raw(p, y, x, c) == Tone(p, y, x, c)
  {
    assert 0 <= Tone(p, y, x, c) <= 255;
  }

  /** The picture a slot shows at a frame. */
  function Seen(clean: seq<EvaluationRecord>, index: nat, slot: Slot): Picture
    requires index < |clean| && clean[index].Sensor(slot).payload.Some?
  {
    clean[index].Sensor(slot).payload.value
  }

  /** A readable frame of 8-bit pictures, and one of its channels. */
  ghost predicate Legible(clean: seq<EvaluationRecord>, m: FaultManifest, rest: Option<RestBundle>, index: nat,
                          slot: Slot, y: int, x: int, c: int)
    requires ParametersFit(m.instance.op, m.parameters)
  {
    && index < |clean| && m.Active(index) && FrameReadable(clean, m, rest, index, slot)
    && EightBit(Seen(clean, index, slot)) && Inside(Seen(clean, index, slot), y, x) && 0 <= c < 3
    && (NeedsBaseline(m.instance.op) ==>
          EightBit(rest.value.payloads.At(slot)) && Inside(rest.value.payloads.At(slot), y, x))
  }

  // ------------------------------------------------------------------ F1

  /** The point i steps out of n on the way from a to b. */
  function Blend(a: real, b: real, i: int, n: int): real
    requires n > 0
  {
    ((n - i) as real * a + i as real * b) / n as real
  }

  lemma {:induction false} GainBlends(v: real, t: real, i: int, n: int, gain: real)
    requires n > 0 && gain == 1.0 - (1.0 - t) * (i as real / n as real)
    ensures gain * v == Blend(v, t * v, i, n)
  {
    Fades(v, t, i as real, n as real);
    assert (n - i) as real == n as real - i as real;
  }

  /** A shade is determined by what is restored. */
  lemma {:induction false} RestoresTo(share: real, x: real)
    requires 255.0 * share == x
    ensures Restore(share) == Shade(x)
  {
    RestoreIsShade(share);
  }

  lemma {:induction false} GainedShade(v: real, gain: real, x: real)
    requires gain * v == x
    ensures Gained(v / 255.0, gain) == Shade(x)
  {
    assert 255.0 * (v / 255.0 * gain) == gain * v;
    RestoresTo(v / 255.0 * gain, x);
  }

  /** The F1 gain, apart from its span. */
  lemma {:induction false} DriftGainIs(m: FaultManifest, index: int)
    requires m.parameters.GlobalDrift? && m.Active(index)
    ensures var (n, i) := (m.instance.stop - 1 - m.instance.start, index - m.instance.start);
            DriftGain(m, index) == if n == 0 then 1.0
                                   else 1.0 - (1.0 - m.parameters.gain) * (i as real / n as real)
  {
    if m.instance.stop - 1 == m.instance.start { assert 0 as real / 1 as real == 0.0; }
  }

  /** What F1 makes of one value: a linear fade from itself to the target gain of it. */
  function Faded(v: int, target: real, i: int, n: int): int
    requires 0 <= i <= n
  {
    if n == 0 then v else Shade(Blend(v as real, target * v as real, i, n))
  }

  lemma {:induction false} GainFades(v: int, target: real, i: int, n: int, gain: real)
    requires 0 <= i <= n && 0 <= v <= 255
    requires gain == if n == 0 then 1.0 else 1.0 - (1.0 - target) * (i as real / n as real)
    ensures Gained(v as real / 255.0, gain) == Faded(v, target, i, n)
  {
    if n == 0 {
      GainedShade(v as real, gain, v as real);
      ShadeKeeps(v, 0.0, 0.0);
    } else {
      GainBlends(v as real, target, i, n, gain);
      GainedShade(v as real, gain, Blend(v as real, target * v as real, i, n));
    }
  }

  /** A painted channel. */
  lemma {:induction false} PaintTone(shape: Picture, ink: (int, int, int) -> int, y: int, x: int, c: int)
    requires Inside(shape, y, x) && 0 <= c < 3
    ensures SameShape(Paint(shape, ink), shape) && Tone(Paint(shape, ink), y, x, c) == ink(y, x, c)
  {
    assert Paint(shape, ink)[y][x] == Rgb(ink(y, x, 0), ink(y, x, 1), ink(y, x, 2));
  }

  /** The ends of a blend, and what lies between. */
  lemma {:induction false} BlendRuns(a: real, b: real, i: int, n: int)
    requires 0 <= i <= n && n > 0
    ensures Blend(a, b, 0, n) == a && Blend(a, b, n, n) == b
    ensures i < n && b <= a ==> Blend(a, b, i + 1, n) <= Blend(a, b, i, n)
  {
    DivideOut(n as real * a, n as real, a);
    DivideOut(n as real * b, n as real, b);
    if i < n && b <= a {
      var from, to := (n - i) as real * a + i as real * b, (n - i - 1) as real * a + (i + 1) as real * b;
      assert from - to == a - b;
      DivideOrder(to, from, n as real);
    }
  }

  lemma {:induction false} DivideOrder(a: real, b: real, n: real)
    requires a <= b && n > 0.0
    ensures a / n <= b / n
  {
    var q, r := a / n, b / n;
    assert q * n == a && r * n == b;
    if q > r { ScaleStrict(r, q, n); }
  }

  lemma {:induction false} Fades(v: real, t: real, i: real, n: real)
    requires n > 0.0
    ensures (1.0 - (1.0 - t) * (i / n)) * v == ((n - i) * v + i * (t * v)) / n
    ensures i == 0.0 ==> ((n - i) * v + i * (t * v)) / n == v
    ensures i == n ==> ((n - i) * v + i * (t * v)) / n == t * v
  {
    var r := i / n;
    assert r * n == i;
    var total := (n - i) * v + i * (t * v);
    assert total == n * (v - r * v + r * (t * v)) by {
      assert i * (t * v) == n * (r * (t * v));
      assert i * v == n * (r * v);
    }
    DivideOut(total, n, v - r * v + r * (t * v));
    assert (1.0 - t) * r == r - t * r;
    assert (1.0 - (1.0 - t) * r) * v == v - v * r + v * (t * r);
    assert v * (t * r) == r * (t * v);
  }

  lemma {:induction false} DivideOut(total: real, n: real, share: real)
    requires n > 0.0 && total == n * share
    ensures total / n == share
  {
    var q := total / n;
    assert q * n == total;
    if q < share { ScaleStrict(q, share, n); }
    if q > share { ScaleStrict(share, q, n); }
  }

  /** F1 fades linearly over the window, channel by channel: from the clean value at its first frame
      to the target gain of it at its last. */
  lemma {:induction false} DriftValue(k: Kernels, clean: seq<EvaluationRecord>, m: FaultManifest,
                                      rest: Option<RestBundle>, index: nat, slot: Slot, y: int, x: int, c: int)
    requires ManifestOk(m) && m.instance.op.F1? && Legible(clean, m, rest, index, slot, y, x, c)
    ensures var (p, q) := (Seen(clean, index, slot), ExpectedPicture(k, clean, m, rest, index, slot));
            var (n, i) := (m.instance.stop - 1 - m.instance.start, index - m.instance.start);
            SameShape(q, p) && Tone(q, y, x, c) == Faded(Tone(p, y, x, c), m.parameters.gain, i, n)
  {
    DriftPainted(Seen(clean, index, slot), m, index, y, x, c);
  }

  lemma {:induction false} DriftInked(p: Picture, gain: real, y: int, x: int, c: int)
    requires EightBit(p) && Inside(p, y, x) && 0 <= c < 3
    ensures var q := Paint(p, DriftInk(p, gain));
            SameShape(q, p) && Tone(q, y, x, c) == Gained(Tone(p, y, x, c) as real / 255.0, gain)
  {
    PaintTone(p, DriftInk(p, gain), y, x, c);
    LitIsTone(p, y, x, c);
  }

  lemma {:induction false} DriftPainted(p: Picture, m: FaultManifest, index: int, y: int, x: int, c: int)
    requires m.parameters.GlobalDrift? && m.Active(index) && EightBit(p) && Inside(p, y, x) && 0 <= c < 3
    ensures var q := GlobalDriftPicture(p, m, index);
            var (n, i) := (m.instance.stop - 1 - m.instance.start, index - m.instance.start);
            SameShape(q, p) && Tone(q, y, x, c) == Faded(Tone(p, y, x, c), m.parameters.gain, i, n)
  {
    DriftInked(p, DriftGain(m, index), y, x, c);
    ToneBound(p, y, x, c);
    DriftFades(Tone(p, y, x, c), m, index);
  }

  lemma {:induction false} DriftFades(v: int, m: FaultManifest, index: int)
    requires m.parameters.GlobalDrift? && m.Active(index) && 0 <= v <= 255
    ensures Gained(v as real / 255.0, DriftGain(m, index))
            == Faded(v, m.parameters.gain, index - m.instance.start, m.instance.stop - 1 - m.instance.start)
  {
    DriftGainIs(m, index);
    GainFades(v, m.parameters.gain, index - m.instance.start, m.instance.stop - 1 - m.instance.start,
              DriftGain(m, index));
  }

  lemma {:induction false} ToneBound(p: Picture, y: int, x: int, c: int)
    requires EightBit(p) && Inside(p, y, x) && 0 <= c < 3
    ensures 0 <= Tone(p, y, x, c) <= 255
  {
  }

  // ------------------------------------------------------------------ F2

  /** What F2 makes of one value: the clean one where it is cold, and the residual over the rest
      frame attenuated where it is hot. */
  function Attenuation(v: real, r: real, retained: real, heat: real): real {
    (1.0 - heat) * v + heat * (r + retained * (v - r))
  }

  lemma {:induction false} AttenuatedShade(v: real, r: real, retained: real, heat: real)
    ensures Attenuated(r / 255.0, v / 255.0, retained, heat) == Shade(Attenuation(v, r, retained, heat))
  {
    var gain, gap := 1.0 - (1.0 - retained) * heat, v - r;
    GapScales(v, r, gain);
    GainSplits(gap, retained, heat);
    assert r + gap == v;
    assert heat * (r + retained * gap) == heat * r + heat * (retained * gap);
    assert (1.0 - heat) * v == v - heat * v;
    assert heat * v == heat * r + heat * gap;
    RestoresTo(r / 255.0 + gain * (v / 255.0 - r / 255.0), Attenuation(v, r, retained, heat));
  }

  lemma {:induction false} GapScales(v: real, r: real, gain: real)
    ensures 255.0 * (r / 255.0 + gain * (v / 255.0 - r / 255.0)) == r + gain * (v - r)
  {
    assert v / 255.0 - r / 255.0 == (v - r) / 255.0;
    assert 255.0 * (gain * ((v - r) / 255.0)) == gain * (v - r);
  }

  lemma {:induction false} GainSplits(gap: real, retained: real, heat: real)
    ensures (1.0 - (1.0 - retained) * heat) * gap == gap - heat * gap + heat * (retained * gap)
  {
    assert (1.0 - retained) * heat == heat - retained * heat;
    assert (retained * heat) * gap == heat * (retained * gap);
  }

  /** The squared length of an offset. */
  function Length2(dx: real, dy: real): real {
    dx * dx + dy * dy
  }

  lemma {:induction false} DistanceIs(y: int, x: int, cy: real, cx: real, dx: real, dy: real)
    requires dx == x as real - cx && dy == y as real - cy
    ensures SquaredDistance(y, x, cy, cx) == Length2(dx, dy)
  {
  }

  /** The offset of a pixel from the centre of a fault. */
  function OffsetX(p: Picture, x: int, centre: real): real {
    x as real - Width(p) as real * centre
  }

  function OffsetY(p: Picture, y: int, centre: real): real {
    y as real - Height(p) as real * centre
  }

  lemma {:induction false} CentreDistance(p: Picture, y: int, x: int, cy: real, cx: real)
    ensures SquaredDistance(y, x, Across(Height(p), cy), Across(Width(p), cx))
            == Length2(OffsetX(p, x, cx), OffsetY(p, y, cy))
  {
    DistanceIs(y, x, Across(Height(p), cy), Across(Width(p), cx), OffsetX(p, x, cx), OffsetY(p, y, cy));
  }

  /** A Gaussian of unit height. */
  function Bell2(k: Kernels, squared: real, sigma: real): real
    requires sigma > 0.0
  {
    k.exp(-squared / (2.0 * sigma * sigma))
  }

  lemma {:induction false} HeatIsBell(k: Kernels, squared: real, sigma: real)
    requires sigma > 0.0
    ensures Heat(k, sigma, squared) == Bell2(k, squared, sigma)
  {
  }

  /** How hot a pixel is: a Gaussian about the centre, as wide as 0.22 of the shorter side, but at
      least two pixels. */
  function HeatAt(k: Kernels, p: Picture, m: FaultManifest, y: int, x: int): real
    requires m.parameters.SensitivityLoss?
  {
    var short := if Height(p) <= Width(p) then Height(p) else Width(p);
    var sigma := if short as real * 0.22 > 2.0 then short as real * 0.22 else 2.0;
    Bell2(k, Length2(OffsetX(p, x, m.parameters.centerX), OffsetY(p, y, m.parameters.centerY)), sigma)
  }

  lemma {:induction false} HeatIs(k: Kernels, p: Picture, m: FaultManifest, y: int, x: int)
    requires m.parameters.SensitivityLoss?
    ensures Heat(k, HeatWidth(p), SquaredDistance(y, x, Across(Height(p), m.parameters.centerY),
                                                  Across(Width(p), m.parameters.centerX)))
            == HeatAt(k, p, m, y, x)
  {
    var squared := Length2(OffsetX(p, x, m.parameters.centerX), OffsetY(p, y, m.parameters.centerY));
    CentreDistance(p, y, x, m.parameters.centerY, m.parameters.centerX);
    HeatIsBell(k, squared, HeatWidth(p));
  }

  lemma {:induction false} SensitivityInked(k: Kernels, p: Picture, rest: Picture, retained: real, sigma: real,
                                            cy: real, cx: real, y: int, x: int, c: int)
    requires sigma > 0.0 && EightBit(p) && EightBit(rest) && Inside(p, y, x) && Inside(rest, y, x) && 0 <= c < 3
    ensures var q := Paint(p, SensitivityInk(k, p, rest, retained, sigma, cy, cx));
            && SameShape(q, p)
            && Tone(q, y, x, c) == Attenuated(Tone(rest, y, x, c) as real / 255.0, Tone(p, y, x, c) as real / 255.0,
                                              retained, Heat(k, sigma, SquaredDistance(y, x, cy, cx)))
  {
    PaintTone(p, SensitivityInk(k, p, rest, retained, sigma, cy, cx), y, x, c);
    LitIsTone(p, y, x, c);
    LitIsTone(rest, y, x, c);
  }

  lemma {:induction false} SensitivityPainted(k: Kernels, p: Picture, rest: Picture, m: FaultManifest, y: int, x: int,
                                              c: int)
    requires m.parameters.SensitivityLoss? && EightBit(p) && EightBit(rest) && SameShape(p, rest)
    requires Inside(p, y, x) && 0 <= c < 3
    ensures var q := SensitivityPicture(k, p, rest, m);
            && SameShape(q, p)
            && Tone(q, y, x, c) == Shade(Attenuation(Tone(p, y, x, c) as real, Tone(rest, y, x, c) as real,
                                                     m.parameters.gain, HeatAt(k, p, m, y, x)))
  {
    var cy, cx := Across(Height(p), m.parameters.centerY), Across(Width(p), m.parameters.centerX);
    HeatIs(k, p, m, y, x);
    SensitivityInked(k, p, rest, m.parameters.gain, HeatWidth(p), cy, cx, y, x, c);
    AttenuatedShade(Tone(p, y, x, c) as real, Tone(rest, y, x, c) as real, m.parameters.gain, HeatAt(k, p, m, y, x));
  }

  /** F2 dulls the contact near its centre: the deviation from the rest frame shrinks to the retained share
      of it at the centre, and is left as it was far away. */
  lemma {:induction false} SensitivityValue(k: Kernels, clean: seq<EvaluationRecord>, m: FaultManifest,
                                            rest: Option<RestBundle>, index: nat, slot: Slot, y: int, x: int, c: int)
    requires ManifestOk(m) && m.instance.op.F2? && Legible(clean, m, rest, index, slot, y, x, c)
    ensures var (p, r, q) := (Seen(clean, index, slot), rest.value.payloads.At(slot),
                              ExpectedPicture(k, clean, m, rest, index, slot));
            && SameShape(q, p)
            && Tone(q, y, x, c) == Shade(Attenuation(Tone(p, y, x, c) as real, Tone(r, y, x, c) as real,
                                                     m.parameters.gain, HeatAt(k, p, m, y, x)))
  {
    SensitivityPainted(k, Seen(clean, index, slot), rest.value.payloads.At(slot), m, y, x, c);
  }

  // ------------------------------------------------------------------ F3

  /** The scar: a band about a line of slope 0.45, at least one pixel to either side. */
  predicate OnScar(p: Picture, m: FaultManifest, y: int, x: int)
    requires m.parameters.SurfaceArtifact?
  {
    var off := y as real - 0.45 * x as real - Height(p) as real * m.parameters.intercept;
    var half := if m.parameters.scalar as real * 0.6 > 1.0 then m.parameters.scalar as real * 0.6 else 1.0;
    -half <= off <= half
  }

  /** The tint of one severity step, in channel units: more red, less green, a little more blue. */
  const TINT := [8.925, -4.59, 2.55]

  lemma {:induction false} TintedShade(v: real, delta: real, x: real)
    requires v + 255.0 * delta == x
    ensures Tinted(v / 255.0, delta) == Shade(x)
  {
    RestoresTo(v / 255.0 + delta, x);
  }

  lemma {:induction false} ScarBand(p: Picture, m: FaultManifest, y: int, x: int)
    requires m.parameters.SurfaceArtifact?
    ensures var off := Abs(y as real - (0.45 * x as real + Height(p) as real * m.parameters.intercept));
            off <= ScarHalfWidth(m.parameters.scalar) <==> OnScar(p, m, y, x)
  {
  }

  lemma {:induction false} TintIs(scalar: int, c: int)
    requires 0 <= c < 3
    ensures 255.0 * ScarDelta(scalar, c) == scalar as real * TINT[c]
  {
  }

  lemma {:induction false} ScarInked(p: Picture, intercept: real, scalar: int, y: int, x: int, c: int)
    requires EightBit(p) && Inside(p, y, x) && 0 <= c < 3
    ensures var q := Paint(p, ScarInk(p, intercept, scalar));
            var on := Abs(y as real - (0.45 * x as real + Height(p) as real * intercept)) <= ScarHalfWidth(scalar);
            SameShape(q, p)
            && Tone(q, y, x, c) == Tinted(Tone(p, y, x, c) as real / 255.0, if on then ScarDelta(scalar, c) else 0.0)
  {
    PaintTone(p, ScarInk(p, intercept, scalar), y, x, c);
    LitIsTone(p, y, x, c);
  }

  lemma {:induction false} ScarPainted(p: Picture, m: FaultManifest, y: int, x: int, c: int)
    requires m.parameters.SurfaceArtifact? && EightBit(p) && Inside(p, y, x) && 0 <= c < 3
    ensures var (q, v) := (ScarPicture(p, m), Tone(p, y, x, c));
            && SameShape(q, p)
            && Tone(q, y, x, c) == if OnScar(p, m, y, x)
                                   then Shade(v as real + m.parameters.scalar as real * TINT[c]) else v
  {
    var s, v := m.parameters.scalar, Tone(p, y, x, c);
    ScarInked(p, m.parameters.intercept, s, y, x, c);
    ScarBand(p, m, y, x);
    ToneBound(p, y, x, c);
    ShadeKeeps(v, 0.0, 0.0);
    TintIs(s, c);
    TintedShade(v as real, ScarDelta(s, c), v as real + s as real * TINT[c]);
    TintedShade(v as real, 0.0, v as real);
  }

  /** F3 tints the scar by its severity, and leaves every other pixel clean. */
  lemma {:induction false} ScarValue(k: Kernels, clean: seq<EvaluationRecord>, m: FaultManifest,
                                     rest: Option<RestBundle>, index: nat, slot: Slot, y: int, x: int, c: int)
    requires ManifestOk(m) && m.instance.op.F3? && Legible(clean, m, rest, index, slot, y, x, c)
    ensures var (p, q) := (Seen(clean, index, slot), ExpectedPicture(k, clean, m, rest, index, slot));
            && SameShape(q, p)
            && Tone(q, y, x, c) == if OnScar(p, m, y, x)
                                   then Shade(Tone(p, y, x, c) as real + m.parameters.scalar as real * TINT[c])
                                   else Tone(p, y, x, c)
  {
    ScarPainted(Seen(clean, index, slot), m, y, x, c);
  }

  // ------------------------------------------------------------------ F4 and C2

  /** How far the dead patch reaches: 0.10 of the shorter side and 0.025 more per severity step, but
      at least two pixels. */
  function PatchReach(p: Picture, m: FaultManifest): int
    requires m.parameters.LocalPatch?
  {
    var short := if Height(p) <= Width(p) then Height(p) else Width(p);
    var wide := Rint(Part(short, 0.10 + m.parameters.scalar as real * 0.025));
    if wide < 2 then 2 else wide
  }

  predicate Within(squared: real, radius: int) {
    squared <= (radius * radius) as real
  }

  /** The dead patch: a disc about the centre. */
  predicate InPatch(p: Picture, m: FaultManifest, y: int, x: int)
    requires m.parameters.LocalPatch?
  {
    Within(Length2(OffsetX(p, x, m.parameters.centerX), OffsetY(p, y, m.parameters.centerY)), PatchReach(p, m))
  }

  lemma {:induction false} ReachIs(p: Picture, m: FaultManifest)
    requires m.parameters.LocalPatch?
    ensures PatchRadius(p, m.parameters.scalar) == PatchReach(p, m)
  {
    var short := if Height(p) <= Width(p) then Height(p) else Width(p);
    PartIs(short, 0.10 + m.parameters.scalar as real * 0.025);
  }

  /** A fraction of a length. */
  function Part(length: nat, fraction: real): real {
    length as real * fraction
  }

  lemma {:induction false} PartIs(length: nat, fraction: real)
    ensures Across(length, fraction) == Part(length, fraction)
  {
  }

  lemma {:induction false} PatchInked(p: Picture, rest: Picture, radius: int, cy: real, cx: real, y: int, x: int,
                                      c: int)
    requires EightBit(p) && EightBit(rest) && Inside(p, y, x) && Inside(rest, y, x) && 0 <= c < 3
    ensures var q := Paint(p, PatchInk(p, rest, radius, cy, cx));
            && SameShape(q, p)
            && Tone(q, y, x, c) == if Within(SquaredDistance(y, x, cy, cx), radius)
                                   then Tone(rest, y, x, c) else Tone(p, y, x, c)
  {
    PaintTone(p, PatchInk(p, rest, radius, cy, cx), y, x, c);
    LitIsTone(p, y, x, c);
    LitIsTone(rest, y, x, c);
  }

  lemma {:induction false} PatchPainted(p: Picture, rest: Picture, m: FaultManifest, y: int, x: int, c: int)
    requires m.parameters.LocalPatch? && EightBit(p) && EightBit(rest) && SameShape(p, rest)
    requires Inside(p, y, x) && 0 <= c < 3
    ensures var q := PatchPicture(p, rest, m);
            && SameShape(q, p)
            && Tone(q, y, x, c) == if InPatch(p, m, y, x) then Tone(rest, y, x, c) else Tone(p, y, x, c)
  {
    CentreDistance(p, y, x, m.parameters.centerY, m.parameters.centerX);
    ReachIs(p, m);
    PatchInked(p, rest, PatchRadius(p, m.parameters.scalar), Across(Height(p), m.parameters.centerY),
               Across(Width(p), m.parameters.centerX), y, x, c);
  }

  /** F4 shows the rest frame on a disc, and the clean frame everywhere else. */
  lemma {:induction false} PatchValue(k: Kernels, clean: seq<EvaluationRecord>, m: FaultManifest,
                                      rest: Option<RestBundle>, index: nat, slot: Slot, y: int, x: int, c: int)
    requires ManifestOk(m) && m.instance.op.F4? && Legible(clean, m, rest, index, slot, y, x, c)
    ensures var (p, r, q) := (Seen(clean, index, slot), rest.value.payloads.At(slot),
                              ExpectedPicture(k, clean, m, rest, index, slot));
            && SameShape(q, p)
            && Tone(q, y, x, c) == if InPatch(p, m, y, x) then Tone(r, y, x, c) else Tone(p, y, x, c)
  {
    PatchPainted(Seen(clean, index, slot), rest.value.payloads.At(slot), m, y, x, c);
  }

  /** C2 moves the clean frame to the right, and shows the rest frame in the columns it leaves. */
  lemma {:induction false} ShiftValue(k: Kernels, clean: seq<EvaluationRecord>, m: FaultManifest,
                                      rest: Option<RestBundle>, index: nat, slot: Slot, y: int, x: int, c: int)
    requires ManifestOk(m) && m.instance.op.C2? && Legible(clean, m, rest, index, slot, y, x, c)
    ensures var (p, r, q) := (Seen(clean, index, slot), rest.value.payloads.At(slot),
                              ExpectedPicture(k, clean, m, rest, index, slot));
            && m.parameters.shift == m.instance.level && SameShape(q, p)
            && Tone(q, y, x, c) == if x >= m.parameters.shift then Tone(p, y, x - m.parameters.shift, c)
                                   else Tone(r, y, x, c)
  {
    var p, r, shift := Seen(clean, index, slot), rest.value.payloads.At(slot), m.parameters.shift;
    ShiftRegistered(m);
    PaintTone(r, ShiftInk(p, r, shift), y, x, c);
    LitIsTone(r, y, x, c);
    if x >= shift { LitIsTone(p, y, x - shift, c); }
  }

  lemma {:induction false} ShiftRegistered(m: FaultManifest)
    requires ManifestOk(m) && m.instance.op.C2?
    ensures m.parameters.shift == m.instance.level >= 1
  {
  }

  // ------------------------------------------------------------------ F5

  /** The lens of a warp: centred on a fraction of the frame, 0.30 of the shorter side wide. */
  predicate LensFits(w: Warp, p: Picture, m: FaultManifest)
    requires m.parameters.ShapeDistortion?
  {
    && w.cx == m.parameters.centerX * (Width(p) - 1) as real && w.cy == m.parameters.centerY * (Height(p) - 1) as real
    && w.radius == (if Height(p) <= Width(p) then Height(p) else Width(p)) as real * 0.30
    && w.peak == m.parameters.displacement as real
  }

  /** How deep a pixel lies in the lens: one at its centre, zero at its rim. */
  function LensDepth(w: Warp, y: int, x: int): real
    requires w.radius > 0.0
  {
    1.0 - Length2((x as real - w.cx) / w.radius, (y as real - w.cy) / w.radius)
  }

  /** Where a pixel of the lens reads its row: to its left, by the square of its depth. */
  function LensSource(w: Warp, y: int, x: int): real
    requires w.radius > 0.0
  {
    x as real - w.peak * Squared(LensDepth(w, y, x))
  }

  /** Where any pixel reads its row: those outside the lens where they are. */
  function ReadsAt(w: Warp, y: int, x: int): real
    requires w.radius > 0.0
  {
    if LensDepth(w, y, x) > 0.0 then LensSource(w, y, x) else x as real
  }

  lemma {:induction false} ReadsInOrder(w: Warp, height: nat, width: nat, y: int, x: int)
    requires w.radius > 0.0 && WarpUnfolded(w, height, width) && 0 <= y < height && 0 <= x && x + 1 < width
    ensures ReadsAt(w, y, x) < ReadsAt(w, y, x + 1)
  {
    LensIs(w, y, x);
    LensIs(w, y, x + 1);
    assert SourceX(w, y, x) < SourceX(w, y, x + 1);
    if !Support(w, y, x) { SourceOutside(w, y, x); }
    if !Support(w, y, x + 1) { SourceOutside(w, y, x + 1); }
  }

  lemma {:induction false} SourceOutside(w: Warp, y: int, x: int)
    requires w.radius > 0.0 && !Support(w, y, x)
    ensures SourceX(w, y, x) == x as real
  {
  }

  function Squared(d: real): real {
    d * d
  }

  lemma {:induction false} LensIs(w: Warp, y: int, x: int)
    requires w.radius > 0.0
    ensures Support(w, y, x) <==> LensDepth(w, y, x) > 0.0
    ensures Support(w, y, x) ==> SourceX(w, y, x) == LensSource(w, y, x)
  {
    assert Depth(w, y, x) == LensDepth(w, y, x);
  }

  /** A row read between two columns, linearly. */
  function ReadRow(p: Picture, y: int, at: real, c: int): int
    requires 0 <= y < Height(p) && 0.0 <= at <= (Width(p) - 1) as real && 0 <= c < 3
  {
    var left := at.Floor;
    var right := if left + 1 < Width(p) then left + 1 else Width(p) - 1;
    Shade(Lerp(Tone(p, y, left, c) as real, Tone(p, y, right, c) as real, at - left as real))
  }

  function Lerp(a: real, b: real, f: real): real {
    (1.0 - f) * a + f * b
  }

  lemma {:induction false} MixedShade(a: real, b: real, f: real)
    ensures Mixed(a / 255.0, b / 255.0, f) == Shade(Lerp(a, b, f))
  {
    assert 255.0 * ((1.0 - f) * (a / 255.0)) == (1.0 - f) * a;
    assert 255.0 * (f * (b / 255.0)) == f * b;
    RestoresTo((1.0 - f) * (a / 255.0) + f * (b / 255.0), Lerp(a, b, f));
  }

  lemma {:induction false} BetweenReads(p: Picture, y: int, at: real, c: int)
    requires EightBit(p) && 0 <= y < Height(p) && 0.0 <= at <= (Width(p) - 1) as real && 0 <= c < 3
    ensures Between(p, y, at, c) == ReadRow(p, y, at, c)
  {
    var left := at.Floor;
    var right := Min(left + 1, Width(p) - 1);
    LitIsTone(p, y, left, c);
    LitIsTone(p, y, right, c);
    MixedShade(Tone(p, y, left, c) as real, Tone(p, y, right, c) as real, at - left as real);
  }

  /** F5 in contact: inside the lens a pixel reads its row to the left of it, outside it is clean. */
  lemma {:induction false} WarpPainted(p: Picture, w: Warp, y: int, x: int, c: int)
    requires w.radius > 0.0 && EightBit(p) && Inside(p, y, x) && 0 <= c < 3
    requires WarpInFrame(w, Height(p), Width(p))
    ensures SameShape(WarpBy(p, w), p)
    ensures LensDepth(w, y, x) > 0.0 ==>
              && 0.0 <= LensSource(w, y, x) <= (Width(p) - 1) as real
              && Tone(WarpBy(p, w), y, x, c) == ReadRow(p, y, LensSource(w, y, x), c)
    ensures LensDepth(w, y, x) <= 0.0 ==> Tone(WarpBy(p, w), y, x, c) == Tone(p, y, x, c)
  {
    PaintTone(p, WarpInk(p, w), y, x, c);
    LitIsTone(p, y, x, c);
    LensIs(w, y, x);
    if Support(w, y, x) { BetweenReads(p, y, SourceX(w, y, x), c); }
  }

  /** F5 in contact moves the lens' pixels along their rows, in order and within the frame; outside contact
      and outside the lens nothing moves. */
  lemma {:induction false} WarpValue(k: Kernels, clean: seq<EvaluationRecord>, m: FaultManifest,
                                     rest: Option<RestBundle>, index: nat, slot: Slot, y: int, x: int, c: int)
    requires ManifestOk(m) && m.instance.op.F5? && Legible(clean, m, rest, index, slot, y, x, c)
    ensures var (p, q) := (Seen(clean, index, slot), ExpectedPicture(k, clean, m, rest, index, slot));
            if !ContactActive(clean[index].Prov(slot).phase) then q == p
            else
              var w := WarpOf(p, m);
              && LensFits(w, p, m) && SameShape(q, p) && w.radius > 0.0
              && (x + 1 < Width(p) ==> ReadsAt(w, y, x) < ReadsAt(w, y, x + 1))
              && (LensDepth(w, y, x) > 0.0 ==>
                    && 0.0 <= LensSource(w, y, x) <= (Width(p) - 1) as real
                    && Tone(q, y, x, c) == ReadRow(p, y, LensSource(w, y, x), c))
              && (LensDepth(w, y, x) <= 0.0 ==> Tone(q, y, x, c) == Tone(p, y, x, c))
  {
    if ContactActive(clean[index].Prov(slot).phase) {
      var p := Seen(clean, index, slot);
      WarpPainted(p, WarpOf(p, m), y, x, c);
      if x + 1 < Width(p) { ReadsInOrder(WarpOf(p, m), Height(p), Width(p), y, x); }
    }
  }

  // ------------------------------------------------------------------ F6

  lemma {:induction false} ImprintShade(v: real, r: real, history: real, mix: real)
    ensures Imprint(r / 255.0, v / 255.0 - r / 255.0, history, mix)
            == Shade(Lerp(v, r + 255.0 * history, mix))
  {
    var residual := v / 255.0 - r / 255.0;
    assert 255.0 * residual == v - r;
    assert 255.0 * ((1.0 - mix) * residual) == (1.0 - mix) * (v - r);
    assert (1.0 - mix) * (v - r) == (1.0 - mix) * v - (1.0 - mix) * r;
    assert 255.0 * (mix * history) == mix * (255.0 * history);
    assert mix * (r + 255.0 * history) == mix * r + mix * (255.0 * history);
    assert (1.0 - mix) * r == r - mix * r;
    RestoresTo(r / 255.0 + (1.0 - mix) * residual + mix * history, Lerp(v, r + 255.0 * history, mix));
  }

  /** F6 blends the clean frame with the imprint of its past: the rest frame plus the exponentially
      weighted sum of all residuals so far. */
  lemma {:induction false} ImprintValue(k: Kernels, clean: seq<EvaluationRecord>, m: FaultManifest,
                                        rest: Option<RestBundle>, index: nat, slot: Slot, y: int, x: int, c: int)
    requires ManifestOk(m) && m.instance.op.F6? && Legible(clean, m, rest, index, slot, y, x, c)
    ensures var (p, r, q) := (Seen(clean, index, slot), rest.value.payloads.At(slot),
                              ExpectedPicture(k, clean, m, rest, index, slot));
            var past := DiscountedSum(Residual(clean, r, slot, y, x, c), index);
            && SameShape(q, p)
            && Tone(q, y, x, c) == Shade(Lerp(Tone(p, y, x, c) as real, Tone(r, y, x, c) as real + 255.0 * past,
                                              m.parameters.mix))
  {
    var p, r := Seen(clean, index, slot), rest.value.payloads.At(slot);
    ImprintPainted(clean, r, slot, m, index, y, x, c);
  }

  lemma {:induction false} ImprintPainted(clean: seq<EvaluationRecord>, r: Picture, slot: Slot, m: FaultManifest,
                                          index: nat, y: int, x: int, c: int)
    requires m.parameters.HistoryImprint? && index < |clean| && clean[index].Sensor(slot).payload.Some?
    requires EightBit(r) && EightBit(Seen(clean, index, slot)) && SameShape(Seen(clean, index, slot), r)
    requires Inside(r, y, x) && 0 <= c < 3
    ensures var (p, q) := (Seen(clean, index, slot), ImprintPicture(clean, r, slot, m, index));
            var past := DiscountedSum(Residual(clean, r, slot, y, x, c), index);
            && SameShape(q, p)
            && Tone(q, y, x, c) == Shade(Lerp(Tone(p, y, x, c) as real, Tone(r, y, x, c) as real + 255.0 * past,
                                              m.parameters.mix))
  {
    var p, residual := Seen(clean, index, slot), Residual(clean, r, slot, y, x, c);
    var past, mix := DiscountedSum(residual, index), m.parameters.mix;
    HistoryClosedForm(residual, index);
    PaintTone(r, ImprintInk(clean, r, slot, mix, index), y, x, c);
    assert ImprintInk(clean, r, slot, mix, index)(y, x, c)
        == Imprint(Lit(r, y, x, c), residual(index), History(residual, index), mix);
    LitIsTone(p, y, x, c);
    LitIsTone(r, y, x, c);
    ImprintShade(Tone(p, y, x, c) as real, Tone(r, y, x, c) as real, past, mix);
  }

  // ------------------------------------------------------------------ F7

  /** What is left of a magnitude over the knee: a rational approach to 0.35 of the knee more. */
  function Bent(knee: real, magnitude: real): real
    requires 0.0 < knee < magnitude
  {
    var over := magnitude - knee;
    knee + knee * 0.35 * over / (knee * 0.35 + over)
  }

  lemma {:induction false} RescaledShade(v: real, anchor: real, scale: real)
    ensures Rescaled(anchor, v / 255.0 - anchor, scale) == Shade(Lerp(255.0 * anchor, v, scale))
  {
    var detail := v / 255.0 - anchor;
    assert 255.0 * detail == v - 255.0 * anchor;
    assert 255.0 * (scale * detail) == scale * (v - 255.0 * anchor);
    assert scale * (v - 255.0 * anchor) == scale * v - scale * (255.0 * anchor);
    assert (1.0 - scale) * (255.0 * anchor) == 255.0 * anchor - scale * (255.0 * anchor);
    RestoresTo(anchor + scale * detail, Lerp(255.0 * anchor, v, scale));
  }

  /** A position on an axis of n places, folded back once at either end. */
  function Folded(n: nat, i: int): int {
    if i < 0 then -i else if i >= n then 2 * (n - 1) - i else i
  }

  /** The first n values of a column of the box about a pixel, from the top. */
  function ColumnSum(p: Picture, y: int, x: int, c: int, r: nat, n: nat): real {
    if n == 0 then 0.0 else ColumnSum(p, y, x, c, r, n - 1) + Lit(p, Folded(Height(p), y - r + n - 1), x, c)
  }

  /** The first n columns of the box about a pixel, from the left. */
  function BoxSum(p: Picture, y: int, x: int, c: int, r: nat, n: nat): real {
    if n == 0 then 0.0
    else BoxSum(p, y, x, c, r, n - 1) + ColumnSum(p, y, Folded(Width(p), x - r + n - 1), c, r, 2 * r + 1)
  }

  lemma {:induction false} FoldIsReflect(n: nat, i: int, o: int, r: nat)
    requires 2 * r <= n - 1 && 0 <= i < n && 0 - r <= o <= r
    ensures Reflect(n, i + o) == Folded(n, i + o)
  {
    if n > 1 { ReflectMirrors(n, i, o); }
  }

  /** A value added up n times. */
  function Times(a: real, n: nat): real {
    if n == 0 then 0.0 else Times(a, n - 1) + a
  }

  lemma {:induction false} TimesIs(a: real, n: nat)
    ensures Times(a, n) == a * n as real
  {
    if n > 0 {
      TimesIs(a, n - 1);
      assert a * (n - 1) as real == a * n as real - a;
    }
  }

  lemma {:induction false} TimesAdds(a: real, b: real, n: nat)
    ensures Times(a + b, n) == Times(a, n) + Times(b, n)
  {
    if n > 0 { TimesAdds(a, b, n - 1); }
  }

  lemma {:induction false} MeanTimes(f: int -> real, r: nat)
    ensures Times(Mean(f, r), 2 * r + 1) == Sum(f, 0 - r, r)
  {
    TimesIs(Mean(f, r), 2 * r + 1);
  }

  lemma {:induction false} ColumnIs(p: Picture, y: int, x: int, c: int, r: nat, n: nat)
    requires 0 <= y < Height(p) && n <= 2 * r + 1 && 2 * r <= Height(p) - 1
    ensures Sum(ColumnAbout(p, y, x, c), 0 - r, n - r - 1) == ColumnSum(p, y, x, c, r, n)
  {
    if n > 0 {
      ColumnIs(p, y, x, c, r, n - 1);
      FoldIsReflect(Height(p), y, n - r - 1, r);
    }
  }

  lemma {:induction false} ColumnMean(p: Picture, y: int, x: int, c: int, r: nat)
    requires 0 <= y < Height(p) && r == AnchorRadius(p)
    ensures Times(VerticalMean(p, y, x, c), 2 * r + 1) == ColumnSum(p, y, x, c, r, 2 * r + 1)
  {
    AnchorRadiusClamped(p);
    ColumnIs(p, y, x, c, r, 2 * r + 1);
    MeanTimes(ColumnAbout(p, y, x, c), r);
  }

  lemma {:induction false} BoxIs(p: Picture, y: int, x: int, c: int, r: nat, n: nat)
    requires 0 <= y < Height(p) && 0 <= x < Width(p) && n <= 2 * r + 1 && r == AnchorRadius(p)
    ensures Times(Sum(RowAbout(p, y, x, c), 0 - r, n - r - 1), 2 * r + 1) == BoxSum(p, y, x, c, r, n)
  {
    if n == 0 {
      TimesIs(0.0, 2 * r + 1);
    } else {
      var column := Folded(Width(p), x + (n - r - 1));
      BoxIs(p, y, x, c, r, n - 1);
      AnchorRadiusClamped(p);
      FoldIsReflect(Width(p), x, n - r - 1, r);
      ColumnMean(p, y, column, c, r);
      BoxNext(RowAbout(p, y, x, c), n - r - 1, r, VerticalMean(p, y, column, c));
    }
  }

  lemma {:induction false} BoxNext(f: int -> real, hi: int, r: nat, last: real)
    requires hi >= 0 - r && f(hi) == last
    ensures Times(Sum(f, 0 - r, hi), 2 * r + 1) == Times(Sum(f, 0 - r, hi - 1), 2 * r + 1) + Times(last, 2 * r + 1)
  {
    TimesAdds(Sum(f, 0 - r, hi - 1), last, 2 * r + 1);
  }

  /** The F7 anchor is the mean of a square box about the pixel, folded back at the frame's edges; the box
      reaches 0.06 of the shorter side to every side, rounded, but two pixels at least where they fit. */
  lemma {:induction false} AnchorIsBoxMean(p: Picture, y: int, x: int, c: int)
    requires Inside(p, y, x)
    ensures var (r, side) := (AnchorRadius(p), 2 * AnchorRadius(p) + 1);
            Times(Times(Anchor(p, y, x, c), side), side) == BoxSum(p, y, x, c, r, side)
    ensures var (r, short) := (AnchorRadius(p), if Height(p) <= Width(p) then Height(p) else Width(p));
            && 2 * r <= short - 1
            && (short >= 5 ==> r >= 2 && r as real > 0.06 * short as real - 0.5)
            && (r > 2 ==> r as real <= 0.06 * short as real + 0.5)
  {
    MeanTimes(RowAbout(p, y, x, c), AnchorRadius(p));
    BoxIs(p, y, x, c, AnchorRadius(p), 2 * AnchorRadius(p) + 1);
    AnchorReaches(p);
  }

  lemma {:induction false} AnchorReaches(p: Picture)
    ensures var (r, short) := (AnchorRadius(p), if Height(p) <= Width(p) then Height(p) else Width(p));
            && 2 * r <= short - 1
            && (short >= 5 ==> r >= 2 && r as real > 0.06 * short as real - 0.5)
            && (r > 2 ==> r as real <= 0.06 * short as real + 0.5)
  {
  }

  /** How much a channel differs from its anchor. */
  function Contrast(p: Picture, y: int, x: int, c: int): real
    requires Inside(p, y, x) && 0 <= c < 3
  {
    Tone(p, y, x, c) as real / 255.0 - Anchor(p, y, x, c)
  }

  /** The factor F7 applies to a contrast of this magnitude. */
  function Factor(knee: real, magnitude: real): real
    requires 0.0 < knee
  {
    if magnitude <= knee then 1.0 else Bent(knee, magnitude) / magnitude
  }

  lemma {:induction false} CompressIs(knee: real, magnitude: real)
    requires 0.0 < knee
    ensures magnitude <= knee ==> Compress(knee, magnitude) == magnitude
    ensures knee < magnitude ==> Compress(knee, magnitude) == Bent(knee, magnitude)
  {
  }

  lemma {:induction false} SelfRatio(x: real)
    requires x > 0.0
    ensures x / x == 1.0
  {
  }

  lemma {:induction false} FactorIs(knee: real, magnitude: real)
    requires knee > 0.000000000001
    ensures Factor(knee, magnitude)
            == if magnitude > 0.000000000001 then Compress(knee, magnitude) / magnitude else 1.0
  {
    CompressIs(knee, magnitude);
    if 0.000000000001 < magnitude { SelfRatio(magnitude); }
  }

  lemma {:induction false} DetailIsContrast(p: Picture, y: int, x: int, c: int)
    requires EightBit(p) && Inside(p, y, x) && 0 <= c < 3
    ensures Detail(p, y, x, c) == Contrast(p, y, x, c)
  {
    LitIsTone(p, y, x, c);
  }

  lemma {:induction false} SaturationInked(k: Kernels, p: Picture, knee: real, y: int, x: int, c: int)
    requires knee > 0.000000000001 && EightBit(p) && Inside(p, y, x) && 0 <= c < 3
    ensures var n := k.norm(Contrast(p, y, x, 0), Contrast(p, y, x, 1), Contrast(p, y, x, 2));
            SaturationInk(k, p, knee)(y, x, c)
            == Rescaled(Anchor(p, y, x, c), Contrast(p, y, x, c), Factor(knee, n))
  {
    DetailIsContrast(p, y, x, 0);
    DetailIsContrast(p, y, x, 1);
    DetailIsContrast(p, y, x, 2);
    FactorIs(knee, k.norm(Contrast(p, y, x, 0), Contrast(p, y, x, 1), Contrast(p, y, x, 2)));
  }

  lemma {:induction false} RescaledTone(p: Picture, factor: real, y: int, x: int, c: int)
    requires EightBit(p) && Inside(p, y, x) && 0 <= c < 3
    ensures var shade := Rescaled(Anchor(p, y, x, c), Contrast(p, y, x, c), factor);
            && shade == Shade(Lerp(255.0 * Anchor(p, y, x, c), Tone(p, y, x, c) as real, factor))
            && (factor == 1.0 ==> shade == Tone(p, y, x, c))
  {
    var v, anchor := Tone(p, y, x, c), Anchor(p, y, x, c);
    RescaledShade(v as real, anchor, factor);
    ToneBound(p, y, x, c);
    ShadeKeeps(v, 0.0, 0.0);
    LerpWhole(255.0 * anchor, v as real);
  }

  lemma {:induction false} LerpWhole(a: real, b: real)
    ensures Lerp(a, b, 1.0) == b
  {
  }

  /** F7 in contact: a pixel whose contrast is within the knee is clean; beyond it all three channels
      move towards their anchors by one factor, which bends the contrast's magnitude. */
  lemma {:induction false} SaturationPainted(k: Kernels, p: Picture, knee: real, y: int, x: int, c: int)
    requires knee > 0.000000000001 && EightBit(p) && Inside(p, y, x) && 0 <= c < 3
    ensures var q := Paint(p, SaturationInk(k, p, knee));
            var n := k.norm(Contrast(p, y, x, 0), Contrast(p, y, x, 1), Contrast(p, y, x, 2));
            && SameShape(q, p)
            && (n <= knee ==> Tone(q, y, x, c) == Tone(p, y, x, c))
            && (knee < n ==> Tone(q, y, x, c) == Shade(Lerp(255.0 * Anchor(p, y, x, c), Tone(p, y, x, c) as real,
                                                            Bent(knee, n) / n)))
  {
    PaintTone(p, SaturationInk(k, p, knee), y, x, c);
    SaturationInked(k, p, knee, y, x, c);
    var n := k.norm(Contrast(p, y, x, 0), Contrast(p, y, x, 1), Contrast(p, y, x, 2));
    RescaledTone(p, Factor(knee, n), y, x, c);
  }

  /** F7 in contact bends every pixel whose contrast is over the knee, and no other. */
  lemma {:induction false} SaturationValue(k: Kernels, clean: seq<EvaluationRecord>, m: FaultManifest,
                                           rest: Option<RestBundle>, index: nat, slot: Slot, y: int, x: int, c: int)
    requires ManifestOk(m) && m.instance.op.F7? && Legible(clean, m, rest, index, slot, y, x, c)
    ensures var (p, q, knee) := (Seen(clean, index, slot), ExpectedPicture(k, clean, m, rest, index, slot),
                                 m.parameters.knee);
            if !ContactActive(clean[index].Prov(slot).phase) then q == p
            else
              var n := k.norm(Contrast(p, y, x, 0), Contrast(p, y, x, 1), Contrast(p, y, x, 2));
              && SameShape(q, p) && knee > 0.0
              && (n <= knee ==> Tone(q, y, x, c) == Tone(p, y, x, c))
              && (knee < n ==> Tone(q, y, x, c) == Shade(Lerp(255.0 * Anchor(p, y, x, c), Tone(p, y, x, c) as real,
                                                              Bent(knee, n) / n)))
  {
    KneeRegistered(m);
    if ContactActive(clean[index].Prov(slot).phase) {
      SaturationPainted(k, Seen(clean, index, slot), m.parameters.knee, y, x, c);
    }
  }

  lemma {:induction false} KneeRegistered(m: FaultManifest)
    requires ManifestOk(m) && m.instance.op.F7?
    ensures m.parameters.knee > 0.05
  {
  }
}
