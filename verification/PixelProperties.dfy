/** What the pixel reference promises: the F5 guards never fire, F6 is an exponentially
    weighted sum, F7 stays within its bounds, and nothing looks into the future. */
module PixelProperties {
  import opened Basics
  import opened OperatorParameters
  import opened Manifests
  import opened Records
  import opened PixelReference

  // ------------------------------------------------------- F5: no fold, no escape

  lemma {:induction false} ScaleLess(a: real, b: real, c: real)
    requires a <= b && 0.0 <= c
    ensures a * c <= b * c
  {
    assert b * c - a * c == (b - a) * c;
  }

  lemma {:induction false} UnitSquare(u: real)
    requires u * u < 1.0
    ensures -1.0 < u < 1.0
  {
    if u >= 1.0 { ScaleLess(1.0, u, u); }
    assert (-u) * (-u) == u * u;
    if u <= -1.0 { ScaleLess(1.0, -u, -u); }
  }

  lemma {:induction false} Square(u: real)
    ensures u * u >= 0.0
  {
    if u >= 0.0 { ScaleLess(0.0, u, u); } else { ScaleLess(0.0, -u, -u); assert (-u) * (-u) == u * u; }
  }

  /** No step of the weight climbs faster than this (the exact bound is 8 / (3 * sqrt(3))). */
  const CLIMB := 1.545

  /** One column step gains at most CLIMB / radius of weight. */
  lemma {:induction false} WeightStep(w: Warp, y: int, x: int)
    requires w.radius > 0.0
    ensures Weight(w, y, x + 1) - Weight(w, y, x) <= CLIMB * (1.0 / w.radius)
  {
    var u, v, d := (x as real - w.cx) / w.radius, (y as real - w.cy) / w.radius, 1.0 / w.radius;
    Positive(w.radius, d);
    assert ((x + 1) as real - w.cx) / w.radius == u + d;
    Square(v);
    BellStep(1.0 - v * v, u, u + d);
    assert Depth(w, y, x) == 1.0 - v * v - u * u;
    assert Depth(w, y, x + 1) == 1.0 - v * v - (u + d) * (u + d);
  }

  lemma {:induction false} Positive(r: real, d: real)
    requires r > 0.0 && d == 1.0 / r
    ensures d > 0.0
  {
    assert d * r == 1.0;
    if d <= 0.0 { ScaleLess(d, 0.0, r); }
  }

  /** The weight on a row, as a function of the offset from the centre. */
  function Bell(q: real, u: real): real {
    if q - u * u > 0.0 then (q - u * u) * (q - u * u) else 0.0
  }

  /** A bell of height at most one climbs at most CLIMB times the distance. */
  lemma {:induction false} BellStep(q: real, u: real, u': real)
    requires q <= 1.0 && u < u'
    ensures Bell(q, u') - Bell(q, u) <= CLIMB * (u' - u)
  {
    if q - u' * u' <= 0.0 {
      Square(q - u * u);
      ProductSign(CLIMB, u' - u, CLIMB * (u' - u));
    } else if q - u * u >= 0.0 {
      BellInside(q, u, u');
    } else {
      BellFromOutside(q, u, u');
    }
  }

  /** Inside the support: the gain is the distance times t * (2q - u^2 - u'^2), with t the
      opposite of the sum of the offsets. */
  lemma {:induction false} BellInside(q: real, u: real, u': real)
    requires q <= 1.0 && u < u' && q - u * u >= 0.0 && q - u' * u' > 0.0
    ensures Bell(q, u') - Bell(q, u) <= CLIMB * (u' - u)
  {
    var d, t, room := u' - u, 0.0 - (u + u'), 2.0 * q - u * u - u' * u';
    var slope := t * room;
    BellGain(q, u, u', d, t, room, slope);
    BellSquare(q, u);
    if t <= 0.0 {
      ScaleLess(t, 0.0, room);
    } else {
      SlopeBound(q, u, u', t);
    }
    ScaleLess(slope, CLIMB, d);
  }

  /** On the support and its edge the bell is a square. */
  lemma {:induction false} BellSquare(q: real, u: real)
    requires q - u * u >= 0.0
    ensures Bell(q, u) == (q - u * u) * (q - u * u)
  {
    var a := q - u * u;
    if a == 0.0 { assert a * a == 0.0; }
  }

  lemma {:induction false} BellGain(q: real, u: real, u': real, d: real, t: real, room: real, slope: real)
    requires d == u' - u && t == 0.0 - (u + u') && room == 2.0 * q - u * u - u' * u' && slope == t * room
    ensures (q - u' * u') * (q - u' * u') - (q - u * u) * (q - u * u) == slope * d
  {
    var a, b := q - u * u, q - u' * u';
    assert t * d == b - a;
    DifferenceOfSquares(a, b);
    assert b + a == room;
    Regroup(t, d, room);
    Regroup(t, room, d);
    assert d * room == room * d;
  }

  lemma {:induction false} DifferenceOfSquares(a: real, b: real)
    ensures b * b - a * a == (b - a) * (b + a)
  {
  }

  lemma {:induction false} SlopeBound(q: real, u: real, u': real, t: real)
    requires q <= 1.0 && t == 0.0 - (u + u') && t > 0.0
    ensures t * (2.0 * q - u * u - u' * u') <= CLIMB
  {
    Square(u - u');
    assert t * t == u * u + 2.0 * (u * u') + u' * u';
    assert (u - u') * (u - u') == u * u - 2.0 * (u * u') + u' * u';
    var room := 2.0 * q - u * u - u' * u';
    assert room <= 2.0 - 0.5 * (t * t);
    ScaleLess(room, 2.0 - 0.5 * (t * t), t);
    CubeGap(t, 1.155, t * t * t);
    assert (2.0 - 0.5 * (t * t)) * t == 2.0 * t - 0.5 * (t * t * t);
    assert room * t == t * room;
  }

  /** A cubic lies above its tangent at k. */
  lemma {:induction false} CubeGap(t: real, k: real, cube: real)
    requires t > 0.0 && k > 0.0 && cube == t * t * t
    ensures cube >= 3.0 * (k * k) * t - 2.0 * (k * k * k)
  {
    var gap := (t - k) * (t - k);
    Square(t - k);
    ProductSign(gap, t + 2.0 * k, gap * (t + 2.0 * k));
    assert gap == t * t - 2.0 * k * t + k * k;
    assert gap * (t + 2.0 * k) == cube - 3.0 * (k * k) * t + 2.0 * (k * k * k);
  }

  /** From outside the support: no more than from the edge of a wider one. */
  lemma {:induction false} BellFromOutside(q: real, u: real, u': real)
    requires q <= 1.0 && u < u' && q - u * u < 0.0 && q - u' * u' > 0.0
    ensures Bell(q, u') - Bell(q, u) <= CLIMB * (u' - u)
  {
    if u * u <= 1.0 {
      BellInside(u * u, u, u');
      SquareGrows(q - u' * u', u * u - u' * u');
    } else {
      UnitSquare(u');
      BelowMinusOne(u, u');
      BellInside(1.0, -1.0, u');
      SquareGrows(q - u' * u', 1.0 - u' * u');
      ScaleLess(u' + 1.0, u' - u, CLIMB);
    }
  }

  lemma {:induction false} SquareGrows(a: real, b: real)
    requires 0.0 <= a <= b
    ensures a * a <= b * b
  {
    ScaleLess(a, b, a);
    ScaleLess(a, b, b);
  }

  lemma {:induction false} BelowMinusOne(u: real, u': real)
    requires u * u > 1.0 && u < u' < 1.0
    ensures u < -1.0
  {
    if u >= 0.0 { SquareGrows(u, 1.0); } else if u >= -1.0 { SquareGrows(-u, 1.0); assert (-u) * (-u) == u * u; }
  }

  lemma {:induction false} ProductPositive(a: real, b: real)
    requires a > 0.0 && b > 0.0
    ensures a * b > 0.0
  {
  }

  lemma {:induction false} NonNegative(a: real, b: real)
    requires 0.0 <= a && 0.0 <= b
    ensures 0.0 <= a * b
  {
  }

  lemma {:induction false} ProductSign(a: real, b: real, x: real)
    requires 0.0 <= a && 0.0 <= b && x == a * b
    ensures 0.0 <= x
  {
  }

  /** Neighbours keep their order as soon as the peak is below radius / CLIMB. */
  lemma {:induction false} SourceStep(w: Warp, y: int, x: int)
    requires w.radius > 0.0 && 0.0 <= w.peak && w.peak * CLIMB < w.radius
    ensures SourceX(w, y, x) < SourceX(w, y, x + 1)
  {
    var d, gain := 1.0 / w.radius, Weight(w, y, x + 1) - Weight(w, y, x);
    WeightStep(w, y, x);
    Positive(w.radius, d);
    ScaleLess(gain, CLIMB * d, w.peak);
    ScaleStrict(w.peak * CLIMB, w.radius, d);
    assert gain * w.peak == w.peak * Weight(w, y, x + 1) - w.peak * Weight(w, y, x);
    assert (CLIMB * d) * w.peak == (w.peak * CLIMB) * d;
    assert w.radius * d == 1.0;
  }

  lemma {:induction false} ScaleStrict(a: real, b: real, c: real)
    requires a < b && 0.0 < c
    ensures a * c < b * c
  {
    ProductPositive(b - a, c);
    assert b * c - a * c == (b - a) * c;
  }

  /** The map is strictly increasing along a whole row, not only between neighbours. */
  lemma {:induction false} SourceIncreasing(w: Warp, y: int, x: int, x': int)
    requires w.radius > 0.0 && 0.0 <= w.peak && w.peak * CLIMB < w.radius && x < x'
    ensures SourceX(w, y, x) < SourceX(w, y, x')
    decreases x' - x
  {
    SourceStep(w, y, x' - 1);
    if x < x' - 1 { SourceIncreasing(w, y, x, x' - 1); }
  }

  /** A map that increases, and leaves the first column alone, stays in the frame. */
  lemma {:induction false} SourceStays(w: Warp, width: int, y: int, x: int)
    requires w.radius > 0.0 && 0.0 <= w.peak && w.peak * CLIMB < w.radius && w.radius <= w.cx && 0 <= x < width
    ensures 0.0 <= SourceX(w, y, x) <= (width - 1) as real
  {
    FirstColumnStays(w, y);
    if x > 0 { SourceIncreasing(w, y, 0, x); }
    WeightSign(w, y, x);
    ProductSign(w.peak, Weight(w, y, x), w.peak * Weight(w, y, x));
  }

  lemma {:induction false} WeightSign(w: Warp, y: int, x: int)
    requires w.radius > 0.0
    ensures 0.0 <= Weight(w, y, x)
  {
    Square(Depth(w, y, x));
  }

  lemma {:induction false} FirstColumnStays(w: Warp, y: int)
    requires 0.0 < w.radius <= w.cx
    ensures SourceX(w, y, 0) == 0.0
  {
    var u, v := (0 as real - w.cx) / w.radius, (y as real - w.cy) / w.radius;
    FarOff(w.cx, w.radius, u);
    Square(v);
    assert Depth(w, y, 0) == 1.0 - (u * u + v * v);
  }

  lemma {:induction false} FarOff(cx: real, radius: real, u: real)
    requires 0.0 < radius <= cx && u == (0.0 - cx) / radius
    ensures u * u >= 1.0
  {
    assert u * radius == 0.0 - cx;
    if u > -1.0 { ScaleStrict(-1.0, u, radius); }
    SquareGrows(1.0, -u);
    assert (-u) * (-u) == u * u;
  }

  lemma {:induction false} CentreBound(fraction: real, extent: real, cx: real)
    requires fraction >= 0.47 && extent >= 0.0 && cx == fraction * extent
    ensures cx >= 0.47 * extent
  {
    ScaleLess(0.47, fraction, extent);
  }

  /** The registered warp on any frame whose shorter side is more than five times the displacement
      (26 pixels at the top severity): every row of the source map is strictly increasing, the
      support reads inside the frame, and so neither guard of the reference can fire.  At the top
      severity no smaller side will do: `Counterexamples.NarrowFrameFolds`. */
  lemma {:induction false} WarpNeverFoldsOrLeaves(p: Picture, m: FaultManifest)
    requires ManifestOk(m) && m.instance.op.F5? && ShortSide(p) > 5 * m.parameters.displacement
    ensures forall y, x, x' :: x < x' ==> SourceX(WarpOf(p, m), y, x) < SourceX(WarpOf(p, m), y, x')
    ensures WarpInFrame(WarpOf(p, m), Height(p), Width(p))
    ensures WarpUnfolded(WarpOf(p, m), Height(p), Width(p))
  {
    var w := WarpOf(p, m);
    WarpFits(p, m);
    forall y, x, x' | x < x' ensures SourceX(w, y, x) < SourceX(w, y, x') {
      SourceIncreasing(w, y, x, x');
    }
    forall y, x | 0 <= y < Height(p) && 0 <= x < Width(p) && Support(w, y, x)
      ensures 0.0 <= SourceX(w, y, x) <= (Width(p) - 1) as real
    {
      SourceStays(w, Width(p), y, x);
    }
  }

  lemma {:induction false} WarpFits(p: Picture, m: FaultManifest)
    requires ManifestOk(m) && m.instance.op.F5? && ShortSide(p) > 5 * m.parameters.displacement
    ensures var w := WarpOf(p, m); 0.0 < w.radius <= w.cx && 0.0 <= w.peak && w.peak * CLIMB < w.radius
  {
    var w := WarpOf(p, m);
    assert 1 <= m.parameters.displacement <= 5;
    CentreBound(m.parameters.centerX, (Width(p) - 1) as real, w.cx);
  }

  // ---------------------------------------------------- F6: the history in closed form

  function Power(b: real, n: nat): real {
    if n == 0 then 1.0 else b * Power(b, n - 1)
  }

  /** The weight frame i carries in the history of frame n. */
  function ImprintWeight(n: nat, i: int): real {
    if 0 <= i <= n then (1.0 - BETA) * Power(BETA, n - i) else 0.0
  }

  /** Every residual so far, exponentially discounted. */
  function DiscountedSum(residual: int -> real, n: nat): real {
    Sum(i => ImprintWeight(n, i) * residual(i), 0, n)
  }

  lemma {:induction false} SumScales(f: int -> real, g: int -> real, c: real, lo: int, hi: int)
    requires forall i :: lo <= i <= hi ==> g(i) == c * f(i)
    ensures Sum(g, lo, hi) == c * Sum(f, lo, hi)
    decreases hi - lo
  {
    if lo <= hi { SumScales(f, g, c, lo, hi - 1); }
  }

  lemma {:induction false} Regroup(a: real, b: real, c: real)
    ensures (a * b) * c == a * (b * c)
  {
  }

  /** The history held by the loop equals the closed-form exponentially weighted sum of all
      residuals up to and including the current frame, window or not. */
  lemma {:induction false} HistoryClosedForm(residual: int -> real, n: nat)
    ensures History(residual, n) == DiscountedSum(residual, n)
  {
    var g := i => ImprintWeight(n, i) * residual(i);
    assert Power(BETA, 0) == 1.0;
    if n == 0 {
      assert Sum(g, 0, 0) == Sum(g, 0, -1) + g(0);
    } else {
      HistoryClosedForm(residual, n - 1);
      var f := i => ImprintWeight(n - 1, i) * residual(i);
      forall i | 0 <= i <= n - 1 ensures g(i) == BETA * f(i) {
        assert Power(BETA, n - i) == BETA * Power(BETA, n - 1 - i);
        assert ImprintWeight(n, i) == BETA * ImprintWeight(n - 1, i);
        Regroup(BETA, ImprintWeight(n - 1, i), residual(i));
      }
      SumScales(f, g, BETA, 0, n - 1);
    }
  }

  /** The history never exceeds the largest residual seen so far. */
  lemma {:induction false} HistoryBounded(residual: int -> real, n: nat, bound: real)
    requires forall i :: 0 <= i <= n ==> -bound <= residual(i) <= bound
    ensures -bound <= History(residual, n) <= bound
  {
    if n > 0 { HistoryBounded(residual, n - 1, bound); }
    assert -bound <= residual(n) <= bound;
  }

  // ------------------------------------------------------------- F7: filter and transfer

  /** Reflection lands on the axis and mirrors about the ends without repeating them. */
  lemma {:induction false} ReflectMirrors(length: int, i: int, o: int)
    requires length >= 2 && 0 <= i < length && -((length - 1) / 2) <= o <= (length - 1) / 2
    ensures 0 <= Reflect(length, i + o) < length
    ensures Reflect(length, i + o) ==
            if i + o < 0 then -(i + o) else if i + o < length then i + o else 2 * (length - 1) - (i + o)
  {
    var period, at := 2 * (length - 1), i + o;
    if at < 0 { Modulo(at + period, -1, period); } else { Modulo(at, 0, period); }
  }

  lemma {:induction false} Modulo(rest: int, turns: int, period: int)
    requires 0 <= rest < period
    ensures (turns * period + rest) % period == rest
  {
    var a := turns * period + rest;
    var q := a / period;
    assert a == period * q + a % period;
    if q > turns { ProductGap(period, q, turns); }
    if q < turns { ProductGap(period, turns, q); }
  }

  lemma {:induction false} SumBounded(f: int -> real, lo: int, hi: int, least: real, most: real)
    requires lo <= hi + 1
    requires forall i :: lo <= i <= hi ==> least <= f(i) <= most
    ensures least * (hi - lo + 1) as real <= Sum(f, lo, hi) <= most * (hi - lo + 1) as real
    decreases hi - lo
  {
    if lo <= hi {
      SumBounded(f, lo, hi - 1, least, most);
      assert least * (hi - lo + 1) as real == least * (hi - lo) as real + least;
      assert most * (hi - lo + 1) as real == most * (hi - lo) as real + most;
      assert least <= f(hi) <= most;
    }
  }

  lemma {:induction false} MeanBounded(f: int -> real, radius: nat, least: real, most: real)
    requires forall o :: 0 - radius <= o <= radius ==> least <= f(o) <= most
    ensures least <= Mean(f, radius) <= most
  {
    SumBounded(f, 0 - radius, radius, least, most);
    Quotient(Sum(f, 0 - radius, radius), (2 * radius + 1) as real, least, most);
  }

  lemma {:induction false} Quotient(s: real, n: real, least: real, most: real)
    requires n > 0.0 && least * n <= s <= most * n
    ensures least <= s / n <= most
  {
    var q := s / n;
    assert q * n == s;
    if q < least { ProductPositive(least - q, n); }
    if q > most { ProductPositive(q - most, n); }
  }

  lemma {:induction false} ReflectInside(length: int, i: int)
    requires length >= 1
    ensures 0 <= Reflect(length, i) < length
  {
  }

  /** The box anchor of a channel lies between the frame's least and greatest value. */
  lemma {:induction false} AnchorBetween(p: Picture, y: int, x: int, c: int, least: real, most: real)
    requires Inside(p, y, x)
    requires forall v, u :: Inside(p, v, u) ==> least <= Lit(p, v, u, c) <= most
    ensures least <= Anchor(p, y, x, c) <= most
  {
    forall u | 0 <= u < Width(p) ensures least <= VerticalMean(p, y, u, c) <= most {
      var rows := ColumnAbout(p, y, u, c);
      forall o ensures least <= rows(o) <= most {
        ReflectInside(Height(p), y + o);
        assert Inside(p, Reflect(Height(p), y + o), u);
      }
      MeanBounded(rows, AnchorRadius(p), least, most);
    }
    var columns := RowAbout(p, y, x, c);
    forall o ensures least <= columns(o) <= most {
      ReflectInside(Width(p), x + o);
    }
    MeanBounded(columns, AnchorRadius(p), least, most);
  }

  /** The clamped filter radius always keeps reflection within one period. */
  lemma {:induction false} AnchorRadiusClamped(p: Picture)
    ensures AnchorRadius(p) <= (Height(p) - 1) / 2 && AnchorRadius(p) <= (Width(p) - 1) / 2
  {
  }

  lemma {:induction false} PlateauShare(p: real, e: real)
    requires p > 0.0 && e >= 0.0
    ensures 0.0 <= Plateau(p, e) <= e && Plateau(p, e) < p
  {
    var t := Plateau(p, e);
    assert t * (p + e) == p * e;
    BelowBoth(t, p, e, t * p, t * e, p * e);
  }

  /** From t (p + e) = p e: t is non-negative, at most e, and below p. */
  lemma {:induction false} BelowBoth(t: real, p: real, e: real, tp: real, te: real, pe: real)
    requires p > 0.0 && e >= 0.0
    requires tp == t * p && te == t * e && pe == p * e && tp + te == pe
    ensures 0.0 <= t <= e && t < p
  {
    NonNegative(p, e);
    if t < 0.0 { ProductPositive(-t, p); NonNegative(-t, e); }
    NonNegative(t, e);
    if t > e { ProductPositive(t - e, p); }
    var lead := (t - p) * e;
    assert lead == te - pe;
    if t > 0.0 { ProductPositive(t, p); }
    if t >= p { ProductSign(t - p, e, lead); }
  }

  lemma {:induction false} PlateauGrows(p: real, e: real, e': real)
    requires p > 0.0 && 0.0 <= e <= e'
    ensures Plateau(p, e) <= Plateau(p, e')
  {
    var t, t' := Plateau(p, e), Plateau(p, e');
    PlateauShare(p, e);
    assert t * (p + e) == p * e && t' * (p + e') == p * e';
    assert t * (p + e') - t * (p + e) == t * (e' - e);
    assert p * e' - p * e == p * (e' - e);
    ScaleLess(t, p, e' - e);
    if t > t' { ProductPositive(t - t', p + e'); }
  }

  /** The F7 transfer curve: identity up to the knee, never amplifying, non-decreasing, and
      bounded by knee + plateau. */
  lemma {:induction false} CompressShape(knee: real, a: real, b: real)
    requires knee > 0.0 && 0.0 <= a <= b
    ensures a <= knee ==> Compress(knee, a) == a
    ensures 0.0 <= Compress(knee, a) <= a
    ensures Compress(knee, a) <= Compress(knee, b)
    ensures Compress(knee, b) < knee + knee * 0.35
  {
    var p := knee * 0.35;
    PlateauShare(p, MaxReal(a - knee, 0.0));
    PlateauShare(p, MaxReal(b - knee, 0.0));
    PlateauGrows(p, MaxReal(a - knee, 0.0), MaxReal(b - knee, 0.0));
  }

  // -------------------------------------------------------------------- causality

  lemma {:induction false} HistoryReadsPast(f: int -> real, g: int -> real, n: nat)
    requires forall i :: 0 <= i <= n ==> f(i) == g(i)
    ensures History(f, n) == History(g, n)
  {
    if n > 0 { HistoryReadsPast(f, g, n - 1); }
    assert f(n) == g(n);
  }

  lemma {:induction false} ImprintCausal(clean: seq<EvaluationRecord>, cut: nat, rest: Picture, slot: Slot,
                                         m: FaultManifest, n: nat)
    requires m.parameters.HistoryImprint? && n < cut <= |clean|
    ensures ImprintPicture(clean[..cut], rest, slot, m, n) == ImprintPicture(clean, rest, slot, m, n)
  {
    var ink := (trace: seq<EvaluationRecord>) =>
      (y, x, c) => var residual := Residual(trace, rest, slot, y, x, c);
                   Imprint(Lit(rest, y, x, c), residual(n), History(residual, n), m.parameters.mix);
    var f, g := ink(clean[..cut]), ink(clean);
    forall y, x, c | Inside(rest, y, x) && 0 <= c < 3 ensures f(y, x, c) == g(y, x, c) {
      var r, s := Residual(clean[..cut], rest, slot, y, x, c), Residual(clean, rest, slot, y, x, c);
      assert forall i :: 0 <= i <= n ==> r(i) == s(i);
      HistoryReadsPast(r, s, n);
    }
    PaintsAgree(rest, f, g);
  }

  /** The reference is causal: on any prefix of a readable clean trace it is computable, and
      it dictates the same pictures as on the whole trace. */
  lemma {:induction false} ReferenceCausal(k: Kernels, clean: seq<EvaluationRecord>, cut: nat, m: FaultManifest,
                                           rest: Option<RestBundle>)
    requires ManifestOk(m) && IsPixel(m.instance.op) && cut <= |clean|
    requires TraceReadable(clean, m, rest)
    ensures TraceReadable(clean[..cut], m, rest)
    ensures forall i, s :: InWindow(clean[..cut], m, i, s) ==>
              ExpectedPicture(k, clean[..cut], m, rest, i, s) == ExpectedPicture(k, clean, m, rest, i, s)
  {
    forall i, s | 0 <= i < cut && s in m.instance.slots
      ensures FrameReadable(clean[..cut], m, rest, i, s)
    {
      assert FrameReadable(clean, m, rest, i, s);
    }
    forall i, s | InWindow(clean[..cut], m, i, s)
      ensures ExpectedPicture(k, clean[..cut], m, rest, i, s) == ExpectedPicture(k, clean, m, rest, i, s)
    {
      assert FrameReadable(clean, m, rest, i, s);
      if m.instance.op.F6? {
        ImprintCausal(clean, cut, rest.value.payloads.At(s), s, m, i);
      }
    }
  }
}
