/**
 Streaming delivery of the pixel faults: one transformed record per clean one, the history of an
 imprint carried from frame to frame.  What is delivered is what the reference dictates.
 */
module PixelStreaming {
  import opened Basics
  import opened OperatorParameters
  import opened Manifests
  import opened Records
  import opened PixelReference
  import opened PixelProperties
  import opened Streaming

  // ------------------------------------------------------------------ the transforms

  predicate AnySupport(p: Picture, w: Warp)
    requires w.radius > 0.0
  {
    exists y, x :: 0 <= y < Height(p) && 0 <= x < Width(p) && Support(w, y, x)
  }

  /** F5 on one frame; a frame the warp does not touch is copied. */
  function CompactHorizontalWarp(p: Picture, w: Warp): Reply<Picture> {
    if w.radius <= 0.0 || !WarpInFrame(w, Height(p), Width(p)) || !WarpUnfolded(w, Height(p), Width(p))
    then Raised(OtherError)
    else if !AnySupport(p, w) then Returned(p)
    else Returned(WarpBy(p, w))
  }

  /** F7 on one frame; a frame too small for its box filter is refused. */
  function ResponseCompression(k: Kernels, p: Picture, m: FaultManifest): Reply<Picture>
    requires m.parameters.Saturation?
  {
    if m.parameters.knee <= 0.0 || AnchorRadius(p) < 1 then Raised(OtherError)
    else Returned(SaturationPicture(k, p, m))
  }

  /** The rest frame the manifest binds, when it has the shape of the current one. */
  function BaselineFor(m: FaultManifest, rest: Option<RestBundle>, slot: Slot, p: Picture): Reply<Picture>
    requires ParametersFit(m.instance.op, m.parameters) && NeedsBaseline(m.instance.op)
  {
    if rest.None? || rest.value.address != m.parameters.rest || !SameShape(p, rest.value.payloads.At(slot))
    then Raised(OtherError)
    else Returned(rest.value.payloads.At(slot))
  }

  /** Every operator without memory, on one frame. */
  function Transform(k: Kernels, m: FaultManifest, rest: Option<RestBundle>, index: int, slot: Slot, p: Picture)
    : Reply<Picture>
    requires ParametersFit(m.instance.op, m.parameters) && IsPixel(m.instance.op) && !m.instance.op.F6?
  {
    match m.instance.op
    case F1 => Returned(GlobalDriftPicture(p, m, index))
    case F3 => Returned(ScarPicture(p, m))
    case F5 => CompactHorizontalWarp(p, WarpOf(p, m))
    case F7 => ResponseCompression(k, p, m)
    case F2 => var b :- BaselineFor(m, rest, slot, p); Returned(SensitivityPicture(k, p, b, m))
    case F4 => var b :- BaselineFor(m, rest, slot, p); Returned(PatchPicture(p, b, m))
    case C2 => var b :- BaselineFor(m, rest, slot, p); Returned(ShiftPicture(p, b, m))
  }

  predicate ContactOnly(op: OperatorId) {
    op.F5? || op.F7?
  }

  // ------------------------------------------------------------------ one delivery

  /** What an operator without memory paints over a slot of the current record, if anything. */
  function CurrentPicture(k: Kernels, m: FaultManifest, rest: Option<RestBundle>, r: EvaluationRecord, index: nat,
                          slot: Slot): Reply<Option<Picture>>
    requires ParametersFit(m.instance.op, m.parameters) && IsPixel(m.instance.op) && !m.instance.op.F6?
  {
    if !m.Active(index) || (ContactOnly(m.instance.op) && !ContactActive(r.Prov(slot).phase)) then Returned(None)
    else if r.Sensor(slot).payload.None? then Raised(OtherError)
    else
      var p :- Transform(k, m, rest, index, slot, r.Sensor(slot).payload.value);
      Returned(Some(p))
  }

  /** What an imprint paints over a slot at an index, with the whole past at hand. */
  function ImprintedPicture(m: FaultManifest, rest: Option<RestBundle>, clean: seq<EvaluationRecord>, index: nat,
                            slot: Slot): Reply<Option<Picture>>
    requires ParametersFit(m.instance.op, m.parameters) && m.instance.op.F6? && index < |clean|
  {
    var payload := clean[index].Sensor(slot).payload;
    if payload.None? then Raised(OtherError)
    else
      var b :- BaselineFor(m, rest, slot, payload.value);
      Returned(if m.Active(index) then Some(ImprintPicture(clean, b, slot, m, index)) else None)
  }

  /** What is painted over a slot at an index, if anything. */
  function SlotPicture(k: Kernels, m: FaultManifest, rest: Option<RestBundle>, clean: seq<EvaluationRecord>,
                       index: nat, slot: Slot): Reply<Option<Picture>>
    requires ParametersFit(m.instance.op, m.parameters) && IsPixel(m.instance.op) && index < |clean|
  {
    if m.instance.op.F6? then ImprintedPicture(m, rest, clean, index, slot)
    else CurrentPicture(k, m, rest, clean[index], index, slot)
  }

  /** The calibration a misregistered slot announces; shifts are single digits. */
  function Misregistered(calibration: string, shift: int): string
    requires 0 <= shift <= 9
  {
    calibration + ":misregistered:" + ["0123456789"[shift]] + ",0px"
  }

  function Relabelled(m: FaultManifest, calibration: string): string
    requires ManifestOk(m) && m.instance.op.C2?
  {
    ShiftDigit(m);
    Misregistered(calibration, m.parameters.shift)
  }

  lemma {:induction false} ShiftDigit(m: FaultManifest)
    requires ManifestOk(m) && m.instance.op.C2?
    ensures 1 <= m.parameters.shift <= 5
  {
  }

  /** A painted slot. */
  function Painted(m: FaultManifest, clean: EvaluationRecord, slot: Slot, p: Picture): Delivery
    requires ManifestOk(m)
  {
    var sensor := clean.Sensor(slot).(payload := Some(p), validity := FaultValidity(m, clean.Sensor(slot)));
    var prov := clean.Prov(slot).(payloadHash := Some(Sha(p)), faults := [m.instance.op]);
    if !m.instance.op.C2? then Delivery(sensor, prov)
    else
      var id := Relabelled(m, sensor.calibrationId);
      Delivery(sensor.(calibrationId := id), prov.(calibrationHash := Sha(id)))
  }

  /** Paints slot by slot. */
  function Repaint(k: Kernels, m: FaultManifest, rest: Option<RestBundle>, clean: seq<EvaluationRecord>, index: nat,
                   output: EvaluationRecord, slots: seq<Slot>): Reply<EvaluationRecord>
    requires ManifestOk(m) && IsPixel(m.instance.op) && index < |clean|
    decreases |slots|
  {
    if slots == [] then Returned(output)
    else
      var p :- SlotPicture(k, m, rest, clean, index, slots[0]);
      var next :- PaintOver(m, clean[index], output, slots[0], p);
      Repaint(k, m, rest, clean, index, next, slots[1..])
  }

  function PaintOver(m: FaultManifest, clean: EvaluationRecord, output: EvaluationRecord, slot: Slot,
                     p: Option<Picture>): Reply<EvaluationRecord>
    requires ManifestOk(m)
  {
    if p.None? then Returned(output)
    else
      var d := Painted(m, clean, slot, p.value);
      ReplaceDelivery(output, slot, d.sensor, d.prov)
  }

  /** The rest frames were taken under the calibration of this episode. */
  predicate Calibrated(m: FaultManifest, rest: Option<RestBundle>, r: EvaluationRecord) {
    NeedsRest(m.instance.op) && rest.Some? ==>
      forall s <- m.instance.slots :: r.Prov(s).calibrationHash == rest.value.calibration.At(s)
  }

  /** Reference semantics: what is delivered at an index, with the whole past at hand. */
  function PixelStreamAt(k: Kernels, m: FaultManifest, rest: Option<RestBundle>, clean: seq<EvaluationRecord>,
                         index: nat): Reply<EvaluationRecord>
    requires ManifestOk(m) && IsPixel(m.instance.op) && index < |clean|
  {
    if index == 0 && !Calibrated(m, rest, clean[0]) then Raised(OtherError)
    else Repaint(k, m, rest, clean, index, clean[index], m.instance.slots)
  }

  // ------------------------------------------------------------------ the session

  /** One frame added to the history of a slot; there is none before the first. */
  function NextHistory(previous: Plane, rest: Picture, p: Picture): Plane {
    PlaneOf(rest, (y, x, c) =>
              BETA * PlaneAt(previous, y, x, c) + (1.0 - BETA) * (Lit(p, y, x, c) - Lit(rest, y, x, c)))
  }

  function ImprintNow(p: Picture, rest: Picture, history: Plane, mix: real): Picture {
    Paint(rest, (y, x, c) =>
            Imprint(Lit(rest, y, x, c), Lit(p, y, x, c) - Lit(rest, y, x, c), PlaneAt(history, y, x, c), mix))
  }

  /** The stored history is the reference's: an update with the current picture alone. */
  lemma {:induction false} NextHistoryIsNext(clean: seq<EvaluationRecord>, rest: Picture, slot: Slot, n: nat)
    requires n < |clean| && clean[n].Sensor(slot).payload.Some?
    ensures NextHistory(HistoryPlane(clean, rest, slot, n), rest, clean[n].Sensor(slot).payload.value)
            == HistoryPlane(clean, rest, slot, n + 1)
  {
    var plane, p := HistoryPlane(clean, rest, slot, n), clean[n].Sensor(slot).payload.value;
    var f := (y, x, c) => BETA * PlaneAt(plane, y, x, c) + (1.0 - BETA) * (Lit(p, y, x, c) - Lit(rest, y, x, c));
    var g := (y, x, c) => BETA * PlaneAt(plane, y, x, c)
                          + (1.0 - BETA) * Residual(clean, rest, slot, y, x, c)(n);
    forall y, x, c | Inside(rest, y, x) && 0 <= c < 3 ensures f(y, x, c) == g(y, x, c) {
      assert Residual(clean, rest, slot, y, x, c)(n) == Lit(p, y, x, c) - Lit(rest, y, x, c);
    }
    PlanesAgree(rest, f, g);
    NextPlaneIsHistory(clean, rest, slot, n);
  }

  /** A history does not change when the trace goes on. */
  lemma {:induction false} HistoryGoesOn(past: seq<EvaluationRecord>, r: EvaluationRecord, rest: Picture, slot: Slot)
    ensures HistoryPlane(past + [r], rest, slot, |past|) == HistoryPlane(past, rest, slot, |past|)
  {
    var n := |past|;
    var f := (y, x, c) => if n == 0 then 0.0 else History(Residual(past + [r], rest, slot, y, x, c), n - 1);
    var g := (y, x, c) => if n == 0 then 0.0 else History(Residual(past, rest, slot, y, x, c), n - 1);
    if n > 0 {
      forall y, x, c | Inside(rest, y, x) && 0 <= c < 3 ensures f(y, x, c) == g(y, x, c) {
        HistoryReadsPast(Residual(past + [r], rest, slot, y, x, c), Residual(past, rest, slot, y, x, c), n - 1);
      }
    }
    PlanesAgree(rest, f, g);
  }

  lemma {:induction false} ImprintNowIsImprint(clean: seq<EvaluationRecord>, rest: Picture, slot: Slot,
                                               m: FaultManifest, n: nat)
    requires m.parameters.HistoryImprint? && n < |clean| && clean[n].Sensor(slot).payload.Some?
    ensures ImprintNow(clean[n].Sensor(slot).payload.value, rest, HistoryPlane(clean, rest, slot, n + 1),
                       m.parameters.mix)
            == ImprintPicture(clean, rest, slot, m, n)
  {
    var p, plane, mix := clean[n].Sensor(slot).payload.value, HistoryPlane(clean, rest, slot, n + 1), m.parameters.mix;
    var f := (y, x, c) => Imprint(Lit(rest, y, x, c), Lit(p, y, x, c) - Lit(rest, y, x, c),
                                  PlaneAt(plane, y, x, c), mix);
    var g := (y, x, c) => Imprint(Lit(rest, y, x, c), Residual(clean, rest, slot, y, x, c)(n),
                                  PlaneAt(plane, y, x, c), mix);
    forall y, x, c | Inside(rest, y, x) && 0 <= c < 3 ensures f(y, x, c) == g(y, x, c) {
      assert Residual(clean, rest, slot, y, x, c)(n) == Lit(p, y, x, c) - Lit(rest, y, x, c);
    }
    PaintsAgree(rest, f, g);
    ImprintFromHistory(clean, rest, slot, m, n);
  }

  function NoHistory(rest: Picture): Plane {
    PlaneOf(rest, (y, x, c) => 0.0)
  }

  /** The stored history of a slot, or none, with the current picture added. */
  function Moved(histories: map<Slot, Plane>, rest: Picture, slot: Slot, p: Picture): Plane {
    NextHistory(if slot in histories then histories[slot] else NoHistory(rest), rest, p)
  }

  lemma {:induction false} NoHistoryYet(clean: seq<EvaluationRecord>, rest: Picture, slot: Slot)
    ensures HistoryPlane(clean, rest, slot, 0) == NoHistory(rest)
  {
    var p, q := HistoryPlane(clean, rest, slot, 0), NoHistory(rest);
    forall y | 0 <= y < |p| ensures p[y] == q[y] {
      forall x | 0 <= x < |p[y]| ensures p[y][x] == q[y][x] {
        assert Inside(rest, y, x);
      }
    }
  }

  /** The history of a slot as it is stored after a past. */
  ghost predicate StoredFor(histories: map<Slot, Plane>, rest: Option<RestBundle>, past: seq<EvaluationRecord>,
                            slot: Slot)
  {
    if past == [] then slot !in histories
    else rest.Some? && slot in histories
         && histories[slot] == HistoryPlane(past, rest.value.payloads.At(slot), slot, |past|)
  }

  /** The histories of some slots as they are stored after a past. */
  ghost predicate HistoriesOf(histories: map<Slot, Plane>, rest: Option<RestBundle>, past: seq<EvaluationRecord>,
                              slots: seq<Slot>)
  {
    forall s <- slots :: StoredFor(histories, rest, past, s)
  }

  /** Moving the history of a slot on gives its history one frame later. */
  lemma {:induction false} MovedIsHistory(histories: map<Slot, Plane>, rest: RestBundle, past: seq<EvaluationRecord>,
                                          r: EvaluationRecord, slot: Slot)
    requires r.Sensor(slot).payload.Some? && StoredFor(histories, Some(rest), past, slot)
    ensures Moved(histories, rest.payloads.At(slot), slot, r.Sensor(slot).payload.value)
            == HistoryPlane(past + [r], rest.payloads.At(slot), slot, |past| + 1)
  {
    var b, now := rest.payloads.At(slot), past + [r];
    NoHistoryYet(now, b, slot);
    HistoryGoesOn(past, r, b, slot);
    NextHistoryIsNext(now, b, slot, |past|);
  }

  /** Moving the history of the n-th slot on leaves the others in place. */
  lemma {:induction false} OthersStay(histories: map<Slot, Plane>, rest: Option<RestBundle>,
                                      past: seq<EvaluationRecord>, now: seq<EvaluationRecord>, slots: seq<Slot>,
                                      n: nat, moved: Plane)
    requires n < |slots| && forall i, j :: 0 <= i < j < |slots| ==> slots[i] != slots[j]
    requires HistoriesOf(histories, rest, now, slots[..n]) && HistoriesOf(histories, rest, past, slots[n..])
    requires StoredFor(histories[slots[n] := moved], rest, now, slots[n])
    ensures HistoriesOf(histories[slots[n] := moved], rest, now, slots[..n + 1])
    ensures HistoriesOf(histories[slots[n] := moved], rest, past, slots[n + 1..])
  {
    var next := histories[slots[n] := moved];
    forall s | s in slots[..n + 1] ensures StoredFor(next, rest, now, s) {
      if s != slots[n] {
        var i :| 0 <= i < n && slots[i] == s;
        assert slots[..n][i] == s && StoredFor(histories, rest, now, s);
      }
    }
    forall s | s in slots[n + 1..] ensures StoredFor(next, rest, past, s) {
      var i :| n + 1 <= i < |slots| && slots[i] == s;
      assert slots[n..][i - n] == s && StoredFor(histories, rest, past, s);
    }
  }

  /** One step of the history of a slot, and the imprint it leaves. */
  function ImprintStep(m: FaultManifest, rest: Option<RestBundle>, histories: map<Slot, Plane>, r: EvaluationRecord,
                       index: nat, slot: Slot): (map<Slot, Plane>, Reply<Option<Picture>>)
    requires ParametersFit(m.instance.op, m.parameters) && m.instance.op.F6?
  {
    var payload := r.Sensor(slot).payload;
    if payload.None? then (histories, Raised(OtherError))
    else
      var b := BaselineFor(m, rest, slot, payload.value);
      if b.Raised? then (histories, Raised(b.error))
      else
        var moved := Moved(histories, b.value, slot, payload.value);
        (histories[slot := moved],
         Returned(if m.Active(index) then Some(ImprintNow(payload.value, b.value, moved, m.parameters.mix)) else None))
  }

  lemma {:induction false} StepKeeps(m: FaultManifest, rest: Option<RestBundle>, histories: map<Slot, Plane>,
                                     past: seq<EvaluationRecord>, r: EvaluationRecord, slots: seq<Slot>, n: nat)
    requires ParametersFit(m.instance.op, m.parameters) && m.instance.op.F6?
    requires n < |slots| && forall i, j :: 0 <= i < j < |slots| ==> slots[i] != slots[j]
    requires HistoriesOf(histories, rest, past + [r], slots[..n])
    requires HistoriesOf(histories, rest, past, slots[n..])
    ensures var (next, p) := ImprintStep(m, rest, histories, r, |past|, slots[n]);
            p.Returned? ==> && HistoriesOf(next, rest, past + [r], slots[..n + 1])
                            && HistoriesOf(next, rest, past, slots[n + 1..])
  {
    var slot := slots[n];
    assert slots[n..][0] == slot && slot in slots[n..];
    if rest.Some? && r.Sensor(slot).payload.Some? {
      MovedIsHistory(histories, rest.value, past, r, slot);
      OthersStay(histories, rest, past, past + [r], slots, n,
                 Moved(histories, rest.value.payloads.At(slot), slot, r.Sensor(slot).payload.value));
    }
  }

  lemma {:induction false} StepPaints(m: FaultManifest, rest: Option<RestBundle>, histories: map<Slot, Plane>,
                                      past: seq<EvaluationRecord>, r: EvaluationRecord, slot: Slot)
    requires ParametersFit(m.instance.op, m.parameters) && m.instance.op.F6? && StoredFor(histories, rest, past, slot)
    ensures ImprintStep(m, rest, histories, r, |past|, slot).1 == ImprintedPicture(m, rest, past + [r], |past|, slot)
  {
    assert (past + [r])[|past|] == r;
    if r.Sensor(slot).payload.Some? && BaselineFor(m, rest, slot, r.Sensor(slot).payload.value).Returned? {
      var p, b := r.Sensor(slot).payload.value, rest.value.payloads.At(slot);
      MovedIsHistory(histories, rest.value, past, r, slot);
      MovedPaints(past, r, b, slot, m, Moved(histories, b, slot, p));
    }
  }

  lemma {:induction false} MovedPaints(past: seq<EvaluationRecord>, r: EvaluationRecord, rest: Picture, slot: Slot,
                                       m: FaultManifest, moved: Plane)
    requires m.parameters.HistoryImprint? && r.Sensor(slot).payload.Some?
    requires moved == HistoryPlane(past + [r], rest, slot, |past| + 1)
    ensures ImprintNow(r.Sensor(slot).payload.value, rest, moved, m.parameters.mix)
            == ImprintPicture(past + [r], rest, slot, m, |past|)
  {
    assert (past + [r])[|past|] == r;
    ImprintNowIsImprint(past + [r], rest, slot, m, |past|);
  }

  class PixelFaultSession {
    const kernels: Kernels
    const manifest: FaultManifest
    const rest: Option<RestBundle>
    var processed: nat
    var histories: map<Slot, Plane>
    ghost var history: seq<EvaluationRecord>

    ghost predicate Valid()
      reads this
    {
      && ManifestOk(manifest) && IsPixel(manifest.instance.op) && processed == |history|
      && (manifest.instance.op.F6? ==>
            HistoriesOf(histories, rest, history, manifest.instance.slots))
    }

    constructor (k: Kernels, m: FaultManifest, rest: Option<RestBundle>)
      requires ManifestOk(m) && IsPixel(m.instance.op)
      ensures Valid() && kernels == k && manifest == m && this.rest == rest && history == []
    {
      kernels, manifest, this.rest, processed, histories, history := k, m, rest, 0, map[], [];
    }

    /** One delivery, from the current record and the stored histories alone. */
    method DeliverNext(clean: EvaluationRecord) returns (r: Reply<EvaluationRecord>)
      requires Valid()
      modifies this
      ensures clean.Observed().stepIndex != old(processed) ==> r.Raised? && Valid() && history == old(history)
      ensures clean.Observed().stepIndex == old(processed) ==>
                r == PixelStreamAt(kernels, manifest, rest, old(history) + [clean], |old(history)|)
      ensures r.Returned? ==> Valid() && history == old(history) + [clean]
      ensures r.Raised? ==> history == old(history) && processed == old(processed)
      ensures !manifest.instance.op.F6? ==> Valid()
    {
      if clean.Observed().stepIndex != processed { return Raised(OtherError); }
      if processed == 0 && !Calibrated(manifest, rest, clean) { return Raised(OtherError); }
      var slots, output, n := manifest.instance.slots, clean, 0;
      ghost var past := history;
      ghost var now := past + [clean];
      while n < |slots|
        invariant 0 <= n <= |slots| && processed == |past| && history == past
        invariant manifest.instance.op.F6? ==> HistoriesOf(histories, rest, now, slots[..n])
        invariant manifest.instance.op.F6? ==> HistoriesOf(histories, rest, past, slots[n..])
        invariant Repaint(kernels, manifest, rest, now, |past|, clean, slots)
               == Repaint(kernels, manifest, rest, now, |past|, output, slots[n..])
      {
        var p := PictureNow(clean, slots, n);
        if p.Raised? { return Raised(p.error); }
        var next := PaintOver(manifest, clean, output, slots[n], p.value);
        if next.Raised? { return next; }
        output := next.value;
        n := n + 1;
      }
      history, processed := now, processed + 1;
      return Returned(output);
    }

    /** What is painted over one slot now; an imprint also moves its history on. */
    method PictureNow(clean: EvaluationRecord, slots: seq<Slot>, n: nat) returns (p: Reply<Option<Picture>>)
      requires ManifestOk(manifest) && IsPixel(manifest.instance.op) && processed == |history|
      requires n < |slots| && forall i, j :: 0 <= i < j < |slots| ==> slots[i] != slots[j]
      requires manifest.instance.op.F6? ==>
                 && HistoriesOf(histories, rest, history + [clean], slots[..n])
                 && HistoriesOf(histories, rest, history, slots[n..])
      modifies this`histories
      ensures p == SlotPicture(kernels, manifest, rest, history + [clean], |history|, slots[n])
      ensures p.Returned? && manifest.instance.op.F6? ==>
                && HistoriesOf(histories, rest, history + [clean], slots[..n + 1])
                && HistoriesOf(histories, rest, history, slots[n + 1..])
    {
      if manifest.instance.op.F6? {
        assert slots[n..][0] == slots[n] && slots[n] in slots[n..];
        StepPaints(manifest, rest, histories, history, clean, slots[n]);
        StepKeeps(manifest, rest, histories, history, clean, slots, n);
        p := ImprintNext(clean, slots[n]);
      } else {
        p := CurrentPicture(kernels, manifest, rest, clean, processed, slots[n]);
      }
    }

    /** One step of the history of a slot, and the imprint it leaves. */
    method ImprintNext(clean: EvaluationRecord, slot: Slot) returns (p: Reply<Option<Picture>>)
      requires ManifestOk(manifest) && manifest.instance.op.F6?
      modifies this`histories
      ensures (histories, p) == ImprintStep(manifest, rest, old(histories), clean, processed, slot)
    {
      var payload := clean.Sensor(slot).payload;
      if payload.None? { return Raised(OtherError); }
      var b := BaselineFor(manifest, rest, slot, payload.value);
      if b.Raised? { return Raised(b.error); }
      var moved := Moved(histories, b.value, slot, payload.value);
      histories := histories[slot := moved];
      if !manifest.Active(processed) { return Returned(None); }
      return Returned(Some(ImprintNow(payload.value, b.value, moved, manifest.parameters.mix)));
    }
  }
}
