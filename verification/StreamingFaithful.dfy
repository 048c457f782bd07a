/** The streaming faults are faithful channels. */
module StreamingFaithful {
  import opened Basics
  import opened OperatorParameters
  import opened Manifests
  import opened Records
  import opened ValidationCodes
  import opened PixelReference
  import opened Streaming
  import opened PixelStreaming
  import opened Delivery
  import opened RunnerChecks
  import opened Chronology
  import opened RunnerChronology

  /** Past records that can be looked up are well-formed. */
  ghost predicate ShapedLookup(lookup: LookupFn) {
    forall i: int :: lookup(i).Returned? ==> RecordShaped(lookup(i).value, i)
  }

  lemma {:induction false} DeliveryShaped(m: FaultManifest, r: EvaluationRecord, lookup: LookupFn, index: nat,
                                          slot: Slot)
    requires ParametersFit(m.instance.op, m.parameters) && Streamed(m.instance.op)
    requires RecordShaped(r, index) && ShapedLookup(lookup)
    requires Deliver(m, r, lookup, index, slot).Returned?
    ensures var d := Deliver(m, r, lookup, index, slot).value; SlotShaped(d.sensor, d.prov, index)
  {
    if IsRouting(m.instance.op) {
      var frame := RegisteredFrame(m, index, slot);
      assert lookup(frame).Returned?;
    }
  }

  lemma {:induction false} RewriteShaped(m: FaultManifest, r: EvaluationRecord, lookup: LookupFn, index: nat,
                                         output: EvaluationRecord, slots: seq<Slot>, c: EpisodeContext)
    requires ParametersFit(m.instance.op, m.parameters) && Streamed(m.instance.op)
    requires RecordShaped(r, index) && ShapedLookup(lookup) && RecordOk(output, index, c, false)
    ensures var d := Rewrite(m, r, lookup, index, output, slots); d.Returned? ==> RecordOk(d.value, index, c, false)
    decreases |slots|
  {
    if slots != [] {
      var delivery := Deliver(m, r, lookup, index, slots[0]);
      if delivery.Returned? {
        DeliveryShaped(m, r, lookup, index, slots[0]);
        var next := ReplaceDelivery(output, slots[0], delivery.value.sensor, delivery.value.prov);
        if next.Returned? {
          assert RecordOk(next.value, index, c, false);
          RewriteShaped(m, r, lookup, index, next.value, slots[1..], c);
        }
      }
    }
  }

  /** Availability, temporal and misrouting faults, streamed, keep every record well-formed and
      of its own episode and step: runs under them meet the chronology theorem. */
  lemma {:induction false} StreamedFaultsAreFaithful(channel: Channel, c: EpisodeContext)
    requires channel.Online? && ManifestOk(channel.manifest) && Streamed(channel.manifest.instance.op)
    requires forall before: Trace, r :: channel.stream(before, r) == StreamAt(channel.manifest, before + [r], |before|)
    ensures Faithful(channel, c)
  {
    var m := channel.manifest;
    forall before: Trace, r: EvaluationRecord
      | channel.stream(before, r).Returned? && TraceOk(before + [r], c, true)
      ensures RecordOk(channel.stream(before, r).value, |before|, c, false)
    {
      var trace, n := before + [r], |before|;
      assert trace[n] == r && trace[..n + 1] == trace;
      assert RecordOk(trace[n], n, c, true);
      var lookup := FullHistory(trace);
      forall i: int | lookup(i).Returned? ensures RecordShaped(lookup(i).value, i) {
        assert RecordOk(trace[i], i, c, true);
      }
      if Rewrites(m, n) { RewriteShaped(m, r, lookup, n, r, Visited(m), c); }
    }
  }

  // ------------------------------------------------------------------ pixel faults

  lemma {:induction false} RepaintShaped(k: Kernels, m: FaultManifest, rest: Option<RestBundle>, clean: Trace,
                                         index: nat, output: EvaluationRecord, slots: seq<Slot>, c: EpisodeContext)
    requires ManifestOk(m) && IsPixel(m.instance.op) && index < |clean|
    requires RecordShaped(clean[index], index) && RecordOk(output, index, c, false)
    ensures var d := Repaint(k, m, rest, clean, index, output, slots);
            d.Returned? ==> RecordOk(d.value, index, c, false)
    decreases |slots|
  {
    if slots != [] {
      var p := SlotPicture(k, m, rest, clean, index, slots[0]);
      if p.Returned? {
        var next := PaintOver(m, clean[index], output, slots[0], p.value);
        PaintOverShaped(m, clean[index], output, index, slots[0], p.value, c);
        if next.Returned? { RepaintShaped(k, m, rest, clean, index, next.value, slots[1..], c); }
      }
    }
  }

  lemma {:induction false} PaintOverShaped(m: FaultManifest, clean: EvaluationRecord, output: EvaluationRecord,
                                           index: nat, slot: Slot, p: Option<Picture>, c: EpisodeContext)
    requires ManifestOk(m) && RecordShaped(clean, index) && RecordOk(output, index, c, false)
    ensures var d := PaintOver(m, clean, output, slot, p); d.Returned? ==> RecordOk(d.value, index, c, false)
  {
    if p.Some? {
      var d := Painted(m, clean, slot, p.value);
      assert SlotShaped(d.sensor, d.prov, index);
    }
  }

  /** So do pixel faults: the chronology theorem covers every operator of the registry. */
  lemma {:induction false} PixelFaultsAreFaithful(channel: Channel, k: Kernels, rest: Option<RestBundle>,
                                                  c: EpisodeContext)
    requires channel.Online? && ManifestOk(channel.manifest) && IsPixel(channel.manifest.instance.op)
    requires forall before: Trace, r ::
               channel.stream(before, r) == PixelStreamAt(k, channel.manifest, rest, before + [r], |before|)
    ensures Faithful(channel, c)
  {
    var m := channel.manifest;
    forall before: Trace, r: EvaluationRecord
      | channel.stream(before, r).Returned? && TraceOk(before + [r], c, true)
      ensures RecordOk(channel.stream(before, r).value, |before|, c, false)
    {
      var trace, n := before + [r], |before|;
      assert RecordOk(trace[n], n, c, true);
      RepaintShaped(k, m, rest, trace, n, r, m.instance.slots, c);
    }
  }
}
