/** Acknowledging a count forgets a prefix, so it must be a prefix that is settled.
    For which batches it always is, whatever the platform answers: those the
    collector makes among them, because it buffers validated values alone. */
module DeliveryGaps {
  import opened Schema
  import opened Samples
  import opened Buffer
  import opened Publish
  import opened DeliverySeries

  /** Which samples of one metric a publish is done with, its first e renderings
      lying in settled chunks: those, and every sample without a rendering. */
  function Done(part: seq<Sample>, items: Items, e: nat): seq<bool> {
    if part == [] then []
    else
      var n := |part| - 1;
      Done(part[..n], items, e) + [Render(part[n], items).Err? || |ToMetrics(part[..n], items)| < e]
  }

  function TrueCount(flags: seq<bool>): nat {
    if flags == [] then 0 else TrueCount(flags[..|flags| - 1]) + if flags[|flags| - 1] then 1 else 0
  }

  lemma {:induction false} DoneCount(part: seq<Sample>, items: Items, e: nat, slug: string)
    requires forall s :: s in part ==> s.slug == slug
    ensures |Done(part, items, e)| == |part|
    ensures var rendered := |ToMetrics(part, items)|;
            TrueCount(Done(part, items, e)) ==
            UnrenderedCount(part, items, slug) + if e <= rendered then e else rendered
  {
    if part != [] {
      hide Render;
      var n := |part| - 1;
      DoneCount(part[..n], items, e, slug);
      assert part[n] in part;
      var flags := Done(part, items, e);
      assert flags[..n] == Done(part[..n], items, e);
    }
  }

  lemma {:induction false} DoneAt(part: seq<Sample>, items: Items, e: nat, j: nat)
    requires j < |part| == |Done(part, items, e)|
    ensures Done(part, items, e)[j] <==> Render(part[j], items).Err? || |ToMetrics(part[..j], items)| < e
    decreases |part|
  {
    hide Render, ToMetrics;
    var n := |part| - 1;
    if j < n {
      DoneLength(part[..n], items, e);
      DoneAt(part[..n], items, e, j);
      assert part[..n][..j] == part[..j];
    }
  }

  lemma {:induction false} DoneLength(part: seq<Sample>, items: Items, e: nat)
    ensures |Done(part, items, e)| == |part|
  {
    if part != [] { DoneLength(part[..|part| - 1], items, e); }
  }

  lemma {:induction false} CountPrefix(flags: seq<bool>)
    ensures TrueCount(flags) <= |flags|
    ensures (forall j :: 0 <= j < TrueCount(flags) ==> flags[j]) <==>
            forall i, j :: 0 <= i < j < |flags| && flags[j] ==> flags[i]
  {
    if flags != [] {
      var n := |flags| - 1;
      var init := flags[..n];
      CountPrefix(init);
      if TrueCount(init) == n {
        AllTrue(init);
      } else if flags[n] {
        SomeFalse(init);
      }
    }
  }

  lemma {:induction false} AllTrue(flags: seq<bool>)
    requires TrueCount(flags) == |flags|
    ensures forall j :: 0 <= j < |flags| ==> flags[j]
  {
    if flags != [] {
      CountPrefix(flags[..|flags| - 1]);
      AllTrue(flags[..|flags| - 1]);
    }
  }

  lemma {:induction false} SomeFalse(flags: seq<bool>)
    requires TrueCount(flags) < |flags|
    ensures exists j :: 0 <= j <= TrueCount(flags) && !flags[j]
  {
    var n := |flags| - 1;
    if !flags[n] && TrueCount(flags) == n {
    } else {
      CountPrefix(flags[..n]);
      SomeFalse(flags[..n]);
      var j :| 0 <= j <= TrueCount(flags[..n]) && !flags[..n][j];
      assert !flags[j];
    }
  }

  lemma {:induction false} RenderedLater(part: seq<Sample>, items: Items, i: nat, j: nat)
    requires i <= j <= |part|
    ensures |ToMetrics(part[..i], items)| <= |ToMetrics(part[..j], items)|
    decreases j
  {
    if i < j {
      RenderedLater(part, items, i, j - 1);
      assert part[..j][..j - 1] == part[..j - 1];
    }
  }

  lemma {:induction false} UnrenderedOfSlug(samples: seq<Sample>, items: Items, slug: string)
    ensures UnrenderedCount(samples, items, slug) == UnrenderedCount(OfSlug(samples, slug), items, slug)
    ensures forall s :: s in OfSlug(samples, slug) ==> s.slug == slug
  {
    if samples != [] {
      hide Render;
      var n := |samples| - 1;
      var before := OfSlug(samples[..n], slug);
      UnrenderedOfSlug(samples[..n], items, slug);
      if samples[n].slug == slug {
        var after := before + [samples[n]];
        assert OfSlug(samples, slug) == after && after[..|before|] == before && after[|before|] == samples[n];
        assert UnrenderedCount(after, items, slug) ==
               UnrenderedCount(before, items, slug) + (if Render(samples[n], items).Err? then 1 else 0);
      } else {
        assert OfSlug(samples, slug) == before;
      }
    }
  }

  /** The acknowledged prefix is settled exactly when no sample without a rendering
      comes behind a rendered one whose chunk was not settled. */
  lemma AckedPrefixIsSettledExactly(part: seq<Sample>, items: Items, e: nat, slug: string)
    requires forall s :: s in part ==> s.slug == slug
    requires e <= |ToMetrics(part, items)|
    ensures var n, done := UnrenderedCount(part, items, slug) + e, Done(part, items, e);
            && n <= |part| == |done|
            && ((forall j :: 0 <= j < n ==> done[j]) <==>
                forall i, j :: 0 <= i < j < |part| && Render(part[j], items).Err? && Render(part[i], items).Ok? ==>
                                 |ToMetrics(part[..i], items)| < e)
  {
    hide Render, ToMetrics, UnrenderedCount, Done;
    var done := Done(part, items, e);
    DoneCount(part, items, e, slug);
    CountPrefix(done);
    forall j | 0 <= j < |part|
      ensures done[j] <==> Render(part[j], items).Err? || |ToMetrics(part[..j], items)| < e
    {
      DoneAt(part, items, e, j);
    }
    forall i, j | 0 <= i < j < |part| ensures |ToMetrics(part[..i], items)| <= |ToMetrics(part[..j], items)| {
      RenderedLater(part, items, i, j);
    }
  }

  /** Every sample the publish acknowledges of one metric, counted from the first, has
      no rendering or is among the renderings in the settled chunks. */
  ghost predicate PrefixSettled(samples: seq<Sample>, items: Items, ins: seq<Ingest>, slug: string) {
    var ms, part := ToMetrics(samples, items), OfSlug(samples, slug);
    var e := CountSlug(ms[..SettledEnd(ms, ins)], slug);
    forall j :: 0 <= j < UnrenderedCount(samples, items, slug) + e ==>
      j < |part| && (Render(part[j], items).Err? || |ToMetrics(part[..j], items)| < e)
  }

  /** What cannot be rendered comes before everything that can. */
  predicate UnrenderedFirst(part: seq<Sample>, items: Items) {
    forall i, j :: 0 <= i < j < |part| && Render(part[j], items).Err? ==> Render(part[i], items).Err?
  }

  /** For the answers given. */
  lemma SettledFor(samples: seq<Sample>, items: Items, ins: seq<Ingest>, slug: string)
    ensures var ms, part := ToMetrics(samples, items), OfSlug(samples, slug);
            var e := CountSlug(ms[..SettledEnd(ms, ins)], slug);
            PrefixSettled(samples, items, ins, slug) <==>
            forall i, j :: 0 <= i < j < |part| && Render(part[j], items).Err? && Render(part[i], items).Ok? ==>
                             |ToMetrics(part[..i], items)| < e
  {
    hide Render, ToMetrics, UnrenderedCount, Done, OfSlug, CountSlug, SeriesOf, SettledEnd, IngestLog;
    var ms, part := ToMetrics(samples, items), OfSlug(samples, slug);
    var end := SettledEnd(ms, ins);
    var e := CountSlug(ms[..end], slug);
    UnrenderedOfSlug(samples, items, slug);
    SeriesRenders(samples, items, slug);
    SeriesCount(ms[..end], slug);
    SeriesAppend(ms[..end], ms[end..], slug);
    assert ms == ms[..end] + ms[end..];
    AckedPrefixIsSettledExactly(part, items, e, slug);
    forall j | 0 <= j < |part|
      ensures Done(part, items, e)[j] <==> Render(part[j], items).Err? || |ToMetrics(part[..j], items)| < e
    {
      DoneAt(part, items, e, j);
    }
  }

  /** Nothing is settled when the first request fails. */
  lemma FailsAtOnce(ms: seq<Metric>, slug: string) returns (ins: seq<Ingest>)
    requires ms != []
    ensures IngestLog(ms, ins) && CountSlug(ms[..SettledEnd(ms, ins)], slug) == 0
  {
    ins := [Request("", Chunk(ms, 0), Broken)];
    assert ms[..0] == [];
  }

  lemma RenderedSomewhere(samples: seq<Sample>, items: Items, slug: string, i: nat)
    requires i < |OfSlug(samples, slug)| && Render(OfSlug(samples, slug)[i], items).Ok?
    ensures ToMetrics(samples, items) != []
  {
    hide Render, OfSlug;
    var part := OfSlug(samples, slug);
    SeriesRenders(samples, items, slug);
    GatherMember(part, ToMetric(items), Metric(part[i].slug, Render(part[i], items).value, part[i].at));
    assert part[i] in part;
  }

  /** The acknowledged prefix of a metric is settled whatever the platform answers, if
      and only if no sample of it without a rendering lies behind one that has one. */
  lemma AckIsPrefixExactly(samples: seq<Sample>, items: Items, slug: string)
    ensures (forall ins :: IngestLog(ToMetrics(samples, items), ins) ==> PrefixSettled(samples, items, ins, slug)) <==>
            UnrenderedFirst(OfSlug(samples, slug), items)
  {
    hide Render, ToMetrics, OfSlug, CountSlug, SettledEnd, IngestLog, PrefixSettled;
    var ms, part := ToMetrics(samples, items), OfSlug(samples, slug);
    forall ins | UnrenderedFirst(part, items) ensures PrefixSettled(samples, items, ins, slug) {
      SettledFor(samples, items, ins, slug);
    }
    if !UnrenderedFirst(part, items) {
      var i, j :| 0 <= i < j < |part| && Render(part[j], items).Err? && Render(part[i], items).Ok?;
      RenderedSomewhere(samples, items, slug, i);
      var ins := FailsAtOnce(ms, slug);
      SettledFor(samples, items, ins, slug);
    }
  }

  lemma {:induction false} OfSlugKeeps(samples: seq<Sample>, slug: string)
    ensures forall s :: s in OfSlug(samples, slug) ==> s in samples
  {
    if samples != [] {
      OfSlugKeeps(samples[..|samples| - 1], slug);
    }
  }

  /** What the collector buffers is acknowledged rightly: in every publish the count
      acknowledged of a metric is of samples that were recorded or refused. */
  lemma CollectedAckIsPrefix(samples: seq<Sample>, items: Items, ins: seq<Ingest>, counted: map<string, nat>,
                             slug: string)
    requires forall s :: s in samples ==> Collected(s) && s.IsMetric()
    requires MetricsPart(samples, items, ins, counted)
    ensures PrefixSettled(samples, items, ins, slug)
    ensures CountOf(counted, slug) ==
            CountSlug(ToMetrics(samples, items)[..SettledEnd(ToMetrics(samples, items), ins)], slug)
  {
    hide Render, ToMetrics, OfSlug, CountSlug, SettledEnd, IngestLog, PrefixSettled, Collected;
    var part := OfSlug(samples, slug);
    OfSlugKeeps(samples, slug);
    forall s | s in samples ensures Render(s, items).Ok? { CollectedRenders(s, items); }
    AckIsPrefixExactly(samples, items, slug);
    AllRendered(samples, items, slug);
  }

  lemma {:induction false} AllRendered(samples: seq<Sample>, items: Items, slug: string)
    requires forall s :: s in samples ==> Render(s, items).Ok?
    ensures UnrenderedCount(samples, items, slug) == 0
  {
    hide Render;
    if samples != [] {
      AllRendered(samples[..|samples| - 1], items, slug);
    }
  }

  /** Why only validated values may be buffered: with a good sample, then one whose
      value was never validated, the chunk fails, and yet one sample is acknowledged,
      the good one. */
  lemma UnsentSampleForgotten(good: Sample, bad: Sample, items: Items, start: nat)
    requires good.kind.KMetric? && good.value.VFloat? && bad.kind.KMetric? && bad.value.VNil? && good.slug == bad.slug
    ensures var part, ins := [good, bad], [Request("", ToMetrics([good, bad], items), Broken)];
            var n := UnrenderedCount(part, items, good.slug) +
                     CountSlug(ToMetrics(part, items)[..SettledEnd(ToMetrics(part, items), ins)], good.slug);
            && |ToMetrics(part, items)| == 1 && IngestLog(ToMetrics(part, items), ins)
            && Acknowledged(Queue(part, start), start, n).items == [bad]
  {
    var part := [good, bad];
    var ms := ToMetrics(part, items);
    OneUnrendered(good, bad, items);
    assert ms[..0] == [];
  }

  lemma OneUnrendered(good: Sample, bad: Sample, items: Items)
    requires good.kind.KMetric? && good.value.VFloat? && bad.kind.KMetric? && bad.value.VNil? && good.slug == bad.slug
    ensures ToMetrics([good, bad], items) == [Metric(good.slug, Decimal(good.value.n), good.at)]
    ensures UnrenderedCount([good, bad], items, good.slug) == 1
  {
    hide ToMetrics;
    var part := [good, bad];
    assert part == [good] + [bad];
    ToMetricsAppend([good], [bad], items);
    OneMetric(good, items);
    OneRenders(bad, items, good.slug);
    assert part[..1] == [good] && [good][..0] == [];
    calc {
      UnrenderedCount(part, items, good.slug);
      UnrenderedCount([good], items, good.slug) + 1;
      UnrenderedCount([], items, good.slug) + 1;
      1;
    }
  }
}
