/** How a publish's chunks split one metric's samples into recorded and refused:
    the sequence facts behind DeliveryRuns.dfy. */
module DeliverySeries {
  import opened Schema
  import opened Samples
  import opened Publish

  /** What the collector buffers for a metric: a finite float. */
  predicate MetricSample(s: Sample) { s.IsMetric() && s.value.VFloat? }

  predicate AllMetric(samples: seq<Sample>) { forall s :: s in samples ==> MetricSample(s) }

  function OfSlug(samples: seq<Sample>, slug: string): seq<Sample> {
    if samples == [] then []
    else
      OfSlug(samples[..|samples| - 1], slug) +
      (if samples[|samples| - 1].slug == slug then [samples[|samples| - 1]] else [])
  }

  /** One attribute's series, in the order the platform recorded it. */
  function SeriesOf(ms: seq<Metric>, slug: string): seq<Metric> {
    if ms == [] then []
    else SeriesOf(ms[..|ms| - 1], slug) + (if ms[|ms| - 1].slug == slug then [ms[|ms| - 1]] else [])
  }

  /** The elements whose verdict is true. */
  function Keep<T>(s: seq<T>, verdicts: seq<bool>): seq<T>
    requires |s| == |verdicts|
  {
    if s == [] then []
    else Keep(s[..|s| - 1], verdicts[..|s| - 1]) + (if verdicts[|s| - 1] then [s[|s| - 1]] else [])
  }

  /** The absolute indexes, counted from base, whose verdict is v. */
  function Indexes(base: nat, verdicts: seq<bool>, v: bool): seq<nat> {
    if verdicts == [] then []
    else
      var n := |verdicts| - 1;
      Indexes(base, verdicts[..n], v) + (if verdicts[n] == v then [base + n] else [])
  }

  function Pick(log: seq<Sample>, indexes: seq<nat>): seq<Sample> {
    if indexes == [] then []
    else
      var n := |indexes| - 1;
      Pick(log, indexes[..n]) + (if indexes[n] < |log| then [log[indexes[n]]] else [])
  }

  /** What became of each settled sample of a slug: true is recorded, false refused. */
  function Verdict(slug: string): Ingest -> seq<bool> {
    (i: Ingest) => if ChunkSettled(i) then seq(|SeriesOf(i.payload, slug)|, _ => i.reply.Taken?) else []
  }

  function Verdicts(ins: seq<Ingest>, slug: string): seq<bool> {
    Gather(ins, Verdict(slug))
  }

  // ---------------------------------------------------- sequence facts

  lemma {:induction false} SeriesAppend(a: seq<Metric>, b: seq<Metric>, slug: string)
    ensures SeriesOf(a + b, slug) == SeriesOf(a, slug) + SeriesOf(b, slug)
  {
    if b == [] {
      assert a + b == a;
    } else {
      var n := |b| - 1;
      assert (a + b)[..|a| + n] == a + b[..n];
      SeriesAppend(a, b[..n], slug);
    }
  }

  lemma {:induction false} SeriesCount(ms: seq<Metric>, slug: string)
    ensures |SeriesOf(ms, slug)| == CountSlug(ms, slug)
  {
    if ms != [] { SeriesCount(ms[..|ms| - 1], slug); }
  }

  lemma {:induction false} KeepAppend<T>(a: seq<T>, va: seq<bool>, b: seq<T>, vb: seq<bool>)
    requires |a| == |va| && |b| == |vb|
    ensures Keep(a + b, va + vb) == Keep(a, va) + Keep(b, vb)
  {
    if b == [] {
      assert a + b == a && va + vb == va;
    } else {
      var n := |b| - 1;
      assert (a + b)[..|a| + n] == a + b[..n] && (va + vb)[..|a| + n] == va + vb[..n];
      KeepAppend(a, va, b[..n], vb[..n]);
    }
  }

  lemma {:induction false} KeepAll<T>(s: seq<T>, verdicts: seq<bool>, v: bool)
    requires |s| == |verdicts| && forall k :: 0 <= k < |s| ==> verdicts[k] == v
    ensures Keep(s, verdicts) == if v then s else []
  {
    if s != [] {
      var n := |s| - 1;
      KeepAll(s[..n], verdicts[..n], v);
      assert s == s[..n] + [s[n]];
    }
  }

  lemma PickOne(log: seq<Sample>, i: nat)
    ensures Pick(log, [i]) == if i < |log| then [log[i]] else []
  {
    assert [i][..0] == [];
  }

  lemma {:induction false} PickIsKeep(log: seq<Sample>, base: nat, verdicts: seq<bool>)
    requires base + |verdicts| <= |log|
    ensures Pick(log, Indexes(base, verdicts, true)) == Keep(log[base..base + |verdicts|], verdicts)
  {
    hide Pick, Keep;
    if verdicts != [] {
      var n := |verdicts| - 1;
      PickIsKeep(log, base, verdicts[..n]);
      var part, before := log[base..base + n + 1], Indexes(base, verdicts[..n], true);
      assert part[..n] == log[base..base + n] && part[n] == log[base + n];
      KeepLast(part, verdicts);
      assert log[base..base + |verdicts|] == part;
      assert Indexes(base, verdicts, true) == if verdicts[n] then before + [base + n] else before;
      PickAppend(log, before, [base + n]);
      PickOne(log, base + n);
    } else {
      assert log[base..base + |verdicts|] == [];
      NothingKept(log, base);
    }
  }

  lemma NothingKept(log: seq<Sample>, base: nat)
    requires base <= |log|
    ensures Keep<Sample>([], []) == [] && Keep<Metric>([], []) == [] && Pick(log, Indexes(base, [], true)) == []
  {}

  lemma {:induction false} PickAppend(log: seq<Sample>, a: seq<nat>, b: seq<nat>)
    ensures Pick(log, a + b) == Pick(log, a) + Pick(log, b)
  {
    if b == [] {
      assert a + b == a;
    } else {
      var n := |b| - 1;
      assert (a + b)[..|a| + n] == a + b[..n];
      PickAppend(log, a, b[..n]);
    }
  }

  lemma {:induction false} PickGrows(log: seq<Sample>, s: Sample, indexes: seq<nat>)
    requires forall i :: i in indexes ==> i < |log|
    ensures Pick(log + [s], indexes) == Pick(log, indexes)
  {
    if indexes != [] {
      assert indexes[|indexes| - 1] in indexes;
      var rest := indexes[..|indexes| - 1];
      forall k | 0 <= k < |rest| ensures rest[k] < |log| { assert indexes[k] in indexes; }
      PickGrows(log, s, indexes[..|indexes| - 1]);
    }
  }

  // -------------------------------------------------------- rendering

  /** Metrics always render, one to one and whatever the list items. */
  lemma {:induction false} MetricsRender(samples: seq<Sample>, items: Items)
    requires AllMetric(samples)
    ensures |ToMetrics(samples, items)| == |samples|
    ensures forall slug :: UnrenderedCount(samples, items, slug) == 0
    ensures forall k :: 0 <= k < |samples| ==> ToMetric(items)(samples[k]) == [ToMetrics(samples, items)[k]]
    ensures ToMetrics(samples, items) == ToMetrics(samples, map[])
  {
    if samples != [] {
      MetricsRender(samples[..|samples| - 1], items);
      assert MetricSample(samples[|samples| - 1]);
    }
  }

  lemma {:induction false} ToMetricsAppend(a: seq<Sample>, b: seq<Sample>, items: Items)
    ensures ToMetrics(a + b, items) == ToMetrics(a, items) + ToMetrics(b, items)
  {
    if b == [] {
      assert a + b == a;
    } else {
      var n := |b| - 1;
      assert (a + b)[..|a| + n] == a + b[..n];
      ToMetricsAppend(a, b[..n], items);
    }
  }

  lemma OneRenders(s: Sample, items: Items, slug: string)
    ensures var r := ToMetric(items)(s);
            ToMetrics([s], items) == r && SeriesOf(r, slug) == if s.slug == slug then r else []
  {
    var r := ToMetric(items)(s);
    assert r[..0] == [] && [s][..0] == [];
    calc {
      ToMetrics([s], items);
      Gather([s][..0], ToMetric(items)) + ToMetric(items)([s][0]);
      [] + r;
      r;
    }
  }

  lemma OneMetric(s: Sample, items: Items)
    requires MetricSample(s)
    ensures ToMetrics([s], items) == [Metric(s.slug, Decimal(s.value.n), s.at)]
  {
    OneRenders(s, items, s.slug);
  }

  lemma {:induction false} SeriesRenders(samples: seq<Sample>, items: Items, slug: string)
    ensures SeriesOf(ToMetrics(samples, items), slug) == ToMetrics(OfSlug(samples, slug), items)
  {
    if samples != [] {
      hide ToMetrics, Render;
      var n := |samples| - 1;
      var s := samples[n];
      SeriesRenders(samples[..n], items, slug);
      OneRenders(s, items, slug);
      assert samples == samples[..n] + [s];
      ToMetricsAppend(samples[..n], [s], items);
      SeriesAppend(ToMetrics(samples[..n], items), ToMetrics([s], items), slug);
      ToMetricsAppend(OfSlug(samples[..n], slug), [s], items);
      assert OfSlug(samples[..n], slug) + [] == OfSlug(samples[..n], slug);
    } else {
      NoneRender(items, slug);
    }
  }

  lemma NoneRender(items: Items, slug: string)
    ensures ToMetrics([], items) == [] && SeriesOf([], slug) == []
  {}

  lemma {:induction false} KeepRenders(samples: seq<Sample>, verdicts: seq<bool>, items: Items)
    requires AllMetric(samples) && |samples| == |verdicts|
    ensures |ToMetrics(samples, items)| == |samples|
    ensures Keep(ToMetrics(samples, items), verdicts) == ToMetrics(Keep(samples, verdicts), items)
  {
    hide ToMetrics, Render, Keep;
    if samples != [] {
      var n := |samples| - 1;
      var s, init := samples[n], samples[..n];
      KeepRenders(init, verdicts[..n], items);
      assert MetricSample(s);
      LastRenders(samples, items);
      KeepLast(ToMetrics(samples, items), verdicts);
      KeepLast(samples, verdicts);
      ToMetricsAppend(Keep(init, verdicts[..n]), [s], items);
    } else {
      NoneRender(items, "");
      NothingKept([], 0);
    }
  }

  lemma LastRenders(samples: seq<Sample>, items: Items)
    requires samples != [] && MetricSample(samples[|samples| - 1])
    requires |ToMetrics(samples[..|samples| - 1], items)| == |samples| - 1
    ensures var n, all := |samples| - 1, ToMetrics(samples, items);
            |all| == n + 1 && all[..n] == ToMetrics(samples[..n], items) && [all[n]] == ToMetrics([samples[n]], items)
  {
    hide ToMetrics, Render;
    var n := |samples| - 1;
    OneMetric(samples[n], items);
    assert samples == samples[..n] + [samples[n]];
    ToMetricsAppend(samples[..n], [samples[n]], items);
  }

  lemma KeepLast<T>(s: seq<T>, verdicts: seq<bool>)
    requires |s| == |verdicts| > 0
    ensures var n := |s| - 1;
            Keep(s, verdicts) ==
            if verdicts[n] then Keep(s[..n], verdicts[..n]) + [s[n]] else Keep(s[..n], verdicts[..n])
  {}

  // ----------------------------------------------------------- chunks

  lemma LastChunk(ms: seq<Metric>, ins: seq<Ingest>)
    requires IngestLog(ms, ins) && ins != []
    ensures var k := |ins| - 1;
            && IngestLog(ms, ins[..k]) && SettledEnd(ms, ins[..k]) == k * CHUNK_SIZE <= |ms|
            && ms[..SettledEnd(ms, ins)] == ms[..k * CHUNK_SIZE] + if ChunkSettled(ins[k]) then ins[k].payload else []
  {}

  /** The settled chunks are a prefix of the metrics; what was recorded of one slug
      is what the verdicts keep of its part of that prefix. */
  lemma {:induction false} ChunksKeep(ms: seq<Metric>, ins: seq<Ingest>, slug: string)
    requires IngestLog(ms, ins)
    ensures |Verdicts(ins, slug)| == |SeriesOf(ms[..SettledEnd(ms, ins)], slug)|
    ensures SeriesOf(Gather(ins, Recorded), slug) ==
        Keep(SeriesOf(ms[..SettledEnd(ms, ins)], slug), Verdicts(ins, slug))
  {
    if ins != [] {
      hide IngestLog, SettledEnd, SeriesOf, Keep;
      var k := |ins| - 1;
      var before, last := ins[..k], ins[k];
      LastChunk(ms, ins);
      ChunksKeep(ms, before, slug);
      var part, v := SeriesOf(last.payload, slug), Verdict(slug)(last);
      SeriesAppend(Gather(before, Recorded), Recorded(last), slug);
      SeriesAppend(ms[..k * CHUNK_SIZE], if ChunkSettled(last) then last.payload else [], slug);
      NoSeries(slug);
      if ChunkSettled(last) {
        KeepAll(part, v, last.reply.Taken?);
        KeepAppend(SeriesOf(ms[..k * CHUNK_SIZE], slug), Verdicts(before, slug), part, v);
      } else {
        assert Verdicts(ins, slug) == Verdicts(before, slug);
      }
    }
  }

  lemma NoSeries(slug: string)
    ensures SeriesOf([], slug) == []
  {}
}
