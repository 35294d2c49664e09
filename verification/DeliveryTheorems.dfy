/** What every delivery run guarantees. */
module DeliveryTheorems {
  import opened Schema
  import opened Samples
  import opened Buffer
  import opened Publish
  import opened DeliverySeries
  import opened DeliveryRuns

  lemma StepSound(w: World, e: Event)
    requires Sound(w) && Enabled(w, e)
    ensures Sound(After(w, e))
  {
    hide Holds, Published, SnapshotOf;
    forall slug ensures Holds(After(w, e), slug) {
      match e
      case Adding(s) => AddHolds(w, s, slug);
      case Snapshotting => SnapHolds(w, slug);
      case Publishing(_, _, _, _, _, _) => PublishHolds(w, e, slug);
      case Acking => AckHolds(w, slug);
      case Reporting => ReportHolds(w, slug);
    }
  }

  lemma InitialSound(max: nat)
    requires max > 0
    ensures Sound(Initial(max))
  {
    forall slug ensures Holds(Initial(max), slug) {}
  }

  lemma {:induction false} RunSound(ws: seq<World>, es: seq<Event>, k: nat)
    requires Behaves(ws, es) && k < |ws|
    ensures Sound(ws[k]) && ws[k].buffer.max == ws[0].buffer.max
  {
    hide Sound, Enabled;
    if k == 0 {
      InitialSound(ws[0].buffer.max);
    } else {
      RunSound(ws, es, k - 1);
      StepSound(ws[k - 1], es[k - 1]);
    }
  }

  /** The samples of one metric that a run added, in order. */
  function AddedTo(es: seq<Event>, slug: string): seq<Sample> {
    if es == [] then []
    else
      var e := es[|es| - 1];
      AddedTo(es[..|es| - 1], slug) + (if e.Adding? && e.s.IsMetric() && e.s.slug == slug then [e.s] else [])
  }

  /** What the platform took, chunk by chunk, in order. */
  function TakenBy(es: seq<Event>): seq<Metric> {
    if es == [] then []
    else
      var e := es[|es| - 1];
      TakenBy(es[..|es| - 1]) + (if e.Publishing? then Gather(e.ins, Recorded) else [])
  }

  lemma {:induction false} LogIsAdded(ws: seq<World>, es: seq<Event>, k: nat, slug: string)
    requires Behaves(ws, es) && k < |ws|
    ensures ChannelOf(ws[k], slug).log == AddedTo(es[..k], slug)
    ensures ws[k].platform == TakenBy(es[..k])
  {
    hide Enabled, After;
    if k > 0 {
      LogIsAdded(ws, es, k - 1, slug);
      assert es[..k][..k - 1] == es[..k - 1];
      LogStep(ws[k - 1], es[k - 1], slug);
    } else {
      assert es[..0] == [];
    }
  }

  lemma LogStep(w: World, e: Event, slug: string)
    requires Enabled(w, e)
    ensures ChannelOf(After(w, e), slug).log ==
            ChannelOf(w, slug).log + (if e.Adding? && e.s.IsMetric() && e.s.slug == slug then [e.s] else [])
    ensures After(w, e).platform == w.platform + (if e.Publishing? then Gather(e.ins, Recorded) else [])
  {
    hide Collected, Published, SnapshotOf, Verdicts, Added, Acked, Indexes, Gather;
    assert ChannelOf(w, slug).log + [] == ChannelOf(w, slug).log && w.platform + [] == w.platform;
  }

  /** At every moment of every run: the platform's series of a metric is what was
      added at strictly increasing indexes, so nothing is recorded twice or out of
      order, and every sample added was recorded, was in a refused chunk, was
      dropped at the bound or is still in the queue. */
  lemma DeliveredOnceInOrder(ws: seq<World>, es: seq<Event>, k: nat, slug: string)
    requires Behaves(ws, es) && k < |ws|
    ensures var c, q, log := ChannelOf(ws[k], slug), QueueOf(ws[k].buffer, slug), AddedTo(es[..k], slug);
            && SeriesOf(TakenBy(es[..k]), slug) == ToMetrics(Pick(log, c.delivered), map[])
            && Increasing(c.delivered)
            && (forall i :: i in c.delivered ==> i < |log| && i !in c.refused)
            && q.removed <= |log| && q.items == log[q.removed..] && |q.items| <= ws[0].buffer.max
            && (forall i :: 0 <= i < |log| ==> i in c.delivered || i in c.refused || i in c.dropped || i >= q.removed)
  {
    hide Pick, SeriesOf, ToMetrics, Behaves, InPhase, MetricSample;
    RunSound(ws, es, k);
    LogIsAdded(ws, es, k, slug);
    assert Holds(ws[k], slug);
  }

  /** Drops are conserved: those reported and those still counted are exactly the
      samples dropped at the bound, and every other sample gone from the queue was
      recorded or refused. */
  lemma DropsAreConserved(ws: seq<World>, es: seq<Event>, k: nat, slug: string)
    requires Behaves(ws, es) && k < |ws|
    ensures var c, removed := ChannelOf(ws[k], slug), QueueOf(ws[k].buffer, slug).removed;
            && c.reported + CountOf(ws[k].buffer.drops, slug) == |c.dropped| <= removed
            && (forall i :: i in c.dropped ==> i < removed)
            && (forall i :: 0 <= i < removed && i !in c.dropped ==> i in c.delivered || i in c.refused)
  {
    hide Pick, SeriesOf, ToMetrics, Behaves, InPhase, MetricSample;
    RunSound(ws, es, k);
    assert Holds(ws[k], slug);
    BoundedSet(ChannelOf(ws[k], slug).dropped, QueueOf(ws[k].buffer, slug).removed);
  }

  lemma {:induction false} BoundedSet(s: set<nat>, n: nat)
    requires forall i :: i in s ==> i < n
    ensures |s| <= n
  {
    if n == 0 {
      assert s == {};
    } else {
      BoundedSet(s - {n - 1}, n - 1);
    }
  }

  lemma InitCovers(delivered: seq<nat>, n: nat)
    requires Increasing(delivered) && n > 0 && delivered != []
    requires forall i :: 0 <= i < n <==> i in delivered
    ensures var last := |delivered| - 1;
            delivered[last] == n - 1 && forall i :: 0 <= i < n - 1 <==> i in delivered[..last]
  {
    var last := |delivered| - 1;
    var init := delivered[..last];
    assert delivered == init + [delivered[last]];
    assert n - 1 in delivered && delivered[last] in delivered;
    forall i | i in init ensures i < delivered[last] {
      var j :| 0 <= j < last && init[j] == i;
      assert delivered[j] == i;
    }
    forall i | 0 <= i < n - 1 ensures i in init { assert i in delivered; }
  }

  lemma {:induction false} CoversAll(delivered: seq<nat>, n: nat)
    requires Increasing(delivered)
    requires forall i :: 0 <= i < n <==> i in delivered
    ensures delivered == seq(n, i => i)
    decreases n
  {
    if delivered == [] {
      assert n > 0 ==> 0 in delivered;
    } else {
      var last := |delivered| - 1;
      assert delivered[0] in delivered;
      InitCovers(delivered, n);
      CoversAll(delivered[..last], n - 1);
      assert delivered == delivered[..last] + [n - 1];
    }
  }

  lemma {:induction false} PickAll(log: seq<Sample>, n: nat)
    requires n <= |log|
    ensures Pick(log, seq(n, i => i)) == log[..n]
  {
    if n > 0 {
      PickAll(log, n - 1);
      assert seq(n, i => i)[..n - 1] == seq(n - 1, i => i);
    }
  }

  /** With nothing refused and nothing dropped, an emptied buffer means the platform
      has exactly what was added. */
  lemma EmptiedMeansAllDelivered(ws: seq<World>, es: seq<Event>, k: nat, slug: string)
    requires Behaves(ws, es) && k < |ws|
    requires ws[k].phase.Idle? && QueueOf(ws[k].buffer, slug).items == []
    requires ChannelOf(ws[k], slug).refused == {} && ChannelOf(ws[k], slug).dropped == {}
    ensures SeriesOf(TakenBy(es[..k]), slug) == ToMetrics(AddedTo(es[..k], slug), map[])
  {
    hide Pick, SeriesOf, ToMetrics;
    DeliveredOnceInOrder(ws, es, k, slug);
    var c, log := ChannelOf(ws[k], slug), AddedTo(es[..k], slug);
    CoversAll(c.delivered, |log|);
    PickAll(log, |log|);
    assert log[..|log|] == log;
  }

  // --------------------------------------------------------- requests

  lemma {:induction false} ToMetricsLength(samples: seq<Sample>, items: Items)
    ensures |ToMetrics(samples, items)| <= |samples|
  {
    if samples != [] { ToMetricsLength(samples[..|samples| - 1], items); }
  }

  /** A publish makes at most two updates and one request per started thousand. */
  lemma RequestsAreBounded(b: Batch, items: Items, link: Option<HostLink>, us: seq<Update>, ins: seq<Ingest>,
                           res: Publish.Result, error: Option<Failure>)
    requires Published(b, items, link, us, ins, res, error)
    ensures res.requests == |us| + |ins| <= 2 + (|b.metrics| + CHUNK_SIZE - 1) / CHUNK_SIZE
  {
    ToMetricsLength(b.metrics, items);
    if ins != [] {
      assert (|ins| - 1) * CHUNK_SIZE < |ToMetrics(b.metrics, items)|;
    }
  }
}
