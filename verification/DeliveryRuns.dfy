/** Every run of Add, Snapshot, Publish, Ack and Drops with one publisher:
    metrics are delivered exactly once and in order, and whatever is missing is
    accounted for (internal/collect/buffer.go, internal/publish/publish.go). */
module DeliveryRuns {
  import opened Ordering
  import opened Schema
  import opened Samples
  import opened Buffer
  import opened Publish
  import opened DeliverySeries

  /** One metric's history. log is every sample ever added; the rest are indexes
      into it: recorded by the platform (in that order), in a refused chunk,
      dropped at the bound. reported counts the drops Drops has returned. */
  datatype Channel = Channel(log: seq<Sample>, delivered: seq<nat>, refused: set<nat>, dropped: set<nat>, reported: nat)

  const FRESH := Channel([], [], {}, {}, 0)

  datatype Phase = Idle | Snapped(batch: Batch) | Sent(batch: Batch, ack: Ack)

  datatype World = World(buffer: State, phase: Phase, platform: seq<Metric>, channels: map<string, Channel>)

  datatype Event =
    | Adding(s: Sample)
    | Snapshotting
    | Publishing(items: Items, link: Option<HostLink>, us: seq<Update>, ins: seq<Ingest>, res: Result,
                 error: Option<Failure>)
    | Acking
    | Reporting

  function ChannelOf(w: World, slug: string): Channel {
    if slug in w.channels then w.channels[slug] else FRESH
  }

  ghost predicate Enabled(w: World, e: Event) {
    match e
    case Adding(s) => Collected(s)
    case Snapshotting => w.phase.Idle?
    case Publishing(items, link, us, ins, res, error) =>
      w.phase.Snapped? && Published(w.phase.batch, items, link, us, ins, res, error)
    case Acking => w.phase.Sent?
    case Reporting => true
  }

  function Logged(c: Channel, q: Queue, max: nat, s: Sample): Channel {
    c.(log := c.log + [s], dropped := if |q.items| >= max then c.dropped + {q.removed} else c.dropped)
  }

  /** A publish settles the verdicts' samples, counted from the snapshot's start. */
  function Settled(c: Channel, base: nat, verdicts: seq<bool>): Channel {
    c.(delivered := c.delivered + Indexes(base, verdicts, true),
       refused := c.refused + (set i | i in Indexes(base, verdicts, false)))
  }

  /** A recorded chunk reaches the platform, any other answer has no effect. */
  ghost function After(w: World, e: Event): World
    requires Enabled(w, e)
  {
    match e
    case Adding(s) =>
      w.(buffer := Added(w.buffer, s),
         channels := if s.IsMetric()
         then w.channels[s.slug := Logged(ChannelOf(w, s.slug), QueueOf(w.buffer, s.slug), w.buffer.max, s)]
         else w.channels)
    case Snapshotting => w.(phase := Snapped(SnapshotOf(w.buffer)))
    case Publishing(items, link, us, ins, res, error) =>
      w.(phase := Sent(w.phase.batch, res.ack),
         platform := w.platform + Gather(ins, Recorded),
         channels := map m | m in w.channels ::
           Settled(w.channels[m], CountOf(w.phase.batch.start, m), Verdicts(ins, m)))
    case Acking => w.(phase := Idle, buffer := Acked(w.buffer, w.phase.batch, w.phase.ack))
    case Reporting =>
      w.(buffer := w.buffer.(drops := map[]),
         channels := map m | m in w.channels ::
           w.channels[m].(reported := w.channels[m].reported + CountOf(w.buffer.drops, m)))
  }

  function Initial(max: nat): World {
    World(State(max, map[], map[], map[]), Idle, [], map[])
  }

  /** A run: each event is enabled where it happens. */
  ghost predicate Behaves(ws: seq<World>, es: seq<Event>) {
    && |ws| == |es| + 1 && ws[0].buffer.max > 0 && ws[0] == Initial(ws[0].buffer.max)
    && forall k :: 0 <= k < |es| ==> Enabled(ws[k], es[k]) && ws[k + 1] == After(ws[k], es[k])
  }

  // -------------------------------------------------------- invariants

  predicate Increasing(s: seq<nat>) { forall i, j :: 0 <= i < j < |s| ==> s[i] < s[j] }

  predicate SettledBelow(c: Channel, n: nat) {
    && (forall i :: i in c.delivered ==> i < n)
    && (forall i :: i in c.refused ==> i < n)
  }

  /** The queue is what the log holds behind its first removed samples. */
  predicate Refines(c: Channel, q: Queue, max: nat) {
    q.removed <= |c.log| && q.items == c.log[q.removed..] && |q.items| <= max
  }

  /** Nothing is delivered twice, out of order, or refused and delivered; what left
      the queue was delivered, refused or dropped; drops are counted. */
  predicate Accounted(c: Channel, removed: nat, drops: nat) {
    && Increasing(c.delivered)
    && SettledBelow(c, |c.log|)
    && (forall i :: i in c.delivered ==> i !in c.refused)
    && (forall i :: 0 <= i < removed ==> i in c.delivered || i in c.refused || i in c.dropped)
    && (forall i :: i in c.dropped ==> i < removed)
    && c.reported + drops == |c.dropped|
  }

  predicate LogOf(c: Channel, slug: string) { forall s :: s in c.log ==> s.slug == slug && MetricSample(s) }

  ghost predicate OnPlatform(c: Channel, platform: seq<Metric>, slug: string) {
    SeriesOf(platform, slug) == ToMetrics(Pick(c.log, c.delivered), map[])
  }

  /** The batch in flight holds a stretch of the log that begins at its start. */
  predicate BatchHolds(c: Channel, removed: nat, batch: Batch, slug: string) {
    var part := OfSlug(batch.metrics, slug);
    if slug !in batch.start then part == []
    else
      var start := batch.start[slug];
      start <= removed && start + |part| <= |c.log| && part == c.log[start..start + |part|]
  }

  predicate InPhase(c: Channel, removed: nat, phase: Phase, slug: string) {
    match phase
    case Idle => SettledBelow(c, removed)
    case Snapped(batch) =>
      && AllMetric(batch.metrics) && BatchHolds(c, removed, batch, slug)
      && SettledBelow(c, if slug in batch.start then batch.start[slug] else removed)
    case Sent(batch, ack) =>
      if slug !in batch.start then SettledBelow(c, removed)
      else
        var end := batch.start[slug] + CountOf(ack.metrics, slug);
        && batch.start[slug] <= removed && end <= |c.log| && SettledBelow(c, end)
        && (forall i :: batch.start[slug] <= i < end ==> i in c.delivered || i in c.refused)
  }

  ghost predicate Holds(w: World, slug: string) {
    var c, q := ChannelOf(w, slug), QueueOf(w.buffer, slug);
    && Refines(c, q, w.buffer.max)
    && Accounted(c, q.removed, CountOf(w.buffer.drops, slug))
    && LogOf(c, slug)
    && OnPlatform(c, w.platform, slug)
    && InPhase(c, q.removed, w.phase, slug)
  }

  ghost predicate Sound(w: World) {
    w.buffer.max > 0 && forall slug :: Holds(w, slug)
  }

  // -------------------------------------------------------------- steps

  lemma CollectedMetric(s: Sample)
    requires Collected(s) && s.IsMetric()
    ensures MetricSample(s)
  {
    var options: seq<string>, v: Value :| Validate(s.kind, options, v) == Ok(s.value);
  }

  lemma LogGrows(c: Channel, q: Queue, max: nat, drops: nat, s: Sample)
    requires max > 0 && Refines(c, q, max) && Accounted(c, q.removed, drops)
    ensures var full := |q.items| >= max;
            && Refines(Logged(c, q, max, s), Pushed(q, s, max), max)
            && Accounted(Logged(c, q, max, s), Pushed(q, s, max).removed, if full then drops + 1 else drops)
  {
    var c', q' := Logged(c, q, max, s), Pushed(q, s, max);
    assert q'.items == c'.log[q'.removed..];
    if |q.items| >= max {
      assert q.removed !in c.dropped;
    }
  }

  lemma AddHolds(w: World, s: Sample, slug: string)
    requires Sound(w) && Collected(s)
    ensures Holds(After(w, Adding(s)), slug)
  {
    hide Collected, OfSlug, Pick, SeriesOf, ToMetrics, SnapshotOf;
    assert Holds(w, slug);
    if s.IsMetric() && s.slug == slug {
      var c, q := ChannelOf(w, slug), QueueOf(w.buffer, slug);
      LogGrows(c, q, w.buffer.max, CountOf(w.buffer.drops, slug), s);
      CollectedMetric(s);
      PickGrows(c.log, s, c.delivered);
      var c' := Logged(c, q, w.buffer.max, s);
      assert LogOf(c', slug);
      StillInPhase(c, c', q.removed, Pushed(q, s, w.buffer.max).removed, w.phase, slug);
    }
  }

  lemma StillInPhase(c: Channel, c': Channel, removed: nat, removed': nat, phase: Phase, slug: string)
    requires InPhase(c, removed, phase, slug) && removed <= removed'
    requires c'.delivered == c.delivered && c'.refused == c.refused && c.log <= c'.log
    ensures InPhase(c', removed', phase, slug)
  {
    if phase.Snapped? && slug in phase.batch.start {
      var start, part := phase.batch.start[slug], OfSlug(phase.batch.metrics, slug);
      assert c'.log[start..start + |part|] == c.log[start..start + |part|];
    }
  }

  // ----------------------------------------------------------- snapshot

  lemma {:induction false} OfSlugAppend(a: seq<Sample>, b: seq<Sample>, slug: string)
    ensures OfSlug(a + b, slug) == OfSlug(a, slug) + OfSlug(b, slug)
  {
    if b == [] {
      assert a + b == a;
    } else {
      var n := |b| - 1;
      assert (a + b)[..|a| + n] == a + b[..n];
      OfSlugAppend(a, b[..n], slug);
    }
  }

  lemma {:induction false} OneSlug(samples: seq<Sample>, of: string, slug: string)
    requires forall s :: s in samples ==> s.slug == of
    ensures OfSlug(samples, slug) == if of == slug then samples else []
  {
    if samples != [] {
      var n := |samples| - 1;
      OneSlug(samples[..n], of, slug);
      assert samples[n] in samples && samples == samples[..n] + [samples[n]];
    }
  }

  lemma {:induction false} GatheredSlug(b: State, slugs: seq<string>, slug: string)
    requires forall i, j :: 0 <= i < j < |slugs| ==> slugs[i] != slugs[j]
    requires forall m, s :: m in slugs && s in QueueOf(b, m).items ==> s.slug == m
    ensures OfSlug(Gather(slugs, ItemsOfQueue(b)), slug) == if slug in slugs then QueueOf(b, slug).items else []
  {
    if slugs != [] {
      var n := |slugs| - 1;
      var last := slugs[n];
      assert forall m :: m in slugs <==> m in slugs[..n] || m == last;
      GatheredSlug(b, slugs[..n], slug);
      OfSlugAppend(Gather(slugs[..n], ItemsOfQueue(b)), QueueOf(b, last).items, slug);
      OneSlug(QueueOf(b, last).items, last, slug);
    }
  }

  lemma QueueSlugs(w: World, slug: string)
    requires Sound(w)
    ensures forall s :: s in QueueOf(w.buffer, slug).items ==> s.slug == slug && MetricSample(s)
  {
    hide OnPlatform, Accounted, InPhase;
    assert Holds(w, slug);
  }

  /** A snapshot holds, per metric, exactly what is pending. */
  lemma SnapshotHolds(w: World, slug: string)
    requires Sound(w)
    ensures var batch := SnapshotOf(w.buffer);
            && OfSlug(batch.metrics, slug) == QueueOf(w.buffer, slug).items
            && AllMetric(batch.metrics)
            && (slug in batch.start <==> QueueOf(w.buffer, slug).items != [])
            && (slug in batch.start ==> batch.start[slug] == QueueOf(w.buffer, slug).removed)
  {
    hide Sound;
    var b := w.buffer;
    var slugs := SortedKeys(Pending(b));
    ListedOnce(slugs, Pending(b));
    forall m ensures forall s :: s in QueueOf(b, m).items ==> s.slug == m && MetricSample(s) { QueueSlugs(w, m); }
    GatheredSlug(b, slugs, slug);
    forall s | s in Gather(slugs, ItemsOfQueue(b)) ensures MetricSample(s) {
      GatherMember(slugs, ItemsOfQueue(b), s);
    }
  }

  lemma SnapHolds(w: World, slug: string)
    requires Sound(w) && w.phase.Idle?
    ensures Holds(After(w, Snapshotting), slug)
  {
    hide SnapshotOf, OfSlug, OnPlatform, Accounted;
    SnapshotHolds(w, slug);
    assert Holds(w, slug);
  }

  // ------------------------------------------------------------ publish

  lemma {:induction false} IndexesBounds(base: nat, verdicts: seq<bool>, v: bool)
    ensures forall i :: i in Indexes(base, verdicts, v) <==> base <= i < base + |verdicts| && verdicts[i - base] == v
    ensures Increasing(Indexes(base, verdicts, v))
  {
    if verdicts != [] {
      var n := |verdicts| - 1;
      IndexesBounds(base, verdicts[..n], v);
      forall i
        ensures i in Indexes(base, verdicts, v) <==> base <= i < base + |verdicts| && verdicts[i - base] == v
      {
        assert i in Indexes(base, verdicts[..n], v) <==> base <= i < base + n && verdicts[..n][i - base] == v;
      }
      var before := Indexes(base, verdicts[..n], v);
      forall k | 0 <= k < |before| ensures before[k] < base + n { assert before[k] in before; }
    }
  }

  /** Settling a stretch that nothing before has touched keeps the account. */
  lemma SettledAccount(c: Channel, base: nat, verdicts: seq<bool>, removed: nat, drops: nat)
    requires Accounted(c, removed, drops) && base + |verdicts| <= |c.log|
    requires verdicts != [] ==> SettledBelow(c, base)
    ensures Accounted(Settled(c, base, verdicts), removed, drops)
    ensures forall i :: base <= i < base + |verdicts| ==>
                          i in Settled(c, base, verdicts).delivered || i in Settled(c, base, verdicts).refused
    ensures SettledBelow(c, base) ==> SettledBelow(Settled(c, base, verdicts), base + |verdicts|)
    ensures verdicts == [] ==> Settled(c, base, verdicts) == c
  {
    IndexesBounds(base, verdicts, true);
    IndexesBounds(base, verdicts, false);
    var c', more := Settled(c, base, verdicts), Indexes(base, verdicts, true);
    assert c'.delivered == c.delivered + more;
    forall i, j | 0 <= i < j < |c'.delivered| ensures c'.delivered[i] < c'.delivered[j] {
      if i < |c.delivered| <= j {
        assert c.delivered[i] in c.delivered && more[j - |c.delivered|] in more;
      }
    }
    if verdicts == [] {
      assert c'.refused == c.refused;
    }
  }

  /** What the publish recorded of one metric is what its log says at the delivered
      indexes, and the acknowledged count is the settled count. */
  lemma PublishedSlug(c: Channel, removed: nat, batch: Batch, items: Items, ins: seq<Ingest>,
                      counted: map<string, nat>, slug: string)
    requires AllMetric(batch.metrics) && BatchHolds(c, removed, batch, slug) && LogOf(c, slug)
    requires MetricsPart(batch.metrics, items, ins, counted)
    ensures var v, base := Verdicts(ins, slug), CountOf(batch.start, slug);
            && |v| == CountOf(counted, slug)
            && base + |v| <= |c.log|
            && (slug !in batch.start ==> v == [])
            && SeriesOf(Gather(ins, Recorded), slug) == ToMetrics(Pick(c.log, Indexes(base, v, true)), map[])
  {
    hide Pick, Keep, SeriesOf, ToMetrics, OfSlug, Render, IngestLog, SettledEnd, Verdicts, Indexes, UnrenderedCount,
         MetricSample;
    var ms := ToMetrics(batch.metrics, items);
    var end := SettledEnd(ms, ins);
    var v, base, part := Verdicts(ins, slug), CountOf(batch.start, slug), OfSlug(batch.metrics, slug);
    var n := |v|;
    MetricsRender(batch.metrics, items);
    ChunksKeep(ms, ins, slug);
    SeriesCount(ms[..end], slug);
    SeriesRenders(batch.metrics, items, slug);
    PartIsMetric(batch.metrics, slug);
    MetricsRender(part, items);
    SeriesAppend(ms[..end], ms[end..], slug);
    assert ms == ms[..end] + ms[end..];
    assert SeriesOf(ms[..end], slug) == ToMetrics(part, items)[..n];
    if slug in batch.start {
      var taken := c.log[base..base + n];
      assert part[..n] == taken;
      ToMetricsAppend(part[..n], part[n..], items);
      assert part == part[..n] + part[n..];
      MetricsRender(taken, items);
      assert ToMetrics(part, items)[..n] == ToMetrics(taken, items);
      KeepRenders(taken, v, items);
      PickIsKeep(c.log, base, v);
      KeptIsMetric(taken, v);
      MetricsRender(Keep(taken, v), items);
    } else {
      assert part == [];
      assert v == [] && ToMetrics(part, items)[..n] == [];
      NothingKept(c.log, base);
      NoneRender(map[], slug);
    }
  }

  lemma {:induction false} PartIsMetric(samples: seq<Sample>, slug: string)
    requires AllMetric(samples)
    ensures AllMetric(OfSlug(samples, slug))
  {
    if samples != [] { PartIsMetric(samples[..|samples| - 1], slug); }
  }

  lemma {:induction false} KeptIsMetric(samples: seq<Sample>, verdicts: seq<bool>)
    requires |samples| == |verdicts| && AllMetric(samples)
    ensures AllMetric(Keep(samples, verdicts))
  {
    if samples != [] { KeptIsMetric(samples[..|samples| - 1], verdicts[..|samples| - 1]); }
  }

  lemma PublishHolds(w: World, e: Event, slug: string)
    requires Sound(w) && e.Publishing? && Enabled(w, e)
    ensures Holds(After(w, e), slug)
  {
    hide Pick, SeriesOf, ToMetrics, OfSlug, Verdicts, Indexes, DimsPart, MetricsPart, MetricSample, IngestError,
         UpdateError, Accounted, DroppedBy;
    var c, q, batch, w' := ChannelOf(w, slug), QueueOf(w.buffer, slug), w.phase.batch, After(w, e);
    assert Holds(w, slug);
    PublishedSlug(c, q.removed, batch, e.items, e.ins, e.res.ack.metrics, slug);
    var v, base := Verdicts(e.ins, slug), CountOf(batch.start, slug);
    SettledAccount(c, base, v, q.removed, CountOf(w.buffer.drops, slug));
    var c' := Settled(c, base, v);
    assert c'.log == c.log;
    FreshSettlesNothing(w, w', e, slug, c, v, base);
    SeriesAppend(w.platform, Gather(e.ins, Recorded), slug);
    PickAppend(c.log, c.delivered, Indexes(base, v, true));
    ToMetricsAppend(Pick(c.log, c.delivered), Pick(c.log, Indexes(base, v, true)), map[]);
    assert OnPlatform(c', w'.platform, slug);
    assert InPhase(c', q.removed, w'.phase, slug);
  }

  lemma FreshSettlesNothing(w: World, w': World, e: Event, slug: string, c: Channel, v: seq<bool>, base: nat)
    requires e.Publishing? && Enabled(w, e) && w' == After(w, e)
    requires c == ChannelOf(w, slug) && v == Verdicts(e.ins, slug) && base == CountOf(w.phase.batch.start, slug)
    requires base + |v| <= |c.log| && (slug !in w.phase.batch.start ==> v == [])
    ensures ChannelOf(w', slug) == Settled(c, base, v)
  {
    if slug !in w.channels {
      assert v == [] by { assert |c.log| == 0; }
      assert Settled(c, base, v) == c;
    }
  }

  // ------------------------------------------------------- ack and drops

  lemma AckedQueue(b: State, batch: Batch, ack: Ack, slug: string)
    ensures QueueOf(Acked(b, batch, ack), slug) ==
            (if slug in batch.start then Acknowledged(QueueOf(b, slug), batch.start[slug], CountOf(ack.metrics, slug))
             else QueueOf(b, slug))
  {}

  /** Acknowledging n samples from start removes exactly those of them that are
      still there, whatever was dropped meanwhile. Acknowledging them once more, or
      any of them by an older batch, removes nothing. */
  lemma AckRemovesBelow(c: Channel, q: Queue, max: nat, start: nat, n: nat)
    requires Refines(c, q, max) && start + n <= |c.log|
    ensures var q' := Acknowledged(q, start, n);
            && Refines(c, q', max) && q'.removed == (if n > 0 && start + n > q.removed then start + n else q.removed)
            && Acknowledged(q', start, n) == q'
            && forall older: nat, m: nat :: n > 0 && older + m <= start + n ==> Acknowledged(q', older, m) == q'
  {
    var q' := Acknowledged(q, start, n);
    assert q'.items == c.log[q'.removed..];
  }

  lemma AckHolds(w: World, slug: string)
    requires Sound(w) && w.phase.Sent?
    ensures Holds(After(w, Acking), slug)
  {
    hide OnPlatform, OfSlug, LogOf, Acked;
    var c, q, batch, ack := ChannelOf(w, slug), QueueOf(w.buffer, slug), w.phase.batch, w.phase.ack;
    assert Holds(w, slug);
    AckedQueue(w.buffer, batch, ack, slug);
    AckedRest(w.buffer, batch, ack);
    if slug in batch.start {
      AckRemovesBelow(c, q, w.buffer.max, batch.start[slug], CountOf(ack.metrics, slug));
    }
  }

  lemma AckedRest(b: State, batch: Batch, ack: Ack)
    ensures Acked(b, batch, ack).max == b.max && Acked(b, batch, ack).drops == b.drops
  {}

  lemma ReportHolds(w: World, slug: string)
    requires Sound(w)
    ensures Holds(After(w, Reporting), slug)
  {
    hide Pick, SeriesOf, ToMetrics, OfSlug, MetricSample;
    assert Holds(w, slug);
    var c, w' := ChannelOf(w, slug), After(w, Reporting);
    var c' := ChannelOf(w', slug);
    ReportedChannel(w, slug);
    StillInPhase(c, c', QueueOf(w.buffer, slug).removed, QueueOf(w.buffer, slug).removed, w.phase, slug);
  }

  lemma ReportedChannel(w: World, slug: string)
    requires Holds(w, slug)
    ensures ChannelOf(After(w, Reporting), slug) ==
            ChannelOf(w, slug).(reported := ChannelOf(w, slug).reported + CountOf(w.buffer.drops, slug))
  {
    hide Pick, SeriesOf, ToMetrics, OfSlug, MetricSample, InPhase;
    if slug !in w.channels {
      assert Accounted(FRESH, QueueOf(w.buffer, slug).removed, CountOf(w.buffer.drops, slug));
      assert |FRESH.dropped| == 0;
    }
  }
}
