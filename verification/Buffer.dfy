/** The buffer between publishes (internal/collect/buffer.go). */
module Buffer {
  import opened Ordering
  import opened Schema
  import opened Samples

  const DEFAULT_MAX: nat := 5000

  /** One metric's pending samples, and how many were ever removed from the front. */
  datatype Queue = Queue(items: seq<Sample>, removed: nat)

  const EMPTY_QUEUE := Queue([], 0)

  /** A snapshot: start is the absolute index of each slug's first metric sample. */
  datatype Batch = Batch(dims: seq<Sample>, metrics: seq<Sample>, start: map<string, nat>)

  /** What the platform took: dimension slugs, and how many of each metric. */
  datatype Ack = Ack(dims: set<string>, metrics: map<string, nat>)

  /** The buffer's whole state, as a value. */
  datatype State = State(max: nat, dims: map<string, Sample>, metrics: map<string, Queue>, drops: map<string, nat>)

  function CountOf(m: map<string, nat>, slug: string): nat {
    if slug in m then m[slug] else 0
  }

  function QueueOf(b: State, slug: string): Queue {
    if slug in b.metrics then b.metrics[slug] else EMPTY_QUEUE
  }

  function Pushed(q: Queue, s: Sample, max: nat): Queue {
    if |q.items| >= max > 0 then Queue(q.items[1..] + [s], q.removed + 1) else Queue(q.items + [s], q.removed)
  }

  function Added(b: State, s: Sample): State {
    if !s.IsMetric() then b.(dims := b.dims[s.slug := s])
    else
      var q := QueueOf(b, s.slug);
      b.(metrics := b.metrics[s.slug := Pushed(q, s, b.max)],
         drops := if |q.items| >= b.max then b.drops[s.slug := CountOf(b.drops, s.slug) + 1] else b.drops)
  }

  function Acknowledged(q: Queue, start: nat, n: nat): Queue {
    if n == 0 || start + n <= q.removed then q
    else
      var drop := if start + n - q.removed > |q.items| then |q.items| else start + n - q.removed;
      Queue(q.items[drop..], q.removed + drop)
  }

  /** The instant of the snapshotted sample of a slug; the zero time if none. */
  function SnapAt(dims: seq<Sample>, slug: string): int {
    if dims == [] then ZERO_TIME
    else if dims[|dims| - 1].slug == slug then dims[|dims| - 1].at
    else SnapAt(dims[..|dims| - 1], slug)
  }

  predicate DimAcked(b: State, batch: Batch, ack: Ack, slug: string)
    requires slug in b.dims
  {
    slug in ack.dims && b.dims[slug].at == SnapAt(batch.dims, slug)
  }

  function Acked(b: State, batch: Batch, ack: Ack): State {
    b.(dims := map s | s in b.dims && !DimAcked(b, batch, ack, s) :: b.dims[s],
       metrics := map s | s in b.metrics ::
         if s in batch.start then Acknowledged(b.metrics[s], batch.start[s], CountOf(ack.metrics, s)) else b.metrics[s])
  }

  // ---------------------------------------------------------- snapshots

  function Pending(b: State): set<string> {
    set s | s in b.metrics && b.metrics[s].items != []
  }

  ghost function DimsOf(b: State, slugs: seq<string>): seq<Sample>
    requires forall s :: s in slugs ==> s in b.dims
  {
    seq(|slugs|, i requires 0 <= i < |slugs| => b.dims[slugs[i]])
  }

  function ItemsOfQueue(b: State): string -> seq<Sample> {
    (s: string) => QueueOf(b, s).items
  }

  /** What a publish will send: dimensions by slug, metrics by slug, then in order. */
  ghost function SnapshotOf(b: State): Batch {
    var dims := SortedKeys(b.dims.Keys);
    var slugs := SortedKeys(Pending(b));
    Batch(DimsOf(b, dims), Gather(slugs, ItemsOfQueue(b)), map s | s in Pending(b) :: b.metrics[s].removed)
  }

  function StartsOf(b: State, slugs: seq<string>): map<string, nat> {
    map s | s in slugs && s in b.metrics :: b.metrics[s].removed
  }

  lemma NothingGathered(slugs: seq<string>, b: State)
    ensures Gather(slugs[..0], ItemsOfQueue(b)) == [] && StartsOf(b, slugs[..0]) == map[]
  {}

  class Buffer {
    const max: nat
    var dims: map<string, Sample>
    var metrics: map<string, Queue>
    var drops: map<string, nat>

    ghost predicate Valid() reads this { max > 0 }

    function Value(): State reads this { State(max, dims, metrics, drops) }

    constructor (maxPerMetric: int)
      ensures Valid() && Value() == State(if maxPerMetric <= 0 then DEFAULT_MAX else maxPerMetric, map[], map[], map[])
    {
      max := if maxPerMetric <= 0 then DEFAULT_MAX else maxPerMetric;
      dims, metrics, drops := map[], map[], map[];
    }

    /** Latest wins for a dimension; a metric is appended, dropping the oldest at the bound. */
    method Add(s: Sample)
      requires Valid()
      modifies this
      ensures Valid() && Value() == Added(old(Value()), s)
    {
      if !s.IsMetric() {
        dims := dims[s.slug := s];
        return;
      }
      var q := if s.slug in metrics then metrics[s.slug] else EMPTY_QUEUE;
      if |q.items| >= max {
        q := Queue(q.items[1..], q.removed + 1);
        drops := drops[s.slug := CountOf(drops, s.slug) + 1];
      }
      q := Queue(q.items + [s], q.removed);
      metrics := metrics[s.slug := q];
    }

    method Empty() returns (empty: bool)
      ensures empty <==> dims == map[] && Pending(Value()) == {}
    {
      if |dims| > 0 {
        return false;
      }
      var slugs := metrics.Keys;
      while slugs != {}
        invariant slugs <= metrics.Keys
        invariant forall s :: s in metrics.Keys - slugs ==> metrics[s].items == []
      {
        var s :| s in slugs;
        if |metrics[s].items| > 0 {
          assert s in Pending(Value());
          return false;
        }
        slugs := slugs - {s};
      }
      return true;
    }

    /** Copies what is pending; the buffer keeps everything until Ack. */
    method Snapshot() returns (out: Batch)
      ensures out == SnapshotOf(Value())
    {
      var ds := SnapshotDims();
      var ms, start := SnapshotMetrics();
      out := Batch(ds, ms, start);
    }

    method SnapshotDims() returns (ds: seq<Sample>)
      ensures ds == SnapshotOf(Value()).dims
    {
      hide SortedKeys;
      var listing := SortedListing(dims.Keys);
      ds := [];
      for i := 0 to |listing|
        invariant |ds| == i && forall j :: 0 <= j < i ==> ds[j] == dims[listing[j]]
      {
        ds := ds + [dims[listing[i]]];
      }
      assert ds == DimsOf(Value(), SortedKeys(dims.Keys));
    }

    method SnapshotMetrics() returns (ms: seq<Sample>, start: map<string, nat>)
      ensures ms == SnapshotOf(Value()).metrics && start == SnapshotOf(Value()).start
    {
      hide SortedKeys, Gather;
      ghost var b := Value();
      var pending := set s | s in metrics && metrics[s].items != [];
      assert pending == Pending(b);
      var slugs := SortedListing(pending);
      ms, start := [], map[];
      NothingGathered(slugs, b);
      for i := 0 to |slugs|
        invariant ms == Gather(slugs[..i], ItemsOfQueue(b))
        invariant start == StartsOf(b, slugs[..i])
      {
        GatherStep(slugs, i, ItemsOfQueue(b));
        assert slugs[i] in pending;
        assert slugs[..i + 1] == slugs[..i] + [slugs[i]];
        start := start[slugs[i] := metrics[slugs[i]].removed];
        ms := ms + metrics[slugs[i]].items;
      }
      assert slugs[..|slugs|] == slugs;
      assert forall s :: s in slugs <==> s in pending;
    }

    /** Removes what was accepted: a dimension only if the buffer still holds the
        snapshotted sample, a metric's first n samples counted from the snapshot. */
    method AckBatch(batch: Batch, a: Ack)
      requires Valid()
      modifies this
      ensures Valid() && Value() == Acked(old(Value()), batch, a)
    {
      AckDims(batch, a);
      AckMetrics(batch, a);
    }

    method AckDims(batch: Batch, a: Ack)
      modifies this`dims
      ensures dims == Acked(old(Value()), batch, a).dims
    {
      ghost var b := Value();
      var slugs := a.dims;
      while slugs != {}
        invariant slugs <= a.dims
        invariant forall s :: s in dims <==> s in b.dims && !(s in a.dims - slugs && DimAcked(b, batch, a, s))
        invariant forall s :: s in dims ==> dims[s] == b.dims[s]
      {
        var slug :| slug in slugs;
        if slug in dims && dims[slug].at == SnapAt(batch.dims, slug) {
          dims := dims - {slug};
        }
        slugs := slugs - {slug};
      }
    }

    method AckMetrics(batch: Batch, a: Ack)
      modifies this`metrics
      ensures metrics == Acked(old(Value()), batch, a).metrics
    {
      ghost var before := metrics;
      var slugs := a.metrics.Keys;
      while slugs != {}
        invariant slugs <= a.metrics.Keys && metrics.Keys == before.Keys
        invariant forall s :: s in metrics ==>
                    metrics[s] == if s in slugs || s !in batch.start then before[s]
                                  else Acknowledged(before[s], batch.start[s], CountOf(a.metrics, s))
      {
        var slug :| slug in slugs;
        slugs := slugs - {slug};
        if slug !in metrics || slug !in batch.start || a.metrics[slug] == 0 {
          continue;
        }
        var q, end := metrics[slug], batch.start[slug] + a.metrics[slug];
        if end <= q.removed {
          continue;
        }
        var drop := end - q.removed;
        if drop > |q.items| {
          drop := |q.items|;
        }
        metrics := metrics[slug := Queue(q.items[drop..], q.removed + drop)];
      }
    }

    /** The drops since the last call, and resets the counters. */
    method Drops() returns (out: map<string, nat>)
      requires Valid()
      modifies this
      ensures Valid() && out == old(drops) && Value() == old(Value()).(drops := map[])
    {
      out := drops;
      drops := map[];
    }
  }
}
