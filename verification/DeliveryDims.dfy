/** Dimensions over every delivery run: the latest value of each attribute stays
    in the buffer until a publish settled that very sample. */
module DeliveryDims {
  import opened Ordering
  import opened Schema
  import opened Samples
  import opened Buffer
  import opened Publish
  import opened DeliverySeries
  import opened DeliveryRuns

  predicate InFlight(w: World, t: Sample) {
    !w.phase.Idle? && t in w.phase.batch.dims
  }

  /** No dimension is added with the stamp of the snapshotted sample it replaces,
      or with the zero time. */
  ghost predicate FreshStamps(ws: seq<World>, es: seq<Event>)
    requires |ws| == |es| + 1
  {
    forall k :: 0 <= k < |es| && es[k].Adding? && !es[k].s.IsMetric() ==>
      && es[k].s.at != ZERO_TIME
      && forall t :: InFlight(ws[k], t) && t.slug == es[k].s.slug ==> t.at != es[k].s.at
  }

  /** The latest sample of a dimension that a run added. */
  function LatestOf(es: seq<Event>, slug: string): Option<Sample> {
    if es == [] then None
    else
      var e := es[|es| - 1];
      if e.Adding? && !e.s.IsMetric() && e.s.slug == slug then Some(e.s) else LatestOf(es[..|es| - 1], slug)
  }

  /** A publish of the run carried the sample and was told to forget it. */
  ghost predicate SettledIn(ws: seq<World>, es: seq<Event>, j: nat, s: Sample)
    requires |ws| == |es| + 1
  {
    j < |es| && es[j].Publishing? && ws[j].phase.Snapped? && s in ws[j].phase.batch.dims && s.slug in es[j].res.ack.dims
  }

  ghost predicate EverSettled(ws: seq<World>, es: seq<Event>, k: nat, s: Sample)
    requires |ws| == |es| + 1
  {
    exists j :: 0 <= j < k && SettledIn(ws, es, j, s)
  }

  /** The acknowledgement is that of a publish of the batch. */
  ghost predicate EverSent(ws: seq<World>, es: seq<Event>, k: nat, batch: Batch, ack: Ack)
    requires |ws| == |es| + 1 && k <= |es|
  {
    exists j :: 0 <= j < k && es[j].Publishing? && ws[j].phase == Snapped(batch) && es[j].res.ack == ack
  }

  /** The batch in flight names each dimension once, with its own stamp, and an
      acknowledgement that has arrived is that of a publish of this batch. */
  ghost predicate DimsHold(ws: seq<World>, es: seq<Event>, k: nat, slug: string)
    requires |ws| == |es| + 1 && k < |ws|
  {
    var w := ws[k];
    && (slug in w.buffer.dims ==> w.buffer.dims[slug].slug == slug && w.buffer.dims[slug].at != ZERO_TIME)
    && (!w.phase.Idle? && slug in w.buffer.dims && w.buffer.dims[slug].at == SnapAt(w.phase.batch.dims, slug) ==>
          w.buffer.dims[slug] in w.phase.batch.dims)
    && (w.phase.Sent? ==> EverSent(ws, es, k, w.phase.batch, w.phase.ack))
  }

  ghost predicate Remembered(ws: seq<World>, es: seq<Event>, k: nat, slug: string)
    requires |ws| == |es| + 1 && k < |ws|
  {
    match LatestOf(es[..k], slug)
    case None => slug !in ws[k].buffer.dims
    case Some(s) =>
      if slug in ws[k].buffer.dims then ws[k].buffer.dims[slug] == s
      else EverSettled(ws, es, k, s)
  }

  lemma {:induction false} SnapAtIs(dims: seq<Sample>, slug: string)
    ensures SnapAt(dims, slug) == ZERO_TIME || exists t :: t in dims && t.slug == slug && t.at == SnapAt(dims, slug)
  {
    if dims != [] {
      var n := |dims| - 1;
      if dims[n].slug == slug {
        assert dims[n] in dims;
      } else {
        SnapAtIs(dims[..n], slug);
        if SnapAt(dims[..n], slug) != ZERO_TIME {
          var t :| t in dims[..n] && t.slug == slug && t.at == SnapAt(dims[..n], slug);
          assert t in dims;
        }
      }
    }
  }

  /** A snapshot holds every buffered dimension. */
  lemma SnapshotHasDims(b: State, slug: string)
    requires slug in b.dims
    ensures b.dims[slug] in SnapshotOf(b).dims
  {
    var keys := SortedKeys(b.dims.Keys);
    assert slug in keys;
    var i :| 0 <= i < |keys| && keys[i] == slug;
    assert DimsOf(b, keys)[i] == b.dims[slug];
  }

  lemma {:induction false} DimsKept(ws: seq<World>, es: seq<Event>, k: nat, slug: string)
    requires Behaves(ws, es) && FreshStamps(ws, es) && k < |ws|
    ensures DimsHold(ws, es, k, slug) && Remembered(ws, es, k, slug)
  {
    if k > 0 {
      DimsKept(ws, es, k - 1, slug);
      assert es[..k][..k - 1] == es[..k - 1];
      var w, e := ws[k - 1], es[k - 1];
      assert ws[k] == After(w, e) && Enabled(w, e);
      match e
      case Adding(s) => AddKeeps(ws, es, k, slug);
      case Snapshotting => SnapKeeps(ws, es, k, slug);
      case Publishing(_, _, _, _, _, _) => PublishKeeps(ws, es, k, slug);
      case Acking => AckKeeps(ws, es, k, slug);
      case Reporting => ReportKeeps(ws, es, k, slug);
    }
  }

  ghost predicate StepAt(ws: seq<World>, es: seq<Event>, k: nat, slug: string) {
    && |ws| == |es| + 1 && 0 < k < |ws|
    && Enabled(ws[k - 1], es[k - 1]) && ws[k] == After(ws[k - 1], es[k - 1])
    && FreshStamps(ws, es)
    && DimsHold(ws, es, k - 1, slug) && Remembered(ws, es, k - 1, slug)
    && es[..k][..k - 1] == es[..k - 1]
  }

  lemma AddKeeps(ws: seq<World>, es: seq<Event>, k: nat, slug: string)
    requires StepAt(ws, es, k, slug) && es[k - 1].Adding?
    ensures DimsHold(ws, es, k, slug) && Remembered(ws, es, k, slug)
  {
    hide Collected, SnapAt;
    var w, s := ws[k - 1], es[k - 1].s;
    if !s.IsMetric() && s.slug == slug && !w.phase.Idle? {
      SnapAtIs(w.phase.batch.dims, slug);
      assert s.at != SnapAt(w.phase.batch.dims, slug) by {
        if SnapAt(w.phase.batch.dims, slug) != ZERO_TIME {
          var t :| t in w.phase.batch.dims && t.slug == slug && t.at == SnapAt(w.phase.batch.dims, slug);
          assert InFlight(w, t);
        }
      }
    }
    SettledStays(ws, es, k, slug);
  }

  /** What was settled before step k is settled after it. */
  lemma SettledStays(ws: seq<World>, es: seq<Event>, k: nat, slug: string)
    requires |ws| == |es| + 1 && 0 < k < |ws|
    ensures forall s :: EverSettled(ws, es, k - 1, s) ==> EverSettled(ws, es, k, s)
    ensures forall batch, ack :: EverSent(ws, es, k - 1, batch, ack) ==> EverSent(ws, es, k, batch, ack)
  {}

  lemma SnapKeeps(ws: seq<World>, es: seq<Event>, k: nat, slug: string)
    requires StepAt(ws, es, k, slug) && es[k - 1].Snapshotting?
    ensures DimsHold(ws, es, k, slug) && Remembered(ws, es, k, slug)
  {
    hide SnapshotOf, SnapAt;
    if slug in ws[k - 1].buffer.dims { SnapshotHasDims(ws[k - 1].buffer, slug); }
    SettledStays(ws, es, k, slug);
  }

  lemma PublishKeeps(ws: seq<World>, es: seq<Event>, k: nat, slug: string)
    requires StepAt(ws, es, k, slug) && es[k - 1].Publishing?
    ensures DimsHold(ws, es, k, slug) && Remembered(ws, es, k, slug)
  {
    hide Published, SnapAt, Verdicts;
    SettledStays(ws, es, k, slug);
    assert ws[k - 1].phase == Snapped(ws[k].phase.batch);
  }

  lemma AckKeeps(ws: seq<World>, es: seq<Event>, k: nat, slug: string)
    requires StepAt(ws, es, k, slug) && es[k - 1].Acking?
    ensures DimsHold(ws, es, k, slug) && Remembered(ws, es, k, slug)
  {
    hide SnapAt;
    var w := ws[k - 1];
    SettledStays(ws, es, k, slug);
    if slug in w.buffer.dims && DimAcked(w.buffer, w.phase.batch, w.phase.ack, slug) {
      var s := w.buffer.dims[slug];
      var j :| 0 <= j < k - 1 && es[j].Publishing? && ws[j].phase == Snapped(w.phase.batch) &&
          es[j].res.ack == w.phase.ack;
      assert SettledIn(ws, es, j, s);
    }
  }

  lemma ReportKeeps(ws: seq<World>, es: seq<Event>, k: nat, slug: string)
    requires StepAt(ws, es, k, slug) && es[k - 1].Reporting?
    ensures DimsHold(ws, es, k, slug) && Remembered(ws, es, k, slug)
  {
    hide SnapAt;
    SettledStays(ws, es, k, slug);
  }

  /** At every moment, the latest value added of a dimension is still buffered, or
      a publish carried that sample and either it could not be rendered, or an
      update that carried its attribute was taken, or a rejection named it. */
  lemma LatestIsNeverLost(ws: seq<World>, es: seq<Event>, k: nat, slug: string)
    requires Behaves(ws, es) && FreshStamps(ws, es) && k < |ws|
    requires LatestOf(es[..k], slug).Some?
    ensures var s := LatestOf(es[..k], slug).value;
            || (slug in ws[k].buffer.dims && ws[k].buffer.dims[slug] == s)
            || exists j :: 0 <= j < k && SettledIn(ws, es, j, s) &&
                           (Unrendered(ws[j].phase.batch.dims, es[j].items, slug) ||
                            exists u :: u in es[j].us && Settles(u, slug))
  {
    hide FreshStamps;
    DimsKept(ws, es, k, slug);
    LatestSlug(es[..k], slug);
    var s := LatestOf(es[..k], slug).value;
    if slug !in ws[k].buffer.dims {
      var j :| 0 <= j < k && SettledIn(ws, es, j, s);
      assert Enabled(ws[j], es[j]);
      assert DimsPart(ws[j].phase.batch.dims, es[j].items, es[j].link, es[j].us, es[j].res.ack.dims);
    }
  }

  lemma {:induction false} LatestSlug(es: seq<Event>, slug: string)
    requires LatestOf(es, slug).Some?
    ensures LatestOf(es, slug).value.slug == slug
  {
    var e := es[|es| - 1];
    if e.Adding? && !e.s.IsMetric() && e.s.slug == slug {
    } else {
      LatestSlug(es[..|es| - 1], slug);
    }
  }

  predicate Keyed(b: State) { forall slug :: slug in b.dims ==> b.dims[slug].slug == slug }

  /** A sample added after the snapshot survives the acknowledgement of the older
      one exactly when their stamps differ: At is all that Ack compares. */
  lemma NewerSurvivesExactly(b: State, older: Sample, newer: Sample, metrics: map<string, nat>)
    requires Keyed(b)
    requires older.slug == newer.slug && !newer.IsMetric() && !older.IsMetric()
    ensures var batch := SnapshotOf(Added(b, older));
            var b' := Acked(Added(Added(b, older), newer), batch, Ack({older.slug}, metrics));
            && (newer.slug in b'.dims <==> newer.at != older.at)
            && (newer.slug in b'.dims ==> b'.dims[newer.slug] == newer)
  {
    hide SnapshotOf;
    var b0 := Added(b, older);
    SnapAtSnapshot(b0, older.slug);
  }

  lemma SnapAtSnapshot(b: State, slug: string)
    requires slug in b.dims && Keyed(b)
    ensures SnapAt(SnapshotOf(b).dims, slug) == b.dims[slug].at
  {
    var keys := SortedKeys(b.dims.Keys);
    ListedOnce(keys, b.dims.Keys);
    SnapAtDims(b, keys, slug);
  }

  lemma {:induction false} SnapAtDims(b: State, keys: seq<string>, slug: string)
    requires forall s :: s in keys ==> s in b.dims
    requires forall i, j :: 0 <= i < j < |keys| ==> keys[i] != keys[j]
    requires slug in keys && Keyed(b)
    ensures SnapAt(DimsOf(b, keys), slug) == b.dims[slug].at
  {
    var n := |keys| - 1;
    var ds := DimsOf(b, keys);
    assert ds[..n] == DimsOf(b, keys[..n]);
    if keys[n] != slug {
      SnapAtDims(b, keys[..n], slug);
    }
  }
}
