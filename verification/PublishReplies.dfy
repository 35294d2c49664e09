/** A publish is decided by its batch and the answers it gets: nothing else shows in
    what it sends and acknowledges (internal/publish/publish.go). */
module PublishReplies {
  import opened Schema
  import opened Samples
  import opened Buffer
  import opened Publish

  /** As far as both went, the requests were answered alike. */
  ghost predicate SameReplies<T>(a: seq<Request<T>>, b: seq<Request<T>>) {
    forall k :: 0 <= k < |a| && k < |b| ==> a[k].reply == b[k].reply
  }

  lemma OneNewest(dims: map<string, Backfill>, at: int, at': int)
    requires IsNewest(dims, at) && IsNewest(dims, at')
    ensures at == at'
  {
  }

  lemma OneLinked(dims: map<string, Backfill>, link: Option<HostLink>, sent: map<string, Backfill>,
                  sent': map<string, Backfill>)
    requires Linked(dims, link, sent) && Linked(dims, link, sent')
    ensures sent == sent'
  {
    hide IsNewest;
    if link.Some? && dims != map[] {
      var at :| IsNewest(dims, at) && sent == dims[link.value.slug := Backfill(Plain(link.value.entityId), at)];
      var at' :| IsNewest(dims, at') && sent' == dims[link.value.slug := Backfill(Plain(link.value.entityId), at')];
      OneNewest(dims, at, at');
    }
  }

  lemma UpdatesDecided(dims: map<string, Backfill>, us: seq<Update>, us': seq<Update>, id: string)
    requires UpdateLog(dims, us) && UpdateLog(dims, us') && SameReplies(us, us')
    requires AllTo(us, id) && AllTo(us', id)
    ensures us == us'
  {
    hide Retried, WithoutNamed;
    if us != [] {
      assert us[0] in us && us'[0] in us';
      assert us[0] == us'[0];
      if |us| == 2 {
        assert us[1] in us && us'[1] in us';
      }
    }
  }

  /** The chunk loop stops where the answers say, neither sooner nor later. */
  lemma NoLonger(ms: seq<Metric>, ins: seq<Ingest>, ins': seq<Ingest>)
    requires IngestLog(ms, ins) && IngestLog(ms, ins') && SameReplies(ins, ins')
    requires IngestError(ins).None? ==> AllSettled(ms, ins)
    ensures |ins'| <= |ins|
  {
    hide Chunk;
  }

  lemma IngestsDecided(ms: seq<Metric>, ins: seq<Ingest>, ins': seq<Ingest>, id: string)
    requires IngestLog(ms, ins) && IngestLog(ms, ins') && SameReplies(ins, ins')
    requires IngestError(ins).None? ==> AllSettled(ms, ins)
    requires IngestError(ins').None? ==> AllSettled(ms, ins')
    requires AllTo(ins, id) && AllTo(ins', id)
    ensures ins == ins'
  {
    NoLonger(ms, ins, ins');
    NoLonger(ms, ins', ins);
    hide Chunk, AllSettled, IngestError;
    forall k | 0 <= k < |ins| ensures ins[k] == ins'[k] {
      assert ins[k] in ins && ins'[k] in ins';
    }
  }

  /** Two publishes of one batch to one entity, answered alike, are the same: the
      requests, the error, what is acknowledged and what is counted. */
  lemma PublishedDecided(b: Batch, items: Items, link: Option<HostLink>, id: string, us: seq<Update>, ins: seq<Ingest>,
                         res: Result, error: Option<Failure>, us': seq<Update>, ins': seq<Ingest>, res': Result,
                         error': Option<Failure>)
    requires Published(b, items, link, us, ins, res, error) && Published(b, items, link, us', ins', res', error')
    requires AllTo(us, id) && AllTo(us', id) && AllTo(ins, id) && AllTo(ins', id)
    requires SameReplies(us, us') && SameReplies(ins, ins')
    ensures us == us' && ins == ins' && error == error'
    ensures res.ack.dims == res'.ack.dims
    ensures forall slug :: CountOf(res.ack.metrics, slug) == CountOf(res'.ack.metrics, slug)
    ensures res.observations == res'.observations && res.requests == res'.requests && res.dropped == res'.dropped
    ensures error.None? ==> res.dimensions == res'.dimensions
  {
    hide Linked, UpdateLog, RenderedDims, IngestLog, AllSettled, ToMetrics, UpdateError, IngestError, SameReplies,
         AllTo, Unrendered, Settles, UnrenderedCount, CountSlug, SettledEnd, DroppedBy, TakenDims, Recorded, CountOf;
    var dims, ms := RenderedDims(b.dims, items), ToMetrics(b.metrics, items);
    var sent :| Linked(dims, link, sent) && UpdateLog(sent, us);
    var sent' :| Linked(dims, link, sent') && UpdateLog(sent', us');
    OneLinked(dims, link, sent, sent');
    UpdatesDecided(sent, us, us', id);
    if UpdateError(us).None? {
      IngestsDecided(ms, ins, ins', id);
    }
  }

  /** Acknowledgements that count alike leave the same buffer. */
  lemma AckedAlike(s: State, batch: Batch, ack: Ack, ack': Ack)
    requires ack.dims == ack'.dims && forall slug :: CountOf(ack.metrics, slug) == CountOf(ack'.metrics, slug)
    ensures Acked(s, batch, ack) == Acked(s, batch, ack')
  {
    hide Acknowledged, CountOf;
  }
}
