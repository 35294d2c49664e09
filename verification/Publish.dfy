/** One publish of a batch: at most two dimension updates, then metric chunks
    (internal/publish/publish.go). The platform answers by any script. */
module Publish {
  import opened Schema
  import opened Samples
  import opened Buffer

  const CHUNK_SIZE: nat := 1000
  const PREFIX := "attributes."

  /** fields are what a rejection names; none when the error carries no fields. */
  datatype Reply = Taken | NotFound | Rejected(fields: Option<set<string>>) | Broken

  datatype Backfill = Backfill(value: Rendered, at: int)

  datatype Metric = Metric(slug: string, value: Rendered, at: int)

  /** A request about the entity with id `to`, and its answer. */
  datatype Request<T> = Request(to: string, payload: T, reply: Reply)

  type Update = Request<map<string, Backfill>>
  type Ingest = Request<seq<Metric>>

  ghost predicate AllTo<T>(requests: seq<Request<T>>, id: string) { forall r :: r in requests ==> r.to == id }

  datatype Failure = EntityGone | UpdateFailed | IngestFailed

  datatype Result = Result(ack: Ack, dimensions: int, observations: nat, requests: nat, dropped: nat)

  datatype HostLink = HostLink(slug: string, entityId: string)

  /** Requests are answered in order and remembered with their answers. */
  class PublishApi {
    const script: nat -> Reply
    var updates: seq<Update>
    var ingests: seq<Ingest>

    constructor (script: nat -> Reply)
      ensures updates == [] && ingests == [] && this.script == script
    {
      this.script := script;
      updates, ingests := [], [];
    }

    method UpdateEntity(id: string, dims: map<string, Backfill>) returns (reply: Reply)
      modifies this
      ensures reply == script(|old(updates)| + |old(ingests)|)
      ensures updates == old(updates) + [Request(id, dims, reply)] && ingests == old(ingests)
    {
      reply := script(|updates| + |ingests|);
      updates := updates + [Request(id, dims, reply)];
    }

    method IngestMetrics(id: string, chunk: seq<Metric>) returns (reply: Reply)
      modifies this
      ensures reply == script(|old(updates)| + |old(ingests)|)
      ensures ingests == old(ingests) + [Request(id, chunk, reply)] && updates == old(updates)
    {
      reply := script(|updates| + |ingests|);
      ingests := ingests + [Request(id, chunk, reply)];
    }
  }

  // -------------------------------------------------------- dimensions

  /** A rejection that names the attribute. */
  predicate Names(reply: Reply, slug: string) {
    reply.Rejected? && reply.fields.Some? && PREFIX + slug in reply.fields.value
  }

  /** What one update settles: everything it carried when taken, what a
      rejection names otherwise. */
  predicate Settles(u: Update, slug: string) {
    slug in u.payload && (u.reply.Taken? || Names(u.reply, slug))
  }

  predicate NamesNone(u: Update) { forall slug :: slug in u.payload ==> !Names(u.reply, slug) }

  function WithoutNamed(u: Update): map<string, Backfill> {
    map slug | slug in u.payload && !Names(u.reply, slug) :: u.payload[slug]
  }

  /** An update whose rejection the publisher answers by sending the rest once more. */
  predicate Retried(u: Update) {
    u.reply.Rejected? && !NamesNone(u) && WithoutNamed(u) != map[]
  }

  /** The updates of one publish: all of dims, then once what was not named. */
  predicate UpdateLog(dims: map<string, Backfill>, us: seq<Update>) {
    && |us| <= 2
    && (us == [] <==> dims == map[])
    && (us != [] ==> us[0].payload == dims && (|us| == 2 <==> Retried(us[0])))
    && (|us| == 2 ==> us[1].payload == WithoutNamed(us[0]))
  }

  /** After us, all rejections that named something, dims is left to send. */
  predicate LeftToSend(all: map<string, Backfill>, us: seq<Update>, dims: map<string, Backfill>) {
    if us == [] then dims == all
    else
      var last := us[|us| - 1];
      && last.reply.Rejected? && !NamesNone(last) && dims == WithoutNamed(last)
      && (if |us| == 1 then last.payload == all != map[] else UpdateLog(all, us))
  }

  /** The last answer decides: a rejection that names something sent is no error. */
  function UpdateError(us: seq<Update>): Option<Failure> {
    if us == [] then None
    else
      var last := us[|us| - 1];
      match last.reply
      case Taken => None
      case NotFound => Some(EntityGone)
      case Rejected(_) => if NamesNone(last) then Some(UpdateFailed) else None
      case Broken => Some(UpdateFailed)
  }

  ghost predicate DimsSettled(us: seq<Update>, acked: set<string>) {
    forall slug :: slug in acked <==> exists u :: u in us && Settles(u, slug)
  }

  /** The newest instant among the dimensions, or the zero time. */
  ghost predicate IsNewest(dims: map<string, Backfill>, at: int) {
    && ZERO_TIME <= at
    && (forall slug :: slug in dims ==> dims[slug].at <= at)
    && (at == ZERO_TIME || exists slug :: slug in dims && dims[slug].at == at)
  }

  /** The host link goes with every update that carries something. */
  ghost predicate Linked(dims: map<string, Backfill>, link: Option<HostLink>, sent: map<string, Backfill>) {
    if link.None? || dims == map[] then sent == dims
    else exists at :: IsNewest(dims, at) && sent == dims[link.value.slug := Backfill(Plain(link.value.entityId), at)]
  }

  /** The renderable dimensions of a batch; of two samples of one slug the later wins. */
  function RenderedDims(dims: seq<Sample>, items: Items): map<string, Backfill> {
    if dims == [] then map[]
    else
      var rest, s := RenderedDims(dims[..|dims| - 1], items), dims[|dims| - 1];
      if Render(s, items).Err? then rest else rest[s.slug := Backfill(Render(s, items).value, s.at)]
  }

  predicate Unrendered(samples: seq<Sample>, items: Items, slug: string) {
    exists s :: s in samples && s.slug == slug && Render(s, items).Err?
  }

  // ----------------------------------------------------------- metrics

  function ToMetric(items: Items): Sample -> seq<Metric> {
    (s: Sample) =>
      var r := Render(s, items);
      if r.Err? then [] else [Metric(s.slug, r.value, s.at)]
  }

  function ToMetrics(samples: seq<Sample>, items: Items): seq<Metric> {
    Gather(samples, ToMetric(items))
  }

  function UnrenderedCount(samples: seq<Sample>, items: Items, slug: string): nat {
    if samples == [] then 0
    else
      var s := samples[|samples| - 1];
      UnrenderedCount(samples[..|samples| - 1], items, slug) +
      (if s.slug == slug && Render(s, items).Err? then 1 else 0)
  }

  function CountSlug(ms: seq<Metric>, slug: string): nat {
    if ms == [] then 0
    else CountSlug(ms[..|ms| - 1], slug) + (if ms[|ms| - 1].slug == slug then 1 else 0)
  }

  /** Recorded or refused for good: the chunk need not be sent again. */
  predicate ChunkSettled(i: Ingest) { i.reply.Taken? || i.reply.Rejected? }

  function Chunk(ms: seq<Metric>, k: nat): seq<Metric>
    requires k * CHUNK_SIZE <= |ms|
  {
    ms[k * CHUNK_SIZE..if (k + 1) * CHUNK_SIZE <= |ms| then (k + 1) * CHUNK_SIZE else |ms|]
  }

  /** The chunks of one publish, in order; only the last may have failed. */
  ghost predicate IngestLog(ms: seq<Metric>, ins: seq<Ingest>) {
    && (forall k :: 0 <= k < |ins| ==> k * CHUNK_SIZE < |ms| && ins[k].payload == Chunk(ms, k))
    && (forall k :: 0 <= k < |ins| - 1 ==> ChunkSettled(ins[k]))
  }

  ghost predicate AllSettled(ms: seq<Metric>, ins: seq<Ingest>) {
    |ms| <= |ins| * CHUNK_SIZE && forall k :: 0 <= k < |ins| ==> ChunkSettled(ins[k])
  }

  /** Where the settled chunks end. */
  function SettledEnd(ms: seq<Metric>, ins: seq<Ingest>): (end: nat)
    ensures end <= |ms|
  {
    var settled := if ins != [] && !ChunkSettled(ins[|ins| - 1]) then |ins| - 1 else |ins|;
    if settled * CHUNK_SIZE <= |ms| then settled * CHUNK_SIZE else |ms|
  }

  function IngestError(ins: seq<Ingest>): Option<Failure> {
    if ins == [] || ChunkSettled(ins[|ins| - 1]) then None
    else if ins[|ins| - 1].reply.NotFound? then Some(EntityGone) else Some(IngestFailed)
  }

  function Recorded(i: Ingest): seq<Metric> {
    if i.reply.Taken? then i.payload else []
  }

  function Refused(i: Ingest): seq<Metric> {
    if i.reply.Rejected? then i.payload else []
  }

  /** The settled attributes the platform refused by name. */
  function NamedCount(us: seq<Update>): nat {
    if us == [] then 0
    else NamedCount(us[..|us| - 1]) + |NamedIn(us[|us| - 1])|
  }

  function NamedIn(u: Update): set<string> {
    set slug | slug in u.payload && Names(u.reply, slug)
  }

  function Unrenderable(items: Items): Sample -> seq<Sample> {
    (s: Sample) => if Render(s, items).Err? then [s] else []
  }

  /** What a publish gives up: samples without a rendering, named attributes,
      refused chunks. */
  function DroppedBy(b: Batch, items: Items, us: seq<Update>, ins: seq<Ingest>): nat {
    |Gather(b.dims, Unrenderable(items))| + |Gather(b.metrics, Unrenderable(items))| + NamedCount(us) +
    |Gather(ins, Refused)|
  }

  /** The dimension half of a publish: what was sent, and what the buffer may forget. */
  ghost predicate DimsPart(samples: seq<Sample>, items: Items, link: Option<HostLink>, us: seq<Update>,
                           acked: set<string>) {
    && (exists sent :: Linked(RenderedDims(samples, items), link, sent) && UpdateLog(sent, us))
    && (forall slug :: slug in acked <==> Unrendered(samples, items, slug) || exists u :: u in us && Settles(u, slug))
  }

  /** The metric half: per attribute, as many as had no rendering or lie in the settled chunks. */
  ghost predicate MetricsPart(samples: seq<Sample>, items: Items, ins: seq<Ingest>, counted: map<string, nat>) {
    var ms := ToMetrics(samples, items);
    && IngestLog(ms, ins)
    && (forall slug :: CountOf(counted, slug) ==
                       UnrenderedCount(samples, items, slug) + CountSlug(ms[..SettledEnd(ms, ins)], slug))
  }

  /** One publish as the API and the caller saw it. */
  ghost predicate Published(b: Batch, items: Items, link: Option<HostLink>, us: seq<Update>, ins: seq<Ingest>,
                            res: Result, error: Option<Failure>)
  {
    && DimsPart(b.dims, items, link, us, res.ack.dims)
    && MetricsPart(b.metrics, items, ins, res.ack.metrics)
    && (UpdateError(us).Some? ==> ins == [])
    && error == (if UpdateError(us).Some? then UpdateError(us) else IngestError(ins))
    && (error.None? ==> AllSettled(ToMetrics(b.metrics, items), ins) && res.dimensions == TakenDims(us))
    && res.requests == |us| + |ins|
    && res.observations == |Gather(ins, Recorded)|
    && res.dropped == DroppedBy(b, items, us, ins)
  }

  method Newest(dims: map<string, Backfill>) returns (at: int)
    ensures IsNewest(dims, at)
  {
    at := ZERO_TIME;
    var rest := dims.Keys;
    while rest != {}
      invariant rest <= dims.Keys && ZERO_TIME <= at
      invariant forall slug :: slug in dims.Keys - rest ==> dims[slug].at <= at
      invariant at == ZERO_TIME || exists slug :: slug in dims && dims[slug].at == at
    {
      var slug :| slug in rest;
      if dims[slug].at > at {
        at := dims[slug].at;
      }
      rest := rest - {slug};
    }
  }

  /** The sent attributes a rejection names. */
  method RejectedSlugs(fields: set<string>, dims: map<string, Backfill>) returns (out: set<string>)
    ensures forall slug :: slug in out <==> slug in dims && PREFIX + slug in fields
  {
    out := {};
    var rest := fields;
    while rest != {}
      invariant rest <= fields
      invariant forall slug :: slug in out <==> slug in dims && PREFIX + slug in fields - rest
    {
      var field :| field in rest;
      rest := rest - {field};
      if PREFIX <= field {
        var slug := field[|PREFIX|..];
        assert field == PREFIX + slug;
        assert forall other :: PREFIX + other == field ==> other == (PREFIX + other)[|PREFIX|..];
        if slug in dims {
          out := out + {slug};
        }
      }
    }
  }

  lemma SettledGrows(us: seq<Update>, u: Update, acked: set<string>, more: set<string>)
    requires DimsSettled(us, acked)
    requires forall slug :: slug in more <==> Settles(u, slug)
    ensures DimsSettled(us + [u], acked + more)
  {
    forall slug
      ensures slug in acked + more <==> exists v :: v in us + [u] && Settles(v, slug)
    {
      if slug in acked {
        var v :| v in us && Settles(v, slug);
        assert v in us + [u];
      } else if slug in more {
        assert u in us + [u];
      }
    }
  }

  /** The dimensions the platform took. */
  function TakenDims(us: seq<Update>): nat {
    if us != [] && us[|us| - 1].reply.Taken? then |us[|us| - 1].payload| else 0
  }

  /** The update loop between two attempts. */
  ghost predicate Progress(all: map<string, Backfill>, us: seq<Update>, dims: map<string, Backfill>,
                           acked: set<string>, dropped: nat)
  {
    && LeftToSend(all, us, dims) && DimsSettled(us, acked)
    && acked !! dims.Keys && |acked| == dropped == NamedCount(us)
    && UpdateError(us).None? && TakenDims(us) == 0
  }

  lemma NothingSent(all: map<string, Backfill>)
    ensures Progress(all, [], all, {}, 0)
  {}

  lemma AttemptLogged(all: map<string, Backfill>, us: seq<Update>, dims: map<string, Backfill>,
                      acked: set<string>, dropped: nat, u: Update, settled: set<string>)
    requires Progress(all, us, dims, acked, dropped) && dims != map[] && |us| < 2 && u.payload == dims
    requires forall slug :: slug in settled <==> Settles(u, slug)
    ensures var us', acked' := us + [u], acked + settled;
            && DimsSettled(us', acked') && UpdateError(us') == UpdateError([u])
            && (u.reply.Taken? || UpdateError([u]).Some? ==>
                  UpdateLog(all, us') && NamedCount(us') == dropped && |acked'| == dropped + TakenDims(us'))
            && (u.reply.Rejected? && !NamesNone(u) && dims - settled == WithoutNamed(u) ==>
                  Progress(all, us', dims - settled, acked', dropped + |settled|))
  {
    hide NamesNone, WithoutNamed, Settles, NamedCount, DimsSettled;
    SettledGrows(us, u, acked, settled);
    SettlesSent(u);
    NamedCountStep(us, u, settled);
    ErrorSettlesNone(u, settled);
    if u.reply.Taken? {
      assert settled == dims.Keys;
      assert |acked + settled| == |acked| + |dims|;
    }
  }

  lemma ErrorSettlesNone(u: Update, settled: set<string>)
    requires forall slug :: slug in settled <==> Settles(u, slug)
    ensures UpdateError([u]).Some? ==> settled == {}
  {}

  lemma NothingLeft(all: map<string, Backfill>, us: seq<Update>, dims: map<string, Backfill>, acked: set<string>,
                    dropped: nat)
    requires Progress(all, us, dims, acked, dropped) && (dims == map[] || |us| == 2)
    ensures UpdateLog(all, us) && DimsSettled(us, acked) && UpdateError(us).None?
    ensures dropped == NamedCount(us) && |acked| - dropped == TakenDims(us)
  {
    hide NamesNone, WithoutNamed, NamedCount, DimsSettled;
  }

  /** One attempt: what it settles, and whether the loop goes on. */
  method Attempt(api: PublishApi, id: string, dims: map<string, Backfill>)
    returns (settled: set<string>, taken: bool, error: Option<Failure>)
    requires dims != map[]
    modifies api
    ensures api.ingests == old(api.ingests) && |api.updates| == |old(api.updates)| + 1
    ensures api.updates == old(api.updates) + [api.updates[|old(api.updates)|]]
    ensures var u := api.updates[|old(api.updates)|];
            && u.to == id && u.payload == dims && taken == u.reply.Taken? && error == UpdateError([u])
            && (forall slug :: slug in settled <==> Settles(u, slug))
            && (error.None? && !taken ==> !NamesNone(u) && u.reply.Rejected? && dims - settled == WithoutNamed(u))
  {
    var reply := api.UpdateEntity(id, dims);
    taken := reply.Taken?;
    if reply.Taken? {
      return dims.Keys, true, None;
    }
    if reply.NotFound? {
      return {}, false, Some(EntityGone);
    }
    if !reply.Rejected? || reply.fields.None? {
      return {}, false, Some(UpdateFailed);
    }
    settled := RejectedSlugs(reply.fields.value, dims);
    if settled == {} {
      return settled, false, Some(UpdateFailed);
    }
    ghost var slug :| slug in settled;
    assert Names(reply, slug);
    error := None;
  }

  /** Updates the dimensions, retrying once without what a rejection names. */
  method UpdateDims(api: PublishApi, id: string, all: map<string, Backfill>)
    returns (acked: set<string>, dropped: nat, requests: nat, error: Option<Failure>)
    modifies api
    ensures api.ingests == old(api.ingests) && old(api.updates) <= api.updates
    ensures UpdateLog(all, api.updates[|old(api.updates)|..])
    ensures AllTo(api.updates[|old(api.updates)|..], id)
    ensures DimsSettled(api.updates[|old(api.updates)|..], acked)
    ensures error == UpdateError(api.updates[|old(api.updates)|..])
    ensures requests == |api.updates| - |old(api.updates)|
    ensures dropped == NamedCount(api.updates[|old(api.updates)|..])
    ensures error.None? ==> |acked| - dropped == TakenDims(api.updates[|old(api.updates)|..])
  {
    hide Settles, NamesNone, WithoutNamed, UpdateLog, DimsSettled, NamedCount, Progress;
    var dims := all;
    acked, dropped, requests, error := {}, 0, 0, None;
    ghost var us: seq<Update> := [];
    NothingSent(all);
    while requests < 2 && |dims| > 0
      invariant requests == |us| <= 2 && AllTo(us, id)
      invariant api.updates == old(api.updates) + us && api.ingests == old(api.ingests)
      invariant Progress(all, us, dims, acked, dropped)
    {
      var settled, taken, failure := Attempt(api, id, dims);
      ghost var u := api.updates[|old(api.updates)| + |us|];
      AttemptLogged(all, us, dims, acked, dropped, u, settled);
      us := us + [u];
      assert api.updates[|old(api.updates)|..] == us;
      requests := requests + 1;
      acked := acked + settled;
      if taken || failure.Some? {
        return acked, dropped, requests, failure;
      }
      dims, dropped := dims - settled, dropped + |settled|;
    }
    NothingLeft(all, us, dims, acked, dropped);
    assert api.updates[|old(api.updates)|..] == us;
  }

  lemma NamedCountStep(us: seq<Update>, u: Update, settled: set<string>)
    requires forall slug :: slug in settled <==> Settles(u, slug)
    ensures NamedCount([]) == 0
    ensures NamedCount(us + [u]) == NamedCount(us) + if u.reply.Taken? then 0 else |settled|
  {
    assert (us + [u])[..|us|] == us;
    if u.reply.Taken? {
      assert NamedIn(u) == {};
    } else {
      assert NamedIn(u) == settled;
    }
  }

  lemma SettlesSent(u: Update)
    ensures forall slug :: Settles(u, slug) ==> slug in u.payload
    ensures u.reply.Taken? ==> forall slug :: Settles(u, slug) <==> slug in u.payload
  {}

  // ---------------------------------------------------------- publish

  lemma RenderedStep(samples: seq<Sample>, i: nat, items: Items, slug: string)
    requires i < |samples|
    ensures RenderedDims(samples[..i + 1], items) ==
            (var s := samples[i];
             if Render(s, items).Err? then RenderedDims(samples[..i], items)
             else RenderedDims(samples[..i], items)[s.slug := Backfill(Render(s, items).value, s.at)])
    ensures UnrenderedCount(samples[..i + 1], items, slug) ==
            UnrenderedCount(samples[..i], items, slug) +
            (if samples[i].slug == slug && Render(samples[i], items).Err? then 1 else 0)
  {
    assert samples[..i + 1][..i] == samples[..i];
  }

  method RenderDims(samples: seq<Sample>, items: Items)
    returns (dims: map<string, Backfill>, acked: set<string>, dropped: nat)
    ensures dims == RenderedDims(samples, items)
    ensures forall slug :: slug in acked <==> Unrendered(samples, items, slug)
    ensures dropped == |Gather(samples, Unrenderable(items))|
  {
    hide Render;
    dims, acked, dropped := map[], {}, 0;
    for i := 0 to |samples|
      invariant dims == RenderedDims(samples[..i], items)
      invariant forall slug :: slug in acked <==> Unrendered(samples[..i], items, slug)
      invariant dropped == |Gather(samples[..i], Unrenderable(items))|
    {
      var s := samples[i];
      RenderedStep(samples, i, items, s.slug);
      GatherStep(samples, i, Unrenderable(items));
      UnrenderedStep(samples, i, items);
      var v := Render(s, items);
      if v.Err? {
        acked, dropped := acked + {s.slug}, dropped + 1;
        continue;
      }
      dims := dims[s.slug := Backfill(v.value, s.at)];
    }
    assert samples[..|samples|] == samples;
  }

  lemma UnrenderedStep(samples: seq<Sample>, i: nat, items: Items)
    requires i < |samples|
    ensures forall slug :: Unrendered(samples[..i + 1], items, slug) <==>
                           Unrendered(samples[..i], items, slug) ||
                           (samples[i].slug == slug && Render(samples[i], items).Err?)
  {
    hide Render;
    var before, after, s := samples[..i], samples[..i + 1], samples[i];
    assert after == before + [s];
    assert s in after;
    forall slug
      ensures Unrendered(after, items, slug) <==>
          Unrendered(before, items, slug) || (s.slug == slug && Render(s, items).Err?)
    {
      if Unrendered(before, items, slug) {
        var t :| t in before && t.slug == slug && Render(t, items).Err?;
        assert t in after;
      }
    }
  }

  lemma NoneUnrendered(items: Items)
    ensures forall slug :: UnrenderedCount([], items, slug) == 0
  {}

  method RenderMetrics(samples: seq<Sample>, items: Items)
    returns (ms: seq<Metric>, acked: map<string, nat>, dropped: nat)
    ensures ms == ToMetrics(samples, items)
    ensures forall slug :: CountOf(acked, slug) == UnrenderedCount(samples, items, slug)
    ensures dropped == |Gather(samples, Unrenderable(items))|
  {
    hide Render, UnrenderedCount;
    ms, acked, dropped := [], map[], 0;
    assert forall slug :: UnrenderedCount([], items, slug) == 0 by { NoneUnrendered(items); }
    for i := 0 to |samples|
      invariant ms == ToMetrics(samples[..i], items)
      invariant forall slug :: CountOf(acked, slug) == UnrenderedCount(samples[..i], items, slug)
      invariant dropped == |Gather(samples[..i], Unrenderable(items))|
    {
      var s := samples[i];
      GatherStep(samples, i, Unrenderable(items));
      GatherStep(samples, i, ToMetric(items));
      forall slug
        ensures UnrenderedCount(samples[..i + 1], items, slug) ==
                CountOf(acked, slug) + (if s.slug == slug && Render(s, items).Err? then 1 else 0)
      {
        RenderedStep(samples, i, items, slug);
      }
      ghost var counted := acked;
      var v := Render(s, items);
      if v.Err? {
        acked, dropped := acked[s.slug := CountOf(acked, s.slug) + 1], dropped + 1;
        assert forall slug :: CountOf(acked, slug) == CountOf(counted, slug) + if slug == s.slug then 1 else 0;
        assert forall slug ::
            UnrenderedCount(samples[..i + 1], items, slug) == CountOf(counted, slug) + if slug == s.slug then 1 else 0;
        continue;
      }
      assert forall slug :: UnrenderedCount(samples[..i + 1], items, slug) == CountOf(counted, slug);
      ms := ms + [Metric(s.slug, v.value, s.at)];
    }
    assert samples[..|samples|] == samples;
  }

  lemma CountStep(ms: seq<Metric>, i: nat, slug: string)
    requires i < |ms|
    ensures CountSlug(ms[..i + 1], slug) == CountSlug(ms[..i], slug) + (if ms[i].slug == slug then 1 else 0)
  {
    assert ms[..i + 1][..i] == ms[..i];
  }

  /** Counts ms[from..to] on top of what is acknowledged already. */
  method AckChunk(ms: seq<Metric>, from: nat, to: nat, before: map<string, nat>) returns (acked: map<string, nat>)
    requires from <= to <= |ms|
    ensures forall slug ::
              CountOf(acked, slug) + CountSlug(ms[..from], slug) == CountOf(before, slug) + CountSlug(ms[..to], slug)
  {
    acked := before;
    for i := from to to
      invariant forall slug ::
                  CountOf(acked, slug) + CountSlug(ms[..from], slug) == CountOf(before, slug) + CountSlug(ms[..i], slug)
    {
      forall slug { CountStep(ms, i, slug); }
      acked := acked[ms[i].slug := CountOf(acked, ms[i].slug) + 1];
    }
  }

  /** The chunk loop between two requests: ins, all settled, cover ms[..i]. */
  ghost predicate Sending(ms: seq<Metric>, ins: seq<Ingest>, i: nat, before: map<string, nat>,
                          acked: map<string, nat>) {
    && i == (if |ins| * CHUNK_SIZE <= |ms| then |ins| * CHUNK_SIZE else |ms|)
    && IngestLog(ms, ins)
    && (forall k :: 0 <= k < |ins| ==> ChunkSettled(ins[k]))
    && (forall slug :: CountOf(acked, slug) == CountOf(before, slug) + CountSlug(ms[..i], slug))
  }

  lemma SentOne(ms: seq<Metric>, ins: seq<Ingest>, i: nat, before: map<string, nat>, acked: map<string, nat>, r: Ingest)
    requires Sending(ms, ins, i, before, acked) && i < |ms| && r.payload == Chunk(ms, |ins|)
    ensures IngestLog(ms, ins + [r])
    ensures !ChunkSettled(r) ==> SettledEnd(ms, ins + [r]) == i
    ensures ChunkSettled(r) ==> forall k :: 0 <= k < |ins| + 1 ==> ChunkSettled((ins + [r])[k])
  {
    hide CountSlug, Chunk, ChunkSettled;
    var ins' := ins + [r];
    forall k | 0 <= k < |ins'| ensures k * CHUNK_SIZE < |ms| && ins'[k].payload == Chunk(ms, k) {
      if k < |ins| {
        assert ins'[k] == ins[k];
      }
    }
  }

  lemma CountedOne(ins: seq<Ingest>, r: Ingest)
    ensures IngestError(ins + [r]) == IngestError([r])
    ensures Gather(ins + [r], Recorded) == Gather(ins, Recorded) + Recorded(r)
    ensures Gather(ins + [r], Refused) == Gather(ins, Refused) + Refused(r)
  {
    assert (ins + [r])[..|ins|] == ins;
  }

  lemma SentAll(ms: seq<Metric>, ins: seq<Ingest>, before: map<string, nat>, acked: map<string, nat>)
    requires Sending(ms, ins, |ms|, before, acked)
    ensures IngestError(ins).None? && AllSettled(ms, ins) && SettledEnd(ms, ins) == |ms|
  {
    hide CountSlug;
  }

  /** Sends the metrics chunk by chunk until one fails. */
  method SendMetrics(api: PublishApi, id: string, ms: seq<Metric>, before: map<string, nat>)
    returns (acked: map<string, nat>, observations: nat, dropped: nat, requests: nat, error: Option<Failure>)
    modifies api
    ensures api.updates == old(api.updates) && old(api.ingests) <= api.ingests
    ensures AllTo(api.ingests[|old(api.ingests)|..], id)
    ensures var ins := api.ingests[|old(api.ingests)|..];
            && IngestLog(ms, ins) && error == IngestError(ins) && (error.None? ==> AllSettled(ms, ins))
            && requests == |ins| && observations == |Gather(ins, Recorded)| && dropped == |Gather(ins, Refused)|
            && forall slug :: CountOf(acked, slug) == CountOf(before, slug) + CountSlug(ms[..SettledEnd(ms, ins)], slug)
  {
    hide Gather, IngestLog, SettledEnd, AllSettled, CountSlug;
    acked, observations, dropped, requests, error := before, 0, 0, 0, None;
    var i := 0;
    ghost var ins: seq<Ingest> := [];
    NothingIngested(ms, before);
    while i < |ms|
      invariant i <= |ms| && Sending(ms, ins, i, before, acked) && AllTo(ins, id)
      invariant api.ingests == old(api.ingests) + ins && api.updates == old(api.updates)
      invariant requests == |ins| && observations == |Gather(ins, Recorded)| && dropped == |Gather(ins, Refused)|
      decreases |ms| - i
    {
      var end := if i + CHUNK_SIZE <= |ms| then i + CHUNK_SIZE else |ms|;
      var chunk := ms[i..end];
      requests := requests + 1;
      var reply := api.IngestMetrics(id, chunk);
      ghost var r := Request(id, chunk, reply);
      SentOne(ms, ins, i, before, acked, r);
      CountedOne(ins, r);
      ins := ins + [r];
      assert api.ingests == old(api.ingests) + ins;
      match reply {
        case Taken =>
          observations := observations + |chunk|;
        case NotFound =>
          error := Some(EntityGone);
          return;
        case Rejected(_) =>
          dropped := dropped + |chunk|;
        case Broken =>
          error := Some(IngestFailed);
          return;
      }
      acked := AckChunk(ms, i, end, acked);
      i := end;
    }
    SentAll(ms, ins, before, acked);
    assert api.ingests[|old(api.ingests)|..] == ins;
    assert ms[..|ms|] == ms;
  }

  lemma NothingIngested(ms: seq<Metric>, before: map<string, nat>)
    ensures Sending(ms, [], 0, before, before) && Gather([], Recorded) == [] && Gather([], Refused) == []
  {}

  /** v.(string) must not panic; CollectedRenders gives it for metrics. */
  predicate MetricsAreStrings(samples: seq<Sample>, items: Items) {
    forall s :: s in samples ==> Render(s, items).Ok? ==> Render(s, items).value.IsString()
  }

  /** Sends a batch: dimensions, then metrics; on an error the partial result. */
  method Publish(api: PublishApi, id: string, b: Batch, items: Items, link: Option<HostLink>)
    returns (res: Result, error: Option<Failure>)
    requires MetricsAreStrings(b.metrics, items)
    modifies api
    ensures old(api.updates) <= api.updates && old(api.ingests) <= api.ingests
    ensures AllTo(api.updates[|old(api.updates)|..], id) && AllTo(api.ingests[|old(api.ingests)|..], id)
    ensures Published(b, items, link, api.updates[|old(api.updates)|..], api.ingests[|old(api.ingests)|..], res, error)
  {
    hide DimsPart, MetricsPart, UpdateError, IngestError, AllSettled, ToMetrics, Gather, NamedCount, TakenDims, Linked,
         IsNewest, UpdateLog, DimsSettled, RenderedDims, Unrendered, UnrenderedCount, CountSlug, SettledEnd, IngestLog;
    res, error := Result(Ack({}, map[]), 0, 0, 0, 0), None;
    if b.dims == [] && b.metrics == [] {
      NothingPublished(b, items, link);
      assert api.updates[|old(api.updates)|..] == [] && api.ingests[|old(api.ingests)|..] == [];
      return;
    }
    var dims, unrendered, lost := DimsToSend(b.dims, items, link);
    var ms, counted, missed := RenderMetrics(b.metrics, items);
    NothingSettledYet(ms);
    MetricsPartHolds(b.metrics, items, counted, [], counted);
    var acked, taken, given, requests, failure := SendDims(api, id, b.dims, items, link, dims, unrendered);
    res := Result(Ack(acked, counted), taken, 0, requests, lost + missed + given);
    if failure.Some? {
      assert api.ingests[|old(api.ingests)|..] == [];
      NothingGathered();
      return res, failure;
    }
    var accepted, observations, refused, more, failed := SendMetrics(api, id, ms, counted);
    MetricsPartHolds(b.metrics, items, counted, api.ingests[|old(api.ingests)|..], accepted);
    res := Result(Ack(acked, accepted), taken, observations, requests + more, lost + missed + given + refused);
    error := failed;
  }

  lemma NothingGathered()
    ensures Gather([], Recorded) == [] && Gather([], Refused) == []
  {}

  /** The rendered dimensions, with the host link beside them. */
  method DimsToSend(samples: seq<Sample>, items: Items, link: Option<HostLink>)
    returns (dims: map<string, Backfill>, unrendered: set<string>, lost: nat)
    ensures Linked(RenderedDims(samples, items), link, dims)
    ensures forall slug :: slug in unrendered <==> Unrendered(samples, items, slug)
    ensures lost == |Gather(samples, Unrenderable(items))|
  {
    hide IsNewest, RenderedDims, Unrendered, Gather;
    dims, unrendered, lost := RenderDims(samples, items);
    if link.Some? && |dims| > 0 {
      var at := Newest(dims);
      dims := dims[link.value.slug := Backfill(Plain(link.value.entityId), at)];
    }
  }

  method SendDims(api: PublishApi, id: string, ghost samples: seq<Sample>, ghost items: Items,
                  ghost link: Option<HostLink>, dims: map<string, Backfill>, unrendered: set<string>)
    returns (acked: set<string>, taken: int, dropped: nat, requests: nat, error: Option<Failure>)
    requires Linked(RenderedDims(samples, items), link, dims)
    requires forall slug :: slug in unrendered <==> Unrendered(samples, items, slug)
    modifies api
    ensures api.ingests == old(api.ingests) && old(api.updates) <= api.updates
    ensures AllTo(api.updates[|old(api.updates)|..], id)
    ensures var us := api.updates[|old(api.updates)|..];
            && DimsPart(samples, items, link, us, acked) && error == UpdateError(us)
            && requests == |us| && dropped == NamedCount(us) && (error.None? ==> taken == TakenDims(us))
  {
    hide DimsPart, UpdateError, NamedCount, TakenDims, Linked, UpdateLog, DimsSettled, RenderedDims, Unrendered;
    acked, taken, dropped, requests, error := unrendered, 0, 0, 0, None;
    NothingSentYet(dims);
    if |dims| > 0 {
      var settled;
      settled, dropped, requests, error := UpdateDims(api, id, dims);
      DimsPartHolds(samples, items, link, dims, api.updates[|old(api.updates)|..], unrendered, settled);
      acked := unrendered + settled;
      if error.None? {
        taken := |settled| - dropped;
      }
    } else {
      assert api.updates[|old(api.updates)|..] == [] && unrendered + {} == unrendered;
      DimsPartHolds(samples, items, link, dims, [], unrendered, {});
    }
  }

  lemma DimsPartHolds(samples: seq<Sample>, items: Items, link: Option<HostLink>, sent: map<string, Backfill>,
                      us: seq<Update>, unrendered: set<string>, acked: set<string>)
    requires Linked(RenderedDims(samples, items), link, sent) && UpdateLog(sent, us) && DimsSettled(us, acked)
    requires forall slug :: slug in unrendered <==> Unrendered(samples, items, slug)
    ensures DimsPart(samples, items, link, us, unrendered + acked)
  {}

  lemma MetricsPartHolds(samples: seq<Sample>, items: Items, before: map<string, nat>, ins: seq<Ingest>,
                         counted: map<string, nat>)
    requires forall slug :: CountOf(before, slug) == UnrenderedCount(samples, items, slug)
    requires var ms := ToMetrics(samples, items);
             IngestLog(ms, ins) &&
             forall slug :: CountOf(counted, slug) == CountOf(before, slug) + CountSlug(ms[..SettledEnd(ms, ins)], slug)
    ensures MetricsPart(samples, items, ins, counted)
  {
    hide CountOf, Chunk;
  }

  lemma NothingSettledYet(ms: seq<Metric>)
    ensures IngestLog(ms, []) && SettledEnd(ms, []) == 0 && forall slug :: CountSlug(ms[..0], slug) == 0
  {}

  lemma NothingSentYet(dims: map<string, Backfill>)
    ensures dims == map[] ==> UpdateLog(dims, []) && DimsSettled([], {}) && TakenDims([]) == 0
    ensures UpdateError([]).None? && NamedCount([]) == 0
    ensures Gather([], Recorded) == [] && Gather([], Refused) == []
  {}

  lemma NothingPublished(b: Batch, items: Items, link: Option<HostLink>)
    requires b.dims == [] && b.metrics == []
    ensures Published(b, items, link, [], [], Result(Ack({}, map[]), 0, 0, 0, 0), None)
  {
    assert Linked(RenderedDims(b.dims, items), link, map[]);
  }
}
