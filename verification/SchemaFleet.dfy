/** Many hosts reconciling one project at once, over reads that lag: the
    platform as the in-repo fake states it (internal/omni/omnitest/server.go),
    every interleaving of hosts and other actors, and what all of them keep. */
module SchemaFleet {
  import opened Schema
  import opened SchemaPlan
  import opened SchemaHost
  import opened SchemaRuns

  // -------------------------------------------------------------- platform

  /** The project: what discovery shows, and the attribute lists of templates
      without a slug, which omnistat cannot see. */
  datatype Platform = Platform(schema: Current, hidden: map<Id, set<Id>>)

  predicate KnownTemplateId(p: Platform, id: Id) {
    id in p.hidden || exists s :: s in p.schema.templates && p.schema.templates[s].id == id
  }

  /** An id the platform has not used yet. */
  ghost predicate FreshId(p: Platform, id: Id) {
    && id !in p.hidden
    && (forall s :: s in p.schema.templates ==>
          p.schema.templates[s].id != id && id !in p.schema.templates[s].attributeIds)
    && (forall s :: s in p.schema.attributes ==> p.schema.attributes[s].id != id)
  }

  predicate HasId(p: Platform, slug: string, id: Id) {
    slug in p.schema.attributes && p.schema.attributes[slug].id == id
  }

  /** When the platform can accept a write, answering with id. */
  ghost predicate Accepts(p: Platform, call: Call, id: Id) {
    match call
    case NewTemplate(slug) => slug !in p.schema.templates && FreshId(p, id)
    case NewAttribute(slug, _, ids, refTarget, _) =>
      && slug !in p.schema.attributes && FreshId(p, id)
      && (forall i :: i in ids ==> KnownTemplateId(p, i))
      && (refTarget.Some? ==> KnownTemplateId(p, refTarget.value))
    case NewOption(attributeId, value) =>
      exists slug :: HasId(p, slug, attributeId) &&
                     p.schema.attributes[slug].typ == "list" && value !in p.schema.attributes[slug].options
    case SetBindings(attributeId, ids) =>
      (exists slug :: HasId(p, slug, attributeId)) && forall i :: i in ids ==> KnownTemplateId(p, i)
    case _ => false
  }

  function WithAttribute(cur: Current, slug: string, kind: Kind, ids: seq<Id>, target: Option<Id>, id: Id): Current {
    Current(
      map s | s in cur.templates ::
        if cur.templates[s].id in ids
        then CurrentTemplate(cur.templates[s].id, cur.templates[s].attributeIds + {id}) else cur.templates[s],
      cur.attributes[slug := CurrentAttribute(id, TypeOf(kind), map[], target)])
  }

  function WithOption(cur: Current, attributeId: Id, value: string, id: Id): Current {
    cur.(attributes :=
      map s | s in cur.attributes ::
        if cur.attributes[s].id == attributeId
        then cur.attributes[s].(options := cur.attributes[s].options[value := id]) else cur.attributes[s])
  }

  function Rebound(attributeIds: set<Id>, attributeId: Id, bound: bool): set<Id> {
    if bound then attributeIds + {attributeId} else attributeIds - {attributeId}
  }

  /** A bind replaces the attribute's whole list of templates. */
  function WithBindings(cur: Current, attributeId: Id, ids: set<Id>): Current {
    cur.(templates :=
      map s | s in cur.templates ::
        CurrentTemplate(cur.templates[s].id,
                        Rebound(cur.templates[s].attributeIds, attributeId, cur.templates[s].id in ids)))
  }

  /** The project after an accepted write. */
  function Effect(p: Platform, call: Call, id: Id): Platform {
    match call
    case NewTemplate(slug) => p.(schema := p.schema.(templates := p.schema.templates[slug := CurrentTemplate(id, {})]))
    case NewAttribute(slug, kind, ids, target, _) => p.(schema := WithAttribute(p.schema, slug, kind, ids, target, id))
    case NewOption(attributeId, value) => p.(schema := WithOption(p.schema, attributeId, value, id))
    case SetBindings(attributeId, ids) =>
      Platform(WithBindings(p.schema, attributeId, ids),
               map h | h in p.hidden :: Rebound(p.hidden[h], attributeId, h in ids))
    case _ => p
  }

  /** Everything a write can lead to: accepted; refused or failed without effect;
      or carried out although its answer was lost, whatever a resend was told. */
  ghost predicate Answers(p: Platform, call: Call, reply: WriteReply, p': Platform) {
    if reply.Accepted? then Accepts(p, call, reply.id) && p' == Effect(p, call, reply.id)
    else p' == p || exists id :: Accepts(p, call, id) && p' == Effect(p, call, id)
  }

  // ------------------------------------------------------------- the fleet

  /** A host: not started, or running since the platform state it read first. */
  datatype Member = Waiting | Running(since: nat, host: Host)

  /** Every state the platform went through, the last being now; and the hosts. */
  datatype Fleet = Fleet(history: seq<Platform>, members: seq<Member>)

  datatype Label =
    | Begins(i: nat, seen: nat)
    | Reads(i: nat, seen: nat, tick: Tick)
    | Writes(i: nat, tick: Tick, after: Platform)
    | Others(after: Platform)

  ghost predicate PlatformOk(p: Platform) {
    DistinctIds(p.schema)
  }

  /** Nothing visible is removed or changed. */
  ghost predicate Grows(c: Current, c': Current) {
    && (forall s :: s in c.templates ==>
          s in c'.templates && c'.templates[s].id == c.templates[s].id &&
          c.templates[s].attributeIds <= c'.templates[s].attributeIds)
    && (forall s :: s in c.attributes ==>
          && s in c'.attributes && c'.attributes[s].id == c.attributes[s].id
          && c'.attributes[s].typ == c.attributes[s].typ &&
              c'.attributes[s].refTemplateId == c.attributes[s].refTemplateId
          && (forall v :: v in c.attributes[s].options ==>
                v in c'.attributes[s].options && c'.attributes[s].options[v] == c.attributes[s].options[v]))
  }

  /** Other actors may add anything, but leave the desired attributes to the fleet. */
  ghost predicate OthersAdd(d: Desired, p: Platform, p': Platform) {
    && Grows(p.schema, p'.schema) && PlatformOk(p')
    && (forall a :: a in d.attributes && a.slug in p'.schema.attributes ==>
          a.slug in p.schema.attributes &&
          BoundTo(p'.schema, p'.schema.attributes[a.slug].id) == BoundTo(p.schema, p.schema.attributes[a.slug].id))
  }

  function Now(f: Fleet): Platform
    requires f.history != []
  {
    f.history[|f.history| - 1]
  }

  ghost predicate Init(f: Fleet) {
    |f.history| == 1 && PlatformOk(f.history[0]) && forall m :: m in f.members ==> m.Waiting?
  }

  /** One step of one host, or of somebody else. A read shows any state no older
      than the one the host read first. */
  ghost predicate Next(d: Desired, delays: nat, f: Fleet, l: Label, f': Fleet)
    requires f.history != []
  {
    match l
    case Begins(i, seen) =>
      && i < |f.members| && f.members[i].Waiting? && seen < |f.history|
      && f' == f.(members := f.members[i := Running(seen, Start(d, f.history[seen].schema))])
    case Reads(i, seen, t) =>
      && i < |f.members| && f.members[i].Running? && NextCall(f.members[i].host) == ReadSchema
      && f.members[i].since <= seen < |f.history|
      && (t.read.Shown? ==> t.read.cur == f.history[seen].schema)
      && f' == f.(members := f.members[i := Running(f.members[i].since, Receive(d, delays, f.members[i].host, t))])
    case Writes(i, t, after) =>
      && i < |f.members| && f.members[i].Running?
      && NextCall(f.members[i].host) != ReadSchema && NextCall(f.members[i].host) != NoCall
      && Answers(Now(f), NextCall(f.members[i].host), t.write, after)
      && f' == Fleet(f.history + [after],
                     f.members[i := Running(f.members[i].since, Receive(d, delays, f.members[i].host, t))])
    case Others(after) =>
      OthersAdd(d, Now(f), after) && f' == f.(history := f.history + [after])
  }

  /** A finite run of the fleet. */
  ghost predicate Behavior(d: Desired, delays: nat, states: seq<Fleet>, labels: seq<Label>) {
    && |states| == |labels| + 1
    && Init(states[0])
    && forall k :: 0 <= k < |labels| ==> states[k].history != [] && Next(d, delays, states[k], labels[k], states[k + 1])
  }

  // ------------------------------------------------------------ invariants

  /** The templates an attribute was bound to before the fleet started. */
  function Base(p0: Current, slug: string): set<Id> {
    if slug in p0.attributes then BoundTo(p0, p0.attributes[slug].id) else {}
  }

  function IdOfTemplate(cur: Current, slug: string): set<Id> {
    if slug in cur.templates then {cur.templates[slug].id} else {}
  }

  function TemplateOf(a: DesiredAttribute): string
    requires |a.templates| == 1
  {
    a.templates[0]
  }

  predicate IsBound(cur: Current, a: DesiredAttribute)
    requires |a.templates| == 1
  {
    Present(cur, BindingObject(a.slug, TemplateOf(a)))
  }

  /** A desired attribute is bound to what it was bound to, and to its template;
      one the fleet created is what was asked for and bound from the start. */
  ghost predicate AttributeOk(p0: Current, cur: Current, a: DesiredAttribute)
    requires |a.templates| == 1
  {
    a.slug in cur.attributes ==>
      && BoundTo(cur, cur.attributes[a.slug].id) <= Base(p0, a.slug) + IdOfTemplate(cur, TemplateOf(a))
      && (a.slug !in p0.attributes ==> Matches(cur, a) && IsBound(cur, a))
  }

  ghost predicate AttributesOk(d: Desired, p0: Current, cur: Current)
    requires WellFormed(d)
  {
    forall a :: a in d.attributes ==> |a.templates| == 1 && AttributeOk(p0, cur, a)
  }

  ghost predicate HistoryOk(d: Desired, history: seq<Platform>)
    requires WellFormed(d)
  {
    && history != []
    && (forall k :: 0 <= k < |history| ==>
          PlatformOk(history[k]) && AttributesOk(d, history[0].schema, history[k].schema))
    && (forall j, k :: 0 <= j <= k < |history| ==> Grows(history[j].schema, history[k].schema))
  }

  /** The ids a host holds are the platform's. */
  ghost predicate Truthful(r: Resolved, cur: Current) {
    && (forall t :: t in r.templates ==> t in cur.templates && cur.templates[t].id == r.templates[t])
    && (forall s :: s in r.attributes ==> s in cur.attributes && cur.attributes[s].id == r.attributes[s])
    && (forall s, v :: s in r.listItems && v in r.listItems[s] ==>
          s in cur.attributes && v in cur.attributes[s].options && cur.attributes[s].options[v] == r.listItems[s][v])
  }

  /** A pending bind keeps every binding from before and adds at most its own. */
  ghost predicate BindSafe(p0: Current, cur: Current, x: Action)
    requires x.BindAttribute?
  {
    && x.attribute in cur.attributes && x.boundId == cur.attributes[x.attribute].id
    && Base(p0, x.attribute) <= x.templateIds
    && x.templateIds <= Base(p0, x.attribute) + IdOfTemplate(cur, x.template)
  }

  /** The ids an action was planned with are still the right ones. */
  ghost predicate ActionSafe(p0: Current, cur: Current, x: Action) {
    match x
    case AddListOption(s, known, _) => known.Some? ==> s in cur.attributes && known.value == cur.attributes[s].id
    case BindAttribute(_, _, _, _) => BindSafe(p0, cur, x)
    case _ => true
  }

  ghost predicate ActionsSafe(p0: Current, cur: Current, rem: seq<Action>) {
    forall x :: x in rem ==> ActionSafe(p0, cur, x)
  }

  ghost predicate WillBind(rem: seq<Action>, a: DesiredAttribute) {
    exists x :: x in rem && x.BindAttribute? && x.attribute == a.slug
  }

  /** Every desired attribute is bound, or an action that binds it is pending. */
  ghost predicate BoundOrPending(d: Desired, cur: Current, rem: seq<Action>)
    requires WellFormed(d)
  {
    forall a :: a in d.attributes ==>
      |a.templates| == 1 && (IsBound(cur, a) || WillBind(rem, a) || CreatesAttribute(rem, a.slug))
  }

  /** What existed before the fleet has the desired types and targets. */
  ghost predicate OldMatch(d: Desired, p0: Current, cur: Current) {
    forall a :: a in d.attributes && a.slug in p0.attributes ==> a.slug in cur.attributes && Matches(cur, a)
  }

  ghost predicate HostOk(d: Desired, p0: Current, cur: Current, h: Host)
    requires WellFormed(d)
  {
    && HostInv(d, h) && Truthful(h.log.resolved, cur)
    && (!h.Stopped? ==> OldMatch(d, p0, cur))
    && match h
       case Applying(rem, log) => ActionsSafe(p0, cur, rem) && BoundOrPending(d, cur, rem)
       case Verifying(rem, log) => ActionsSafe(p0, cur, rem) && BoundOrPending(d, cur, [])
       case VerifyRead(log) => BoundOrPending(d, cur, [])
       case Succeeded(log) => BoundOrPending(d, cur, [])
       case _ => true
  }

  ghost predicate FleetInv(d: Desired, f: Fleet)
    requires WellFormed(d)
  {
    && HistoryOk(d, f.history)
    && forall i :: 0 <= i < |f.members| && f.members[i].Running? ==>
         f.members[i].since < |f.history| && HostOk(d, f.history[0].schema, Now(f).schema, f.members[i].host)
  }
}
