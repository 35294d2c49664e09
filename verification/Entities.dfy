/** Publishing the host and then every module-owned entity, each on its own
    (internal/publish/entities.go): one cache of ids, one registry and one API serve
    all of them, and each may answer anything at any time. */
module Entities {
  import opened Ordering
  import opened Schema
  import opened Samples
  import opened Buffer
  import opened Buffers
  import opened Publish
  import opened Identity
  import opened IdentityApi

  /** What every entity's publisher shares: the host's id, the list items, and the
      host link of each entity template. */
  datatype Shared = Shared(hostId: string, items: Items, links: map<string, string>)

  function LinkOf(c: Shared, t: Samples.Target): Option<HostLink> {
    if t != HOST && t.template in c.links && c.links[t.template] != ""
    then Some(HostLink(c.links[t.template], c.hostId)) else None
  }

  function ConfigOf(t: Samples.Target): Config { Config(t.template, t.key, false, false) }

  function KeyOf(t: Samples.Target): string { CacheKey(t.template, t.key) }

  predicate EmptyBatch(batch: Batch) { batch.dims == [] && batch.metrics == [] }

  // ------------------------------------------------------------- one turn

  /** What one entity's turn comes to: nothing buffered, no record found or created,
      or a publish to the record id with its requests, result and error. */
  datatype Attempt =
    | NothingToSend
    | Unresolved
    | Sent(id: string, us: seq<Update>, ins: seq<Ingest>, res: Publish.Result, error: Option<Failure>)

  predicate Gone(a: Attempt) { a.Sent? && a.error == Some(EntityGone) }

  predicate Written(a: Attempt) { a.Sent? && a.error.None? }

  function ErrorOf(a: Attempt): Option<Failure> {
    if a.Sent? then a.error else None
  }

  /** The entity's buffer, before and after its turn: unchanged unless something was
      published, and then acknowledged by what its own requests settled. */
  ghost predicate Settled(c: Shared, t: Samples.Target, b: State, a: Attempt, b': State) {
    var batch := SnapshotOf(b);
    match a
    case NothingToSend => EmptyBatch(batch) && b' == b
    case Unresolved => !EmptyBatch(batch) && b' == b
    case Sent(id, us, ins, res, error) =>
      && !EmptyBatch(batch) && Published(batch, c.items, LinkOf(c, t), us, ins, res, error)
      && AllTo(us, id) && AllTo(ins, id) && b' == Acked(b, batch, res.ack)
  }

  /** One entity's turn: how its record was resolved, with the registry's answers from
      one instant to another, and the ids remembered before and after. */
  datatype Turn = Turn(t: Samples.Target, attempt: Attempt, ending: Ending, from: nat, to: nat,
                       before: map<string, Id>, after: map<string, Id>)

  /** A remembered id is taken; any other is what the machine ends with. */
  ghost predicate Resolves(script: nat -> Answer, turn: Turn) {
    var k := KeyOf(turn.t);
    if k in turn.before then
      turn.to == turn.from && turn.ending == Resolved(Resolution(Some(turn.before[k]), Found, []))
    else
      && turn.from <= turn.to
      && Run(ConfigOf(turn.t), LookingUp, script, turn.from, turn.to - turn.from) == Ended(turn.ending)
  }

  /** An entity that sent is remembered by the id it sent to, unless it is gone. */
  ghost predicate Remembers(script: nat -> Answer, turn: Turn) {
    match turn.attempt
    case NothingToSend => turn.to == turn.from && turn.after == turn.before
    case Unresolved => Resolves(script, turn) && turn.ending.Failed? && turn.after == turn.before
    case Sent(id, _, _, _, error) =>
      && Resolves(script, turn) && turn.ending.Resolved? && turn.ending.r.id == Some(id)
      && turn.after == if Gone(turn.attempt) then turn.before - {KeyOf(turn.t)} else turn.before[KeyOf(turn.t) := id]
  }

  /** A publish's counters (Result.add), with the entities written and not written. */
  datatype Totals = Totals(dimensions: int, observations: nat, requests: nat, dropped: nat, entities: nat, failed: nat)

  const ZERO := Totals(0, 0, 0, 0, 0, 0)

  function Plus(n: Totals, r: Publish.Result): Totals {
    n.(dimensions := n.dimensions + r.dimensions, observations := n.observations + r.observations,
       requests := n.requests + r.requests, dropped := n.dropped + r.dropped)
  }

  function Counted(n: Totals, a: Attempt): Totals {
    match a
    case NothingToSend => n
    case Unresolved => n.(failed := n.failed + 1)
    case Sent(_, _, _, res, error) =>
      if error.None? then Plus(n, res).(entities := n.entities + 1) else Plus(n, res).(failed := n.failed + 1)
  }

  /** What is counted after the host and the turns so far. */
  function TotalOf(host: Attempt, turns: seq<Turn>): Totals {
    if turns == [] then (if host.Sent? then Plus(ZERO, host.res) else ZERO)
    else Counted(TotalOf(host, turns[..|turns| - 1]), turns[|turns| - 1].attempt)
  }

  function UpdatesOf(a: Attempt): seq<Update> { if a.Sent? then a.us else [] }

  function IngestsOf(a: Attempt): seq<Ingest> { if a.Sent? then a.ins else [] }

  /** The turns' updates in the order they were sent. */
  function TurnUpdates(turns: seq<Turn>): seq<Update> {
    Gather(turns, (turn: Turn) => UpdatesOf(turn.attempt))
  }

  function TurnIngests(turns: seq<Turn>): seq<Ingest> {
    Gather(turns, (turn: Turn) => IngestsOf(turn.attempt))
  }

  // ------------------------------------------------------------- a publish

  /** The ids remembered once the turns were taken. */
  function IdsAfter(ids: map<string, Id>, turns: seq<Turn>): map<string, Id> {
    if turns == [] then ids else turns[|turns| - 1].after
  }

  function ClockAfter(from: nat, turns: seq<Turn>): nat {
    if turns == [] then from else turns[|turns| - 1].to
  }

  /** Each turn begins with the cache and at the instant the one before it left. */
  ghost predicate Chained(script: nat -> Answer, ids: map<string, Id>, from: nat, turns: seq<Turn>) {
    forall i :: 0 <= i < |turns| ==>
      && Remembers(script, turns[i])
      && turns[i].before == IdsAfter(ids, turns[..i]) && turns[i].from == ClockAfter(from, turns[..i])
  }

  /** The turns are those of ts, in order. */
  ghost predicate TurnsOf(turns: seq<Turn>, ts: seq<Samples.Target>) {
    |turns| == |ts| && forall i :: 0 <= i < |ts| ==> turns[i].t == ts[i]
  }

  /** Every metric queue holds metrics, as Add leaves it. */
  predicate OnlyMetrics(b: State) {
    forall slug, s :: slug in b.metrics && s in b.metrics[slug].items ==> s.IsMetric()
  }

  ghost predicate AllOnlyMetrics(b: Many) {
    OnlyMetrics(b.host) && forall t :: t in b.targets ==> OnlyMetrics(b.targets[t])
  }

  /** The buffers once the turns were taken: each entity's by its own turn, in order,
      the rest as they were. */
  ghost predicate SettledEach(c: Shared, b: Many, turns: seq<Turn>, now: Many) {
    && now.max == b.max && now.keys == b.keys && now.targets.Keys == b.targets.Keys
    && (forall i :: 0 <= i < |turns| ==>
          && turns[i].t in b.targets
          && Settled(c, turns[i].t, b.targets[turns[i].t], turns[i].attempt, now.targets[turns[i].t]))
    && (forall t :: t in b.targets && (forall i :: 0 <= i < |turns| ==> turns[i].t != t) ==>
          now.targets[t] == b.targets[t])
  }

  ghost predicate HostSettled(c: Shared, b: State, host: Attempt, b': State) {
    !host.Unresolved? && (host.Sent? ==> host.id == c.hostId) && Settled(c, HOST, b, host, b')
  }

  /** The order of the turns: the entities that have a buffer, none of them when the
      host is gone. */
  ghost predicate TurnOrder(b: Many, host: Attempt, ts: seq<Samples.Target>) {
    if Gone(host) then ts == [] else multiset(ts) == multiset(b.targets.Keys) && SortedBy(ts, TargetLe)
  }

  /** Where a publish begins: what is shared, the registry's answers to come, the
      buffers, the ids remembered and the instant. */
  datatype Start = Start(c: Shared, script: nat -> Answer, b: Many, ids: map<string, Id>, from: nat)

  /** A whole publish, to the buffers and the remembered ids it leaves. */
  ghost predicate Performed(st: Start, host: Attempt, turns: seq<Turn>, after: Many, ids: map<string, Id>) {
    && HostSettled(st.c, st.b.host, host, after.host)
    && SettledEach(st.c, st.b, turns, after)
    && Chained(st.script, st.ids, st.from, turns) && ids == IdsAfter(st.ids, turns)
    && exists ts :: TurnsOf(turns, ts) && TurnOrder(st.b, host, ts)
  }

  // --------------------------------------------------------------- the code

  lemma BoundPositive(limit: int)
    ensures Bound(limit) > 0
  {}

  /** A batch from such a buffer renders to strings, so v.(string) is safe. */
  lemma BatchIsSafe(b: State, items: Items)
    requires OnlyMetrics(b)
    ensures MetricsAreStrings(SnapshotOf(b).metrics, items)
  {
    hide SortedKeys;
    var slugs := SortedKeys(Pending(b));
    forall s | s in SnapshotOf(b).metrics ensures s.IsMetric() {
      GatherMember(slugs, ItemsOfQueue(b), s);
    }
  }

  lemma AckedOnlyMetrics(b: State, batch: Batch, ack: Ack)
    requires OnlyMetrics(b)
    ensures OnlyMetrics(Acked(b, batch, ack))
  {
    var b' := Acked(b, batch, ack);
    forall slug, s | slug in b'.metrics && s in b'.metrics[slug].items ensures s.IsMetric() {
      assert s in b.metrics[slug].items;
    }
  }

  lemma SettledOnlyMetrics(c: Shared, t: Samples.Target, b: State, a: Attempt, b': State)
    requires OnlyMetrics(b) && Settled(c, t, b, a, b')
    ensures OnlyMetrics(b')
  {
    if a.Sent? { AckedOnlyMetrics(b, SnapshotOf(b), a.res.ack); }
  }

  /** Sends one buffer's batch to the record id and acknowledges what was settled. */
  method SendBuffer(buf: Buffer, api: PublishApi, c: Shared, t: Samples.Target, id: string, batch: Batch)
    returns (res: Publish.Result, error: Option<Failure>, ghost a: Attempt)
    requires buf.Valid() && OnlyMetrics(buf.Value()) && batch == SnapshotOf(buf.Value()) && !EmptyBatch(batch)
    modifies buf, api
    ensures buf.Valid() && a.Sent? && a == Sent(id, a.us, a.ins, res, error)
    ensures Settled(c, t, old(buf.Value()), a, buf.Value())
    ensures api.updates == old(api.updates) + a.us && api.ingests == old(api.ingests) + a.ins
  {
    hide SnapshotOf, Acked, Published, MetricsAreStrings;
    BatchIsSafe(buf.Value(), c.items);
    res, error := Publish.Publish(api, id, batch, c.items, LinkOf(c, t));
    buf.AckBatch(batch, res.ack);
    a := Sent(id, api.updates[|old(api.updates)|..], api.ingests[|old(api.ingests)|..], res, error);
  }

  /** The host's own publish. */
  method PublishHost(bufs: Buffers, api: PublishApi, c: Shared)
    returns (n: Totals, error: Option<Failure>, ghost host: Attempt)
    requires bufs.Valid() && OnlyMetrics(bufs.host.Value())
    modifies bufs.host, api
    ensures bufs.Valid() && bufs.Value() == old(bufs.Value()).(host := bufs.Value().host)
    ensures n == TotalOf(host, []) && error == ErrorOf(host)
    ensures HostSettled(c, old(bufs.Value()).host, host, bufs.Value().host)
    ensures api.updates == old(api.updates) + UpdatesOf(host) && api.ingests == old(api.ingests) + IngestsOf(host)
  {
    hide SnapshotOf, Acked, Published;
    var batch := bufs.host.Snapshot();
    n, error, host := ZERO, None, NothingToSend;
    if !EmptyBatch(batch) {
      assert bufs.host.Valid() by { BoundPositive(bufs.limit); }
      var res;
      res, error, host := SendBuffer(bufs.host, api, c, HOST, c.hostId, batch);
      n := Plus(n, res);
    }
    assert bufs.Value().targets == old(bufs.Value()).targets;
  }

  lemma TurnRemembers(script: nat -> Answer, located: Turn, turn: Turn)
    requires Resolves(script, located) && turn == located.(attempt := turn.attempt, after := turn.after)
    requires turn.attempt.Sent? && turn.ending.Resolved? && turn.ending.r.id == Some(turn.attempt.id)
    requires turn.after == if Gone(turn.attempt) then turn.before[KeyOf(turn.t) := turn.attempt.id] - {KeyOf(turn.t)}
                           else turn.before[KeyOf(turn.t) := turn.attempt.id]
    ensures Remembers(script, turn)
  {
    var k := KeyOf(turn.t);
    assert turn.before[k := turn.attempt.id] - {k} == turn.before - {k};
  }

  /** The entity's record: its remembered id, or what a resolution ends with. */
  method Locate(keyed: Keyed, registry: Registry, t: Samples.Target) returns (ending: Ending, ghost turn: Turn)
    requires !keyed.dryRun
    modifies keyed, registry
    ensures turn == Turn(t, Unresolved, ending, old(registry.clock), registry.clock, old(keyed.ids), keyed.ids)
    ensures Resolves(registry.script, turn)
    ensures ending.Resolved? ==> ending.r.id.Some? && keyed.ids == old(keyed.ids)[KeyOf(t) := ending.r.id.value]
    ensures ending.Failed? ==> keyed.ids == old(keyed.ids)
  {
    hide OthersKept, Run, Made;
    ghost var ids, from := keyed.ids, registry.clock;
    ending := keyed.Resolve(registry, t.template, t.key);
    turn := Turn(t, Unresolved, ending, from, registry.clock, ids, keyed.ids);
    if KeyOf(t) in ids { assert ids[KeyOf(t) := ids[KeyOf(t)]] == ids; }
  }

  /** One entity's turn: its record resolved or not, its own buffer settled, its
      requests at the end of the shared log, the cache as it leaves it. */
  method TakeTurn(buf: Buffer, keyed: Keyed, registry: Registry, api: PublishApi, c: Shared, t: Samples.Target,
                  n: Totals)
    returns (n': Totals, ghost turn: Turn)
    requires buf.Valid() && OnlyMetrics(buf.Value()) && !keyed.dryRun
    modifies buf, keyed, registry, api
    ensures buf.Valid() && turn.t == t && n' == Counted(n, turn.attempt)
    ensures Settled(c, t, old(buf.Value()), turn.attempt, buf.Value())
    ensures Remembers(registry.script, turn) && turn.before == old(keyed.ids) && turn.after == keyed.ids
    ensures turn.from == old(registry.clock) && turn.to == registry.clock
    ensures api.updates == old(api.updates) + UpdatesOf(turn.attempt)
    ensures api.ingests == old(api.ingests) + IngestsOf(turn.attempt)
  {
    hide SnapshotOf, Acked, Published, OthersKept, AllTo, OnlyMetrics, Resolves, EmptyBatch;
    ghost var ids, from := keyed.ids, registry.clock;
    n' := n;
    var batch := buf.Snapshot();
    if EmptyBatch(batch) {
      turn := Turn(t, NothingToSend, Failed, from, from, ids, ids);
      return;
    }
    var ending;
    ghost var located;
    ending, located := Locate(keyed, registry, t);
    if ending.Failed? {
      n' := n.(failed := n.failed + 1);
      turn := located;
      return;
    }
    var res, error;
    ghost var a;
    res, error, a := SendBuffer(buf, api, c, t, ending.r.id.value, batch);
    n' := Plus(n, res);
    if error.None? {
      n' := n'.(entities := n'.entities + 1);
    } else {
      if error == Some(EntityGone) {
        keyed.Forget(t.template, t.key);
      }
      n' := n'.(failed := n'.failed + 1);
    }
    turn := located.(attempt := a, after := keyed.ids);
    TurnRemembers(registry.script, located, turn);
  }

  /** One entity's publish among all the buffers: no other buffer is touched. */
  method PublishEntity(bufs: Buffers, keyed: Keyed, registry: Registry, api: PublishApi, c: Shared, t: Samples.Target,
                       n: Totals)
    returns (n': Totals, ghost turn: Turn)
    requires bufs.Valid() && t in bufs.targets && OnlyMetrics(bufs.targets[t].Value()) && !keyed.dryRun
    modifies bufs.targets[t], keyed, registry, api
    ensures bufs.Valid() && turn.t == t && n' == Counted(n, turn.attempt)
    ensures bufs.Value() == old(bufs.Value()).(targets := old(bufs.Value()).targets[t := bufs.targets[t].Value()])
    ensures Settled(c, t, old(bufs.targets[t].Value()), turn.attempt, bufs.targets[t].Value())
    ensures Remembers(registry.script, turn) && turn.before == old(keyed.ids) && turn.after == keyed.ids
    ensures turn.from == old(registry.clock) && turn.to == registry.clock
    ensures api.updates == old(api.updates) + UpdatesOf(turn.attempt)
    ensures api.ingests == old(api.ingests) + IngestsOf(turn.attempt)
  {
    hide Settled, Remembers, OnlyMetrics;
    var buf := bufs.targets[t];
    assert buf in bufs.targets.Values;
    assert buf.Valid() by { BoundPositive(bufs.limit); }
    n', turn := TakeTurn(buf, keyed, registry, api, c, t, n);
    assert forall u :: u in bufs.targets && u != t ==> bufs.targets[u].Value() == old(bufs.targets[u].Value());
    assert bufs.Value().targets == old(bufs.Value()).targets[t := buf.Value()];
  }

  // ------------------------------------------------------------- the loop

  lemma ChainOne(script: nat -> Answer, ids: map<string, Id>, from: nat, turns: seq<Turn>, turn: Turn)
    requires Chained(script, ids, from, turns) && Remembers(script, turn)
    requires turn.before == IdsAfter(ids, turns) && turn.from == ClockAfter(from, turns)
    ensures Chained(script, ids, from, turns + [turn])
    ensures IdsAfter(ids, turns + [turn]) == turn.after && ClockAfter(from, turns + [turn]) == turn.to
  {
    hide Remembers;
    var all := turns + [turn];
    forall i | 0 <= i < |all|
      ensures Remembers(script, all[i])
      ensures all[i].before == IdsAfter(ids, all[..i]) && all[i].from == ClockAfter(from, all[..i])
    {
      if i < |turns| {
        assert all[i] == turns[i] && all[..i] == turns[..i];
      } else {
        assert all[..i] == turns;
      }
    }
  }

  lemma SettleOne(c: Shared, b: Many, turns: seq<Turn>, now: Many, turn: Turn, s: State)
    requires SettledEach(c, b, turns, now) && turn.t in b.targets
    requires forall i :: 0 <= i < |turns| ==> turns[i].t != turn.t
    requires Settled(c, turn.t, b.targets[turn.t], turn.attempt, s)
    ensures SettledEach(c, b, turns + [turn], now.(targets := now.targets[turn.t := s]))
  {
    hide Settled;
    var all, next := turns + [turn], now.(targets := now.targets[turn.t := s]);
    forall i | 0 <= i < |all|
      ensures all[i].t in b.targets
      ensures Settled(c, all[i].t, b.targets[all[i].t], all[i].attempt, next.targets[all[i].t])
    {
      if i < |turns| { assert all[i] == turns[i]; }
    }
    forall t | t in b.targets && (forall i :: 0 <= i < |all| ==> all[i].t != t)
      ensures next.targets[t] == b.targets[t]
    {
      assert all[|turns|].t != t;
      forall i | 0 <= i < |turns| ensures turns[i].t != t { assert all[i].t != t; }
    }
  }

  /** The loop after some turns. */
  ghost predicate Ongoing(st: Start, host: Attempt, turns: seq<Turn>, now: Many, ids: map<string, Id>, clock: nat,
                          n: Totals)
  {
    && SettledEach(st.c, st.b, turns, now) && Chained(st.script, st.ids, st.from, turns)
    && ids == IdsAfter(st.ids, turns) && clock == ClockAfter(st.from, turns) && n == TotalOf(host, turns)
  }

  lemma OneMore(st: Start, host: Attempt, turns: seq<Turn>, now: Many, ids: map<string, Id>, clock: nat, n: Totals,
                turn: Turn, s: State)
    requires Ongoing(st, host, turns, now, ids, clock, n)
    requires turn.t in st.b.targets && forall i :: 0 <= i < |turns| ==> turns[i].t != turn.t
    requires Remembers(st.script, turn) && turn.before == ids && turn.from == clock
    requires Settled(st.c, turn.t, st.b.targets[turn.t], turn.attempt, s)
    ensures Ongoing(st, host, turns + [turn], now.(targets := now.targets[turn.t := s]), turn.after, turn.to,
                    Counted(n, turn.attempt))
    ensures TurnUpdates(turns + [turn]) == TurnUpdates(turns) + UpdatesOf(turn.attempt)
    ensures TurnIngests(turns + [turn]) == TurnIngests(turns) + IngestsOf(turn.attempt)
  {
    hide Remembers, Settled, SettledEach, Chained;
    ChainOne(st.script, st.ids, st.from, turns, turn);
    SettleOne(st.c, st.b, turns, now, turn, s);
    assert (turns + [turn])[..|turns|] == turns;
  }

  lemma NoTurns(st: Start, host: Attempt, now: Many)
    requires now == st.b.(host := now.host)
    ensures Ongoing(st, host, [], now, st.ids, st.from, TotalOf(host, []))
    ensures TurnUpdates([]) == [] && TurnIngests([]) == []
  {
  }

  lemma TargetsListed(ts: seq<Samples.Target>, keys: set<Samples.Target>)
    requires multiset(ts) == multiset(keys)
    ensures forall t :: t in keys <==> t in ts
    ensures forall i, j :: 0 <= i < j < |ts| ==> ts[i] != ts[j]
  {
    assert forall t :: t in ts <==> t in multiset(ts);
    forall i, j | 0 <= i < j < |ts| ensures ts[i] != ts[j] {
      var rest := ts[..i] + ts[i + 1..j] + ts[j + 1..];
      assert ts == ts[..i] + [ts[i]] + ts[i + 1..j] + [ts[j]] + ts[j + 1..];
      assert multiset(ts) == multiset(rest) + multiset{ts[i], ts[j]};
      assert multiset(keys)[ts[i]] <= 1;
    }
  }

  lemma NoneTaken(ts: seq<Samples.Target>)
    ensures TurnsOf([], ts[..0])
  {
  }

  lemma TurnsOneMore(turns: seq<Turn>, ts: seq<Samples.Target>, i: nat, turn: Turn)
    requires i < |ts| && TurnsOf(turns, ts[..i]) && turn.t == ts[i]
    ensures TurnsOf(turns + [turn], ts[..i + 1])
  {
  }

  /** An entity whose turn has not come has its buffer as it was. */
  lemma StillAsBefore(st: Start, host: Attempt, turns: seq<Turn>, now: Many, ids: map<string, Id>, clock: nat,
                      n: Totals, ts: seq<Samples.Target>, i: nat)
    requires Ongoing(st, host, turns, now, ids, clock, n) && AllOnlyMetrics(st.b)
    requires i < |ts| && TurnsOf(turns, ts[..i]) && ts[i] in now.targets
    requires forall j, k :: 0 <= j < k < |ts| ==> ts[j] != ts[k]
    ensures ts[i] in st.b.targets && now.targets[ts[i]] == st.b.targets[ts[i]] && OnlyMetrics(st.b.targets[ts[i]])
    ensures forall j :: 0 <= j < |turns| ==> turns[j].t != ts[i]
  {
    hide Settled, OnlyMetrics, Chained, TotalOf;
    forall j | 0 <= j < |turns| ensures turns[j].t != ts[i] { assert ts[..i][j] == ts[j]; }
  }

  /** The next entity's turn. */
  method PublishNext(bufs: Buffers, keyed: Keyed, registry: Registry, api: PublishApi, c: Shared,
                     order: seq<Samples.Target>, i: nat, n: Totals, ghost st: Start, ghost host: Attempt,
                     ghost turns: seq<Turn>)
    returns (n': Totals, ghost turn: Turn)
    requires bufs.Valid() && !keyed.dryRun && AllOnlyMetrics(st.b) && st.script == registry.script && st.c == c
    requires i < |order| && order[i] in bufs.targets && forall j, k :: 0 <= j < k < |order| ==> order[j] != order[k]
    requires TurnsOf(turns, order[..i])
    requires Ongoing(st, host, turns, bufs.Value(), keyed.ids, registry.clock, n)
    modifies bufs.targets[order[i]], keyed, registry, api
    ensures bufs.Valid() && bufs.Value().host == old(bufs.Value().host) && turn.t == order[i]
    ensures Ongoing(st, host, turns + [turn], bufs.Value(), keyed.ids, registry.clock, n')
    ensures TurnUpdates(turns + [turn]) == TurnUpdates(turns) + UpdatesOf(turn.attempt)
    ensures TurnIngests(turns + [turn]) == TurnIngests(turns) + IngestsOf(turn.attempt)
    ensures api.updates == old(api.updates) + UpdatesOf(turn.attempt)
    ensures api.ingests == old(api.ingests) + IngestsOf(turn.attempt)
  {
    hide Ongoing, Settled, Remembers, TurnUpdates, TurnIngests, OnlyMetrics, AllOnlyMetrics, TurnsOf, Counted;
    var t := order[i];
    ghost var now, ids, clock := bufs.Value(), keyed.ids, registry.clock;
    StillAsBefore(st, host, turns, now, ids, clock, n, order, i);
    n', turn := PublishEntity(bufs, keyed, registry, api, c, t, n);
    OneMore(st, host, turns, now, ids, clock, n, turn, bufs.targets[t].Value());
  }

  /** Each entity in order, whatever the others come to. */
  method PublishEach(bufs: Buffers, keyed: Keyed, registry: Registry, api: PublishApi, c: Shared, n: Totals,
                     ghost st: Start, ghost host: Attempt)
    returns (n': Totals, ghost turns: seq<Turn>, ghost ts: seq<Samples.Target>)
    requires bufs.Valid() && !keyed.dryRun && AllOnlyMetrics(st.b) && st.script == registry.script && st.c == c
    requires bufs.Value().targets.Keys == st.b.targets.Keys
    requires Ongoing(st, host, [], bufs.Value(), keyed.ids, registry.clock, n)
    requires TurnUpdates([]) == [] && TurnIngests([]) == []
    modifies bufs.targets.Values, keyed, registry, api
    ensures bufs.Valid() && bufs.Value().host == old(bufs.Value().host)
    ensures Ongoing(st, host, turns, bufs.Value(), keyed.ids, registry.clock, n')
    ensures api.updates == old(api.updates) + TurnUpdates(turns) && api.ingests == old(api.ingests) + TurnIngests(turns)
    ensures TurnsOf(turns, ts) && multiset(ts) == multiset(st.b.targets.Keys) && SortedBy(ts, TargetLe)
  {
    hide Ongoing, TurnUpdates, TurnIngests, SortedBy, AllOnlyMetrics, TurnsOf;
    n', turns := n, [];
    var order := bufs.Targets();
    ts := order;
    TargetsListed(ts, bufs.targets.Keys);
    NoneTaken(ts);
    for i := 0 to |order|
      invariant bufs.Valid() && bufs.targets == old(bufs.targets) && bufs.Value().host == old(bufs.Value().host)
      invariant TurnsOf(turns, ts[..i]) && Ongoing(st, host, turns, bufs.Value(), keyed.ids, registry.clock, n')
      invariant api.updates == old(api.updates) + TurnUpdates(turns)
      invariant api.ingests == old(api.ingests) + TurnIngests(turns)
    {
      assert order[i] in bufs.targets && bufs.targets[order[i]] in bufs.targets.Values;
      ghost var turn;
      n', turn := PublishNext(bufs, keyed, registry, api, c, order, i, n', st, host, turns);
      TurnsOneMore(turns, ts, i, turn);
      turns := turns + [turn];
    }
    assert ts[..|ts|] == ts;
  }

  lemma HostAlone(st: Start, host: Attempt, now: Many)
    requires HostSettled(st.c, st.b.host, host, now.host) && Gone(host) && now == st.b.(host := now.host)
    ensures Performed(st, host, [], now, st.ids)
  {
    hide Settled;
    var ts: seq<Samples.Target> := [];
    assert TurnsOf([], ts) && TurnOrder(st.b, host, ts);
  }

  lemma Finished(st: Start, host: Attempt, turns: seq<Turn>, now: Many, ids: map<string, Id>, clock: nat, n: Totals,
                 ts: seq<Samples.Target>)
    requires Ongoing(st, host, turns, now, ids, clock, n)
    requires HostSettled(st.c, st.b.host, host, now.host) && !Gone(host)
    requires TurnsOf(turns, ts) && multiset(ts) == multiset(st.b.targets.Keys) && SortedBy(ts, TargetLe)
    ensures Performed(st, host, turns, now, ids) && n == TotalOf(host, turns)
  {
    hide SettledEach, Chained, HostSettled, SortedBy;
    assert TurnOrder(st.b, host, ts);
  }

  /** Publishes the host, then each entity in order. Only a host that is gone ends
      the run early, and the error is the host's. An entity that fails keeps its
      buffer but for what was settled; one that is gone is forgotten. */
  method PublishAll(bufs: Buffers, keyed: Keyed, registry: Registry, api: PublishApi, c: Shared)
    returns (total: Totals, hostError: Option<Failure>, ghost host: Attempt, ghost turns: seq<Turn>)
    requires bufs.Valid() && !keyed.dryRun && AllOnlyMetrics(bufs.Value())
    modifies bufs.host, bufs.targets.Values, keyed, registry, api
    ensures bufs.Valid()
    ensures Performed(Start(c, registry.script, old(bufs.Value()), old(keyed.ids), old(registry.clock)), host, turns,
                      bufs.Value(), keyed.ids)
    ensures total == TotalOf(host, turns) && hostError == ErrorOf(host)
    ensures api.updates == old(api.updates) + (UpdatesOf(host) + TurnUpdates(turns))
    ensures api.ingests == old(api.ingests) + (IngestsOf(host) + TurnIngests(turns))
  {
    hide Settled, HostSettled, Ongoing, Performed, TurnUpdates, TurnIngests, OnlyMetrics, SortedBy;
    ghost var st := Start(c, registry.script, bufs.Value(), keyed.ids, registry.clock);
    turns := [];
    total, hostError, host := PublishHost(bufs, api, c);
    NoTurns(st, host, bufs.Value());
    if hostError == Some(EntityGone) {
      HostAlone(st, host, bufs.Value());
      return;
    }
    ghost var ts;
    total, turns, ts := PublishEach(bufs, keyed, registry, api, c, total, st, host);
    Finished(st, host, turns, bufs.Value(), keyed.ids, registry.clock, total, ts);
  }
}
