/** What one entity's failure costs the others: nothing. Each has its own buffer, its
    own requests and its own place in the shared cache, so two publishes that differ
    in one entity alone agree on all the rest. */
module EntitiesTheorems {
  import opened Schema
  import opened Samples
  import opened Buffer
  import opened Buffers
  import opened Publish
  import opened PublishReplies
  import opened Identity
  import opened IdentityApi
  import opened Entities

  // ------------------------------------------------------------ the queues

  lemma AddedOnlyMetrics(b: State, s: Sample)
    requires OnlyMetrics(b)
    ensures OnlyMetrics(Added(b, s))
  {
    var b' := Added(b, s);
    forall slug, x | slug in b'.metrics && x in b'.metrics[slug].items ensures x.IsMetric() {
      if slug == s.slug && s.IsMetric() {
        if x != s { assert x in QueueOf(b, slug).items; }
      } else {
        assert b'.metrics[slug] == b.metrics[slug];
      }
    }
  }

  /** Whatever is collected, the buffers are such that a publish may begin. */
  lemma {:induction false} CollectedOnlyMetrics(max: nat, samples: seq<Sample>)
    ensures AllOnlyMetrics(RoutedAll(EmptyMany(max), samples))
  {
    hide OnlyMetrics, Added;
    FreshOnlyMetrics(max);
    if samples != [] {
      var n := |samples| - 1;
      var b, s := RoutedAll(EmptyMany(max), samples[..n]), samples[n];
      CollectedOnlyMetrics(max, samples[..n]);
      AddedOnlyMetrics(b.host, s);
      FreshOnlyMetrics(b.max);
      AddedOnlyMetrics(Fresh(b.max), s);
      if s.target in b.targets { AddedOnlyMetrics(b.targets[s.target], s); }
    }
  }

  lemma FreshOnlyMetrics(max: nat)
    ensures OnlyMetrics(Fresh(max))
  {
  }

  /** And they are such again when it is over. */
  lemma PublishedOnlyMetrics(st: Start, host: Attempt, turns: seq<Turn>, after: Many, ids: map<string, Id>)
    requires Performed(st, host, turns, after, ids) && AllOnlyMetrics(st.b)
    ensures AllOnlyMetrics(after)
  {
    hide OnlyMetrics, Settled, Chained;
    SettledOnlyMetrics(st.c, HOST, st.b.host, host, after.host);
    forall t | t in after.targets ensures OnlyMetrics(after.targets[t]) {
      if i :| 0 <= i < |turns| && turns[i].t == t {
        SettledOnlyMetrics(st.c, t, st.b.targets[t], turns[i].attempt, after.targets[t]);
      }
    }
  }

  // ------------------------------------------------------- the shared cache

  /** Both remember the same at k. */
  ghost predicate SameAt(ids: map<string, Id>, ids': map<string, Id>, k: string) {
    (k in ids <==> k in ids') && (k in ids ==> ids[k] == ids'[k])
  }

  /** No two entities share a place in the cache. */
  ghost predicate OwnPlaces(ts: set<Samples.Target>) {
    forall u, v :: u in ts && v in ts && KeyOf(u) == KeyOf(v) ==> u == v
  }

  /** That is so exactly when no two modules feed one template and key, as resolution
      sees to by refusing an entity template that two modules declare. */
  lemma OwnPlacesExactly(ts: set<Samples.Target>)
    requires forall u :: u in ts ==> '\0' !in u.template
    ensures OwnPlaces(ts) <==>
            forall u, v :: u in ts && v in ts && u.template == v.template && u.key == v.key ==> u.owner == v.owner
  {
    hide CacheKey;
    forall u, v | u in ts && v in ts && KeyOf(u) == KeyOf(v) ensures u.template == v.template && u.key == v.key {
      CacheKeysDiffer(u.template, u.key, v.template, v.key);
    }
  }

  /** A turn changes the cache at its own entity's place alone. */
  lemma TurnKeepsOthers(script: nat -> Answer, turn: Turn, k: string)
    requires Remembers(script, turn) && KeyOf(turn.t) != k
    ensures SameAt(turn.before, turn.after, k)
  {
    hide Resolves, CacheKey;
  }

  lemma {:induction false} OthersKeep(script: nat -> Answer, ids: map<string, Id>, from: nat, turns: seq<Turn>,
                                      k: string)
    requires Chained(script, ids, from, turns) && forall i :: 0 <= i < |turns| ==> KeyOf(turns[i].t) != k
    ensures SameAt(ids, IdsAfter(ids, turns), k)
  {
    hide Remembers, KeyOf;
    if turns != [] {
      var n := |turns| - 1;
      ChainedInit(script, ids, from, turns, n);
      OthersKeep(script, ids, from, turns[..n], k);
      TurnKeepsOthers(script, turns[n], k);
    }
  }

  lemma ChainedInit(script: nat -> Answer, ids: map<string, Id>, from: nat, turns: seq<Turn>, n: nat)
    requires Chained(script, ids, from, turns) && n <= |turns|
    ensures Chained(script, ids, from, turns[..n])
  {
    hide Remembers;
    forall i | 0 <= i < n
      ensures Remembers(script, turns[..n][i])
      ensures turns[..n][i].before == IdsAfter(ids, turns[..n][..i])
      ensures turns[..n][i].from == ClockAfter(from, turns[..n][..i])
    {
      assert turns[..n][i] == turns[i] && turns[..n][..i] == turns[..i];
    }
  }

  lemma ChainedRest(script: nat -> Answer, ids: map<string, Id>, from: nat, turns: seq<Turn>, n: nat)
    requires Chained(script, ids, from, turns) && n <= |turns|
    ensures Chained(script, IdsAfter(ids, turns[..n]), ClockAfter(from, turns[..n]), turns[n..])
    ensures IdsAfter(IdsAfter(ids, turns[..n]), turns[n..]) == IdsAfter(ids, turns)
  {
    hide Remembers;
    var ids', from', rest := IdsAfter(ids, turns[..n]), ClockAfter(from, turns[..n]), turns[n..];
    forall i | 0 <= i < |rest|
      ensures Remembers(script, rest[i])
      ensures rest[i].before == IdsAfter(ids', rest[..i]) && rest[i].from == ClockAfter(from', rest[..i])
    {
      assert rest[i] == turns[n + i];
      AfterBoth(ids, from, turns, n, i);
    }
    AfterBoth(ids, from, turns, n, |rest|);
    assert rest[..|rest|] == rest && turns[..n + |rest|] == turns;
  }

  lemma AfterBoth(ids: map<string, Id>, from: nat, turns: seq<Turn>, n: nat, i: nat)
    requires n + i <= |turns|
    ensures IdsAfter(IdsAfter(ids, turns[..n]), turns[n..][..i]) == IdsAfter(ids, turns[..n + i])
    ensures ClockAfter(ClockAfter(from, turns[..n]), turns[n..][..i]) == ClockAfter(from, turns[..n + i])
  {
    if i > 0 {
      assert turns[n..][..i][i - 1] == turns[..n + i][n + i - 1];
    } else {
      assert turns[..n + i] == turns[..n];
    }
  }

  /** Each entity's turn in a publish. */
  ghost predicate Separate(turns: seq<Turn>) {
    forall i, j :: 0 <= i < j < |turns| ==> KeyOf(turns[i].t) != KeyOf(turns[j].t)
  }

  /** What a turn finds in its own place was there at the start, and what it leaves
      there stays: an entity that was written to is remembered by its id, one that is
      gone is looked up again by the next publish, whatever came of the others. */
  lemma MemoryIsOwn(script: nat -> Answer, ids: map<string, Id>, from: nat, turns: seq<Turn>, i: nat)
    requires Chained(script, ids, from, turns) && Separate(turns) && i < |turns|
    ensures var turn, k := turns[i], KeyOf(turns[i].t);
            && SameAt(ids, turn.before, k) && SameAt(turn.after, IdsAfter(ids, turns), k)
            && (Gone(turn.attempt) ==> k !in IdsAfter(ids, turns))
            && (turn.attempt.Sent? && !Gone(turn.attempt) ==>
                  k in IdsAfter(ids, turns) && IdsAfter(ids, turns)[k] == turn.attempt.id)
  {
    hide KeyOf;
    var k := KeyOf(turns[i].t);
    ChainedInit(script, ids, from, turns, i);
    OthersKeep(script, ids, from, turns[..i], k);
    ChainedRest(script, ids, from, turns, i + 1);
    OthersKeep(script, IdsAfter(ids, turns[..i + 1]), ClockAfter(from, turns[..i + 1]), turns[i + 1..], k);
    assert turns[..i + 1][i] == turns[i];
    assert Remembers(script, turns[i]);
    hide Resolves;
  }

  // ---------------------------------------------------------- turns alike

  function AnswerAt(script: nat -> Answer, from: nat, k: nat): Answer { script(from + k) }

  /** The first n answers are the same. */
  ghost predicate SameAnswers(script: nat -> Answer, from: nat, script': nat -> Answer, from': nat, n: int) {
    forall k :: 0 <= k < n ==> AnswerAt(script, from, k) == AnswerAt(script', from', k)
  }

  function BothAsked(x: Turn, y: Turn): int {
    if x.to - x.from <= y.to - y.from then x.to - x.from else y.to - y.from
  }

  /** As far as both asked, the registry and the API answered alike. */
  ghost predicate AnsweredAlike(script: nat -> Answer, script': nat -> Answer, x: Turn, y: Turn) {
    SameAnswers(script, x.from, script', y.from, BothAsked(x, y)) && RepliedAlike(x.attempt, y.attempt)
  }

  ghost predicate RepliedAlike(a: Attempt, a': Attempt) {
    a.Sent? && a'.Sent? ==> SameReplies(a.us, a'.us) && SameReplies(a.ins, a'.ins)
  }

  /** The same outcome: nothing to send, no record, or the same requests to the same
      record with the same error. */
  predicate SameOutcome(a: Attempt, a': Attempt) {
    && (a.NothingToSend? <==> a'.NothingToSend?) && (a.Unresolved? <==> a'.Unresolved?)
    && (a.Sent? && a'.Sent? ==> a.id == a'.id && a.us == a'.us && a.ins == a'.ins && a.error == a'.error)
  }

  lemma {:induction false} RunsAlike(c: Config, script: nat -> Answer, script': nat -> Answer, from: nat, from': nat,
                                     n: nat)
    requires SameAnswers(script, from, script', from', n)
    ensures Run(c, LookingUp, script, from, n) == Run(c, LookingUp, script', from', n)
  {
    hide Next;
    if n > 0 {
      RunsAlike(c, script, script', from, from', n - 1);
      assert AnswerAt(script, from, n - 1) == AnswerAt(script', from', n - 1);
    }
  }

  lemma NothingAfterTheEnd(c: Config, pc: Pc, a: Answer)
    requires pc.Ended?
    ensures Next(c, pc, a) == pc
  {
  }

  lemma {:induction false} EndedStays(c: Config, script: nat -> Answer, from: nat, m: nat, n: nat)
    requires m <= n && Run(c, LookingUp, script, from, m).Ended?
    ensures Run(c, LookingUp, script, from, n) == Run(c, LookingUp, script, from, m)
  {
    hide Next;
    if m < n {
      EndedStays(c, script, from, m, n - 1);
      NothingAfterTheEnd(c, Run(c, LookingUp, script, from, m), script(from + n - 1));
    }
  }

  lemma ResolvedAlike(script: nat -> Answer, script': nat -> Answer, x: Turn, y: Turn)
    requires Resolves(script, x) && Resolves(script', y) && x.t == y.t && SameAt(x.before, y.before, KeyOf(x.t))
    requires SameAnswers(script, x.from, script', y.from, BothAsked(x, y))
    ensures x.ending == y.ending
  {
    hide CacheKey, Next;
    if KeyOf(x.t) !in x.before {
      var c, m, n := ConfigOf(x.t), x.to - x.from, y.to - y.from;
      if m <= n {
        RunsAlike(c, script, script', x.from, y.from, m);
        EndedStays(c, script', y.from, m, n);
      } else {
        RunsAlike(c, script, script', x.from, y.from, n);
        EndedStays(c, script, x.from, n, m);
      }
    }
  }

  lemma SentAlike(c: Shared, t: Samples.Target, b: State, a: Attempt, a': Attempt, after: State, after': State)
    requires Settled(c, t, b, a, after) && Settled(c, t, b, a', after') && a.Sent? && a'.Sent? && a.id == a'.id
    requires RepliedAlike(a, a')
    ensures SameOutcome(a, a') && after == after'
  {
    hide SnapshotOf, Published, Acked, SameReplies, AllTo, CountOf;
    var batch := SnapshotOf(b);
    PublishedDecided(batch, c.items, LinkOf(c, t), a.id, a.us, a.ins, a.res, a.error, a'.us, a'.ins, a'.res, a'.error);
    AckedAlike(b, batch, a.res.ack, a'.res.ack);
  }

  /** Two turns of one entity, from the same buffer and the same memory of it, come to
      the same as far as they are answered alike. */
  lemma TurnsAlike(c: Shared, script: nat -> Answer, script': nat -> Answer, b: State, x: Turn, y: Turn, after: State,
                   after': State)
    requires x.t == y.t && Remembers(script, x) && Remembers(script', y) && SameAt(x.before, y.before, KeyOf(x.t))
    requires Settled(c, x.t, b, x.attempt, after) && Settled(c, x.t, b, y.attempt, after')
    requires AnsweredAlike(script, script', x, y)
    ensures SameOutcome(x.attempt, y.attempt) && after == after' && SameAt(x.after, y.after, KeyOf(x.t))
  {
    hide Resolves, CacheKey, Published, Acked, SnapshotOf, SameReplies, AllTo;
    if !x.attempt.NothingToSend? {
      ResolvedAlike(script, script', x, y);
      if x.attempt.Sent? { SentAlike(c, x.t, b, x.attempt, y.attempt, after, after'); }
    }
  }

  lemma HostAlike(c: Shared, b: State, host: Attempt, host': Attempt, after: State, after': State)
    requires HostSettled(c, b, host, after) && HostSettled(c, b, host', after') && RepliedAlike(host, host')
    ensures SameOutcome(host, host') && after == after' && (Gone(host) <==> Gone(host'))
  {
    hide Published, Acked, SnapshotOf, RepliedAlike;
    if host.Sent? { SentAlike(c, HOST, b, host, host', after, after'); }
  }

  // ------------------------------------------------------------- isolation

  /** Every entity with a buffer has one turn, unless the host is gone. */
  lemma TurnOf(st: Start, host: Attempt, turns: seq<Turn>, after: Many, ids: map<string, Id>, t: Samples.Target)
    returns (i: nat)
    requires Performed(st, host, turns, after, ids) && !Gone(host) && t in st.b.targets
    ensures i < |turns| && turns[i].t == t
  {
    hide Settled, Chained, HostSettled;
    var ts :| TurnsOf(turns, ts) && TurnOrder(st.b, host, ts);
    TargetsListed(ts, st.b.targets.Keys);
    var j :| 0 <= j < |ts| && ts[j] == t;
    i := j;
  }

  lemma TurnsSeparate(st: Start, host: Attempt, turns: seq<Turn>, after: Many, ids: map<string, Id>)
    requires Performed(st, host, turns, after, ids) && OwnPlaces(st.b.targets.Keys)
    ensures Separate(turns)
  {
    hide Settled, Chained, HostSettled, KeyOf;
    var ts :| TurnsOf(turns, ts) && TurnOrder(st.b, host, ts);
    if !Gone(host) { TargetsListed(ts, st.b.targets.Keys); }
  }

  /** Two publishes alike but for the entity t. */
  ghost predicate AlikeBut(st: Start, st': Start, t: Samples.Target) {
    && st.c == st'.c && st.b.host == st'.b.host && st.b.targets - {t} == st'.b.targets - {t}
    && OwnPlaces(st.b.targets.Keys) && OwnPlaces(st'.b.targets.Keys)
    && forall u :: u in st.b.targets && u != t ==> SameAt(st.ids, st'.ids, KeyOf(u))
  }

  /** All but t's questions were answered alike. */
  ghost predicate AnswersAlikeBut(st: Start, st': Start, host: Attempt, host': Attempt, turns: seq<Turn>,
                                  turns': seq<Turn>, t: Samples.Target) {
    && RepliedAlike(host, host')
    && forall i, j :: 0 <= i < |turns| && 0 <= j < |turns'| && turns[i].t == turns'[j].t != t ==>
         AnsweredAlike(st.script, st'.script, turns[i], turns'[j])
  }

  lemma BothTurns(st: Start, st': Start, host: Attempt, host': Attempt, turns: seq<Turn>, turns': seq<Turn>,
                  after: Many, after': Many, ids: map<string, Id>, ids': map<string, Id>, i: nat, j: nat)
    requires Performed(st, host, turns, after, ids) && Performed(st', host', turns', after', ids')
    requires OwnPlaces(st.b.targets.Keys) && OwnPlaces(st'.b.targets.Keys) && st.c == st'.c
    requires i < |turns| && j < |turns'| && turns[i].t == turns'[j].t
    requires turns[i].t in st.b.targets && turns[i].t in st'.b.targets
    requires st.b.targets[turns[i].t] == st'.b.targets[turns[i].t] && SameAt(st.ids, st'.ids, KeyOf(turns[i].t))
    requires AnsweredAlike(st.script, st'.script, turns[i], turns'[j])
    ensures var u := turns[i].t;
            && SameOutcome(turns[i].attempt, turns'[j].attempt)
            && u in after.targets && u in after'.targets && after.targets[u] == after'.targets[u]
            && SameAt(ids, ids', KeyOf(u))
  {
    hide Settled, HostSettled, Remembers, AnsweredAlike, SameOutcome, KeyOf, OwnPlaces, Separate, Chained;
    TurnsSeparate(st, host, turns, after, ids);
    TurnsSeparate(st', host', turns', after', ids');
    MemoryIsOwn(st.script, st.ids, st.from, turns, i);
    MemoryIsOwn(st'.script, st'.ids, st'.from, turns', j);
    RemembersAt(st.script, st.ids, st.from, turns, i);
    RemembersAt(st'.script, st'.ids, st'.from, turns', j);
    TurnsAlike(st.c, st.script, st'.script, st.b.targets[turns[i].t], turns[i], turns'[j], after.targets[turns[i].t],
               after'.targets[turns[i].t]);
  }

  lemma RemembersAt(script: nat -> Answer, ids: map<string, Id>, from: nat, turns: seq<Turn>, i: nat)
    requires Chained(script, ids, from, turns) && i < |turns|
    ensures Remembers(script, turns[i])
  {
    hide Remembers;
  }

  lemma SameBuffers(b: map<Samples.Target, State>, b': map<Samples.Target, State>, t: Samples.Target)
    requires b - {t} == b' - {t}
    ensures forall u :: u != t ==> (u in b <==> u in b')
    ensures forall u :: u in b && u != t ==> u in b' && b[u] == b'[u]
  {
    forall u | u != t ensures u in b <==> u in b' {
      assert u in b <==> u in b - {t};
      assert u in b' <==> u in b' - {t};
    }
    forall u | u in b && u != t ensures u in b' && b[u] == b'[u] {
      assert (b - {t})[u] == b[u];
      assert (b' - {t})[u] == b'[u];
    }
  }

  /** A failure of one entity costs only that entity. Take t away, let its record be
      lost, its requests fail or its turn end in any other way: as long as the others
      are answered as before, each of them sends the same requests to the same record,
      meets the same error, keeps the same buffer and is remembered alike, and the
      host's outcome is the same. */
  lemma EntitiesAreIsolated(st: Start, st': Start, host: Attempt, host': Attempt, turns: seq<Turn>, turns': seq<Turn>,
                            after: Many, after': Many, ids: map<string, Id>, ids': map<string, Id>, t: Samples.Target)
    requires Performed(st, host, turns, after, ids) && Performed(st', host', turns', after', ids')
    requires AlikeBut(st, st', t) && AnswersAlikeBut(st, st', host, host', turns, turns', t)
    ensures after.host == after'.host && SameOutcome(host, host')
    ensures forall u :: u in st.b.targets && u != t ==>
              && u in after.targets && u in after'.targets && after.targets[u] == after'.targets[u]
              && SameAt(ids, ids', KeyOf(u))
    ensures forall i, j :: 0 <= i < |turns| && 0 <= j < |turns'| && turns[i].t == turns'[j].t != t ==>
              SameOutcome(turns[i].attempt, turns'[j].attempt)
  {
    hide Settled, Chained, KeyOf, OwnPlaces, AnsweredAlike, RepliedAlike, SameOutcome, HostSettled, SameAt, Performed;
    HostsOf(st, host, turns, after, ids);
    HostsOf(st', host', turns', after', ids');
    HostAlike(st.c, st.b.host, host, host', after.host, after'.host);
    SameBuffers(st.b.targets, st'.b.targets, t);
    forall i, j | 0 <= i < |turns| && 0 <= j < |turns'| && turns[i].t == turns'[j].t != t
      ensures SameOutcome(turns[i].attempt, turns'[j].attempt)
    {
      TurnHasBuffer(st, host, turns, after, ids, i);
      BothTurns(st, st', host, host', turns, turns', after, after', ids, ids', i, j);
    }
    forall u | u in st.b.targets && u != t
      ensures u in after.targets && u in after'.targets && after.targets[u] == after'.targets[u]
      ensures SameAt(ids, ids', KeyOf(u))
    {
      if Gone(host) {
        NobodyElse(st, host, turns, after, ids);
        NobodyElse(st', host', turns', after', ids');
      } else {
        var i := TurnOf(st, host, turns, after, ids, u);
        var j := TurnOf(st', host', turns', after', ids', u);
        BothTurns(st, st', host, host', turns, turns', after, after', ids, ids', i, j);
      }
    }
  }

  lemma HostsOf(st: Start, host: Attempt, turns: seq<Turn>, after: Many, ids: map<string, Id>)
    requires Performed(st, host, turns, after, ids)
    ensures HostSettled(st.c, st.b.host, host, after.host)
  {
    hide HostSettled, SettledEach, Chained, TurnsOf, TurnOrder;
  }

  lemma TurnHasBuffer(st: Start, host: Attempt, turns: seq<Turn>, after: Many, ids: map<string, Id>, i: nat)
    requires Performed(st, host, turns, after, ids) && i < |turns|
    ensures turns[i].t in st.b.targets
  {
    hide HostSettled, Settled, Chained, TurnsOf, TurnOrder;
  }

  lemma NobodyElse(st: Start, host: Attempt, turns: seq<Turn>, after: Many, ids: map<string, Id>)
    requires Performed(st, host, turns, after, ids) && Gone(host)
    ensures turns == [] && ids == st.ids
    ensures after.targets.Keys == st.b.targets.Keys
    ensures forall u :: u in st.b.targets ==> after.targets[u] == st.b.targets[u]
  {
    hide HostSettled, Settled, Chained;
  }

  // ------------------------------------------------------------- the totals

  function Idle(turns: seq<Turn>): nat {
    if turns == [] then 0
    else Idle(turns[..|turns| - 1]) + if turns[|turns| - 1].attempt.NothingToSend? then 1 else 0
  }

  /** Every entity that has something to send is counted once, as written or as failed. */
  lemma {:induction false} EachCountedOnce(host: Attempt, turns: seq<Turn>)
    ensures TotalOf(host, turns).entities + TotalOf(host, turns).failed + Idle(turns) == |turns|
  {
    if turns != [] { EachCountedOnce(host, turns[..|turns| - 1]); }
  }

  lemma SettledRequests(c: Shared, t: Samples.Target, b: State, a: Attempt, b': State)
    requires Settled(c, t, b, a, b') && a.Sent?
    ensures a.res.requests == |UpdatesOf(a)| + |IngestsOf(a)|
  {
    hide SnapshotOf, DimsPart, MetricsPart, UpdateError, IngestError, AllSettled, DroppedBy;
  }

  /** The requests counted are the requests sent, failed ones included. */
  lemma {:induction false} RequestsCounted(c: Shared, b: Many, host: Attempt, turns: seq<Turn>, now: Many)
    requires HostSettled(c, b.host, host, now.host)
    requires forall i :: 0 <= i < |turns| ==>
               && turns[i].t in b.targets && turns[i].t in now.targets
               && Settled(c, turns[i].t, b.targets[turns[i].t], turns[i].attempt, now.targets[turns[i].t])
    ensures TotalOf(host, turns).requests ==
            |UpdatesOf(host) + TurnUpdates(turns)| + |IngestsOf(host) + TurnIngests(turns)|
  {
    hide Settled;
    if turns == [] {
      if host.Sent? { SettledRequests(c, HOST, b.host, host, now.host); }
    } else {
      var n := |turns| - 1;
      var turn := turns[n];
      RequestsCounted(c, b, host, turns[..n], now);
      if turn.attempt.Sent? {
        SettledRequests(c, turn.t, b.targets[turn.t], turn.attempt, now.targets[turn.t]);
      }
    }
  }
}
