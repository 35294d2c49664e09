/** Any number of processes resolving any identities at once against one platform
    with a unique key index, no deletions, and nobody else changing keys or
    identity values. The search may lag, and may return any subset. */
module IdentityFleet {
  import opened Ordering
  import opened Schema
  import opened Identity

  /** value is the identity attribute; key is empty when the record holds none. */
  datatype Record = Record(template: string, value: string, createdAt: int, key: string)

  type Records = map<Id, Record>

  datatype Process = Process(config: Config, pc: Pc)

  /** Every state the platform went through, the last being the present one. */
  datatype World = World(history: seq<Records>, procs: seq<Process>)

  function Now(w: World): Records
    requires w.history != []
  {
    w.history[|w.history| - 1]
  }

  predicate Holds(r: Records, id: Id, template: string, key: string) {
    id in r && r[id].template == template && r[id].key == key
  }

  /** The partial unique index: among live records of a template, a key is held once. */
  predicate UniqueKeys(r: Records) {
    forall a, b :: a in r && b in r && r[a].template == r[b].template && r[a].key == r[b].key != "" ==> a == b
  }

  predicate Free(r: Records, template: string, key: string) {
    forall id :: id in r ==> !Holds(r, id, template, key)
  }

  /** A record as the search may show it: as it is or was. */
  predicate Seen(history: seq<Records>, s: Summary, c: Config) {
    exists h: Records :: h in history && Showed(h, s, c)
  }

  predicate Showed(h: Records, s: Summary, c: Config) {
    s.id in h && h[s.id] == Record(c.template, c.key, s.createdAt, s.key)
  }

  // ------------------------------------------------------ the platform

  predicate Looks(r: Records, c: Config, reply: LookupReply) {
    match reply
    case Holder(id) => Holds(r, id, c.template, c.key)
    case NoHolder => Free(r, c.template, c.key)
    case LookupFailed => true
  }

  /** The key write happened; the platform does not ask what the record held. */
  predicate KeyWritten(r: Records, id: Id, key: string, r': Records) {
    && id in r
    && (forall other :: other in r && other != id && r[other].template == r[id].template ==> r[other].key != key)
    && r' == r[id := r[id].(key := key)]
  }

  /** The record holding the key was updated, or created where none was. A host
      start writes its identity value, a module entity no such value. */
  ghost predicate RecordUpserted(r: Records, c: Config, id: Id, created: bool, r': Records) {
    if created then
      && Free(r, c.template, c.key) && id !in r
      && id in r' && r' == r[id := Record(c.template, if c.adopts then c.key else "", r'[id].createdAt, c.key)]
    else
      && Holds(r, id, c.template, c.key)
      && r' == if c.adopts then r[id := r[id].(value := c.key)] else r
  }

  /** What a call by c may answer and do. A conflict has no effect; after any other
      error the write may have happened. */
  ghost predicate Serves(history: seq<Records>, r: Records, c: Config, pc: Pc, a: Answer, r': Records) {
    match pc
    case LookingUp => Looks(r, c, a.lookup) && r' == r
    case LookingAgain => Looks(r, c, a.lookup) && r' == r
    case LookingLast => Looks(r, c, a.lookup) && r' == r
    case Searching => (a.search.Candidates? ==> forall s :: s in a.search.found ==> Seen(history, s, c)) && r' == r
    case SettingKey(pick, _) =>
      (match a.setKey
       case KeySet => KeyWritten(r, pick, c.key, r')
       case SetTaken => r' == r
       case SetFailed => r' == r || KeyWritten(r, pick, c.key, r'))
    case Upserting(_) =>
      (match a.upsert
       case Upserted(id, created) => RecordUpserted(r, c, id, created, r')
       case UpsertTaken => r' == r
       case UpsertFailed => r' == r || exists id, created :: RecordUpserted(r, c, id, created, r'))
    case Ended(_) => r' == r
  }

  /** Who moves: a process, a new start, or someone adding a record with no key or
      a free one. */
  datatype Label = Moves(p: nat, answer: Answer) | Starts(config: Config) | Adds(id: Id, record: Record)

  ghost predicate Step(w: World, l: Label, w': World) {
    && w.history != [] && w'.history != [] && w'.history == w.history + [Now(w')]
    && match l
       case Moves(p, a) =>
         && p < |w.procs|
         && var q := w.procs[p];
            && Serves(w.history, Now(w), q.config, q.pc, a, Now(w'))
            && w'.procs == w.procs[p := Process(q.config, Next(q.config, q.pc, a))]
       case Starts(c) => ValidKey(c.key) && Now(w') == Now(w) && w'.procs == w.procs + [Process(c, LookingUp)]
       case Adds(id, record) =>
         && id !in Now(w) && (record.key != "" ==> Free(Now(w), record.template, record.key))
         && Now(w') == Now(w)[id := record] && w'.procs == w.procs
  }

  ghost predicate Initial(w: World) {
    |w.history| == 1 && UniqueKeys(Now(w)) && w.procs == []
  }

  ghost predicate Behavior(ws: seq<World>, ls: seq<Label>) {
    && |ws| == |ls| + 1 && Initial(ws[0])
    && forall k :: 0 <= k < |ls| ==> Step(ws[k], ls[k], ws[k + 1])
  }

  // --------------------------------------------------------- invariants

  /** From an earlier to a later state: records stay, with their template; a key
      stays; a record that had no key has none still and kept its value, or now
      holds the value it had as its key. */
  predicate Extends(h: Records, r: Records) {
    forall id :: id in h ==>
      && id in r && r[id].template == h[id].template
      && (h[id].key != "" ==> r[id].key == h[id].key)
      && (h[id].key == "" ==>
            (r[id].key == "" && r[id].value == h[id].value) || (r[id].key != "" && r[id].key == h[id].value))
  }

  /** The outcomes that promise a record holding the process's key. */
  predicate Settled(how: How) { how.Found? || how.Adopted? || how.Created? }

  /** A process about to write a key was shown the record without one and with
      its own identity; one that ended names a record that holds the key it
      promised, its own or another. */
  ghost predicate Entitled(history: seq<Records>, r: Records, q: Process) {
    match q.pc
    case SettingKey(pick, _) =>
      exists h: Records, at: int :: h in history && Showed(h, Summary(pick, at, ""), q.config)
    case Ended(Resolved(res)) =>
      && (Settled(res.how) ==> res.id.Some? && Holds(r, res.id.value, q.config.template, q.config.key))
      && (res.how.AdoptedOtherKey? ==>
            && "" != res.how.other && res.how.other != q.config.key && res.id.Some?
            && Holds(r, res.id.value, q.config.template, res.how.other))
    case _ => true
  }

  ghost predicate Inv(w: World) {
    && w.history != []
    && UniqueKeys(Now(w))
    && (forall h :: h in w.history ==> Extends(h, Now(w)))
    && (forall p :: 0 <= p < |w.procs| ==> ValidKey(w.procs[p].config.key) && Entitled(w.history, Now(w), w.procs[p]))
  }

  /** What one step may do to the records, whoever takes it. */
  predicate Evolves(r: Records, r': Records) {
    && UniqueKeys(r')
    && (forall id :: id in r ==>
          && id in r' && r'[id].template == r[id].template
          && (r[id].key != "" ==> r'[id].key == r[id].key)
          && (r[id].key == "" && r'[id].key == "" ==> r'[id].value == r[id].value)
          && (r[id].key == "" && r'[id].key != "" ==> r'[id].key == r[id].value))
  }

  lemma KeyWriteEvolves(w: World, p: nat, pick: Id, duplicates: seq<Id>, r': Records)
    requires Inv(w) && p < |w.procs| && w.procs[p].pc == SettingKey(pick, duplicates)
    requires KeyWritten(Now(w), pick, w.procs[p].config.key, r')
    ensures Evolves(Now(w), r') && Holds(r', pick, w.procs[p].config.template, w.procs[p].config.key)
  {
    var q, r := w.procs[p], Now(w);
    assert Entitled(w.history, r, q);
    var h: Records, at: int :| h in w.history && Showed(h, Summary(pick, at, ""), q.config);
    assert Extends(h, r);
  }

  lemma UpsertEvolves(r: Records, c: Config, id: Id, created: bool, r': Records)
    requires UniqueKeys(r) && c.key != "" && RecordUpserted(r, c, id, created, r')
    ensures Evolves(r, r') && Holds(r', id, c.template, c.key)
  {
    if created {
      assert forall other :: other in r ==> !Holds(r, other, c.template, c.key);
    }
  }

  /** What adopting s comes to: its key decides, and only a record without one is written. */
  predicate Adopts(c: Config, s: Summary, pc: Pc) {
    match pc
    case SettingKey(pick, _) => pick == s.id && s.key == ""
    case Ended(Resolved(res)) =>
      && res.id == Some(s.id) && !res.how.Adopted? && !res.how.Created?
      && (res.how.Found? ==> s.key == c.key)
      && (res.how.AdoptedOtherKey? ==> s.key == res.how.other && s.key != "" && s.key != c.key)
    case _ => false
  }

  predicate Oldest(found: seq<Summary>, s: Summary) {
    s in found && forall t :: t in found ==> s.createdAt <= t.createdAt
  }

  lemma SortedFirstIsOldest(found: seq<Summary>)
    requires found != []
    ensures Oldest(found, Sort(found, OlderFirst)[0])
  {
    var sorted := Sort(found, OlderFirst);
    assert Preorder(OlderFirst);
    SortSorts(found, OlderFirst);
    hide Sort, Preorder;
    assert sorted[0] in sorted;
    forall t | t in found ensures sorted[0].createdAt <= t.createdAt {
      assert t in sorted;
      var i :| 0 <= i < |sorted| && sorted[i] == t;
      assert i == 0 || OlderFirst(sorted[0], sorted[i]);
    }
  }

  /** Adoption decides on a candidate none of the returned ones is older than. */
  lemma AdoptionPicks(c: Config, found: seq<Summary>)
    requires found != []
    ensures exists s :: Oldest(found, s) && Adopts(c, s, Adoption(c, found))
  {
    hide Sort, Oldest;
    SortedFirstIsOldest(found);
    var s := Sort(found, OlderFirst)[0];
    assert Adopts(c, s, Adoption(c, found));
  }

  lemma SearchMove(w: World, p: nat, found: seq<Summary>)
    requires Inv(w) && p < |w.procs| && found != [] && forall s :: s in found ==> Seen(w.history, s, w.procs[p].config)
    ensures var q := w.procs[p]; Entitled(w.history, Now(w), Process(q.config, Adoption(q.config, found)))
  {
    hide Adoption, Extends, ValidKey;
    var q := w.procs[p];
    AdoptionPicks(q.config, found);
    var s :| Oldest(found, s) && Adopts(q.config, s, Adoption(q.config, found));
    assert Seen(w.history, s, q.config);
    var h: Records :| h in w.history && Showed(h, s, q.config);
    KeysAreNotEmpty(w, p);
    if s.key != "" {
      StillHeld(w, h, s.id);
    } else {
      assert s == Summary(s.id, s.createdAt, "");
    }
  }

  lemma StillHeld(w: World, h: Records, id: Id)
    requires Inv(w) && h in w.history && id in h && h[id].key != ""
    ensures Holds(Now(w), id, h[id].template, h[id].key)
  {
    assert Extends(h, Now(w));
  }

  lemma SameEvolves(r: Records)
    requires UniqueKeys(r)
    ensures Evolves(r, r)
  {}

  lemma KeysAreNotEmpty(w: World, p: nat)
    requires Inv(w) && p < |w.procs|
    ensures w.procs[p].config.key != ""
  {}

  /** Being entitled survives whatever any step does to the records. */
  lemma StaysEntitled(w: World, w': World, q: Process)
    requires w.history != [] && w'.history != [] && w'.history == w.history + [Now(w')] && Evolves(Now(w), Now(w'))
    requires q.config.key != "" && Entitled(w.history, Now(w), q)
    ensures Entitled(w'.history, Now(w'), q)
  {
    hide UniqueKeys, Showed;
    if q.pc.SettingKey? {
      var h: Records, at: int :| h in w.history && Showed(h, Summary(q.pc.pick, at, ""), q.config);
      assert h in w'.history;
    }
  }

  lemma UpsertMove(w: World, p: nat, a: Answer, r': Records)
    requires Inv(w) && p < |w.procs| && w.procs[p].pc.Upserting?
    requires Serves(w.history, Now(w), w.procs[p].config, w.procs[p].pc, a, r')
    ensures Evolves(Now(w), r')
    ensures Entitled(w.history, r', Process(w.procs[p].config, Next(w.procs[p].config, w.procs[p].pc, a)))
  {
    hide RecordUpserted, Evolves, Extends, ValidKey;
    var c, r := w.procs[p].config, Now(w);
    KeysAreNotEmpty(w, p);
    if a.upsert.Upserted? {
      UpsertEvolves(r, c, a.upsert.id, a.upsert.created, r');
    } else if r' == r {
      SameEvolves(r);
    } else {
      var id, created :| RecordUpserted(r, c, id, created, r');
      UpsertEvolves(r, c, id, created, r');
    }
  }

  lemma SettingMove(w: World, p: nat, a: Answer, r': Records)
    requires Inv(w) && p < |w.procs| && w.procs[p].pc.SettingKey?
    requires Serves(w.history, Now(w), w.procs[p].config, w.procs[p].pc, a, r')
    ensures Evolves(Now(w), r')
    ensures Entitled(w.history, r', Process(w.procs[p].config, Next(w.procs[p].config, w.procs[p].pc, a)))
  {
    hide KeyWritten, Evolves, Extends, ValidKey;
    var pc, r := w.procs[p].pc, Now(w);
    if KeyWritten(r, pc.pick, w.procs[p].config.key, r') {
      KeyWriteEvolves(w, p, pc.pick, pc.duplicates, r');
    }
    SameEvolves(r);
  }

  lemma ReadMove(w: World, p: nat, a: Answer, r': Records)
    requires Inv(w) && p < |w.procs| && !w.procs[p].pc.SettingKey? && !w.procs[p].pc.Upserting?
    requires Serves(w.history, Now(w), w.procs[p].config, w.procs[p].pc, a, r')
    ensures r' == Now(w)
    ensures Entitled(w.history, r', Process(w.procs[p].config, Next(w.procs[p].config, w.procs[p].pc, a)))
  {
    hide Adoption, Extends, ValidKey, Free;
    if w.procs[p].pc.Searching? && a.search.Candidates? && a.search.found != [] {
      SearchMove(w, p, a.search.found);
    }
  }

  lemma StepEvolves(w: World, l: Label, w': World)
    requires Inv(w) && Step(w, l, w')
    ensures Evolves(Now(w), Now(w'))
  {
    hide Serves, Next, Entitled, Extends, ValidKey;
    match l
    case Moves(p, a) =>
      if w.procs[p].pc.SettingKey? {
        SettingMove(w, p, a, Now(w'));
      } else if w.procs[p].pc.Upserting? {
        UpsertMove(w, p, a, Now(w'));
      } else {
        ReadMove(w, p, a, Now(w'));
        SameEvolves(Now(w));
      }
    case Starts(c) => SameEvolves(Now(w));
    case Adds(id, record) =>
      assert record.key != "" ==>
          forall other :: other in Now(w) ==> !Holds(Now(w), other, record.template, record.key);
  }

  lemma MoverEntitled(w: World, p: nat, a: Answer, w': World)
    requires Inv(w) && Step(w, Moves(p, a), w')
    ensures Entitled(w.history, Now(w'), w'.procs[p])
  {
    hide Serves, Next, Entitled, Extends, ValidKey, Evolves;
    if w.procs[p].pc.SettingKey? {
      SettingMove(w, p, a, Now(w'));
    } else if w.procs[p].pc.Upserting? {
      UpsertMove(w, p, a, Now(w'));
    } else {
      ReadMove(w, p, a, Now(w'));
    }
  }

  lemma ExtendsFurther(h: Records, r: Records, r': Records)
    requires Extends(h, r) && Evolves(r, r')
    ensures Extends(h, r')
  {
    hide UniqueKeys;
  }

  lemma StepKeeps(w: World, l: Label, w': World)
    requires Inv(w) && Step(w, l, w')
    ensures Inv(w')
  {
    hide Serves, Next, Extends, ValidKey, Evolves, Entitled, Holds, Free, UniqueKeys;
    StepEvolves(w, l, w');
    EvolvesUnique(Now(w), Now(w'));
    forall h | h in w'.history ensures Extends(h, Now(w')) {
      if h in w.history {
        ExtendsFurther(h, Now(w), Now(w'));
      } else {
        ExtendsSelf(h);
      }
    }
    forall p | 0 <= p < |w'.procs|
      ensures ValidKey(w'.procs[p].config.key) && Entitled(w'.history, Now(w'), w'.procs[p])
    {
      if p < |w.procs| {
        KeysAreNotEmpty(w, p);
      }
      if l.Moves? && l.p == p {
        MoverEntitled(w, p, l.answer, w');
        AlsoThen(w.history, Now(w'), w'.procs[p]);
      } else if p < |w.procs| {
        StaysEntitled(w, w', w.procs[p]);
      } else {
        NewcomerEntitled(w'.history, Now(w'), l.config);
      }
    }
  }

  lemma EvolvesUnique(r: Records, r': Records)
    requires Evolves(r, r')
    ensures UniqueKeys(r')
  {}

  lemma ExtendsSelf(h: Records)
    ensures Extends(h, h)
  {}

  lemma AlsoThen(history: seq<Records>, r: Records, q: Process)
    requires Entitled(history, r, q)
    ensures Entitled(history + [r], r, q)
  {
    if q.pc.SettingKey? {
      var h: Records, at: int :| h in history && Showed(h, Summary(q.pc.pick, at, ""), q.config);
      assert h in history + [r];
    }
  }

  lemma NewcomerEntitled(history: seq<Records>, r: Records, c: Config)
    ensures Entitled(history, r, Process(c, LookingUp))
  {}
}
