/** ResolveHost and Keyed.Resolve as the program runs them, against a platform
    that answers by any script, proved to run the machine of Identity.dfy. */
module IdentityApi {
  import opened Ordering
  import opened Schema
  import opened Identity

  class Registry {
    const script: nat -> Answer
    var clock: nat
    var calls: seq<Call>

    constructor (script: nat -> Answer)
      ensures this.script == script && clock == 0 && calls == []
    {
      this.script := script;
      clock, calls := 0, [];
    }

    method Lookup() returns (reply: LookupReply)
      modifies this
      ensures clock == old(clock) + 1 && calls == old(calls) + [EntityByKey] && reply == script(old(clock)).lookup
    {
      reply := script(clock).lookup;
      clock, calls := clock + 1, calls + [EntityByKey];
    }

    method Search() returns (reply: SearchReply)
      modifies this
      ensures clock == old(clock) + 1 && calls == old(calls) + [FindEntities] && reply == script(old(clock)).search
    {
      reply := script(clock).search;
      clock, calls := clock + 1, calls + [FindEntities];
    }

    method SetKey(id: Id) returns (reply: SetReply)
      modifies this
      ensures clock == old(clock) + 1 && calls == old(calls) + [SetEntityKey(id)] && reply == script(old(clock)).setKey
    {
      reply := script(clock).setKey;
      clock, calls := clock + 1, calls + [SetEntityKey(id)];
    }

    method Upsert() returns (reply: UpsertReply)
      modifies this
      ensures clock == old(clock) + 1 && calls == old(calls) + [UpsertByKey] && reply == script(old(clock)).upsert
    {
      reply := script(clock).upsert;
      clock, calls := clock + 1, calls + [UpsertByKey];
    }
  }

  /** From state pc, the registry has answered n calls since start. */
  ghost predicate Ran(api: Registry, c: Config, start: nat, made: seq<Call>, pc: Pc)
    reads api
  {
    && start <= api.clock
    && pc == Run(c, LookingUp, api.script, start, api.clock - start)
    && api.calls == made + Made(c, LookingUp, api.script, start, api.clock - start)
  }

  lemma FirstAnswer(c: Config, script: nat -> Answer, start: nat)
    ensures Run(c, LookingUp, script, start, 1) == Next(c, LookingUp, script(start))
    ensures Made(c, LookingUp, script, start, 1) == [EntityByKey]
  {
    assert Run(c, LookingUp, script, start, 0) == LookingUp;
  }

  /** Creates or finds the record, retrying a conflict, then settling it with a lookup. */
  method UpsertRecord(api: Registry, c: Config, ghost start: nat, ghost made: seq<Call>) returns (ending: Ending)
    requires Ran(api, c, start, made, Upserting(0))
    modifies api
    ensures Ran(api, c, start, made, Ended(ending))
    ensures ending.Resolved? ==> ending.r.id.Some? && (ending.r.how.Found? || ending.r.how.Created?)
  {
    hide Adoption;
    var attempt := 0;
    while attempt < UPSERT_ATTEMPTS
      invariant attempt <= UPSERT_ATTEMPTS
      invariant Ran(api, c, start, made, if attempt < UPSERT_ATTEMPTS then Upserting(attempt) else LookingLast)
    {
      var reply := api.Upsert();
      if reply.Upserted? {
        return Resolved(Resolution(Some(reply.id), if reply.created then Created else Found, []));
      }
      if reply.UpsertFailed? {
        return Failed;
      }
      attempt := attempt + 1;
    }
    var reply := api.Lookup();
    if !reply.Holder? {
      return Failed;
    }
    ending := Resolved(Resolution(Some(reply.id), Found, []));
  }

  datatype Target = Target(templateSlug: string, templateId: string, attributeSlug: string)

  /** Finds the host by its key, adopts a record without one, or creates it. */
  method ResolveHost(api: Registry, t: Target, key: string, dryRun: bool) returns (ending: Ending)
    modifies api
    ensures !ValidKey(key) || t.templateId == "" || t.templateSlug == "" || t.attributeSlug == "" ==>
              ending == Failed && api.clock == old(api.clock) && api.calls == old(api.calls)
    ensures ValidKey(key) && t.templateId != "" && t.templateSlug != "" && t.attributeSlug != "" ==>
              Ran(api, Config(t.templateSlug, key, dryRun, true), old(api.clock), old(api.calls), Ended(ending)) &&
              |api.calls| <= |old(api.calls)| + 6
  {
    if !ValidKey(key) {
      return Failed;
    }
    if t.templateId == "" || t.templateSlug == "" || t.attributeSlug == "" {
      return Failed;
    }
    ending := Resolve(api, Config(t.templateSlug, key, dryRun, true));
    CallsAreBounded(Config(t.templateSlug, key, dryRun, true), LookingUp, api.script, old(api.clock),
                    api.clock - old(api.clock));
  }

  method Resolve(api: Registry, c: Config) returns (ending: Ending)
    requires c.adopts
    modifies api
    ensures Ran(api, c, old(api.clock), old(api.calls), Ended(ending))
  {
    hide Adoption;
    ghost var start, made := api.clock, api.calls;
    assert Ran(api, c, start, made, LookingUp);
    var reply := api.Lookup();
    FirstAnswer(c, api.script, start);
    if reply.LookupFailed? {
      return Failed;
    }
    if reply.Holder? {
      return Resolved(Resolution(Some(reply.id), Found, []));
    }
    assert Ran(api, c, start, made, Searching);
    var answer := api.Search();
    if answer.SearchFailed? {
      return Failed;
    }
    if |answer.found| > 0 {
      ending := Adopt(api, c, answer.found, start, made);
      return;
    }
    if c.dryRun {
      return Resolved(Resolution(None, WouldCreate, []));
    }
    ending := UpsertRecord(api, c, start, made);
  }

  /** The oldest candidate is the host: as it is, or once it holds the key. */
  method Adopt(api: Registry, c: Config, found: seq<Summary>, ghost start: nat, ghost made: seq<Call>)
    returns (ending: Ending)
    requires found != [] && Ran(api, c, start, made, Adoption(c, found))
    modifies api
    ensures Ran(api, c, start, made, Ended(ending))
  {
    var sorted := Sort(found, OlderFirst);
    var pick := sorted[0];
    var duplicates: seq<Id> := [];
    if |sorted| > 1 {
      for i := 0 to |sorted|
        invariant duplicates == Ids(sorted[..i])
      {
        duplicates := duplicates + [sorted[i].id];
      }
      assert sorted[..|sorted|] == sorted;
    }
    hide Sort, Run, Made;
    assert duplicates == if |sorted| > 1 then Ids(sorted) else [];
    if pick.key == c.key {
      return Resolved(Resolution(Some(pick.id), Found, duplicates));
    }
    if pick.key != "" {
      return Resolved(Resolution(Some(pick.id), AdoptedOtherKey(pick.key), duplicates));
    }
    if c.dryRun {
      return Resolved(Resolution(Some(pick.id), WouldAdopt, duplicates));
    }
    ending := WriteKey(api, c, pick.id, duplicates, start, made);
  }

  /** Gives the record the key; if another took it meanwhile, that one is the host. */
  method WriteKey(api: Registry, c: Config, pick: Id, duplicates: seq<Id>, ghost start: nat, ghost made: seq<Call>)
    returns (ending: Ending)
    requires Ran(api, c, start, made, SettingKey(pick, duplicates))
    modifies api
    ensures Ran(api, c, start, made, Ended(ending))
  {
    hide Adoption;
    var reply := api.SetKey(pick);
    if reply.KeySet? {
      return Resolved(Resolution(Some(pick), Adopted, duplicates));
    }
    if reply.SetFailed? {
      return Failed;
    }
    assert Ran(api, c, start, made, LookingAgain);
    var again := api.Lookup();
    if !again.Holder? {
      return Failed;
    }
    ending := Resolved(Resolution(Some(again.id), Found, []));
  }

  // ------------------------------------------------ module entities

  const NUL: string := ['\0']

  function CacheKey(template: string, key: string): string {
    template + NUL + key
  }

  lemma EndsAtNul(t: string, k: string)
    requires '\0' !in t
    ensures var s := CacheKey(t, k); s[..|t|] == t && s[|t|] == '\0' && s[|t| + 1..] == k
    ensures forall i :: 0 <= i < |t| ==> CacheKey(t, k)[i] != '\0'
  {
    forall i | 0 <= i < |t| ensures CacheKey(t, k)[i] != '\0' { assert t[i] in t; }
  }

  /** The cache keys of different entities differ: template slugs hold no NUL. */
  lemma CacheKeysDiffer(t: string, k: string, t': string, k': string)
    requires '\0' !in t && '\0' !in t'
    requires CacheKey(t, k) == CacheKey(t', k')
    ensures t == t' && k == k'
  {
    EndsAtNul(t, k);
    EndsAtNul(t', k');
    assert |t| == |t'|;
  }

  /** The id remembered for an entity. */
  function Remembered(ids: map<string, Id>, template: string, key: string): Option<Id> {
    var k := CacheKey(template, key);
    if k in ids then Some(ids[k]) else None
  }

  /** Two entities by template and key, neither template with a NUL in it. */
  predicate Apart(t: string, k: string, t': string, k': string) {
    '\0' !in t && '\0' !in t' && (t != t' || k != k')
  }

  /** What every entity but one is remembered by. */
  ghost predicate OthersKept(ids: map<string, Id>, ids': map<string, Id>, template: string, key: string) {
    forall t, k :: Apart(template, key, t, k) ==> Remembered(ids', t, k) == Remembered(ids, t, k)
  }

  lemma ChangeOfOne(ids: map<string, Id>, ids': map<string, Id>, template: string, key: string)
    requires ids' - {CacheKey(template, key)} == ids - {CacheKey(template, key)}
    ensures OthersKept(ids, ids', template, key)
  {
    var one := CacheKey(template, key);
    hide CacheKey;
    forall t, k | Apart(template, key, t, k) ensures Remembered(ids', t, k) == Remembered(ids, t, k) {
      var other := CacheKey(t, k);
      if other == one { CacheKeysDiffer(template, key, t, k); }
      assert other in ids <==> other in ids - {one};
      assert other in ids' <==> other in ids' - {one};
      if other in ids { assert (ids - {one})[other] == ids[other] && (ids' - {one})[other] == ids'[other]; }
    }
  }

  /** Resolves module entities by key, remembering ids until told to forget. */
  class Keyed {
    const dryRun: bool
    var ids: map<string, Id>

    constructor (dryRun: bool)
      ensures this.dryRun == dryRun && ids == map[]
    {
      this.dryRun := dryRun;
      ids := map[];
    }

    /** A remembered id costs no call; any other resolution runs the machine, and
        only an id that it resolved is remembered. No other entity's id is touched. */
    method Resolve(api: Registry, template: string, key: string) returns (ending: Ending)
      modifies this, api
      ensures var k, c := CacheKey(template, key), Config(template, key, dryRun, false);
              if k in old(ids) then
                ending == Resolved(Resolution(Some(old(ids[k])), Found, [])) && ids == old(ids) &&
                api.clock == old(api.clock) && api.calls == old(api.calls)
              else
                Ran(api, c, old(api.clock), old(api.calls), Ended(ending)) &&
                (ending.Resolved? && ending.r.id.Some? ==> ending.r.how.Found? || ending.r.how.Created?) &&
                ids == if ending.Resolved? && ending.r.id.Some? then old(ids)[k := ending.r.id.value] else old(ids)
      ensures ending.Resolved? && !dryRun ==> ending.r.id.Some? && Remembered(ids, template, key) == ending.r.id
      ensures OthersKept(old(ids), ids, template, key)
    {
      hide OthersKept;
      ghost var before := ids;
      ChangeOfOne(before, before, template, key);
      var c := Config(template, key, dryRun, false);
      if CacheKey(template, key) in ids {
        return Resolved(Resolution(Some(ids[CacheKey(template, key)]), Found, []));
      }
      ghost var start, made := api.clock, api.calls;
      assert Ran(api, c, start, made, LookingUp);
      var reply := api.Lookup();
      FirstAnswer(c, api.script, start);
      if reply.LookupFailed? {
        return Failed;
      }
      if reply.Holder? {
        ending := Resolved(Resolution(Some(reply.id), Found, []));
      } else if dryRun {
        return Resolved(Resolution(None, WouldCreate, []));
      } else {
        assert Ran(api, c, start, made, Upserting(0));
        ending := UpsertRecord(api, c, start, made);
        if ending.Failed? {
          return;
        }
      }
      ids := ids[CacheKey(template, key) := ending.r.id.value];
      ChangeOfOne(before, ids, template, key);
    }

    /** The next resolution looks this entity up again; every other one, whatever its
        template and key, is remembered as before. */
    method Forget(template: string, key: string)
      modifies this
      ensures Remembered(ids, template, key).None? && OthersKept(old(ids), ids, template, key)
      ensures ids == old(ids) - {CacheKey(template, key)}
    {
      ghost var before := ids;
      ids := ids - {CacheKey(template, key)};
      ChangeOfOne(before, ids, template, key);
    }
  }
}
