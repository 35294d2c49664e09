/** What one collection puts into the buffers (collectOne and targetOf in
    internal/collect/scheduler.go). */
module Collect {
  import opened Schema
  import opened Samples
  import opened Buffer
  import opened Buffers
  import opened Identity

  /** A module-owned entity by its manifest template and key; all empty is the host. */
  datatype Entity = Entity(template: string, key: string)

  datatype Observation = Observation(key: string, entity: Entity, value: Value)

  datatype Attr = Attr(slug: string, kind: Kind, options: seq<string>, entityTemplate: string)

  /** One module's part of the desired schema: collectable attributes by key, host
      links, and its entity templates' resolved slugs. */
  datatype Source = Source(owner: string, attrs: map<string, Attr>, links: set<string>, entities: map<string, string>)

  datatype WrongEntity = NoEntityNamed | OtherTemplate

  function TargetOf(src: Source, attr: Attr, e: Entity): Checked<Target, WrongEntity> {
    if e == Entity("", "") then
      if attr.entityTemplate == "" then Ok(HOST) else Err(NoEntityNamed)
    else if e.template != attr.entityTemplate then Err(OtherTemplate)
    else Ok(Target(src.owner, if e.template in src.entities then src.entities[e.template] else "", e.key))
  }

  /** The sample an observation becomes, or nothing. */
  function Kept(src: Source, at: int): Observation -> seq<Sample> {
    (o: Observation) =>
      if o.key in src.links || o.key !in src.attrs then []
      else
        var attr := src.attrs[o.key];
        var target := TargetOf(src, attr, o.entity);
        if target.Err? || (target.value != HOST && !ValidKey(target.value.key)) then []
        else
          var v := Validate(attr.kind, attr.options, o.value);
          if v.Err? then [] else [Sample(attr.slug, attr.kind, v.value, at, target.value)]
  }

  /** One collection: a failed reading adds nothing; of the others each observation
      that may be kept is routed to its entity's buffer, in order. */
  method CollectOne(bufs: Buffers, src: Source, reading: Option<seq<Observation>>, at: int) returns (ok: bool)
    requires bufs.Valid()
    modifies bufs, bufs.host, bufs.targets.Values
    ensures bufs.Valid() && ok == reading.Some?
    ensures bufs.Value() ==
            if ok then RoutedAll(old(bufs.Value()), Gather(reading.value, Kept(src, at))) else old(bufs.Value())
  {
    hide Routed, Validate, KeyFaultOf;
    if reading.None? {
      return false;
    }
    var obs := reading.value;
    ghost var samples: seq<Sample> := [];
    for i := 0 to |obs|
      invariant bufs.Valid() && fresh(bufs.targets.Values - old(bufs.targets.Values))
      invariant samples == Gather(obs[..i], Kept(src, at))
      invariant bufs.Value() == RoutedAll(old(bufs.Value()), samples)
    {
      var o := obs[i];
      GatherStep(obs, i, Kept(src, at));
      if o.key in src.links {
        continue;
      }
      if o.key !in src.attrs {
        continue;
      }
      var attr := src.attrs[o.key];
      var target := TargetOf(src, attr, o.entity);
      if target.Err? {
        continue;
      }
      if target.value != HOST && !ValidKey(target.value.key) {
        continue;
      }
      var v := Validate(attr.kind, attr.options, o.value);
      if v.Err? {
        continue;
      }
      var s := Sample(attr.slug, attr.kind, v.value, at, target.value);
      assert (samples + [s])[..|samples|] == samples;
      bufs.Add(s);
      samples := samples + [s];
    }
    assert obs[..|obs|] == obs;
    ok := true;
  }

  /** Everything kept is an observation of a declared attribute that the core does
      not set itself, stamped with the collection's instant, and it will render:
      only a list option may lack its item. */
  lemma KeptRenders(src: Source, at: int, o: Observation, s: Sample, items: Items)
    requires s in Kept(src, at)(o)
    ensures o.key in src.attrs && o.key !in src.links
    ensures s.at == at && s.slug == src.attrs[o.key].slug && s.kind == src.attrs[o.key].kind
    ensures Collected(s)
    ensures Render(s, items).Err? ==> s.kind.KList? && Render(s, items).error == NoItem
    ensures s.IsMetric() ==> Render(s, items).Ok? && Render(s, items).value.IsString()
  {
    var attr := src.attrs[o.key];
    assert Validate(attr.kind, attr.options, o.value) == Ok(s.value);
    CollectedRenders(s, items);
  }

  /** A sample of an entity carries a valid key and its attribute's template. */
  lemma KeptTarget(src: Source, at: int, o: Observation, s: Sample)
    requires s in Kept(src, at)(o)
    ensures s.target == HOST || (ValidKey(s.target.key) && s.target.owner == src.owner && s.target.key == o.entity.key)
    ensures o.entity.template == src.attrs[o.key].entityTemplate
  {
    hide Validate, KeyFaultOf;
  }

  // ------------------------------------------ keys without a template

  /** The buffers after the first i observations of a reading. */
  function AfterFirst(b: Many, src: Source, at: int, obs: seq<Observation>, i: nat): Many
    requires i <= |obs|
  {
    RoutedAll(b, Gather(obs[..i], Kept(src, at)))
  }

  lemma OneStep(b: Many, src: Source, at: int, obs: seq<Observation>, i: nat)
    requires i < |obs|
    ensures var before, kept := AfterFirst(b, src, at, obs, i), Kept(src, at)(obs[i]);
            && (kept == [] ==> AfterFirst(b, src, at, obs, i + 1) == before)
            && forall s :: kept == [s] ==> AfterFirst(b, src, at, obs, i + 1) == Routed(before, s)
  {
    hide Kept, Routed;
    GatherStep(obs, i, Kept(src, at));
    var samples := Gather(obs[..i], Kept(src, at));
    forall s | Kept(src, at)(obs[i]) == [s] ensures RoutedAll(b, samples + [s]) == Routed(RoutedAll(b, samples), s) {
      RouteMore(b, samples, s);
    }
  }

  /** What a valid observation of a host attribute does to the buffers, wherever in a
      reading it stands. One that names no entity is the host's; one that names a
      template, or a bad key, is refused. But one that names a key and no template is
      not refused: the host never gets it, and it feeds an entity of the module
      without a template if that entity has a buffer or the module may still have
      one, whose slot it takes. */
  lemma HostAttributeRoutesExactly(before: Many, src: Source, at: int, obs: seq<Observation>, i: nat)
    requires i < |obs| && obs[i].key in src.attrs && obs[i].key !in src.links && "" !in src.entities
    requires var attr := src.attrs[obs[i].key];
             attr.entityTemplate == "" && Validate(attr.kind, attr.options, obs[i].value).Ok?
    ensures var b, after := AfterFirst(before, src, at, obs, i), AfterFirst(before, src, at, obs, i + 1);
            var o, attr := obs[i], src.attrs[obs[i].key];
            var v, t := Validate(attr.kind, attr.options, o.value).value, Target(src.owner, "", o.entity.key);
            if o.entity == Entity("", "") then
              after == b.(host := Added(b.host, Sample(attr.slug, attr.kind, v, at, HOST)))
            else if o.entity.template != "" || !ValidKey(o.entity.key) then after == b
            else
              var s := Sample(attr.slug, attr.kind, v, at, t);
              && after.host == b.host
              && after.targets - {t} == b.targets - {t}
              && (t in after.targets <==> t in b.targets || CountOf(b.keys, src.owner) < MAX_KEYS_PER_MODULE)
              && (t in after.targets ==>
                    after.targets[t] == Added(if t in b.targets then b.targets[t] else Fresh(b.max), s))
              && CountOf(after.keys, src.owner) ==
                 CountOf(b.keys, src.owner) + (if t in after.targets && t !in b.targets then 1 else 0)
  {
    hide Added, KeyFaultOf, Validate, Kept, Routed, ValidKey, CountOf, Fresh, AfterFirst;
    var o, b := obs[i], AfterFirst(before, src, at, obs, i);
    OneStep(before, src, at, obs, i);
    HostAttributeKept(src, at, o);
    EmptyKeyIsBad();
    var attr := src.attrs[o.key];
    var v, t := Validate(attr.kind, attr.options, o.value).value, Target(src.owner, "", o.entity.key);
    if o.entity == Entity("", "") {
      RoutesHost(b, Sample(attr.slug, attr.kind, v, at, HOST));
    } else if o.entity.template == "" && ValidKey(o.entity.key) {
      RoutesEntity(b, Sample(attr.slug, attr.kind, v, at, t));
    }
  }

  lemma HostAttributeKept(src: Source, at: int, o: Observation)
    requires o.key in src.attrs && o.key !in src.links && "" !in src.entities
    requires var attr := src.attrs[o.key];
             attr.entityTemplate == "" && Validate(attr.kind, attr.options, o.value).Ok?
    ensures var attr := src.attrs[o.key];
            var v := Validate(attr.kind, attr.options, o.value).value;
            Kept(src, at)(o) ==
            if o.entity == Entity("", "") then [Sample(attr.slug, attr.kind, v, at, HOST)]
            else if o.entity.template == "" && ValidKey(o.entity.key)
            then [Sample(attr.slug, attr.kind, v, at, Target(src.owner, "", o.entity.key))] else []
  {
    hide KeyFaultOf, Validate;
    EmptyKeyIsBad();
  }

  lemma RoutesHost(b: Many, s: Sample)
    requires s.target == HOST
    ensures Routed(b, s) == b.(host := Added(b.host, s))
  {
    hide Added;
  }

  lemma RoutesEntity(b: Many, s: Sample)
    requires s.target != HOST
    ensures var t, after := s.target, Routed(b, s);
            && after.host == b.host
            && after.targets - {t} == b.targets - {t}
            && (t in after.targets <==> t in b.targets || CountOf(b.keys, t.owner) < MAX_KEYS_PER_MODULE)
            && (t in after.targets ==>
                  after.targets[t] == Added(if t in b.targets then b.targets[t] else Fresh(b.max), s))
            && CountOf(after.keys, t.owner) ==
               CountOf(b.keys, t.owner) + (if t in after.targets && t !in b.targets then 1 else 0)
  {
    hide Added, Fresh;
  }

  lemma EmptyKeyIsBad()
    ensures !ValidKey("")
  {}

  /** The observations that name no entity. */
  function Unnamed(obs: seq<Observation>): seq<Observation> {
    Gather(obs, (o: Observation) => if o.entity == Entity("", "") then [o] else [])
  }

  lemma NamedIsElsewhere(src: Source, at: int, o: Observation, s: Sample)
    requires src.owner != "" && s in Kept(src, at)(o)
    ensures s.target == HOST <==> o.entity == Entity("", "")
  {
    hide Validate, KeyFaultOf;
    EmptyKeyIsBad();
  }

  lemma AtMostOneKept(src: Source, at: int, o: Observation)
    ensures Kept(src, at)(o) == [] || exists s :: Kept(src, at)(o) == [s]
  {}

  lemma RouteMore(b: Many, samples: seq<Sample>, s: Sample)
    ensures RoutedAll(b, samples + [s]) == Routed(RoutedAll(b, samples), s)
  {
    assert (samples + [s])[..|samples|] == samples;
  }

  lemma HostRoute(b: Many, s: Sample)
    ensures Routed(b, s).host == if s.target == HOST then Added(b.host, s) else b.host
  {
    hide Added;
  }

  /** Over any readings, the host's buffer is what the observations that name no
      entity leave there: no other observation ever reaches it. */
  lemma {:induction false} HostGetsTheUnnamed(b: Many, src: Source, at: int, obs: seq<Observation>)
    requires src.owner != ""
    ensures RoutedAll(b, Gather(obs, Kept(src, at))).host == RoutedAll(b, Gather(Unnamed(obs), Kept(src, at))).host
  {
    hide Kept, Routed, Added;
    if obs != [] {
      var n := |obs| - 1;
      var o, mine := obs[n], Unnamed(obs[..n]);
      HostGetsTheUnnamed(b, src, at, obs[..n]);
      var all, few := Gather(obs[..n], Kept(src, at)), Gather(mine, Kept(src, at));
      assert (mine + [o])[..|mine|] == mine && mine + [] == mine;
      AtMostOneKept(src, at, o);
      if Kept(src, at)(o) == [] {
        assert all + [] == all && few + [] == few;
      } else {
        var s :| Kept(src, at)(o) == [s];
        NamedIsElsewhere(src, at, o, s);
        RouteMore(b, all, s);
        RouteMore(b, few, s);
        HostRoute(RoutedAll(b, all), s);
        HostRoute(RoutedAll(b, few), s);
      }
    }
  }
}
