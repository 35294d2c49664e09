/** Resolve as internal/manifest/resolve.go runs it, map by map, proved to report
    exactly the problems and to return the resolution of Manifest.dfy. The problem
    list is kept as whether it is empty. */
module ManifestCode {
  import opened Ordering
  import opened Schema
  import opened Manifest
  import opened ManifestSound

  method HasKey(m: Manifest, key: string) returns (has: bool)
    ensures has <==> KeyOf(m, key)
  {
    for i := 0 to |m.attributes|
      invariant forall j :: 0 <= j < i ==> m.attributes[j].key != key
    {
      if m.attributes[i].key == key {
        assert m.attributes[i] in m.attributes;
        return true;
      }
    }
    has := false;
  }

  method CheckOverride(m: Manifest, mo: ModuleOverride) returns (ok: bool)
    ensures ok <==> GoodOverride(m, mo)
  {
    ok := GoodSlug(mo.template);
    var rest := mo.attributes.Keys;
    while rest != {}
      invariant rest <= mo.attributes.Keys
      invariant ok <==> GoodSlug(mo.template) && forall key :: key in mo.attributes.Keys - rest ==>
                  KeyOf(m, key) && GoodSlug(mo.attributes[key].slug) && GoodSlug(mo.attributes[key].template)
    {
      var key :| key in rest;
      rest := rest - {key};
      var known := HasKey(m, key);
      if !known || !GoodSlug(mo.attributes[key].slug) || !GoodSlug(mo.attributes[key].template) {
        ok := false;
      }
    }
  }

  predicate OverrideFits(ms: seq<Manifest>, ov: Overrides, name: string)
    requires name in ov.modules
  {
    exists m :: m in ms && m.name == name && GoodOverride(m, ov.modules[name])
  }

  method CheckOverrides(ms: seq<Manifest>, ov: Overrides) returns (ok: bool)
    requires forall i, j :: 0 <= i < j < |ms| ==> ms[i].name != ms[j].name
    ensures ok <==> GoodOverrides(ms, ov)
  {
    hide GoodOverride;
    ok := GoodSlug(ov.hostTemplate);
    var byModule: map<string, Manifest> := map[];
    for i := 0 to |ms|
      invariant forall name :: name in byModule <==> exists j :: 0 <= j < i && ms[j].name == name
      invariant forall name :: name in byModule ==> byModule[name] in ms && byModule[name].name == name
    {
      byModule := byModule[ms[i].name := ms[i]];
    }
    assert forall m :: m in ms ==> m.name in byModule;
    var rest := ov.modules.Keys;
    while rest != {}
      invariant rest <= ov.modules.Keys
      invariant ok <==>
                GoodSlug(ov.hostTemplate) &&
                forall name :: name in ov.modules.Keys - rest ==> OverrideFits(ms, ov, name)
    {
      var name :| name in rest;
      assert ov.modules.Keys - (rest - {name}) == (ov.modules.Keys - rest) + {name};
      rest := rest - {name};
      if name !in byModule {
        assert !OverrideFits(ms, ov, name);
        ok := false;
      } else {
        var good := CheckOverride(byModule[name], ov.modules[name]);
        OnlyManifest(ms, ov, name, byModule[name]);
        if !good {
          ok := false;
        }
      }
    }
    assert (forall name :: name in ov.modules ==> OverrideFits(ms, ov, name)) <==>
           (forall name :: name in ov.modules ==>
              exists m :: m in ms && m.name == name && GoodOverride(m, ov.modules[name]));
  }

  lemma OnlyManifest(ms: seq<Manifest>, ov: Overrides, name: string, m: Manifest)
    requires forall i, j :: 0 <= i < j < |ms| ==> ms[i].name != ms[j].name
    requires name in ov.modules && m in ms && m.name == name
    ensures OverrideFits(ms, ov, name) <==> GoodOverride(m, ov.modules[name])
  {
    hide GoodOverride;
    if n :| n in ms && n.name == name && GoodOverride(n, ov.modules[name]) {
      var i :| 0 <= i < |ms| && ms[i] == m;
      var j :| 0 <= j < |ms| && ms[j] == n;
    }
  }

  // ------------------------------------------------------------- entities

  method CollectEntities(m: Manifest) returns (ents: seq<string>)
    ensures ents == EntitiesOf(m)
  {
    ents := [];
    var pick := (t: Template) => if t.entity then [t.slug] else [];
    for i := 0 to |m.templates|
      invariant ents == Gather(m.templates[..i], pick)
    {
      GatherStep(m.templates, i, pick);
      if m.templates[i].entity {
        ents := ents + [m.templates[i].slug];
      }
    }
    assert m.templates[..|m.templates|] == m.templates;
  }

  /** Whether a module override renames m's one entity template; it may not move
      the attributes of a module that has one any other way. */
  method RenameOf(ov: Overrides, m: Manifest, ents: seq<string>) returns (rename: string, ok: bool)
    requires ents == EntitiesOf(m) && ents != []
    ensures ok <==> (Given(ModuleOverrideOf(ov, m).template) ==> AllOnOne(m))
    ensures rename == if Renames(ov, m) then ModuleOverrideOf(ov, m).template else ""
  {
    hide EntitiesOf;
    var mo := ModuleOverrideOf(ov, m);
    rename, ok := "", true;
    if Given(mo.template) {
      var allOnOne := |ents| == 1;
      for i := 0 to |m.attributes|
        invariant allOnOne <==> |ents| == 1 && forall j :: 0 <= j < i ==> m.attributes[j].template == ents[0]
      {
        if m.attributes[i].template != ents[0] {
          allOnOne := false;
        }
      }
      assert allOnOne <==> AllOnOne(m);
      if allOnOne {
        rename := mo.template;
      } else {
        ok := false;
      }
    }
  }

  predicate Takes(ov: Overrides, m: Manifest, slug: string) {
    exists e :: e in EntitiesOf(m) && EntitySlug(ov, m, e) == slug
  }

  /** One manifest's entity templates: each gets its resolved slug, off the host and
      not owned by another module. */
  method PlaceEntities(ov: Overrides, m: Manifest, owner0: map<string, string>)
    returns (owner: map<string, string>, ok: bool)
    requires forall slug :: slug in owner0 ==> owner0[slug] != m.name
    ensures forall slug :: slug in owner <==> slug in owner0 || Takes(ov, m, slug)
    ensures forall slug :: slug in owner ==> owner[slug] == m.name || (slug in owner0 && owner[slug] == owner0[slug])
    ensures ok <==> GoodEntities(ov, m) && forall e :: e in EntitiesOf(m) ==> EntitySlug(ov, m, e) !in owner0
  {
    hide EntitiesOf, EntitySlug, AllOnOne, HostOf, Given;
    owner, ok := owner0, true;
    var ents := CollectEntities(m);
    if |ents| == 0 {
      return;
    }
    var rename, movable := RenameOf(ov, m, ents);
    ok := movable;
    for i := 0 to |ents|
      invariant forall slug :: slug in owner <==>
                slug in owner0 || exists j :: 0 <= j < i && EntitySlug(ov, m, ents[j]) == slug
      invariant forall slug :: slug in owner ==>
                owner[slug] == m.name || (slug in owner0 && owner[slug] == owner0[slug])
      invariant forall slug :: slug in owner0 && (forall j :: 0 <= j < i ==> EntitySlug(ov, m, ents[j]) != slug) ==>
                owner[slug] == owner0[slug]
      invariant ok ==> movable
      invariant ok ==>
                forall j :: 0 <= j < i ==>
                  EntitySlug(ov, m, ents[j]) != HostOf(ov) && EntitySlug(ov, m, ents[j]) !in owner0
      invariant !ok && movable ==>
                exists j :: 0 <= j < i &&
                  (EntitySlug(ov, m, ents[j]) == HostOf(ov) || EntitySlug(ov, m, ents[j]) in owner0)
    {
      var slug := if rename != "" then rename else ents[i];
      RenamedSlug(ov, m, ents[i], rename);
      if slug == HostOf(ov) {
        ok := false;
      }
      if slug in owner && owner[slug] != m.name {
        ok := false;
      }
      owner := owner[slug := m.name];
    }
  }

  lemma RenamedSlug(ov: Overrides, m: Manifest, e: string, rename: string)
    requires rename == if Renames(ov, m) then ModuleOverrideOf(ov, m).template else ""
    ensures EntitySlug(ov, m, e) == if rename != "" then rename else e
  {}

  // ---------------------------------------------- all entity templates

  /** Places the entity templates of all modules. */
  method PlaceAllEntities(ms: seq<Manifest>, ov: Overrides) returns (owner: map<string, string>, ok: bool)
    requires forall i, j :: 0 <= i < j < |ms| ==> ms[i].name != ms[j].name
    ensures forall slug :: slug in owner <==> EntityTaken(ms, ov, slug)
    ensures ok <==> (forall m :: m in ms ==> GoodEntities(ov, m)) && NoSharedEntity(ms, ov)
  {
    hide EntitiesOf, EntitySlug, GoodEntities;
    owner, ok := map[], true;
    for i := 0 to |ms|
      invariant forall slug :: slug in owner <==> exists j :: 0 <= j < i && Takes(ov, ms[j], slug)
      invariant forall slug :: slug in owner ==> exists j :: 0 <= j < i && owner[slug] == ms[j].name
      invariant ok <==> FirstAreGood(ms, ov, i)
    {
      var next, good := PlaceEntities(ov, ms[i], owner);
      FirstStep(ms, ov, i, owner);
      owner := next;
      if !good {
        ok := false;
      }
    }
    AllAreGood(ms, ov);
    forall slug ensures slug in owner <==> EntityTaken(ms, ov, slug) { TakenExactly(ms, ov, slug); }
  }

  /** The first n manifests' entity templates are well placed and shared by no two. */
  ghost predicate FirstAreGood(ms: seq<Manifest>, ov: Overrides, n: nat)
    requires n <= |ms|
  {
    && (forall i :: 0 <= i < n ==> GoodEntities(ov, ms[i]))
    && (forall i, j, slug :: 0 <= i < j < n && Takes(ov, ms[j], slug) ==> !Takes(ov, ms[i], slug))
  }

  lemma FirstStep(ms: seq<Manifest>, ov: Overrides, n: nat, owner: map<string, string>)
    requires n < |ms| && forall slug :: slug in owner <==> exists j :: 0 <= j < n && Takes(ov, ms[j], slug)
    ensures FirstAreGood(ms, ov, n + 1) <==>
              FirstAreGood(ms, ov, n) && GoodEntities(ov, ms[n]) &&
              forall e :: e in EntitiesOf(ms[n]) ==> EntitySlug(ov, ms[n], e) !in owner
  {
    hide EntitiesOf, EntitySlug, GoodEntities;
    if FirstAreGood(ms, ov, n + 1) {
      forall e | e in EntitiesOf(ms[n]) ensures EntitySlug(ov, ms[n], e) !in owner {
        assert Takes(ov, ms[n], EntitySlug(ov, ms[n], e));
      }
    }
  }

  lemma AllAreGood(ms: seq<Manifest>, ov: Overrides)
    requires forall i, j :: 0 <= i < j < |ms| ==> ms[i].name != ms[j].name
    ensures FirstAreGood(ms, ov, |ms|) <==> (forall m :: m in ms ==> GoodEntities(ov, m)) && NoSharedEntity(ms, ov)
  {
    hide EntitiesOf, EntitySlug, GoodEntities;
    if FirstAreGood(ms, ov, |ms|) {
      forall m, n, e, f | m in ms && n in ms && m.name != n.name && e in EntitiesOf(m) && f in EntitiesOf(n)
        ensures EntitySlug(ov, m, e) != EntitySlug(ov, n, f)
      {
        var i :| 0 <= i < |ms| && ms[i] == m;
        var j :| 0 <= j < |ms| && ms[j] == n;
        assert Takes(ov, m, EntitySlug(ov, m, e)) && Takes(ov, n, EntitySlug(ov, n, f));
      }
    }
    if (forall m :: m in ms ==> GoodEntities(ov, m)) && NoSharedEntity(ms, ov) {
      forall i, j, slug | 0 <= i < j < |ms| && Takes(ov, ms[j], slug) ensures !Takes(ov, ms[i], slug) {
        assert ms[i].name != ms[j].name;
      }
    }
  }

  lemma TakenExactly(ms: seq<Manifest>, ov: Overrides, slug: string)
    ensures EntityTaken(ms, ov, slug) <==> exists j :: 0 <= j < |ms| && Takes(ov, ms[j], slug)
  {
    hide EntitiesOf, EntitySlug;
    if EntityTaken(ms, ov, slug) {
      var m :| m in ms && exists e :: e in EntitiesOf(m) && EntitySlug(ov, m, e) == slug;
      var j :| 0 <= j < |ms| && ms[j] == m;
      assert Takes(ov, ms[j], slug);
    }
    if j :| 0 <= j < |ms| && Takes(ov, ms[j], slug) {
      assert ms[j] in ms;
    }
  }

  // ------------------------------------------------------------ templates

  /** The first declaration of a slug counts. */
  method Declare(templates: map<string, FoundTemplate>, t: FoundTemplate) returns (r: map<string, FoundTemplate>)
    ensures r == if t.slug in templates then templates else templates[t.slug := t]
  {
    r := templates;
    if t.slug !in r {
      r := r[t.slug := t];
    }
  }

  lemma FirstWinsStep(ts: seq<FoundTemplate>, t: FoundTemplate)
    ensures FirstWins(ts + [t]) == if t.slug in FirstWins(ts) then FirstWins(ts) else FirstWins(ts)[t.slug := t]
  {
    assert (ts + [t])[..|ts|] == ts;
  }

  method DeclareTemplates(ms: seq<Manifest>, ov: Overrides) returns (templates: map<string, FoundTemplate>)
    ensures templates == FirstWins([PlainTemplate(HostOf(ov))] + Gather(ms, TemplatesOf(ov)))
  {
    hide HostOf, EntitySlug, FirstWins;
    ghost var ts := [PlainTemplate(HostOf(ov))];
    FirstWinsStep([], PlainTemplate(HostOf(ov)));
    NoTemplates();
    templates := Declare(map[], PlainTemplate(HostOf(ov)));
    assert [] + ts == ts;
    for i := 0 to |ms|
      invariant ts == [PlainTemplate(HostOf(ov))] + Gather(ms[..i], TemplatesOf(ov))
      invariant templates == FirstWins(ts)
    {
      ghost var before, found := ts, TemplatesOf(ov)(ms[i]);
      GatherStep(ms, i, TemplatesOf(ov));
      for j := 0 to |ms[i].templates|
        invariant ts == before + found[..j] && templates == FirstWins(ts)
      {
        var t := ms[i].templates[j];
        var dt := PlainTemplate(t.slug);
        if t.entity {
          dt := FoundTemplate(EntitySlug(ov, ms[i], t.slug), true, ms[i].name, t.slug);
        }
        FirstWinsStep(ts, dt);
        templates := Declare(templates, dt);
        assert found[j] == dt && found[..j + 1] == found[..j] + [dt];
        ts := ts + [dt];
      }
      assert found[..|ms[i].templates|] == found;
    }
    assert ms[..|ms|] == ms;
  }

  lemma NoTemplates()
    ensures FirstWins([]) == map[]
  {}

  // ----------------------------------------------------------- attributes

  /** Where an attribute sits, and whether it may. */
  method PlaceOf(ms: seq<Manifest>, ov: Overrides, o: Owned, owner: map<string, string>)
    returns (tpl: string, entity: string, ok: bool)
    requires forall slug :: slug in owner <==> EntityTaken(ms, ov, slug)
    ensures tpl == TemplateOf(ov, o) && entity == (if o.a.template in EntitiesOf(o.m) then o.a.template else "")
    ensures ok <==> GoodPlace(ms, ov, o)
  {
    hide EntityTaken, EntitySlug, EntitiesOf;
    var ao, mo := OverrideOf(ov, o), ModuleOverrideOf(ov, o.m);
    var ents := CollectEntities(o.m);
    tpl, entity, ok := HostOf(ov), "", true;
    if o.a.template in ents {
      tpl := EntitySlug(ov, o.m, o.a.template);
      entity := o.a.template;
      if ao.template != "" && ao.template != tpl {
        ok := false;
      }
    } else {
      if ao.template != "" && ValidSlug(ao.template) {
        tpl := ao.template;
      } else if mo.template != "" && ValidSlug(mo.template) {
        tpl := mo.template;
      } else if o.a.template != "" {
        tpl := o.a.template;
      }
      if tpl in owner {
        ok := false;
      }
    }
  }

  lemma AttributeMapStep(ov: Overrides, os: seq<Owned>, i: nat)
    requires i < |os|
    ensures AttributeMap(ov, os[..i + 1]) ==
            (var before, r := AttributeMap(ov, os[..i]), Placed(ov, os[i]);
             if r.slug in before then before else before[r.slug := r])
  {
    assert os[..i + 1][..i] == os[..i];
  }

  /** As long as no slug was taken, the map holds the slugs seen so far. */
  lemma DistinctStep(ov: Overrides, os: seq<Owned>, i: nat)
    requires i < |os| && DistinctResolved(ov, os[..i])
    ensures DistinctResolved(ov, os[..i + 1]) <==> SlugOf(ov, os[i]) !in AttributeMap(ov, os[..i])
  {
    hide SlugOf, AttributeMap, Placed;
    var before, more := os[..i], os[..i + 1];
    assert more == before + [os[i]];
    AttributeMapExactly(ov, before);
    if SlugOf(ov, os[i]) in AttributeMap(ov, before) {
      var o :| o in before && SlugOf(ov, o) == SlugOf(ov, os[i]);
      var j :| 0 <= j < i && before[j] == o;
      assert SlugOf(ov, more[j]) == SlugOf(ov, more[i]);
    } else {
      forall j | 0 <= j < i ensures SlugOf(ov, more[j]) != SlugOf(ov, more[i]) { assert before[j] in before; }
    }
  }

  lemma StillShared(ov: Overrides, os: seq<Owned>, i: nat)
    requires i < |os| && !DistinctResolved(ov, os[..i])
    ensures !DistinctResolved(ov, os[..i + 1])
  {
    hide SlugOf;
    var j, k :| 0 <= j < k < i && SlugOf(ov, os[..i][j]) == SlugOf(ov, os[..i][k]);
    assert SlugOf(ov, os[..i + 1][j]) == SlugOf(ov, os[..i + 1][k]);
  }

  /** Resolves every attribute: its slug, its template, declared if it was not. */
  method ResolveAttributes(ms: seq<Manifest>, ov: Overrides, owner: map<string, string>,
                           declared: map<string, FoundTemplate>,
                           ghost ts: seq<FoundTemplate>)
    returns (attrs: map<string, FoundAttribute>, templates: map<string, FoundTemplate>, ok: bool)
    requires forall slug :: slug in owner <==> EntityTaken(ms, ov, slug)
    requires declared == FirstWins(ts)
    ensures attrs == AttributeMap(ov, All(ms))
    ensures templates == FirstWins(ts + Gather(All(ms), TemplateFor(ov)))
    ensures ok <==> (forall o :: o in All(ms) ==> GoodPlace(ms, ov, o)) && DistinctResolved(ov, All(ms))
  {
    hide All, EntityTaken, TemplateOf, SlugOf, HostOf, GoodPlace, FirstWins, AttributeMap, DistinctResolved,
         EntitiesOf, Given, OverrideOf;
    var os := All(ms);
    attrs, templates, ok := map[], declared, true;
    NoAttributes(ov, ts, os);
    for i := 0 to |os|
      invariant attrs == AttributeMap(ov, os[..i])
      invariant templates == FirstWins(ts + Gather(os[..i], TemplateFor(ov)))
      invariant ok <==> (forall j :: 0 <= j < i ==> GoodPlace(ms, ov, os[j])) && DistinctResolved(ov, os[..i])
    {
      var o := os[i];
      var slug := AttributeSlug(ov, o);
      var tpl, entity, placed := PlaceOf(ms, ov, o, owner);
      var da := FoundAttribute(slug, o.a.kind, o.a.options, tpl, o.m.name, o.a.key, entity,
                               if o.a.kind.KReference? then HostOf(ov) else "", "");
      assert da == Placed(ov, o);
      DeclareStep(ov, ts, os, i);
      AttributeMapStep(ov, os, i);
      if DistinctResolved(ov, os[..i]) { DistinctStep(ov, os, i); } else { StillShared(ov, os, i); }
      templates := Declare(templates, PlainTemplate(tpl));
      if !placed {
        ok := false;
      }
      if slug in attrs {
        ok := false;
      } else {
        attrs := attrs[slug := da];
      }
    }
    assert os[..|os|] == os;
  }

  method AttributeSlug(ov: Overrides, o: Owned) returns (slug: string)
    ensures slug == SlugOf(ov, o)
  {
    slug := o.a.slug;
    var ao := OverrideOf(ov, o);
    if ao.slug != "" && ValidSlug(ao.slug) {
      slug := ao.slug;
    }
  }

  lemma NoAttributes(ov: Overrides, ts: seq<FoundTemplate>, os: seq<Owned>)
    ensures AttributeMap(ov, os[..0]) == map[] && DistinctResolved(ov, os[..0])
    ensures ts + Gather(os[..0], TemplateFor(ov)) == ts
  {}

  lemma DeclareStep(ov: Overrides, ts: seq<FoundTemplate>, os: seq<Owned>, i: nat)
    requires i < |os|
    ensures var before, t := FirstWins(ts + Gather(os[..i], TemplateFor(ov))), PlainTemplate(TemplateOf(ov, os[i]));
            FirstWins(ts + Gather(os[..i + 1], TemplateFor(ov))) ==
            if t.slug in before then before else before[t.slug := t]
  {
    hide TemplateOf, FirstWins;
    var t := PlainTemplate(TemplateOf(ov, os[i]));
    GatherStep(os, i, TemplateFor(ov));
    assert ts + Gather(os[..i + 1], TemplateFor(ov)) == (ts + Gather(os[..i], TemplateFor(ov))) + [t];
    FirstWinsStep(ts + Gather(os[..i], TemplateFor(ov)), t);
  }

  // -------------------------------------------------------------- display

  /** display is the best label of the first i attributes. */
  ghost predicate BestOf(ov: Overrides, os: seq<Owned>, i: nat, display: string, rank: int)
    requires i <= |os|
  {
    if display == "" then rank == 0 && forall j :: 0 <= j < i ==> !IsLabel(ov, os[j])
    else
      exists k :: 0 <= k < i && IsLabel(ov, os[k]) && SlugOf(ov, os[k]) == display && os[k].a.rank == rank &&
        forall j :: 0 <= j < i && IsLabel(ov, os[j]) ==> Outranks(ov, os[k], os[j])
  }

  lemma BetterLabel(ov: Overrides, os: seq<Owned>, i: nat, display: string, rank: int)
    requires i < |os| && BestOf(ov, os, i, display, rank) && SlugOf(ov, os[i]) != ""
    ensures var slug := SlugOf(ov, os[i]);
            var better := os[i].a.rank > rank || (os[i].a.rank == rank && slug != display && StringLe(slug, display));
            if IsLabel(ov, os[i]) && better then BestOf(ov, os, i + 1, slug, os[i].a.rank)
            else BestOf(ov, os, i + 1, display, rank)
  {
    hide SlugOf, TemplateOf, HostOf, StringLe;
    forall a: string, b: string ensures StringLe(a, b) || StringLe(b, a) { StringLeTotal(a, b); }
    forall a: string ensures StringLe(a, a) { StringLeReflexive(a); }
    var slug := SlugOf(ov, os[i]);
    if display != "" && IsLabel(ov, os[i]) {
      var k :| 0 <= k < i && IsLabel(ov, os[k]) && SlugOf(ov, os[k]) == display && os[k].a.rank == rank &&
        forall j :: 0 <= j < i && IsLabel(ov, os[j]) ==> Outranks(ov, os[k], os[j]);
      forall j | 0 <= j < i && IsLabel(ov, os[j]) && StringLe(slug, display) && StringLe(display, SlugOf(ov, os[j]))
        ensures StringLe(slug, SlugOf(ov, os[j]))
      {
        StringLeTransitive(slug, display, SlugOf(ov, os[j]));
      }
    }
  }

  /** The highest-ranked label on the host template, the smaller slug of equals. */
  method FindDisplay(ms: seq<Manifest>, ov: Overrides, attrs: map<string, FoundAttribute>) returns (display: string)
    requires attrs == AttributeMap(ov, All(ms)) && DistinctResolved(ov, All(ms)) && Valid(ms)
    ensures display == "" ==> Displays(ms, ov, None)
    ensures display != "" ==> Displays(ms, ov, Some(display))
  {
    hide All, SlugOf, HostOf, StringLe, AttributeMap, IsLabel, BestOf, Valid, DistinctResolved, Displays;
    var os := All(ms);
    var rank: int;
    display, rank := "", 0;
    NoLabelYet(ov, os);
    AttributeMapExactly(ov, os);
    for i := 0 to |os|
      invariant BestOf(ov, os, i, display, rank)
    {
      var o := os[i];
      assert o in os;
      SlugNotEmpty(ms, ov, o);
      BetterLabel(ov, os, i, display, rank);
      LabelMeans(ov, o);
      var da := attrs[SlugOf(ov, o)];
      if o.a.rank <= 0 || da.template != HostOf(ov) {
        continue;
      }
      if o.a.rank > rank || (o.a.rank == rank && da.slug != display && StringLe(da.slug, display)) {
        display, rank := da.slug, o.a.rank;
      }
    }
    BestDisplays(ms, ov, display, rank);
  }

  lemma NoLabelYet(ov: Overrides, os: seq<Owned>)
    ensures BestOf(ov, os, 0, "", 0)
  {}

  lemma LabelMeans(ov: Overrides, o: Owned)
    ensures IsLabel(ov, o) <==> o.a.rank > 0 && Placed(ov, o).template == HostOf(ov)
    ensures Placed(ov, o).slug == SlugOf(ov, o)
  {}

  lemma SlugNotEmpty(ms: seq<Manifest>, ov: Overrides, o: Owned)
    requires Valid(ms) && o in All(ms)
    ensures SlugOf(ov, o) != ""
  {
    AllMembers(ms, o);
    assert ValidManifest(o.m) && ValidAttribute(o.m, o.a);
  }

  lemma BestDisplays(ms: seq<Manifest>, ov: Overrides, display: string, rank: int)
    requires BestOf(ov, All(ms), |All(ms)|, display, rank)
    ensures Displays(ms, ov, if display == "" then None else Some(display))
  {
    hide All, IsLabel, SlugOf, Outranks;
    var os := All(ms);
    if display == "" {
      forall o | o in os ensures !IsLabel(ov, o) {
        var j :| 0 <= j < |os| && os[j] == o;
      }
    } else {
      var k :| 0 <= k < |os| && IsLabel(ov, os[k]) && SlugOf(ov, os[k]) == display && os[k].a.rank == rank &&
        forall j :: 0 <= j < |os| && IsLabel(ov, os[j]) ==> Outranks(ov, os[k], os[j]);
      assert os[k] in os;
      forall p | p in os && IsLabel(ov, p) ensures Outranks(ov, os[k], p) {
        var j :| 0 <= j < |os| && os[j] == p;
      }
    }
  }

  // -------------------------------------------------------------- resolve

  /** Puts the display on every host link; without a label there is nothing to show. */
  method LinkAll(attrs: map<string, FoundAttribute>, display: string)
    returns (linked: map<string, FoundAttribute>, ok: bool)
    ensures linked == LinkedAll(attrs, if display == "" then None else Some(display))
    ensures ok <==> display != "" || forall k :: k in attrs ==> !attrs[k].kind.KReference?
  {
    linked, ok := attrs, true;
    var rest := attrs.Keys;
    while rest != {}
      invariant rest <= attrs.Keys && linked.Keys == attrs.Keys
      invariant forall k :: k in attrs ==>
                  linked[k] ==
                  if k in rest then attrs[k] else Linked(attrs[k], if display == "" then None else Some(display))
      invariant ok <==> display != "" || forall k :: k in attrs.Keys - rest ==> !attrs[k].kind.KReference?
    {
      var slug :| slug in rest;
      rest := rest - {slug};
      var da := attrs[slug];
      if da.kind != KReference {
        continue;
      }
      if display == "" {
        ok := false;
        continue;
      }
      linked := linked[slug := da.(display := display)];
    }
  }

  method CollectTemplates(m: map<string, FoundTemplate>) returns (values: seq<FoundTemplate>)
    ensures values == ByKey(m)
  {
    hide SortedKeys;
    var keys := SortedListing(m.Keys);
    values := [];
    for i := 0 to |keys|
      invariant |values| == i && forall j :: 0 <= j < i ==> values[j] == m[keys[j]]
    {
      values := values + [m[keys[i]]];
    }
  }

  method CollectAttributes(m: map<string, FoundAttribute>) returns (values: seq<FoundAttribute>)
    ensures values == ByKey(m)
  {
    hide SortedKeys;
    var keys := SortedListing(m.Keys);
    values := [];
    for i := 0 to |keys|
      invariant |values| == i && forall j :: 0 <= j < i ==> values[j] == m[keys[j]]
    {
      values := values + [m[keys[i]]];
    }
  }

  /** Applies overrides to validated manifests: an error exactly when there is
      something to report, else the resolved schema. */
  method Resolve(ms: seq<Manifest>, ov: Overrides) returns (r: Option<Resolution>)
    requires Valid(ms)
    ensures r.Some? <==> Clean(ms, ov)
    ensures r.Some? ==> Resolves(ms, ov, r.value)
  {
    hide All, ValidManifest, DistinctSlugs, GoodOverrides, GoodEntities, NoSharedEntity, GoodPlace, DistinctResolved,
         EntityTaken,
         FirstWins, AttributeMap, LinkedAll, ByKey, Displays, HostOf, IsLabel, TemplatesOf, TemplateFor;
    var fits := CheckOverrides(ms, ov);
    var owner, entities := PlaceAllEntities(ms, ov);
    var declared := DeclareTemplates(ms, ov);
    ghost var ts := [PlainTemplate(HostOf(ov))] + Gather(ms, TemplatesOf(ov));
    var attrs, templates, placed := ResolveAttributes(ms, ov, owner, declared, ts);
    if !fits || !entities || !placed {
      return None;
    }
    var display := FindDisplay(ms, ov, attrs);
    var linked, shown := LinkAll(attrs, display);
    ShownExactly(ms, ov, attrs, display, shown);
    if !shown {
      return None;
    }
    assert templates == FirstWins(Declarations(ms, ov));
    var sortedTemplates := CollectTemplates(templates);
    var sortedAttributes := CollectAttributes(linked);
    r := Some(Resolution(HostOf(ov), sortedTemplates, sortedAttributes));
  }

  lemma ShownExactly(ms: seq<Manifest>, ov: Overrides, attrs: map<string, FoundAttribute>, display: string, ok: bool)
    requires attrs == AttributeMap(ov, All(ms)) && DistinctResolved(ov, All(ms))
    requires ok <==> display != "" || forall k :: k in attrs ==> !attrs[k].kind.KReference?
    requires display == "" ==> Displays(ms, ov, None)
    requires display != "" ==> Displays(ms, ov, Some(display))
    ensures ok <==> LinksShow(ms, ov)
  {
    hide All, AttributeMap, DistinctResolved, IsLabel, SlugOf, Outranks;
    AttributeMapExactly(ov, All(ms));
    if display == "" {
      if o :| o in All(ms) && o.a.kind.KReference? {
        assert attrs[SlugOf(ov, o)] == Placed(ov, o);
      }
      forall k | k in attrs && attrs[k].kind.KReference? ensures exists o :: o in All(ms) && o.a.kind.KReference? {
        var o :| o in All(ms) && SlugOf(ov, o) == k;
        assert attrs[k] == Placed(ov, o);
      }
    }
  }
}
