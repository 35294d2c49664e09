/** Resolution keeps host links, labels and places, whatever the order of manifests
    and maps, and its result never violates the plan order. */
module ManifestTheorems {
  import opened Ordering
  import opened Schema
  import opened SchemaPlan
  import opened SchemaHost
  import opened SchemaRuns
  import opened Text
  import opened Manifest
  import opened ManifestSound

  /** From validated manifests that resolve, no run of apply, with any answers, any
      re-plans and the verification pass, stops because the plan order was violated;
      and when it succeeds it knows the id of everything that was declared. */
  lemma PlanOrderHoldsEndToEnd(ms: seq<Manifest>, ov: Overrides, d: Resolution, delays: nat, cur: Current,
                               script: nat -> Tick, n: nat)
    requires Valid(ms) && Clean(ms, ov) && Resolves(ms, ov, d)
    ensures var h := Run(ToSchema(d), delays, Start(ToSchema(d), cur), script, 0, n);
            && !(h.Stopped? && h.why.OrderViolated?)
            && (h.Succeeded? ==> AllKnown(ToSchema(d), h.log.resolved))
  {
    hide Run, Valid, Clean, Resolves, WellFormed, Start;
    ResolutionIsWellFormed(ms, ov, d);
    PlanOrderNeverViolated(ToSchema(d), delays, cur, script, n);
  }

  /** An attribute sits where the precedence puts it, under its resolved slug. */
  lemma AttributePlacedExactly(ms: seq<Manifest>, ov: Overrides, d: Resolution, o: Owned)
    requires Clean(ms, ov) && Resolves(ms, ov, d) && o in All(ms)
    ensures exists r :: r in d.attributes && r.slug == SlugOf(ov, o) && r.owner == o.m.name && r.key == o.a.key
                        && r.template == TemplateOf(ov, o) && r.kind == o.a.kind && r.options == o.a.options
                        && (forall q :: q in d.attributes && q.slug == r.slug ==> q == r)
                        && (o.a.template !in EntitiesOf(o.m) ==> !EntityTaken(ms, ov, r.template))
  {
    hide All, SlugOf, TemplateOf, HostOf, EntitiesOf, EntityTaken, LinkedAll, AttributeMap, ByKey, StringLe, Displays,
         GoodOverrides, GoodEntities, NoSharedEntity, LinksShow, DistinctResolved;
    var display :| Displays(ms, ov, display) && d.attributes == ByKey(LinkedAll(AttributeMap(ov, All(ms)), display));
    AttributesExactly(ms, ov, d.attributes, display);
    var r := Linked(Placed(ov, o), display);
    assert r in d.attributes;
    assert GoodPlace(ms, ov, o);
    forall q | q in d.attributes && q.slug == r.slug ensures q == r {
      var i :| 0 <= i < |d.attributes| && d.attributes[i] == q;
      var j :| 0 <= j < |d.attributes| && d.attributes[j] == r;
    }
  }

  lemma SameName(ms: seq<Manifest>, m: Manifest, n: Manifest)
    requires Valid(ms) && m in ms && n in ms && m.name == n.name
    ensures m == n
  {
    var i :| 0 <= i < |ms| && ms[i] == m;
    var j :| 0 <= j < |ms| && ms[j] == n;
  }

  lemma SameEntity(ov: Overrides, m: Manifest, e: string, f: string)
    requires e in EntitiesOf(m) && f in EntitiesOf(m) && EntitySlug(ov, m, e) == EntitySlug(ov, m, f)
    ensures e == f
  {
    hide EntitiesOf;
    var i :| 0 <= i < |EntitiesOf(m)| && EntitiesOf(m)[i] == e;
    var j :| 0 <= j < |EntitiesOf(m)| && EntitiesOf(m)[j] == f;
  }

  /** A reference on an entity template's resolved slug is that template's own link. */
  lemma LinkIsOwn(ms: seq<Manifest>, ov: Overrides, m: Manifest, e: string, o: Owned)
    requires Valid(ms) && Clean(ms, ov) && m in ms && IsEntity(m, e)
    requires o in All(ms) && o.a.kind.KReference? && TemplateOf(ov, o) == EntitySlug(ov, m, e)
    ensures o.m == m && IsLink(o.a, e)
  {
    hide All, GoodOverrides, GoodEntities, LinksShow, DistinctResolved, DistinctSlugs, GoodPlace, EntitySlug,
         EntitiesOf, HostOf;
    AllMembers(ms, o);
    assert ValidManifest(o.m) && ValidTarget(o.m, o.a);
    EntitiesMembers(o.m, o.a.template);
    EntitiesMembers(m, e);
    assert o.m.name != m.name ==> EntitySlug(ov, o.m, o.a.template) != EntitySlug(ov, m, e);
    SameName(ms, o.m, m);
    SameEntity(ov, m, o.a.template, e);
  }

  /** The one declared host link of an entity template. */
  lemma TheLink(ms: seq<Manifest>, ov: Overrides, m: Manifest, e: string) returns (o: Owned)
    requires Valid(ms) && Clean(ms, ov) && m in ms && IsEntity(m, e)
    ensures o in All(ms) && o.m == m && o.a.kind.KReference? && TemplateOf(ov, o) == EntitySlug(ov, m, e)
    ensures forall p :: p in All(ms) && p.a.kind.KReference? && TemplateOf(ov, p) == EntitySlug(ov, m, e) ==> p == o
  {
    hide All, TemplateOf, EntitySlug, Clean, DistinctSlugs;
    assert ValidManifest(m) && OneLink(m, e);
    var i :| 0 <= i < |m.attributes| && IsLink(m.attributes[i], e) &&
      forall j :: 0 <= j < |m.attributes| && IsLink(m.attributes[j], e) ==> j == i;
    o := Owned(m, m.attributes[i]);
    AllMembers(ms, o);
    OnEntity(ov, o);
    forall p | p in All(ms) && p.a.kind.KReference? && TemplateOf(ov, p) == EntitySlug(ov, m, e) ensures p == o {
      LinkIsOwn(ms, ov, m, e, p);
      AllMembers(ms, p);
      var j :| 0 <= j < |m.attributes| && m.attributes[j] == p.a;
    }
  }

  /** A host link on the template of that slug. */
  predicate IsLinkOn(r: FoundAttribute, slug: string) { r.kind.KReference? && r.template == slug }

  /** Every entity template keeps exactly one host link, whatever is remapped. */
  lemma EntityKeepsOneLink(ms: seq<Manifest>, ov: Overrides, d: Resolution, m: Manifest, e: string)
    requires Valid(ms) && Clean(ms, ov) && Resolves(ms, ov, d) && m in ms && IsEntity(m, e)
    ensures exists r :: r in d.attributes && r.owner == m.name && IsLinkOn(r, EntitySlug(ov, m, e)) &&
                        forall q :: q in d.attributes && IsLinkOn(q, EntitySlug(ov, m, e)) ==> q == r
  {
    hide All, SlugOf, TemplateOf, HostOf, EntitiesOf, LinkedAll, AttributeMap, ByKey, StringLe, Displays, Clean, Valid,
         EntitySlug, IsEntity;
    var display :| Displays(ms, ov, display) && d.attributes == ByKey(LinkedAll(AttributeMap(ov, All(ms)), display));
    CleanIsDistinct(ms, ov);
    AttributesExactly(ms, ov, d.attributes, display);
    var o := TheLink(ms, ov, m, e);
    var r := Linked(Placed(ov, o), display);
    assert r in d.attributes;
    forall q | q in d.attributes && q.kind.KReference? && q.template == EntitySlug(ov, m, e) ensures q == r {
      var p :| p in All(ms) && q == Linked(Placed(ov, p), display);
    }
  }

  lemma CleanIsDistinct(ms: seq<Manifest>, ov: Overrides)
    requires Clean(ms, ov)
    ensures DistinctResolved(ov, All(ms)) && LinksShow(ms, ov)
  {}

  lemma OnEntity(ov: Overrides, o: Owned)
    requires IsEntity(o.m, o.a.template)
    ensures TemplateOf(ov, o) == EntitySlug(ov, o.m, o.a.template)
  {
    EntitiesMembers(o.m, o.a.template);
  }

  /** Every host link points at the host template and shows its best label. */
  lemma LinksShowTheBestLabel(ms: seq<Manifest>, ov: Overrides, d: Resolution, r: FoundAttribute)
    requires Clean(ms, ov) && Resolves(ms, ov, d) && r in d.attributes && r.kind.KReference?
    ensures r.target == d.host
    ensures exists o :: o in All(ms) && IsLabel(ov, o) && SlugOf(ov, o) == r.display &&
                        forall p :: p in All(ms) && IsLabel(ov, p) ==> Outranks(ov, o, p)
  {
    hide All, SlugOf, TemplateOf, HostOf, EntitiesOf, LinkedAll, AttributeMap, ByKey, StringLe, IsLabel, Clean,
         Outranks;
    var display :| Displays(ms, ov, display) && d.attributes == ByKey(LinkedAll(AttributeMap(ov, All(ms)), display));
    CleanIsDistinct(ms, ov);
    AttributesExactly(ms, ov, d.attributes, display);
    var o :| o in All(ms) && r == Linked(Placed(ov, o), display);
    assert o.a.kind.KReference?;
    assert exists p :: p in All(ms) && IsLabel(ov, p);
  }

  // ----------------------------------------------------- order is irrelevant

  lemma DisplayUnique(ms: seq<Manifest>, ms': seq<Manifest>, ov: Overrides, a: Option<string>, b: Option<string>)
    requires forall o :: o in All(ms) <==> o in All(ms')
    requires Displays(ms, ov, a) && Displays(ms', ov, b)
    ensures a == b
  {
    hide All, IsLabel, SlugOf, StringLe;
    if a.Some? && b.Some? {
      var o :| o in All(ms) && IsLabel(ov, o) && SlugOf(ov, o) == a.value &&
        forall p :: p in All(ms) && IsLabel(ov, p) ==> Outranks(ov, o, p);
      var q :| q in All(ms') && IsLabel(ov, q) && SlugOf(ov, q) == b.value &&
        forall p :: p in All(ms') && IsLabel(ov, p) ==> Outranks(ov, q, p);
      assert Outranks(ov, o, q) && Outranks(ov, q, o);
      StringLeAntisymmetric(a.value, b.value);
    }
  }

  lemma SameMembers(ms: seq<Manifest>, ms': seq<Manifest>)
    requires multiset(ms) == multiset(ms')
    ensures forall m :: m in ms <==> m in ms'
    ensures forall o :: o in All(ms) <==> o in All(ms')
  {
    hide All;
    assert forall m :: m in ms <==> m in multiset(ms);
    assert forall m :: m in ms' <==> m in multiset(ms');
    forall o ensures o in All(ms) <==> o in All(ms') {
      AllMembers(ms, o);
      AllMembers(ms', o);
    }
  }

  lemma SameDeclared(ms: seq<Manifest>, ms': seq<Manifest>, ov: Overrides, t: FoundTemplate)
    requires forall m :: m in ms <==> m in ms'
    requires forall o :: o in All(ms) <==> o in All(ms')
    ensures t in Declarations(ms, ov) <==> t in Declarations(ms', ov)
  {
    hide All, Declarations, TemplatesOf, TemplateOf, HostOf;
    DeclaredExactly(ms, ov, t);
    DeclaredExactly(ms', ov, t);
  }

  /** The declared slugs, which is all of a template that planning sees. */
  lemma SlugsByKey(ts: seq<FoundTemplate>)
    ensures var keys := set t | t in ts :: t.slug;
            && |ByKey(FirstWins(ts))| == |SortedKeys(keys)|
            && forall i :: 0 <= i < |ByKey(FirstWins(ts))| ==> ByKey(FirstWins(ts))[i].slug == SortedKeys(keys)[i]
  {
    hide SortedKeys, FirstWins;
    FirstWinsKeys(ts);
    assert FirstWins(ts).Keys == set t | t in ts :: t.slug;
    var keys := SortedKeys(FirstWins(ts).Keys);
    forall i | 0 <= i < |keys| ensures FirstWins(ts)[keys[i]].slug == keys[i] { assert keys[i] in keys; }
  }

  /** Neither the order of the manifests nor that of any map shows in what is
      planned: the resolved attributes are the same, and so is the schema that
      planning sees. With the same manifest order, nothing of it shows at all. */
  lemma ResolutionIgnoresOrder(ms: seq<Manifest>, ms': seq<Manifest>, ov: Overrides, d: Resolution, d': Resolution)
    requires multiset(ms) == multiset(ms')
    requires Clean(ms, ov) && Resolves(ms, ov, d) && Clean(ms', ov) && Resolves(ms', ov, d')
    ensures d.attributes == d'.attributes && d.host == d'.host
    ensures ToSchema(d) == ToSchema(d')
    ensures ms == ms' ==> d == d'
  {
    hide All, SlugOf, HostOf, LinkedAll, AttributeMap, ByKey, Displays, Clean, Placed, FirstWins, Declarations,
         SortedKeys;
    var a :| Displays(ms, ov, a) && d.attributes == ByKey(LinkedAll(AttributeMap(ov, All(ms)), a));
    var b :| Displays(ms', ov, b) && d'.attributes == ByKey(LinkedAll(AttributeMap(ov, All(ms')), b));
    CleanIsDistinct(ms, ov);
    CleanIsDistinct(ms', ov);
    SameMembers(ms, ms');
    DisplayUnique(ms, ms', ov, a, b);
    MapsAgree(ov, All(ms), All(ms'));
    var ts, ts' := Declarations(ms, ov), Declarations(ms', ov);
    forall t ensures t in ts <==> t in ts' { SameDeclared(ms, ms', ov, t); }
    assert (set t | t in ts :: t.slug) == (set t | t in ts' :: t.slug);
    SlugsByKey(ts);
    SlugsByKey(ts');
    assert ToSchema(d).templates == ToSchema(d').templates;
  }

  lemma MapsAgree(ov: Overrides, os: seq<Owned>, os': seq<Owned>)
    requires DistinctResolved(ov, os) && DistinctResolved(ov, os') && forall o :: o in os <==> o in os'
    ensures AttributeMap(ov, os) == AttributeMap(ov, os')
  {
    hide SlugOf, DistinctResolved, Placed, AttributeMap;
    AttributeMapExactly(ov, os);
    AttributeMapExactly(ov, os');
    var a, b := AttributeMap(ov, os), AttributeMap(ov, os');
    forall k | k in a ensures k in b && a[k] == b[k] {
      var o :| o in os && SlugOf(ov, o) == k;
    }
    forall k | k in b ensures k in a {
      var o :| o in os' && SlugOf(ov, o) == k;
    }
  }

  // ----------------------------------------------- entity templates kept

  /** The first declaration of a slug is the one that counts. */
  lemma {:induction false} FirstWinsIsFirst(ts: seq<FoundTemplate>, i: nat)
    requires i < |ts| && forall j :: 0 <= j < i ==> ts[j].slug != ts[i].slug
    ensures ts[i].slug in FirstWins(ts) && FirstWins(ts)[ts[i].slug] == ts[i]
  {
    var n := |ts| - 1;
    if i < n {
      FirstWinsIsFirst(ts[..n], i);
    } else {
      FirstWinsKeys(ts[..n]);
      forall t | t in ts[..n] ensures t.slug != ts[i].slug {
        var j :| 0 <= j < n && ts[..n][j] == t;
        assert ts[j] == t;
      }
    }
  }

  lemma {:induction false} FirstIndex(ts: seq<FoundTemplate>, slug: string) returns (i: nat)
    requires exists t :: t in ts && t.slug == slug
    ensures i < |ts| && ts[i].slug == slug && forall j :: 0 <= j < i ==> ts[j].slug != slug
  {
    i := 0;
    while i < |ts| && ts[i].slug != slug
      invariant i <= |ts| && forall j :: 0 <= j < i ==> ts[j].slug != slug
    {
      i := i + 1;
    }
    var t :| t in ts && t.slug == slug;
    var k :| 0 <= k < |ts| && ts[k] == t;
  }

  lemma EntityDeclared(ms: seq<Manifest>, ov: Overrides, slug: string)
    requires EntityTaken(ms, ov, slug)
    ensures exists t :: t in Gather(ms, TemplatesOf(ov)) && t.slug == slug
  {
    hide EntitySlug;
    var m :| m in ms && exists e :: e in EntitiesOf(m) && EntitySlug(ov, m, e) == slug;
    var e :| e in EntitiesOf(m) && EntitySlug(ov, m, e) == slug;
    EntitiesMembers(m, e);
    var t :| t in m.templates && t.entity && t.slug == e;
    var i :| 0 <= i < |m.templates| && m.templates[i] == t;
    var f := TemplatesOf(ov)(m)[i];
    GatherMember(ms, TemplatesOf(ov), f);
    assert f in TemplatesOf(ov)(m);
    assert f.slug == slug;
  }

  /** A plain template of the slug is declared before every entity template of it. */
  predicate PlainFirst(ts: seq<FoundTemplate>, slug: string) {
    exists j :: 0 <= j < |ts| && ts[j] == PlainTemplate(slug) &&
      forall k :: 0 <= k < j && ts[k].slug == slug ==> !ts[k].entity
  }

  lemma FirstDecides(ts: seq<FoundTemplate>, i: nat, slug: string)
    requires i < |ts| && ts[i].slug == slug && forall j :: 0 <= j < i ==> ts[j].slug != slug
    requires !ts[i].entity ==> ts[i] == PlainTemplate(slug)
    ensures ts[i].entity <==> !PlainFirst(ts, slug)
  {
    if PlainFirst(ts, slug) {
      var j :| 0 <= j < |ts| && ts[j] == PlainTemplate(slug) &&
        forall k :: 0 <= k < j && ts[k].slug == slug ==> !ts[k].entity;
      assert i <= j;
    }
  }

  lemma PlainOrEntity(ms: seq<Manifest>, ov: Overrides, t: FoundTemplate)
    requires t in Gather(ms, TemplatesOf(ov)) && !t.entity
    ensures t == PlainTemplate(t.slug)
  {
    GatherMember(ms, TemplatesOf(ov), t);
  }

  /** The resolved schema has one template of an entity template's slug, and
      describes it as an entity template exactly when no plain template of that slug
      is declared before every entity template of it. */
  lemma EntityTemplateKeptExactly(ms: seq<Manifest>, ov: Overrides, d: Resolution, slug: string)
    requires Clean(ms, ov) && Resolves(ms, ov, d) && EntityTaken(ms, ov, slug)
    ensures exists r :: r in d.templates && r.slug == slug
    ensures forall r :: r in d.templates && r.slug == slug ==>
              (r.entity <==> !PlainFirst(Gather(ms, TemplatesOf(ov)), slug))
  {
    hide TemplatesOf, FirstWins, ByKey, EntityTaken, Clean, Displays, PlainFirst, Declarations, Gather;
    var ts := Gather(ms, TemplatesOf(ov));
    EntityDeclared(ms, ov, slug);
    var i := FirstIndex(ts, slug);
    FirstDeclared(ms, ov, slug, i);
    ByKeyExactly(FirstWins(Declarations(ms, ov)));
    assert ts[i] in d.templates;
    OneOfEachSlug(ms, ov, d, ts[i]);
    if !ts[i].entity { PlainOrEntity(ms, ov, ts[i]); }
    FirstDecides(ts, i, slug);
  }

  lemma OneOfEachSlug(ms: seq<Manifest>, ov: Overrides, d: Resolution, t: FoundTemplate)
    requires d.templates == ByKey(FirstWins(Declarations(ms, ov))) && t in d.templates
    ensures forall r :: r in d.templates && r.slug == t.slug ==> r == t
  {
    hide FirstWins, ByKey, Declarations, StringLe;
    TemplatesExactly(ms, ov, d.templates);
    SlugNamesOne(d.templates, t);
  }

  lemma SlugNamesOne(rs: seq<FoundTemplate>, t: FoundTemplate)
    requires forall i, j :: 0 <= i < j < |rs| ==> rs[i].slug != rs[j].slug
    requires t in rs
    ensures forall r :: r in rs && r.slug == t.slug ==> r == t
  {
    forall r | r in rs && r.slug == t.slug ensures r == t {
      var i :| 0 <= i < |rs| && rs[i] == r;
      var j :| 0 <= j < |rs| && rs[j] == t;
    }
  }

  /** The first template of the manifests with an entity template's slug counts. */
  lemma FirstDeclared(ms: seq<Manifest>, ov: Overrides, slug: string, i: nat)
    requires Clean(ms, ov) && EntityTaken(ms, ov, slug)
    requires var ts := Gather(ms, TemplatesOf(ov));
             i < |ts| && ts[i].slug == slug && forall j :: 0 <= j < i ==> ts[j].slug != slug
    ensures slug in FirstWins(Declarations(ms, ov))
    ensures FirstWins(Declarations(ms, ov))[slug] == Gather(ms, TemplatesOf(ov))[i]
  {
    hide EntitySlug, TemplatesOf, FirstWins, EntityTaken, Clean, All;
    NotHost(ms, ov, slug);
    var ts, all := Gather(ms, TemplatesOf(ov)), Declarations(ms, ov);
    assert all[i + 1] == ts[i];
    forall j | 0 <= j < i + 1 ensures all[j].slug != slug {
      if j > 0 { assert all[j] == ts[j - 1]; }
    }
    FirstWinsIsFirst(all, i + 1);
  }

  // ------------------------------------------------- one hidden entity template

  const LABEL := Attribute("name", "Name", "host_name", KText, [], "", "", 1, [])
  const LINK := Attribute("host", "Host", "disk_host", KReference, [], "disk", HOST, 0, [])

  /** A module that declares disk as a plain template, and one whose entities it is. */
  const PLAIN_DISK := Manifest("base", [Template("disk", "Disk", false)], [LABEL])
  const ENTITY_DISK := Manifest("disk", [Template("disk", "Disk", true)], [LINK])
  const BOTH := [PLAIN_DISK, ENTITY_DISK]
  const NO_OVERRIDES := Overrides("", map[])

  lemma BothEntities()
    ensures EntitiesOf(PLAIN_DISK) == [] && EntitiesOf(ENTITY_DISK) == ["disk"]
  {
    var f := (t: Template) => if t.entity then [t.slug] else [];
    var plain, entity := PLAIN_DISK.templates, ENTITY_DISK.templates;
    assert plain[..1] == plain && entity[..1] == entity && plain[..0] == [] && entity[..0] == [];
    GatherStep(plain, 0, f);
    GatherStep(entity, 0, f);
  }

  lemma BothAttributes()
    ensures All(BOTH) == [Owned(PLAIN_DISK, LABEL), Owned(ENTITY_DISK, LINK)]
  {
    assert BOTH[..2] == BOTH && BOTH[..0] == [];
    assert AttributesOf()(PLAIN_DISK) == [Owned(PLAIN_DISK, LABEL)];
    assert AttributesOf()(ENTITY_DISK) == [Owned(ENTITY_DISK, LINK)];
    GatherStep(BOTH, 0, AttributesOf());
    GatherStep(BOTH, 1, AttributesOf());
  }

  lemma BothTemplates()
    ensures Gather(BOTH, TemplatesOf(NO_OVERRIDES)) ==
            [PlainTemplate("disk"), FoundTemplate("disk", true, "disk", "disk")]
  {
    assert BOTH[..2] == BOTH && BOTH[..0] == [];
    assert TemplatesOf(NO_OVERRIDES)(PLAIN_DISK) == [PlainTemplate("disk")];
    assert TemplatesOf(NO_OVERRIDES)(ENTITY_DISK) == [FoundTemplate("disk", true, "disk", "disk")];
    GatherStep(BOTH, 0, TemplatesOf(NO_OVERRIDES));
    GatherStep(BOTH, 1, TemplatesOf(NO_OVERRIDES));
  }

  lemma BothBlankless()
    ensures Blankless("Name") && Blankless("Host") && Blankless("Disk")
  {
    TrimmedExactly("Name");
    TrimmedExactly("Host");
    TrimmedExactly("Disk");
  }

  lemma BothAttributesValid()
    ensures ValidAttribute(PLAIN_DISK, LABEL) && ValidAttribute(ENTITY_DISK, LINK)
  {
    hide Blankless;
    BothBlankless();
    assert IsEntity(ENTITY_DISK, "disk") by { assert ENTITY_DISK.templates[0] in ENTITY_DISK.templates; }
  }

  lemma BothValid()
    ensures Valid(BOTH)
  {
    hide Blankless, All, ValidAttribute;
    BothBlankless();
    BothAttributes();
    BothAttributesValid();
    assert IsLink(ENTITY_DISK.attributes[0], "disk");
    assert OneLink(ENTITY_DISK, "disk");
    assert ValidManifest(PLAIN_DISK) && ValidManifest(ENTITY_DISK);
  }

  lemma BothClean()
    ensures Clean(BOTH, NO_OVERRIDES) && EntityTaken(BOTH, NO_OVERRIDES, "disk")
  {
    hide All, EntitiesOf;
    BothEntities();
    BothAttributes();
    assert All(BOTH)[0] in All(BOTH) && IsLabel(NO_OVERRIDES, All(BOTH)[0]);
    assert ENTITY_DISK in BOTH && EntitySlug(NO_OVERRIDES, ENTITY_DISK, "disk") == "disk";
    assert "disk" in EntitiesOf(ENTITY_DISK);
    assert forall slug :: EntityTaken(BOTH, NO_OVERRIDES, slug) ==> slug == "disk";
  }

  /** Valid manifests that resolve with nothing to report, and yet the schema holds
      the plain template where a module's entities should be. */
  lemma PlainHidesEntity(d: Resolution)
    requires Resolves(BOTH, NO_OVERRIDES, d)
    ensures Valid(BOTH) && Clean(BOTH, NO_OVERRIDES) && EntityTaken(BOTH, NO_OVERRIDES, "disk")
    ensures PlainTemplate("disk") in d.templates
    ensures forall r :: r in d.templates ==> !r.entity || r.slug != "disk"
  {
    BothValid();
    BothClean();
    BothTemplates();
    hide Resolves, Clean, Valid, EntityTaken, Gather, TemplatesOf;
    var ts := Gather(BOTH, TemplatesOf(NO_OVERRIDES));
    assert ts[0] == PlainTemplate("disk");
    assert PlainFirst(ts, "disk");
    EntityTemplateKeptExactly(BOTH, NO_OVERRIDES, d, "disk");
    FirstIsListed(d);
  }

  lemma FirstIsListed(d: Resolution)
    requires Resolves(BOTH, NO_OVERRIDES, d) && Clean(BOTH, NO_OVERRIDES) && EntityTaken(BOTH, NO_OVERRIDES, "disk")
    ensures PlainTemplate("disk") in d.templates
  {
    BothTemplates();
    hide FirstWins, ByKey, Declarations, Clean, EntityTaken, Gather, TemplatesOf, Displays, All;
    FirstDeclared(BOTH, NO_OVERRIDES, "disk", 0);
    ByKeyExactly(FirstWins(Declarations(BOTH, NO_OVERRIDES)));
  }

  lemma NotHost(ms: seq<Manifest>, ov: Overrides, slug: string)
    requires Clean(ms, ov) && EntityTaken(ms, ov, slug)
    ensures slug != HostOf(ov)
  {
    hide EntitySlug, HostOf, GoodOverrides, LinksShow, DistinctResolved, All, EntitiesOf, NoSharedEntity;
    var m :| m in ms && exists e :: e in EntitiesOf(m) && EntitySlug(ov, m, e) == slug;
    var e :| e in EntitiesOf(m) && EntitySlug(ov, m, e) == slug;
    assert GoodEntities(ov, m);
  }
}
