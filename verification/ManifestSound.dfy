/** What a successful Resolve guarantees of validated manifests. */
module ManifestSound {
  import opened Ordering
  import opened Schema
  import opened SchemaPlan
  import opened Manifest

  // ------------------------------------------------------------- the maps

  lemma {:induction false} FirstWinsKeys(ts: seq<FoundTemplate>)
    ensures forall k :: k in FirstWins(ts) <==> exists t :: t in ts && t.slug == k
    ensures forall k :: k in FirstWins(ts) ==> FirstWins(ts)[k] in ts && FirstWins(ts)[k].slug == k
  {
    if ts != [] {
      var n := |ts| - 1;
      FirstWinsKeys(ts[..n]);
      assert ts == ts[..n] + [ts[n]];
      assert forall t :: t in ts <==> t in ts[..n] || t == ts[n];
    }
  }

  lemma {:induction false} AttributeMapExactly(ov: Overrides, os: seq<Owned>)
    requires DistinctResolved(ov, os)
    ensures forall k :: k in AttributeMap(ov, os) <==> exists o :: o in os && SlugOf(ov, o) == k
    ensures forall o :: o in os ==>
            SlugOf(ov, o) in AttributeMap(ov, os) && AttributeMap(ov, os)[SlugOf(ov, o)] == Placed(ov, o)
    ensures forall k :: k in AttributeMap(ov, os) ==> AttributeMap(ov, os)[k].slug == k
  {
    if os != [] {
      hide SlugOf;
      var n := |os| - 1;
      assert Placed(ov, os[n]).slug == SlugOf(ov, os[n]);
      hide Placed;
      AttributeMapExactly(ov, os[..n]);
      assert os == os[..n] + [os[n]];
      assert forall o :: o in os <==> o in os[..n] || o == os[n];
      assert SlugOf(ov, os[n]) !in AttributeMap(ov, os[..n]);
    }
  }

  lemma AllMembers(ms: seq<Manifest>, o: Owned)
    ensures o in All(ms) <==> o.m in ms && o.a in o.m.attributes
  {
    GatherMember(ms, AttributesOf(), o);
    if o.m in ms && o.a in o.m.attributes {
      var i :| 0 <= i < |o.m.attributes| && o.m.attributes[i] == o.a;
      assert AttributesOf()(o.m)[i] == o;
    }
  }

  lemma EntitiesMembers(m: Manifest, slug: string)
    ensures slug in EntitiesOf(m) <==> IsEntity(m, slug)
  {
    GatherMember(m.templates, (t: Template) => if t.entity then [t.slug] else [], slug);
  }

  /** The declared templates: the host, the manifests', and where attributes sit. */
  lemma DeclaredExactly(ms: seq<Manifest>, ov: Overrides, t: FoundTemplate)
    ensures t in Declarations(ms, ov) <==>
              || t == PlainTemplate(HostOf(ov))
              || (exists m :: m in ms && t in TemplatesOf(ov)(m))
              || (exists o :: o in All(ms) && t == PlainTemplate(TemplateOf(ov, o)))
  {
    hide TemplateOf, HostOf, All;
    GatherMember(ms, TemplatesOf(ov), t);
    GatherMember(All(ms), TemplateFor(ov), t);
  }

  // ------------------------------------------------------------ the result

  /** Slugs are sorted and unique, and the attributes are exactly the declared ones,
      each under its resolved slug and on its one resolved template. */
  lemma AttributesExactly(ms: seq<Manifest>, ov: Overrides, rs: seq<FoundAttribute>, display: Option<string>)
    requires DistinctResolved(ov, All(ms))
    requires rs == ByKey(LinkedAll(AttributeMap(ov, All(ms)), display))
    ensures forall i, j :: 0 <= i < j < |rs| ==> rs[i].slug != rs[j].slug && StringLe(rs[i].slug, rs[j].slug)
    ensures forall o :: o in All(ms) ==> Linked(Placed(ov, o), display) in rs
    ensures forall r :: r in rs ==> exists o :: o in All(ms) && r == Linked(Placed(ov, o), display)
  {
    hide All, Placed, DistinctResolved, SlugOf, ByKey, AttributeMap, StringLe;
    var attrs := AttributeMap(ov, All(ms));
    var linked := LinkedAll(attrs, display);
    AttributeMapExactly(ov, All(ms));
    ByKeyExactly(linked);
    ByKeyDistinct(linked, (r: FoundAttribute) => r.slug);
    forall o | o in All(ms) ensures Linked(Placed(ov, o), display) in rs {
      assert SlugOf(ov, o) in linked;
    }
    forall r | r in rs ensures exists o :: o in All(ms) && r == Linked(Placed(ov, o), display) {
      var k :| k in linked && linked[k] == r;
      var o :| o in All(ms) && SlugOf(ov, o) == k;
      assert attrs[k] == Placed(ov, o);
    }
  }

  lemma TemplatesExactly(ms: seq<Manifest>, ov: Overrides, rs: seq<FoundTemplate>)
    requires rs == ByKey(FirstWins(Declarations(ms, ov)))
    ensures forall i, j :: 0 <= i < j < |rs| ==> rs[i].slug != rs[j].slug && StringLe(rs[i].slug, rs[j].slug)
    ensures forall t :: t in Declarations(ms, ov) ==> t.slug in FirstWins(Declarations(ms, ov))
    ensures forall t :: t in Declarations(ms, ov) ==> exists r :: r in rs && r.slug == t.slug
    ensures forall r :: r in rs ==> r in Declarations(ms, ov)
  {
    hide Declarations, ByKey, FirstWins, StringLe;
    var ts := FirstWins(Declarations(ms, ov));
    FirstWinsKeys(Declarations(ms, ov));
    ByKeyExactly(ts);
    ByKeyDistinct(ts, (t: FoundTemplate) => t.slug);
    forall t | t in Declarations(ms, ov) ensures exists r :: r in rs && r.slug == t.slug {
      assert t.slug in ts;
      assert ts[t.slug] in rs;
    }
  }

  /** A label shown by host links is not itself a link: links sit on entity templates. */
  lemma LabelIsNoLink(ms: seq<Manifest>, ov: Overrides, o: Owned)
    requires Valid(ms) && Clean(ms, ov) && o in All(ms) && IsLabel(ov, o)
    ensures !o.a.kind.KReference?
  {
    hide HostOf, GoodOverrides, NoSharedEntity, LinksShow, DistinctSlugs, DistinctResolved, AllOnOne;
    AllMembers(ms, o);
    EntitiesMembers(o.m, o.a.template);
    assert ValidManifest(o.m) && GoodEntities(ov, o.m);
    assert ValidTarget(o.m, o.a);
    assert o.a.template in EntitiesOf(o.m) ==> EntitySlug(ov, o.m, o.a.template) != HostOf(ov);
  }

  lemma DeclaresTemplateOf(ms: seq<Manifest>, ov: Overrides, o: Owned)
    requires o in All(ms)
    ensures PlainTemplate(TemplateOf(ov, o)) in Declarations(ms, ov)
    ensures PlainTemplate(HostOf(ov)) in Declarations(ms, ov)
  {
    DeclaredExactly(ms, ov, PlainTemplate(TemplateOf(ov, o)));
    DeclaredExactly(ms, ov, PlainTemplate(HostOf(ov)));
  }

  /** On success, from validated manifests, the schema is what planning relies on:
      unique slugs, every attribute on one declared template, references to the
      declared host template showing a declared attribute that is not a reference. */
  lemma ResolutionIsWellFormed(ms: seq<Manifest>, ov: Overrides, d: Resolution)
    requires Valid(ms) && Clean(ms, ov) && Resolves(ms, ov, d)
    ensures WellFormed(ToSchema(d))
  {
    hide All, Placed, TemplateOf, HostOf, SlugOf, Declarations, AttributeMap, ByKey, FirstWins, LinkedAll,
         GoodOverrides,
         NoSharedEntity, GoodPlace, DistinctSlugs, StringLe, IsLabel, ValidManifest, DistinctResolved, GoodEntities,
         LinksShow, Displays;
    var display :| Displays(ms, ov, display) && d.attributes == ByKey(LinkedAll(AttributeMap(ov, All(ms)), display));
    AttributesExactly(ms, ov, d.attributes, display);
    TemplatesExactly(ms, ov, d.templates);
    var s := ToSchema(d);
    forall i | 0 <= i < |s.attributes| ensures WellFormedAttribute(s, s.attributes[i]) {
      var r := d.attributes[i];
      assert r in d.attributes;
      var o :| o in All(ms) && r == Linked(Placed(ov, o), display);
      AttributeIsWellFormed(ms, ov, d, display, o, i);
    }
  }

  lemma TemplateListed(ms: seq<Manifest>, ov: Overrides, d: Resolution, slug: string)
    requires d.templates == ByKey(FirstWins(Declarations(ms, ov))) && PlainTemplate(slug) in Declarations(ms, ov)
    ensures HasTemplate(ToSchema(d), slug)
  {
    hide Declarations, ByKey, FirstWins;
    var decls := Declarations(ms, ov);
    var ts := FirstWins(decls);
    FirstWinsKeys(decls);
    ByKeyExactly(ts);
    assert PlainTemplate(slug).slug == slug;
    ListedTemplate(d, ts[slug]);
  }

  lemma ListedTemplate(d: Resolution, r: FoundTemplate)
    requires r in d.templates
    ensures HasTemplate(ToSchema(d), r.slug)
  {
    var i :| 0 <= i < |d.templates| && d.templates[i] == r;
    assert ToSchema(d).templates[i] == DesiredTemplate(r.slug);
  }

  lemma AttributeIsWellFormed(ms: seq<Manifest>, ov: Overrides, d: Resolution, display: Option<string>, o: Owned,
                              i: nat)
    requires Valid(ms) && Clean(ms, ov) && Resolves(ms, ov, d) && Displays(ms, ov, display)
    requires d.attributes == ByKey(LinkedAll(AttributeMap(ov, All(ms)), display))
    requires o in All(ms) && i < |d.attributes| && d.attributes[i] == Linked(Placed(ov, o), display)
    ensures WellFormedAttribute(ToSchema(d), ToSchema(d).attributes[i])
  {
    hide All, TemplateOf, HostOf, SlugOf, Declarations, AttributeMap, ByKey, FirstWins, LinkedAll, GoodOverrides,
         NoSharedEntity, GoodPlace, DistinctSlugs, StringLe, IsLabel, DistinctResolved, GoodEntities, EntitiesOf,
         WellFormedAttribute, HasTemplate, DisplayDeclared, ToSchema, Valid, Clean, Displays, Placed, Linked,
         ValidOptions;
    DeclaresTemplateOf(ms, ov, o);
    TemplateListed(ms, ov, d, TemplateOf(ov, o));
    TemplateListed(ms, ov, d, HostOf(ov));
    OptionsValid(ms, o);
    if o.a.kind.KReference? {
      LinkShows(ms, ov, d, display, o);
    }
    FitsSchema(ov, d, display, o, i);
  }

  lemma FitsSchema(ov: Overrides, d: Resolution, display: Option<string>, o: Owned, i: nat)
    requires i < |d.attributes| && d.attributes[i] == Linked(Placed(ov, o), display)
    requires HasTemplate(ToSchema(d), TemplateOf(ov, o)) && HasTemplate(ToSchema(d), HostOf(ov)) && ValidOptions(o.a)
    requires o.a.kind.KReference? ==> display.Some? && DisplayDeclared(ToSchema(d), display.value)
    ensures WellFormedAttribute(ToSchema(d), ToSchema(d).attributes[i])
  {
    hide TemplateOf, HostOf, SlugOf, EntitiesOf, HasTemplate, DisplayDeclared;
  }

  lemma OptionsValid(ms: seq<Manifest>, o: Owned)
    requires Valid(ms) && o in All(ms)
    ensures ValidOptions(o.a)
  {
    AllMembers(ms, o);
    assert ValidManifest(o.m) && ValidAttribute(o.m, o.a);
  }

  /** Every host link has a label to show, and it is a declared plain attribute. */
  lemma LinkShows(ms: seq<Manifest>, ov: Overrides, d: Resolution, display: Option<string>, o: Owned)
    requires Valid(ms) && Clean(ms, ov) && Resolves(ms, ov, d) && Displays(ms, ov, display)
    requires d.attributes == ByKey(LinkedAll(AttributeMap(ov, All(ms)), display))
    requires o in All(ms) && o.a.kind.KReference?
    ensures display.Some? && DisplayDeclared(ToSchema(d), display.value)
  {
    hide All, TemplateOf, HostOf, SlugOf, Declarations, AttributeMap, ByKey, FirstWins, LinkedAll, GoodOverrides,
         NoSharedEntity, GoodPlace, DistinctSlugs, StringLe, IsLabel, DistinctResolved, GoodEntities, EntitiesOf,
         ValidManifest;
    AttributesExactly(ms, ov, d.attributes, display);
    assert exists p :: p in All(ms) && IsLabel(ov, p);
    var p :| p in All(ms) && IsLabel(ov, p) && SlugOf(ov, p) == display.value;
    LabelIsNoLink(ms, ov, p);
    var r := Linked(Placed(ov, p), display);
    assert r in d.attributes;
    var i :| 0 <= i < |d.attributes| && d.attributes[i] == r;
    assert ToSchema(d).attributes[i] in ToSchema(d).attributes;
  }
}
