/** What the plan of internal/schema/diff.go means: it provides exactly the
    desired objects that are missing, it is empty exactly when nothing is, it
    does not depend on the order manifests are listed in, and it can be executed
    front to back. */
module SchemaPlan {
  import opened Ordering
  import opened Schema

  predicate HasTemplate(d: Desired, slug: string) {
    exists t :: t in d.templates && t.slug == slug
  }

  predicate HasAttribute(d: Desired, slug: string) {
    exists a :: a in d.attributes && a.slug == slug
  }

  /** A reference shows a desired attribute that is not itself a reference. */
  predicate DisplayDeclared(d: Desired, slug: string) {
    exists a :: a in d.attributes && a.slug == slug && !a.kind.KReference?
  }

  predicate WellFormedAttribute(d: Desired, a: DesiredAttribute) {
    && |a.templates| == 1 && HasTemplate(d, a.templates[0])
    && (a.kind.KList? <==> a.options != [])
    && (forall i, j :: 0 <= i < j < |a.options| ==> a.options[i] != a.options[j])
    && (a.kind.KReference? ==> HasTemplate(d, a.target) && DisplayDeclared(d, a.display))
  }

  predicate DistinctTemplates(s: seq<DesiredTemplate>) {
    forall i, j :: 0 <= i < j < |s| ==> s[i].slug != s[j].slug
  }

  predicate DistinctAttributes(s: seq<DesiredAttribute>) {
    forall i, j :: 0 <= i < j < |s| ==> s[i].slug != s[j].slug
  }

  /** What manifest resolution guarantees of a desired schema. */
  ghost predicate WellFormed(d: Desired) {
    && DistinctTemplates(d.templates)
    && DistinctAttributes(d.attributes)
    && (forall a :: a in d.attributes ==> WellFormedAttribute(d, a))
  }

  lemma SameSlugSameAttribute(d: Desired, a: DesiredAttribute, b: DesiredAttribute)
    requires WellFormed(d) && a in d.attributes && b in d.attributes && a.slug == b.slug
    ensures a == b
  {
    var i :| 0 <= i < |d.attributes| && d.attributes[i] == a;
    var j :| 0 <= j < |d.attributes| && d.attributes[j] == b;
  }

  // ------------------------------------------------------------ membership

  /** One desired attribute contributes x to the plan. */
  predicate Contributes(cur: Current, a: DesiredAttribute, x: Action) {
    x in AttributeCreates(cur)(a) || x in ReferenceCreates(cur)(a) || x in OptionAdds(cur)(a) || x in BindAdds(cur)(a)
  }

  lemma PlanMember(d: Desired, cur: Current, x: Action)
    ensures x in DiffPlan(d, cur).actions <==>
            (exists t :: t in d.templates && x in TemplateCreates(cur)(t)) ||
            (exists a :: a in d.attributes && Contributes(cur, a, x))
  {
    var ts, attrs := Sort(d.templates, TemplateLe), Sort(d.attributes, AttributeLe);
    GatherMember(ts, TemplateCreates(cur), x);
    GatherMember(attrs, AttributeCreates(cur), x);
    GatherMember(attrs, ReferenceCreates(cur), x);
    GatherMember(attrs, OptionAdds(cur), x);
    GatherMember(attrs, BindAdds(cur), x);
    if t :| t in d.templates && x in TemplateCreates(cur)(t) {
      assert t in ts;
    }
    if a :| a in d.attributes && Contributes(cur, a, x) {
      assert a in attrs;
    }
  }

  /** Option o of attribute a is missing and x adds it. */
  predicate PlansOption(cur: Current, a: DesiredAttribute, x: Action) {
    x.AddListOption? && OptionsPlanned(cur, a) && x.option in a.options && x in OptionAdd(cur, a)(x.option)
  }

  /** Attribute a is not bound to one of its templates and x binds it. */
  predicate PlansBind(cur: Current, a: DesiredAttribute, x: Action) {
    x.BindAttribute? && a.slug in cur.attributes && Matches(cur, a) && x.template in a.templates &&
    x in BindAdd(cur, a.slug, cur.attributes[a.slug])(x.template)
  }

  lemma OptionContribution(cur: Current, a: DesiredAttribute, x: Action)
    ensures x in OptionAdds(cur)(a) <==> PlansOption(cur, a, x)
  {
    GatherMember(a.options, OptionAdd(cur, a), x);
  }

  lemma BindContribution(cur: Current, a: DesiredAttribute, x: Action)
    ensures x in BindAdds(cur)(a) <==> PlansBind(cur, a, x)
  {
    if a.slug in cur.attributes && Matches(cur, a) {
      GatherMember(a.templates, BindAdd(cur, a.slug, cur.attributes[a.slug]), x);
    }
  }

  lemma ContributionKinds(cur: Current, a: DesiredAttribute, x: Action)
    ensures Contributes(cur, a, x) <==>
            (a.slug !in cur.attributes && x == CreateOf(a)) || PlansOption(cur, a, x) || PlansBind(cur, a, x)
  {
    OptionContribution(cur, a, x);
    BindContribution(cur, a, x);
  }

  lemma TemplateCreateInPlan(d: Desired, cur: Current, slug: string)
    ensures CreateTemplate(slug) in DiffPlan(d, cur).actions <==> HasTemplate(d, slug) && slug !in cur.templates
  {
    hide DiffPlan, Contributes, Matches;
    var x := CreateTemplate(slug);
    PlanMember(d, cur, x);
    forall a ensures !Contributes(cur, a, x) { ContributionKinds(cur, a, x); }
    if HasTemplate(d, slug) && slug !in cur.templates {
      var t :| t in d.templates && t.slug == slug;
      assert x in TemplateCreates(cur)(t);
    }
  }

  lemma AttributeCreateInPlan(d: Desired, cur: Current, x: Action)
    requires x.CreateAttribute?
    ensures x in DiffPlan(d, cur).actions <==>
            exists a :: a in d.attributes && a.slug !in cur.attributes && x == CreateOf(a)
  {
    hide DiffPlan, Contributes, Matches, OptionAdd, BindAdd, OptionsPlanned;
    PlanMember(d, cur, x);
    forall a ensures Contributes(cur, a, x) <==> a.slug !in cur.attributes && x == CreateOf(a) {
      ContributionKinds(cur, a, x);
    }
  }

  lemma OptionInPlan(d: Desired, cur: Current, x: Action)
    requires x.AddListOption?
    ensures x in DiffPlan(d, cur).actions <==> exists a :: a in d.attributes && PlansOption(cur, a, x)
  {
    hide DiffPlan, Contributes, Matches, OptionAdd, BindAdd, OptionsPlanned;
    PlanMember(d, cur, x);
    forall a ensures Contributes(cur, a, x) <==> PlansOption(cur, a, x) { ContributionKinds(cur, a, x); }
  }

  lemma BindInPlan(d: Desired, cur: Current, x: Action)
    requires x.BindAttribute?
    ensures x in DiffPlan(d, cur).actions <==> exists a :: a in d.attributes && PlansBind(cur, a, x)
  {
    hide DiffPlan, Contributes, Matches, OptionAdd, BindAdd, OptionsPlanned;
    PlanMember(d, cur, x);
    forall a ensures Contributes(cur, a, x) <==> PlansBind(cur, a, x) { ContributionKinds(cur, a, x); }
  }

  lemma ConflictInPlan(d: Desired, cur: Current, x: Conflict)
    ensures x in DiffPlan(d, cur).conflicts <==> exists a :: a in d.attributes && x in ConflictsOf(cur)(a)
  {
    GatherMember(Sort(d.attributes, AttributeLe), ConflictsOf(cur), x);
  }

  // ----------------------------------------------- the plan is what is missing

  /** One thing a schema can hold. */
  datatype Object =
    | TemplateObject(template: string)
    | AttributeObject(attribute: string)
    | OptionObject(attribute: string, value: string)
    | BindingObject(attribute: string, template: string)

  predicate Present(cur: Current, o: Object) {
    match o
    case TemplateObject(t) => t in cur.templates
    case AttributeObject(a) => a in cur.attributes
    case OptionObject(a, v) => a in cur.attributes && v in cur.attributes[a].options
    case BindingObject(a, t) =>
      a in cur.attributes && t in cur.templates && cur.attributes[a].id in cur.templates[t].attributeIds
  }

  /** What the desired schema asks for, attribute by attribute. */
  predicate Wants(d: Desired, o: Object) {
    match o
    case TemplateObject(t) => HasTemplate(d, t)
    case AttributeObject(s) => HasAttribute(d, s)
    case OptionObject(s, v) => exists a :: a in d.attributes && a.slug == s && v in a.options
    case BindingObject(s, t) => exists a :: a in d.attributes && a.slug == s && t in a.templates
  }

  /** What an action adds to the project. */
  predicate Provides(x: Action, o: Object) {
    match x
    case CreateTemplate(t) => o == TemplateObject(t)
    case CreateAttribute(a, _, ts, _, _) =>
      o == AttributeObject(a) || (o.BindingObject? && o.attribute == a && o.template in ts)
    case AddListOption(a, _, v) => o == OptionObject(a, v)
    case BindAttribute(a, _, t, _) => o == BindingObject(a, t)
  }

  ghost predicate PlanProvides(p: Plan, o: Object) {
    exists x :: x in p.actions && Provides(x, o)
  }

  /** No desired attribute exists with another type or another target. */
  predicate ConflictFree(d: Desired, cur: Current) {
    forall a :: a in d.attributes && a.slug in cur.attributes ==> Matches(cur, a)
  }

  /** The project already is what d asks for. */
  ghost predicate Satisfies(d: Desired, cur: Current) {
    ConflictFree(d, cur) && forall o :: Wants(d, o) ==> Present(cur, o)
  }

  /** Ids identify templates: distinct visible templates have distinct ids. */
  ghost predicate DistinctIds(cur: Current) {
    && (forall s, t :: s in cur.templates && t in cur.templates && cur.templates[s].id == cur.templates[t].id ==>
          s == t)
    && (forall s, t :: s in cur.attributes && t in cur.attributes && cur.attributes[s].id == cur.attributes[t].id ==>
          s == t)
  }

  lemma ConflictsExact(d: Desired, cur: Current)
    ensures DiffPlan(d, cur).conflicts == [] <==> ConflictFree(d, cur)
  {
    hide DiffPlan, Matches, ConflictsOf;
    var cs := DiffPlan(d, cur).conflicts;
    forall a: DesiredAttribute
      ensures ConflictsOf(cur)(a) == [] <==> a.slug !in cur.attributes || Matches(cur, a)
    {
      ConflictWhen(cur, a);
    }
    if !ConflictFree(d, cur) {
      var a :| a in d.attributes && a.slug in cur.attributes && !Matches(cur, a);
      var x := ConflictsOf(cur)(a)[0];
      assert x in ConflictsOf(cur)(a);
      ConflictInPlan(d, cur, x);
    }
    if cs != [] {
      assert cs[0] in cs;
      ConflictInPlan(d, cur, cs[0]);
    }
  }

  lemma ConflictWhen(cur: Current, a: DesiredAttribute)
    ensures ConflictsOf(cur)(a) == [] <==> a.slug !in cur.attributes || Matches(cur, a)
  {
  }

  lemma BoundExactly(cur: Current, a: string, t: string)
    requires DistinctIds(cur) && a in cur.attributes && t in cur.templates
    ensures cur.templates[t].id in BoundTo(cur, cur.attributes[a].id) <==> Present(cur, BindingObject(a, t))
  {
  }

  /** Completeness: every desired object that is missing is in the plan. */
  lemma PlanProvidesMissing(d: Desired, cur: Current, o: Object)
    requires WellFormed(d) && DistinctIds(cur) && ConflictFree(d, cur)
    requires Wants(d, o) && !Present(cur, o)
    ensures PlanProvides(DiffPlan(d, cur), o)
  {
    match o
    case TemplateObject(t) =>
      TemplateCreateInPlan(d, cur, t);
      assert Provides(CreateTemplate(t), o);
    case AttributeObject(s) =>
      var a :| a in d.attributes && a.slug == s;
      AttributeCreateInPlan(d, cur, CreateOf(a));
      assert Provides(CreateOf(a), o);
    case OptionObject(s, v) =>
      var a :| a in d.attributes && a.slug == s && v in a.options;
      var x := AddListOption(s, KnownId(cur, s), v);
      assert OptionAdd(cur, a)(v) == [x];
      assert a.kind.KList?;
      assert PlansOption(cur, a, x);
      OptionInPlan(d, cur, x);
      assert Provides(x, o);
    case BindingObject(s, t) =>
      var a :| a in d.attributes && a.slug == s && t in a.templates;
      if s in cur.attributes {
        if t in cur.templates { BoundExactly(cur, s, t); }
        var x := BindAdd(cur, s, cur.attributes[s])(t)[0];
        assert PlansBind(cur, a, x);
        BindInPlan(d, cur, x);
        assert Provides(x, o);
      } else {
        AttributeCreateInPlan(d, cur, CreateOf(a));
        assert Provides(CreateOf(a), o);
      }
  }

  lemma OptionMissing(cur: Current, a: DesiredAttribute, x: Action)
    requires PlansOption(cur, a, x)
    ensures x.attribute == a.slug && !Present(cur, OptionObject(a.slug, x.option))
    ensures x.attributeId == KnownId(cur, a.slug)
  {
  }

  lemma BindMissing(cur: Current, a: DesiredAttribute, x: Action)
    requires DistinctIds(cur) && PlansBind(cur, a, x)
    ensures x.attribute == a.slug && !Present(cur, BindingObject(a.slug, x.template))
  {
    if x.template in cur.templates { BoundExactly(cur, a.slug, x.template); }
  }

  /** Minimality: the plan provides nothing that is present or not asked for. */
  lemma PlanProvidesOnlyMissing(d: Desired, cur: Current, x: Action, o: Object)
    requires DistinctIds(cur)
    requires x in DiffPlan(d, cur).actions && Provides(x, o)
    ensures Wants(d, o) && !Present(cur, o)
  {
    if x.CreateTemplate? {
      TemplateCreateInPlan(d, cur, x.template);
    } else if x.CreateAttribute? {
      AttributeCreateInPlan(d, cur, x);
    } else if x.AddListOption? {
      OptionInPlan(d, cur, x);
      var a :| a in d.attributes && PlansOption(cur, a, x);
      OptionMissing(cur, a, x);
    } else {
      BindInPlan(d, cur, x);
      var a :| a in d.attributes && PlansBind(cur, a, x);
      BindMissing(cur, a, x);
    }
  }

  /** The plan for a conflict-free project provides exactly the desired objects
      the project lacks: nothing less, and nothing that is already there. */
  lemma PlanIsExactlyMissing(d: Desired, cur: Current, o: Object)
    requires WellFormed(d) && DistinctIds(cur) && ConflictFree(d, cur)
    ensures PlanProvides(DiffPlan(d, cur), o) <==> Wants(d, o) && !Present(cur, o)
  {
    if Wants(d, o) && !Present(cur, o) { PlanProvidesMissing(d, cur, o); }
    if PlanProvides(DiffPlan(d, cur), o) {
      var x :| x in DiffPlan(d, cur).actions && Provides(x, o);
      PlanProvidesOnlyMissing(d, cur, x, o);
    }
  }

  /** An object every action adds. */
  function MainObject(x: Action): (o: Object)
    ensures Provides(x, o)
  {
    match x
    case CreateTemplate(t) => TemplateObject(t)
    case CreateAttribute(a, _, _, _, _) => AttributeObject(a)
    case AddListOption(a, _, v) => OptionObject(a, v)
    case BindAttribute(a, _, t, _) => BindingObject(a, t)
  }

  /** Nothing to do and nothing in conflict means the project satisfies the
      desired schema, and the other way round. */
  lemma PlanEmptyExactly(d: Desired, cur: Current)
    requires WellFormed(d) && DistinctIds(cur)
    ensures DiffPlan(d, cur) == Plan([], []) <==> Satisfies(d, cur)
  {
    ConflictsExact(d, cur);
    var p := DiffPlan(d, cur);
    if Satisfies(d, cur) && p.actions != [] {
      PlanIsExactlyMissing(d, cur, MainObject(p.actions[0]));
      assert PlanProvides(p, MainObject(p.actions[0]));
    }
    if p == Plan([], []) {
      forall o | Wants(d, o) ensures Present(cur, o) {
        PlanIsExactlyMissing(d, cur, o);
      }
    }
  }

  // ------------------------------------------------------------ determinism

  lemma TemplateOrderFacts(d: Desired)
    requires WellFormed(d)
    ensures Preorder(TemplateLe) && NoTies(multiset(d.templates), TemplateLe)
  {
    StringPreorder();
    forall x, y | x in multiset(d.templates) && y in multiset(d.templates) && TemplateLe(x, y) && TemplateLe(y, x)
      ensures x == y
    {
      StringLeAntisymmetric(x.slug, y.slug);
    }
  }

  lemma AttributeOrderFacts(d: Desired)
    requires WellFormed(d)
    ensures Preorder(AttributeLe) && NoTies(multiset(d.attributes), AttributeLe)
  {
    StringPreorder();
    forall x, y | x in multiset(d.attributes) && y in multiset(d.attributes) && AttributeLe(x, y) && AttributeLe(y, x)
      ensures x == y
    {
      StringLeAntisymmetric(x.slug, y.slug);
      SameSlugSameAttribute(d, x, y);
    }
  }

  /** The plan does not depend on the order templates and attributes are listed in. */
  lemma PlanDeterministic(d: Desired, e: Desired, cur: Current)
    requires WellFormed(d)
    requires multiset(d.templates) == multiset(e.templates) && multiset(d.attributes) == multiset(e.attributes)
    ensures DiffPlan(d, cur) == DiffPlan(e, cur)
  {
    TemplateOrderFacts(d);
    AttributeOrderFacts(d);
    SortCanonical(d.templates, e.templates, TemplateLe);
    SortCanonical(d.attributes, e.attributes, AttributeLe);
  }
}
