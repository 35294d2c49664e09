/** Diff as internal/schema/diff.go runs it, proved to compute DiffPlan. */
module SchemaDiff {
  import opened Ordering
  import opened Schema

  function Lookup(boundTo: map<Id, set<Id>>, attributeId: Id): set<Id> {
    if attributeId in boundTo then boundTo[attributeId] else {}
  }

  ghost function BoundAmong(cur: Current, slugs: set<string>, attributeId: Id): set<Id>
    requires slugs <= cur.templates.Keys
  {
    set s | s in slugs && attributeId in cur.templates[s].attributeIds :: cur.templates[s].id
  }

  /** Inverts the templates' attribute lists: discovery does not list templates
      on attributes. */
  method TemplatesByAttribute(cur: Current) returns (boundTo: map<Id, set<Id>>)
    ensures forall aid: Id :: Lookup(boundTo, aid) == BoundTo(cur, aid)
  {
    boundTo := map[];
    var slugs := cur.templates.Keys;
    while slugs != {}
      invariant slugs <= cur.templates.Keys
      invariant forall aid: Id :: Lookup(boundTo, aid) == BoundAmong(cur, cur.templates.Keys - slugs, aid)
    {
      var slug :| slug in slugs;
      var t := cur.templates[slug];
      ghost var before := boundTo;
      var ids := t.attributeIds;
      while ids != {}
        invariant ids <= t.attributeIds
        invariant forall aid: Id ::
          Lookup(boundTo, aid) == Lookup(before, aid) + (if aid in t.attributeIds - ids then {t.id} else {})
      {
        var aid :| aid in ids;
        boundTo := boundTo[aid := Lookup(boundTo, aid) + {t.id}];
        ids := ids - {aid};
      }
      slugs := slugs - {slug};
    }
  }

  /** What one attribute contributes to the plan. */
  datatype Part = Part(
    creates: seq<Action>, refs: seq<Action>, options: seq<Action>, binds: seq<Action>, conflicts: seq<Conflict>)

  method PlanAttribute(cur: Current, boundTo: map<Id, set<Id>>, a: DesiredAttribute) returns (p: Part)
    requires forall aid: Id :: Lookup(boundTo, aid) == BoundTo(cur, aid)
    ensures p.creates == AttributeCreates(cur)(a)
    ensures p.refs == ReferenceCreates(cur)(a)
    ensures p.options == OptionAdds(cur)(a)
    ensures p.binds == BindAdds(cur)(a)
    ensures p.conflicts == ConflictsOf(cur)(a)
  {
    if a.slug !in cur.attributes {
      var tpls := Sort(a.templates, StringLe);
      var create := CreateAttribute(a.slug, a.kind, tpls, a.target, a.display);
      if a.kind.KReference? {
        return Part([], [create], [], [], []);
      }
      var options := AddOptions(cur, a, None, {});
      return Part([create], [], options, [], []);
    }
    var existing := cur.attributes[a.slug];
    if existing.typ != TypeOf(a.kind) {
      return Part([], [], [], [], [WrongType(a.slug, a.kind, existing.typ)]);
    }
    if a.kind.KReference? {
      if a.target !in cur.templates || existing.refTemplateId != Some(cur.templates[a.target].id) {
        return Part([], [], [], [], [WrongTarget(a.slug, a.target, existing.refTemplateId)]);
      }
    }
    var options: seq<Action> := [];
    if a.kind.KList? {
      options := AddOptions(cur, a, Some(existing.id), existing.options.Keys);
    }
    var binds := AddBinds(cur, a, existing, Lookup(boundTo, existing.id));
    return Part([], [], options, binds, []);
  }

  method Diff(d: Desired, cur: Current) returns (p: Plan)
    ensures p == DiffPlan(d, cur)
  {
    var boundTo := TemplatesByAttribute(cur);
    var creates: seq<Action> := [];

    var templates := Sort(d.templates, TemplateLe);
    for i := 0 to |templates|
      invariant creates == Gather(templates[..i], TemplateCreates(cur))
    {
      GatherStep(templates, i, TemplateCreates(cur));
      if templates[i].slug in cur.templates {
        continue;
      }
      creates := creates + [CreateTemplate(templates[i].slug)];
    }
    assert templates[..|templates|] == templates;

    var attrs := Sort(d.attributes, AttributeLe);
    var attributes: seq<Action>, refs: seq<Action>, options: seq<Action>, binds: seq<Action> := [], [], [], [];
    var conflicts: seq<Conflict> := [];
    for i := 0 to |attrs|
      invariant attributes == Gather(attrs[..i], AttributeCreates(cur))
      invariant refs == Gather(attrs[..i], ReferenceCreates(cur))
      invariant options == Gather(attrs[..i], OptionAdds(cur))
      invariant binds == Gather(attrs[..i], BindAdds(cur))
      invariant conflicts == Gather(attrs[..i], ConflictsOf(cur))
    {
      var part := PlanAttribute(cur, boundTo, attrs[i]);
      GatherStep(attrs, i, AttributeCreates(cur));
      GatherStep(attrs, i, ReferenceCreates(cur));
      GatherStep(attrs, i, OptionAdds(cur));
      GatherStep(attrs, i, BindAdds(cur));
      GatherStep(attrs, i, ConflictsOf(cur));
      attributes := attributes + part.creates;
      refs := refs + part.refs;
      options := options + part.options;
      binds := binds + part.binds;
      conflicts := conflicts + part.conflicts;
    }
    assert attrs[..|attrs|] == attrs;
    binds := Sort(binds, BindLe);
    conflicts := Sort(conflicts, ConflictLe);
    p := Plan(creates + attributes + refs + options + binds, conflicts);
  }

  /** The options of one attribute that are not there yet, in manifest order. */
  method AddOptions(cur: Current, a: DesiredAttribute, attributeId: Option<Id>, have: set<string>)
    returns (added: seq<Action>)
    requires attributeId == KnownId(cur, a.slug)
    requires have == if a.slug in cur.attributes then cur.attributes[a.slug].options.Keys else {}
    ensures added == Gather(a.options, OptionAdd(cur, a))
  {
    added := [];
    for j := 0 to |a.options|
      invariant added == Gather(a.options[..j], OptionAdd(cur, a))
    {
      GatherStep(a.options, j, OptionAdd(cur, a));
      if a.options[j] !in have {
        added := added + [AddListOption(a.slug, attributeId, a.options[j])];
      }
    }
    assert a.options[..|a.options|] == a.options;
  }

  /** The templates one attribute must still be bound to. */
  method AddBinds(cur: Current, a: DesiredAttribute, existing: CurrentAttribute, ids: set<Id>)
    returns (added: seq<Action>)
    requires ids == BoundTo(cur, existing.id)
    ensures added == Gather(a.templates, BindAdd(cur, a.slug, existing))
  {
    added := [];
    for j := 0 to |a.templates|
      invariant added == Gather(a.templates[..j], BindAdd(cur, a.slug, existing))
    {
      GatherStep(a.templates, j, BindAdd(cur, a.slug, existing));
      var tplSlug := a.templates[j];
      if tplSlug !in cur.templates {
        added := added + [BindAttribute(a.slug, existing.id, tplSlug, ids)];
        continue;
      }
      var tpl := cur.templates[tplSlug];
      if tpl.id in ids {
        continue;
      }
      added := added + [BindAttribute(a.slug, existing.id, tplSlug, ids + {tpl.id})];
    }
    assert a.templates[..|a.templates|] == a.templates;
  }
}
