/** Every step of the fleet keeps its invariant: nothing visible is ever removed,
    and a host that succeeds leaves everything desired in place. */
module SchemaFleetSafety {
  import opened Schema
  import opened SchemaPlan
  import opened SchemaHost
  import opened SchemaRuns
  import opened SchemaFleet

  lemma GrowsTransitive(a: Current, b: Current, c: Current)
    requires Grows(a, b) && Grows(b, c)
    ensures Grows(a, c)
  {
  }

  // ----------------------------------------------- what growth preserves

  lemma MatchesStays(cur: Current, cur': Current, a: DesiredAttribute)
    requires Grows(cur, cur') && a.slug in cur.attributes && Matches(cur, a)
    ensures a.slug in cur'.attributes && Matches(cur', a)
  {
  }

  lemma BoundStays(cur: Current, cur': Current, a: DesiredAttribute)
    requires Grows(cur, cur') && |a.templates| == 1 && IsBound(cur, a)
    ensures IsBound(cur', a)
  {
  }

  lemma BoundOrPendingStays(d: Desired, cur: Current, cur': Current, rem: seq<Action>)
    requires WellFormed(d) && Grows(cur, cur') && BoundOrPending(d, cur, rem)
    ensures BoundOrPending(d, cur', rem)
  {
    forall a | a in d.attributes
      ensures |a.templates| == 1 && (IsBound(cur', a) || WillBind(rem, a) || CreatesAttribute(rem, a.slug))
    {
      if IsBound(cur, a) { BoundStays(cur, cur', a); }
    }
  }

  lemma OldMatchStays(d: Desired, p0: Current, cur: Current, cur': Current)
    requires Grows(cur, cur') && OldMatch(d, p0, cur)
    ensures OldMatch(d, p0, cur')
  {
    forall a | a in d.attributes && a.slug in p0.attributes ensures a.slug in cur'.attributes && Matches(cur', a) {
      MatchesStays(cur, cur', a);
    }
  }

  lemma ActionsSafeStay(p0: Current, cur: Current, cur': Current, rem: seq<Action>)
    requires Grows(cur, cur') && ActionsSafe(p0, cur, rem)
    ensures ActionsSafe(p0, cur', rem)
  {
    forall x | x in rem ensures ActionSafe(p0, cur', x) {
      assert ActionSafe(p0, cur, x);
    }
  }

  /** A host's facts survive whatever anybody else adds. */
  lemma HostStays(d: Desired, p0: Current, cur: Current, cur': Current, h: Host)
    requires WellFormed(d) && Grows(cur, cur') && HostOk(d, p0, cur, h)
    ensures HostOk(d, p0, cur', h)
  {
    hide HostInv, BoundOrPending, ActionsSafe, OldMatch, WellFormed, Grows;
    assert Truthful(h.log.resolved, cur') by {
      TruthStays(h.log.resolved, cur, cur');
    }
    if !h.Stopped? { OldMatchStays(d, p0, cur, cur'); }
    match h {
      case Applying(rem, log) => ActionsSafeStay(p0, cur, cur', rem); BoundOrPendingStays(d, cur, cur', rem);
      case Verifying(rem, log) => ActionsSafeStay(p0, cur, cur', rem); BoundOrPendingStays(d, cur, cur', []);
      case VerifyRead(log) => BoundOrPendingStays(d, cur, cur', []);
      case Succeeded(log) => BoundOrPendingStays(d, cur, cur', []);
      case _ =>
    }
  }

  lemma TruthStays(r: Resolved, cur: Current, cur': Current)
    requires Truthful(r, cur) && Grows(cur, cur')
    ensures Truthful(r, cur')
  {
  }

  // ------------------------------------------------------ effects of writes

  lemma NewTemplateEffect(d: Desired, p0: Current, p: Platform, slug: string, id: Id)
    requires WellFormed(d) && PlatformOk(p) && AttributesOk(d, p0, p.schema) && Accepts(p, NewTemplate(slug), id)
    ensures var p' := Effect(p, NewTemplate(slug), id);
            Grows(p.schema, p'.schema) && PlatformOk(p') && AttributesOk(d, p0, p'.schema)
  {
    var c, c' := p.schema, Effect(p, NewTemplate(slug), id).schema;
    forall a | a in d.attributes ensures AttributeOk(p0, c', a) {
      if a.slug in c.attributes {
        SameBindings(c, c', c.attributes[a.slug].id);
        AttributeStays(p0, c, c', a);
      }
    }
  }

  lemma SameBindings(c: Current, c': Current, id: Id)
    requires forall s :: s in c.templates ==>
               s in c'.templates && c'.templates[s].id == c.templates[s].id &&
               (id in c'.templates[s].attributeIds <==> id in c.templates[s].attributeIds)
    requires forall s :: s in c'.templates && s !in c.templates ==> id !in c'.templates[s].attributeIds
    ensures BoundTo(c', id) == BoundTo(c, id)
  {
  }

  lemma AttributeStays(p0: Current, c: Current, c': Current, a: DesiredAttribute)
    requires |a.templates| == 1 && Grows(c, c') && AttributeOk(p0, c, a) && a.slug in c.attributes
    requires BoundTo(c', c.attributes[a.slug].id) == BoundTo(c, c.attributes[a.slug].id)
    ensures AttributeOk(p0, c', a)
  {
    if a.slug !in p0.attributes {
      MatchesStays(c, c', a);
      BoundStays(c, c', a);
    }
  }

  lemma NewOptionEffect(d: Desired, p0: Current, p: Platform, attributeId: Id, value: string, id: Id)
    requires WellFormed(d) && PlatformOk(p) && AttributesOk(d, p0, p.schema) &&
        Accepts(p, NewOption(attributeId, value), id)
    ensures var p' := Effect(p, NewOption(attributeId, value), id);
            Grows(p.schema, p'.schema) && PlatformOk(p') && AttributesOk(d, p0, p'.schema)
  {
    var c, c' := p.schema, Effect(p, NewOption(attributeId, value), id).schema;
    forall s | s in c.attributes && c.attributes[s].id == attributeId ensures value !in c.attributes[s].options {
      var slug :| HasId(p, slug, attributeId) &&
                  c.attributes[slug].typ == "list" && value !in c.attributes[slug].options;
      assert s == slug;
    }
    assert c'.templates == c.templates;
    assert Grows(c, c');
    forall a | a in d.attributes ensures AttributeOk(p0, c', a) {
      if a.slug in c.attributes {
        SameBindings(c, c', c.attributes[a.slug].id);
        AttributeStays(p0, c, c', a);
      }
    }
  }

  lemma NewAttributeGrows(p: Platform, slug: string, kind: Kind, ids: seq<Id>, target: Option<Id>,
                          display: Option<Id>, id: Id)
    requires PlatformOk(p) && Accepts(p, NewAttribute(slug, kind, ids, target, display), id)
    ensures var c' := WithAttribute(p.schema, slug, kind, ids, target, id);
            && Grows(p.schema, c') && DistinctIds(c')
            && (forall s :: s in p.schema.attributes ==>
                  BoundTo(c', p.schema.attributes[s].id) == BoundTo(p.schema, p.schema.attributes[s].id))
            && (forall s :: s in c'.templates ==> (id in c'.templates[s].attributeIds <==> c'.templates[s].id in ids))
  {
    var c, c' := p.schema, WithAttribute(p.schema, slug, kind, ids, target, id);
    forall s | s in c.attributes ensures BoundTo(c', c.attributes[s].id) == BoundTo(c, c.attributes[s].id) {
      SameBindings(c, c', c.attributes[s].id);
    }
  }

  lemma {:induction false} IdsOfMembers(templates: map<string, Id>, slugs: seq<string>)
    requires IdsOf(templates, slugs).Some?
    ensures forall s :: s in slugs ==> s in templates && templates[s] in IdsOf(templates, slugs).value
    ensures forall i :: i in IdsOf(templates, slugs).value ==>
              exists s :: s in slugs && s in templates && templates[s] == i
  {
    if slugs != [] {
      var n := |slugs| - 1;
      IdsOfMembers(templates, slugs[..n]);
      assert slugs == slugs[..n] + [slugs[n]];
    }
  }

  /** The request that creates a desired attribute names its template and target. */
  lemma CreateCall(d: Desired, cur: Current, a: DesiredAttribute, r: Resolved)
    returns (ids: seq<Id>, target: Option<Id>, display: Option<Id>)
    requires WellFormedAttribute(d, a) && Truthful(r, cur) && Prepare(CreateOf(a), r).Send?
    ensures Prepare(CreateOf(a), r).call == NewAttribute(a.slug, a.kind, ids, target, display)
    ensures TemplateOf(a) in cur.templates
    ensures forall i :: i in ids <==> i == cur.templates[TemplateOf(a)].id
    ensures if a.kind.KReference? then a.target in cur.templates &&
        target == Some(cur.templates[a.target].id) else target == None
  {
    CreateOfFields(a);
    var x := CreateOf(a);
    hide CreateOf;
    ids := IdsOf(r.templates, x.templates).value;
    IdsOfMembers(r.templates, x.templates);
    hide IdsOf;
    var t := TemplateOf(a);
    assert t in x.templates && forall s :: s in x.templates ==> s == t;
    target := if a.kind.KReference? then Some(r.templates[a.target]) else None;
    display := if a.kind.KReference? then Some(r.attributes[a.display]) else None;
  }

  /** Creating a desired attribute on its template. */
  lemma NewAttributeEffect(d: Desired, p0: Current, p: Platform, a: DesiredAttribute, r: Resolved, id: Id)
    requires WellFormed(d) && PlatformOk(p) && AttributesOk(d, p0, p.schema) && Grows(p0, p.schema)
    requires a in d.attributes && Truthful(r, p.schema)
    requires Prepare(CreateOf(a), r).Send? && Accepts(p, Prepare(CreateOf(a), r).call, id)
    ensures var p' := Effect(p, Prepare(CreateOf(a), r).call, id);
            Grows(p.schema, p'.schema) && PlatformOk(p') && AttributesOk(d, p0, p'.schema)
            && IsBound(p'.schema, a) && HasId(p', a.slug, id)
  {
    assert WellFormedAttribute(d, a);
    var ids, target, display := CreateCall(d, p.schema, a, r);
    hide Prepare, CreateOf, Truthful;
    NewAttributeGrows(p, a.slug, a.kind, ids, target, display, id);
    hide Grows, AttributesOk, IsBound, PlatformOk;
    NewAttributeOk(d, p0, p, a, ids, target, id);
    BoundHere(p, a, ids, target, id);
  }

  lemma BoundHere(p: Platform, a: DesiredAttribute, ids: seq<Id>, target: Option<Id>, id: Id)
    ensures a.slug in WithAttribute(p.schema, a.slug, a.kind, ids, target, id).attributes
    ensures WithAttribute(p.schema, a.slug, a.kind, ids, target, id).attributes[a.slug].id == id
  {
  }

  lemma NewAttributeOk(d: Desired, p0: Current, p: Platform, a: DesiredAttribute, ids: seq<Id>, target: Option<Id>,
                       id: Id)
    requires WellFormed(d) && PlatformOk(p) && AttributesOk(d, p0, p.schema) && Grows(p0, p.schema)
    requires a in d.attributes && a.slug !in p.schema.attributes && FreshId(p, id)
    requires |a.templates| == 1 && TemplateOf(a) in p.schema.templates
    requires forall i :: i in ids <==> i == p.schema.templates[TemplateOf(a)].id
    requires a.kind.KReference? ==> a.target in p.schema.templates && target == Some(p.schema.templates[a.target].id)
    requires var c' := WithAttribute(p.schema, a.slug, a.kind, ids, target, id);
             && Grows(p.schema, c') && DistinctIds(c')
             && (forall s :: s in p.schema.attributes ==>
                   BoundTo(c', p.schema.attributes[s].id) == BoundTo(p.schema, p.schema.attributes[s].id))
             && (forall s :: s in c'.templates ==> (id in c'.templates[s].attributeIds <==> c'.templates[s].id in ids))
    ensures var c' := WithAttribute(p.schema, a.slug, a.kind, ids, target, id);
            AttributesOk(d, p0, c') && IsBound(c', a)
  {
    var c, c' := p.schema, WithAttribute(p.schema, a.slug, a.kind, ids, target, id);
    assert BoundTo(c', id) <= IdOfTemplate(c', TemplateOf(a));
    forall b | b in d.attributes ensures |b.templates| == 1 && AttributeOk(p0, c', b) {
      assert WellFormedAttribute(d, b);
      if b.slug == a.slug {
        SameSlugSameAttribute(d, a, b);
      } else if b.slug in c.attributes {
        AttributeStays(p0, c, c', b);
      }
    }
  }

  lemma BaseGrows(p0: Current, cur: Current, slug: string)
    requires Grows(p0, cur) && slug in cur.attributes
    ensures Base(p0, slug) <= BoundTo(cur, cur.attributes[slug].id)
  {
    if slug in p0.attributes {
      forall i | i in Base(p0, slug) ensures i in BoundTo(cur, cur.attributes[slug].id) {
        var s :| s in p0.templates && p0.attributes[slug].id in p0.templates[s].attributeIds && p0.templates[s].id == i;
        assert cur.templates[s].id == i && cur.attributes[slug].id in cur.templates[s].attributeIds;
      }
    }
  }

  lemma ReboundTemplates(cur: Current, attributeId: Id, ids: set<Id>)
    requires DistinctIds(cur)
    ensures var c' := WithBindings(cur, attributeId, ids);
            && DistinctIds(c') && c'.attributes == cur.attributes
            && BoundTo(c', attributeId) <= ids
            && (BoundTo(cur, attributeId) <= ids ==> Grows(cur, c'))
            && (forall s :: s in cur.templates && cur.templates[s].id in ids ==>
                  attributeId in c'.templates[s].attributeIds)
            && (forall id :: id != attributeId ==> BoundTo(c', id) == BoundTo(cur, id))
  {
    var c' := WithBindings(cur, attributeId, ids);
    if BoundTo(cur, attributeId) <= ids {
      forall s | s in cur.templates ensures cur.templates[s].attributeIds <= c'.templates[s].attributeIds {
        if attributeId in cur.templates[s].attributeIds { assert cur.templates[s].id in BoundTo(cur, attributeId); }
      }
    }
    forall id | id != attributeId ensures BoundTo(c', id) == BoundTo(cur, id) {
      SameBindings(cur, c', id);
    }
  }

  /** Binding a desired attribute keeps every binding it had. */
  lemma BindEffect(d: Desired, p0: Current, p: Platform, a: DesiredAttribute, x: Action, r: Resolved, id: Id)
    requires WellFormed(d) && PlatformOk(p) && AttributesOk(d, p0, p.schema) && Grows(p0, p.schema)
    requires a in d.attributes && |a.templates| == 1 && x.BindAttribute? && x.attribute == a.slug &&
        x.template == TemplateOf(a)
    requires Truthful(r, p.schema) && x.template in r.templates && BindSafe(p0, p.schema, x)
    ensures var p' := Effect(p, Prepare(x, r).call, id);
            Grows(p.schema, p'.schema) && PlatformOk(p') && AttributesOk(d, p0, p'.schema) && IsBound(p'.schema, a)
  {
    var c, ids := p.schema, x.templateIds + {r.templates[x.template]};
    var c' := WithBindings(c, x.boundId, ids);
    assert Effect(p, Prepare(x, r).call, id).schema == c';
    assert AttributeOk(p0, c, a);
    ReboundTemplates(c, x.boundId, ids);
    assert c'.templates[x.template].id in ids;
    hide WithBindings, Prepare;
    forall b | b in d.attributes ensures |b.templates| == 1 && AttributeOk(p0, c', b) {
      if b.slug == a.slug {
        SameSlugSameAttribute(d, a, b);
        if a.slug !in p0.attributes { MatchesStays(c, c', a); }
      } else if b.slug in c.attributes {
        AttributeStays(p0, c, c', b);
      }
    }
  }

  // -------------------------------------------------------- a host's write

  /** What the platform and the host know once an action was accepted. */
  ghost predicate Provided(d: Desired, cur: Current, x: Action, r: Resolved, id: Id)
    requires WellFormed(d)
  {
    && Truthful(Learn(x, r, id), cur)
    && (x.CreateAttribute? || x.BindAttribute? ==>
          forall a :: a in d.attributes && a.slug == x.attribute ==> |a.templates| == 1 && IsBound(cur, a))
  }

  ghost predicate Progress(d: Desired, p0: Current, p: Platform, p': Platform)
    requires WellFormed(d)
  {
    Grows(p.schema, p'.schema) && PlatformOk(p') && AttributesOk(d, p0, p'.schema)
  }

  ghost predicate MayWrite(d: Desired, p0: Current, p: Platform, x: Action, r: Resolved, id: Id)
    requires WellFormed(d)
  {
    && PlatformOk(p) && AttributesOk(d, p0, p.schema) && Grows(p0, p.schema)
    && Asked(d, x) && Truthful(r, p.schema) && ActionSafe(p0, p.schema, x)
    && Prepare(x, r).Send? && Accepts(p, Prepare(x, r).call, id)
  }

  lemma AcceptedTemplate(d: Desired, p0: Current, p: Platform, x: Action, r: Resolved, id: Id)
    requires WellFormed(d) && x.CreateTemplate? && MayWrite(d, p0, p, x, r, id)
    ensures Progress(d, p0, p, Effect(p, Prepare(x, r).call, id))
    ensures Provided(d, Effect(p, Prepare(x, r).call, id).schema, x, r, id)
  {
    NewTemplateEffect(d, p0, p, x.template, id);
    TruthStays(r, p.schema, Effect(p, Prepare(x, r).call, id).schema);
  }

  /** The option request names the attribute the action is about. */
  lemma OptionCall(p0: Current, cur: Current, x: Action, r: Resolved) returns (attributeId: Id)
    requires x.AddListOption? && Truthful(r, cur) && ActionSafe(p0, cur, x) && Prepare(x, r).Send?
    ensures Prepare(x, r).call == NewOption(attributeId, x.option)
    ensures x.attribute in cur.attributes && cur.attributes[x.attribute].id == attributeId
  {
    attributeId := Prepare(x, r).call.attributeId;
  }

  lemma LearnedOption(p: Platform, x: Action, r: Resolved, attributeId: Id, id: Id)
    requires x.AddListOption? && Truthful(r, WithOption(p.schema, attributeId, x.option, id))
    requires HasId(p, x.attribute, attributeId)
    ensures Truthful(Learn(x, r, id), WithOption(p.schema, attributeId, x.option, id))
  {
  }

  lemma AcceptedOption(d: Desired, p0: Current, p: Platform, x: Action, r: Resolved, id: Id)
    requires WellFormed(d) && x.AddListOption? && MayWrite(d, p0, p, x, r, id)
    ensures Progress(d, p0, p, Effect(p, Prepare(x, r).call, id))
    ensures Provided(d, Effect(p, Prepare(x, r).call, id).schema, x, r, id)
  {
    hide AttributesOk, Grows, Truthful, PlatformOk, Accepts, WithOption, ActionSafe, WellFormed;
    var attributeId := OptionCall(p0, p.schema, x, r);
    NewOptionEffect(d, p0, p, attributeId, x.option, id);
    TruthStays(r, p.schema, Effect(p, Prepare(x, r).call, id).schema);
    LearnedOption(p, x, r, attributeId, id);
  }

  lemma LearnedAttribute(p: Platform, x: Action, r: Resolved, id: Id)
    requires x.CreateAttribute? && Truthful(r, p.schema) && HasId(p, x.attribute, id)
    ensures Truthful(Learn(x, r, id), p.schema)
  {
  }

  lemma AcceptedAttribute(d: Desired, p0: Current, p: Platform, x: Action, r: Resolved, id: Id)
    requires WellFormed(d) && x.CreateAttribute? && MayWrite(d, p0, p, x, r, id)
    ensures Progress(d, p0, p, Effect(p, Prepare(x, r).call, id))
    ensures Provided(d, Effect(p, Prepare(x, r).call, id).schema, x, r, id)
  {
    var a :| a in d.attributes && x == CreateOf(a);
    hide CreateOf, Prepare, Effect, Accepts, AttributesOk, IsBound, Grows, Truthful, PlatformOk;
    NewAttributeEffect(d, p0, p, a, r, id);
    CreateOfFields(a);
    var p' := Effect(p, Prepare(x, r).call, id);
    TruthStays(r, p.schema, p'.schema);
    LearnedAttribute(p', x, r, id);
    forall b | b in d.attributes && b.slug == x.attribute ensures b == a {
      SameSlugSameAttribute(d, a, b);
    }
    assert WellFormedAttribute(d, a);
  }

  lemma AcceptedBind(d: Desired, p0: Current, p: Platform, x: Action, r: Resolved, id: Id)
    requires WellFormed(d) && x.BindAttribute? && MayWrite(d, p0, p, x, r, id)
    ensures Progress(d, p0, p, Effect(p, Prepare(x, r).call, id))
    ensures Provided(d, Effect(p, Prepare(x, r).call, id).schema, x, r, id)
  {
    var a :| a in d.attributes && a.slug == x.attribute && x.template in a.templates;
    assert WellFormedAttribute(d, a);
    BindEffect(d, p0, p, a, x, r, id);
    hide Prepare, Effect, Accepts, AttributesOk;
    TruthStays(r, p.schema, Effect(p, Prepare(x, r).call, id).schema);
    forall b | b in d.attributes && b.slug == x.attribute ensures b == a {
      SameSlugSameAttribute(d, a, b);
    }
  }

  lemma AcceptedWrite(d: Desired, p0: Current, p: Platform, x: Action, r: Resolved, id: Id)
    requires WellFormed(d) && MayWrite(d, p0, p, x, r, id)
    ensures Progress(d, p0, p, Effect(p, Prepare(x, r).call, id))
    ensures Provided(d, Effect(p, Prepare(x, r).call, id).schema, x, r, id)
  {
    hide MayWrite, Progress, Provided, Effect, Prepare;
    match x {
      case CreateTemplate(_) => AcceptedTemplate(d, p0, p, x, r, id);
      case CreateAttribute(_, _, _, _, _) => AcceptedAttribute(d, p0, p, x, r, id);
      case AddListOption(_, _, _) => AcceptedOption(d, p0, p, x, r, id);
      case BindAttribute(_, _, _, _) => AcceptedBind(d, p0, p, x, r, id);
    }
  }

  // ------------------------------------------------------ a host's next state

  lemma RestBoundOrPending(d: Desired, cur: Current, cur': Current, rem: seq<Action>, r: Resolved, id: Id)
    requires WellFormed(d) && rem != [] && Grows(cur, cur')
    requires BoundOrPending(d, cur, rem) && Provided(d, cur', rem[0], r, id)
    ensures BoundOrPending(d, cur', rem[1..])
  {
    forall a | a in d.attributes
      ensures |a.templates| == 1 && (IsBound(cur', a) || WillBind(rem[1..], a) || CreatesAttribute(rem[1..], a.slug))
    {
      if IsBound(cur, a) {
        BoundStays(cur, cur', a);
      } else if WillBind(rem, a) {
        var x :| x in rem && x.BindAttribute? && x.attribute == a.slug;
        if x != rem[0] { assert x in rem[1..]; }
      } else {
        var x :| x in rem && x.CreateAttribute? && x.attribute == a.slug;
        if x != rem[0] { assert x in rem[1..]; }
      }
    }
  }

  lemma AdvanceHostOk(d: Desired, p0: Current, cur: Current, rem: seq<Action>, log: Log)
    requires WellFormed(d) && HostInv(d, Advance(Applying(rem, log)))
    requires Truthful(log.resolved, cur) && OldMatch(d, p0, cur)
    requires ActionsSafe(p0, cur, rem) && BoundOrPending(d, cur, rem)
    ensures HostOk(d, p0, cur, Advance(Applying(rem, log)))
  {
    hide HostInv, Prepare;
  }

  lemma AdvanceVerifyOk(d: Desired, p0: Current, cur: Current, rem: seq<Action>, log: Log)
    requires WellFormed(d) && HostInv(d, Advance(Verifying(rem, log)))
    requires Truthful(log.resolved, cur) && OldMatch(d, p0, cur)
    requires ActionsSafe(p0, cur, rem) && BoundOrPending(d, cur, [])
    ensures HostOk(d, p0, cur, Advance(Verifying(rem, log)))
  {
    hide HostInv, Prepare;
  }
}
