/** What one host's run keeps, whatever the platform answers: the plan is always
    executable front to back, no object is created twice, and a run that
    succeeds knows the id of everything desired. */
module SchemaHostLaws {
  import opened Ordering
  import opened Schema
  import opened SchemaPlan
  import opened SchemaHost

  // ------------------------------------------------------- shape of a plan

  /** Templates, plain attributes, references, options, binds. */
  function Phase(x: Action): nat {
    match x
    case CreateTemplate(_) => 0
    case CreateAttribute(_, kind, _, _, _) => if kind.KReference? then 2 else 1
    case AddListOption(_, _, _) => 3
    case BindAttribute(_, _, _, _) => 4
  }

  ghost predicate Phased(s: seq<Action>) {
    forall i, j :: 0 <= i < j < |s| ==> Phase(s[i]) <= Phase(s[j])
  }

  ghost predicate AllInPhase(s: seq<Action>, p: nat) {
    forall x :: x in s ==> Phase(x) == p
  }

  lemma PhaseOfGather<A>(s: seq<A>, f: A -> seq<Action>, p: nat)
    requires forall a :: a in s ==> AllInPhase(f(a), p)
    ensures AllInPhase(Gather(s, f), p)
  {
    forall x | x in Gather(s, f) ensures Phase(x) == p {
      GatherMemberOf(s, f, x);
    }
  }

  lemma {:induction false} GatherMemberOf<A, B>(s: seq<A>, f: A -> seq<B>, x: B)
    requires x in Gather(s, f)
    ensures exists i :: 0 <= i < |s| && x in f(s[i])
  {
    var n := |s| - 1;
    if x !in f(s[n]) {
      GatherMemberOf(s[..n], f, x);
      var i :| 0 <= i < n && x in f(s[..n][i]);
      assert x in f(s[i]);
    }
  }

  /** The five groups a plan is made of. */
  lemma PlanGroups(d: Desired, cur: Current)
    returns (g0: seq<Action>, g1: seq<Action>, g2: seq<Action>, g3: seq<Action>, g4: seq<Action>)
    ensures DiffPlan(d, cur).actions == g0 + g1 + g2 + g3 + g4
    ensures AllInPhase(g0, 0) && AllInPhase(g1, 1) && AllInPhase(g2, 2) && AllInPhase(g3, 3) && AllInPhase(g4, 4)
    ensures g0 == Gather(Sort(d.templates, TemplateLe), TemplateCreates(cur))
    ensures g1 == Gather(Sort(d.attributes, AttributeLe), AttributeCreates(cur))
    ensures g2 == Gather(Sort(d.attributes, AttributeLe), ReferenceCreates(cur))
    ensures g3 == Gather(Sort(d.attributes, AttributeLe), OptionAdds(cur))
    ensures g4 == Sort(Gather(Sort(d.attributes, AttributeLe), BindAdds(cur)), BindLe)
  {
    var ts, attrs := Sort(d.templates, TemplateLe), Sort(d.attributes, AttributeLe);
    hide Sort;
    g0 := Gather(ts, TemplateCreates(cur));
    g1 := Gather(attrs, AttributeCreates(cur));
    g2 := Gather(attrs, ReferenceCreates(cur));
    g3 := Gather(attrs, OptionAdds(cur));
    g4 := Sort(Gather(attrs, BindAdds(cur)), BindLe);
    PhaseOfGather(ts, TemplateCreates(cur), 0);
    PhaseOfGather(attrs, AttributeCreates(cur), 1);
    PhaseOfGather(attrs, ReferenceCreates(cur), 2);
    OptionsInPhase(attrs, cur);
    BindsInPhase(attrs, cur);
  }

  lemma OptionsInPhase(attrs: seq<DesiredAttribute>, cur: Current)
    ensures AllInPhase(Gather(attrs, OptionAdds(cur)), 3)
  {
    forall a | a in attrs ensures AllInPhase(OptionAdds(cur)(a), 3) {
      forall x ensures x in OptionAdds(cur)(a) ==> Phase(x) == 3 { OptionContribution(cur, a, x); }
    }
    PhaseOfGather(attrs, OptionAdds(cur), 3);
  }

  lemma BindsInPhase(attrs: seq<DesiredAttribute>, cur: Current)
    ensures AllInPhase(Gather(attrs, BindAdds(cur)), 4)
  {
    forall a | a in attrs ensures AllInPhase(BindAdds(cur)(a), 4) {
      forall x ensures x in BindAdds(cur)(a) ==> Phase(x) == 4 { BindContribution(cur, a, x); }
    }
    PhaseOfGather(attrs, BindAdds(cur), 4);
  }

  lemma PlanPhased(d: Desired, cur: Current)
    ensures Phased(DiffPlan(d, cur).actions)
  {
    hide DiffPlan;
    var g0, g1, g2, g3, g4 := PlanGroups(d, cur);
    GroupsPhased(g0, g1, g2, g3, g4);
  }

  lemma GroupsPhased(g0: seq<Action>, g1: seq<Action>, g2: seq<Action>, g3: seq<Action>, g4: seq<Action>)
    requires AllInPhase(g0, 0) && AllInPhase(g1, 1) && AllInPhase(g2, 2) && AllInPhase(g3, 3) && AllInPhase(g4, 4)
    ensures Phased(g0 + g1 + g2 + g3 + g4)
  {
    PhasedConcat(g0, g1, 1);
    PhasedConcat(g0 + g1, g2, 2);
    PhasedConcat(g0 + g1 + g2, g3, 3);
    PhasedConcat(g0 + g1 + g2 + g3, g4, 4);
  }

  lemma PhasedConcat(s: seq<Action>, t: seq<Action>, p: nat)
    requires Phased(s) && AllInPhase(t, p) && forall x :: x in s ==> Phase(x) <= p
    ensures Phased(s + t) && forall x :: x in s + t ==> Phase(x) <= p
  {
  }

  // ------------------------------------------------------- nothing repeats

  /** No action occurs twice, and no two actions add the same main object. */
  ghost predicate NoRepeats(s: seq<Action>) {
    && (forall x :: multiset(s)[x] <= 1)
    && (forall x, y :: x in s && y in s && MainObject(x) == MainObject(y) ==> x == y)
  }

  /** Every action of f(s[i]) belongs to s[i] alone. */
  lemma {:induction false} GatherOnce<A(!new), B>(s: seq<A>, f: A -> seq<B>, x: B)
    requires forall i, j :: 0 <= i < j < |s| ==> !(x in f(s[i]) && x in f(s[j]))
    requires forall a :: a in s ==> multiset(f(a))[x] <= 1
    ensures multiset(Gather(s, f))[x] <= 1
  {
    if s != [] {
      var n := |s| - 1;
      GatherOnce(s[..n], f, x);
      if x in Gather(s[..n], f) && x in f(s[n]) {
        GatherMemberOf(s[..n], f, x);
      }
    }
  }

  lemma SortedAttributesDistinct(d: Desired)
    requires WellFormed(d)
    ensures DistinctAttributes(Sort(d.attributes, AttributeLe))
  {
    var s := Sort(d.attributes, AttributeLe);
    forall i, j | 0 <= i < j < |s| ensures s[i].slug != s[j].slug {
      if s[i].slug == s[j].slug {
        SameSlugSameAttribute(d, s[i], s[j]);
        Twice(s, i, j);
        Distinct(d.attributes, s[i]);
      }
    }
  }

  lemma SortedTemplatesDistinct(d: Desired)
    requires WellFormed(d)
    ensures DistinctTemplates(Sort(d.templates, TemplateLe))
  {
    var s := Sort(d.templates, TemplateLe);
    forall i, j | 0 <= i < j < |s| ensures s[i].slug != s[j].slug {
      if s[i].slug == s[j].slug {
        assert s[i] == s[j];
        Twice(s, i, j);
        Distinct(d.templates, s[i]);
      }
    }
  }

  lemma Twice<T>(s: seq<T>, i: nat, j: nat)
    requires i < j < |s| && s[i] == s[j]
    ensures multiset(s)[s[i]] >= 2
  {
    assert s == s[..j] + [s[j]] + s[j + 1..];
    assert s[i] in s[..j];
  }

  lemma {:induction false} Distinct<T>(s: seq<T>, x: T)
    requires forall i, j :: 0 <= i < j < |s| ==> s[i] != s[j]
    ensures multiset(s)[x] <= 1
  {
    if s != [] {
      var n := |s| - 1;
      Distinct(s[..n], x);
      assert s == s[..n] + [s[n]];
      if x == s[n] { assert x !in s[..n]; }
    }
  }

  lemma OptionsOnce(cur: Current, a: DesiredAttribute, x: Action)
    requires forall i, j :: 0 <= i < j < |a.options| ==> a.options[i] != a.options[j]
    ensures multiset(OptionAdds(cur)(a))[x] <= 1
  {
    if OptionsPlanned(cur, a) {
      var f := OptionAdd(cur, a);
      GatherOnce(a.options, f, x);
    }
  }

  lemma BindsOnce(cur: Current, a: DesiredAttribute, x: Action)
    requires |a.templates| == 1
    ensures multiset(BindAdds(cur)(a))[x] <= 1
  {
    if a.slug in cur.attributes && Matches(cur, a) {
      GatherOnce(a.templates, BindAdd(cur, a.slug, cur.attributes[a.slug]), x);
    }
  }

  lemma TemplateCreatesOnce(ts: seq<DesiredTemplate>, cur: Current, x: Action)
    requires DistinctTemplates(ts)
    ensures multiset(Gather(ts, TemplateCreates(cur)))[x] <= 1
  {
    forall i, j | 0 <= i < j < |ts|
      ensures !(x in TemplateCreates(cur)(ts[i]) && x in TemplateCreates(cur)(ts[j]))
    {
      assert ts[i].slug != ts[j].slug;
      if x in TemplateCreates(cur)(ts[i]) { assert x == CreateTemplate(ts[i].slug); }
      if x in TemplateCreates(cur)(ts[j]) { assert x == CreateTemplate(ts[j].slug); }
    }
    GatherOnce(ts, TemplateCreates(cur), x);
  }

  lemma CreateSlug(cur: Current, a: DesiredAttribute, x: Action)
    ensures x in AttributeCreates(cur)(a) || x in ReferenceCreates(cur)(a) ==> x.Slug() == a.slug
    ensures multiset(AttributeCreates(cur)(a))[x] <= 1 && multiset(ReferenceCreates(cur)(a))[x] <= 1
  {
    hide Sort;
  }

  lemma CreatesOnce(attrs: seq<DesiredAttribute>, cur: Current, x: Action)
    requires DistinctAttributes(attrs)
    ensures multiset(Gather(attrs, AttributeCreates(cur)))[x] <= 1
    ensures multiset(Gather(attrs, ReferenceCreates(cur)))[x] <= 1
  {
    forall a
      ensures x in AttributeCreates(cur)(a) || x in ReferenceCreates(cur)(a) ==> x.Slug() == a.slug
      ensures multiset(AttributeCreates(cur)(a))[x] <= 1 && multiset(ReferenceCreates(cur)(a))[x] <= 1
    {
      CreateSlug(cur, a, x);
    }
    hide AttributeCreates, ReferenceCreates, CreateOf;
    forall i, j | 0 <= i < j < |attrs|
      ensures !(x in AttributeCreates(cur)(attrs[i]) && x in AttributeCreates(cur)(attrs[j]))
      ensures !(x in ReferenceCreates(cur)(attrs[i]) && x in ReferenceCreates(cur)(attrs[j]))
    {
      assert attrs[i].slug != attrs[j].slug;
    }
    GatherOnce(attrs, AttributeCreates(cur), x);
    GatherOnce(attrs, ReferenceCreates(cur), x);
  }

  lemma AddsOnce(d: Desired, attrs: seq<DesiredAttribute>, cur: Current, x: Action)
    requires DistinctAttributes(attrs) && forall a :: a in attrs ==> WellFormedAttribute(d, a)
    ensures multiset(Gather(attrs, OptionAdds(cur)))[x] <= 1
    ensures multiset(Gather(attrs, BindAdds(cur)))[x] <= 1
  {
    forall i, j | 0 <= i < j < |attrs|
      ensures !(x in OptionAdds(cur)(attrs[i]) && x in OptionAdds(cur)(attrs[j]))
      ensures !(x in BindAdds(cur)(attrs[i]) && x in BindAdds(cur)(attrs[j]))
    {
      OptionContribution(cur, attrs[i], x);
      OptionContribution(cur, attrs[j], x);
      BindContribution(cur, attrs[i], x);
      BindContribution(cur, attrs[j], x);
      assert attrs[i].slug != attrs[j].slug;
    }
    forall a | a in attrs ensures multiset(OptionAdds(cur)(a))[x] <= 1 && multiset(BindAdds(cur)(a))[x] <= 1 {
      OptionsOnce(cur, a, x);
      BindsOnce(cur, a, x);
    }
    hide OptionAdds, BindAdds;
    GatherOnce(attrs, OptionAdds(cur), x);
    GatherOnce(attrs, BindAdds(cur), x);
  }

  lemma GroupsOnce(d: Desired, cur: Current, x: Action)
    requires WellFormed(d)
    ensures multiset(Gather(Sort(d.templates, TemplateLe), TemplateCreates(cur)))[x] <= 1
    ensures multiset(Gather(Sort(d.attributes, AttributeLe), AttributeCreates(cur)))[x] <= 1
    ensures multiset(Gather(Sort(d.attributes, AttributeLe), ReferenceCreates(cur)))[x] <= 1
    ensures multiset(Gather(Sort(d.attributes, AttributeLe), OptionAdds(cur)))[x] <= 1
    ensures multiset(Gather(Sort(d.attributes, AttributeLe), BindAdds(cur)))[x] <= 1
  {
    hide Gather, TemplateCreates, AttributeCreates, ReferenceCreates, OptionAdds, BindAdds, WellFormedAttribute;
    SortedTemplatesDistinct(d);
    SortedAttributesDistinct(d);
    TemplateCreatesOnce(Sort(d.templates, TemplateLe), cur, x);
    CreatesOnce(Sort(d.attributes, AttributeLe), cur, x);
    AddsOnce(d, Sort(d.attributes, AttributeLe), cur, x);
  }

  lemma OneGroupOnly(g0: seq<Action>, g1: seq<Action>, g2: seq<Action>, g3: seq<Action>, g4: seq<Action>, x: Action)
    requires AllInPhase(g0, 0) && AllInPhase(g1, 1) && AllInPhase(g2, 2) && AllInPhase(g3, 3) && AllInPhase(g4, 4)
    requires multiset(g0)[x] <= 1 && multiset(g1)[x] <= 1 && multiset(g2)[x] <= 1
    requires multiset(g3)[x] <= 1 && multiset(g4)[x] <= 1
    ensures multiset(g0 + g1 + g2 + g3 + g4)[x] <= 1
  {
    forall g | g in [g0, g1, g2, g3, g4] ensures multiset(g)[x] > 0 <==> x in g {}
  }

  lemma SameAttributeObject(d: Desired, cur: Current, x: Action, y: Action)
    requires WellFormed(d) && x.CreateAttribute? && y.CreateAttribute? && x.attribute == y.attribute
    requires x in DiffPlan(d, cur).actions && y in DiffPlan(d, cur).actions
    ensures x == y
  {
    hide DiffPlan;
    AttributeCreateInPlan(d, cur, x);
    AttributeCreateInPlan(d, cur, y);
    var a :| a in d.attributes && a.slug !in cur.attributes && x == CreateOf(a);
    var b :| b in d.attributes && b.slug !in cur.attributes && y == CreateOf(b);
    SameSlugSameAttribute(d, a, b);
  }

  lemma SameOptionObject(d: Desired, cur: Current, x: Action, y: Action)
    requires x.AddListOption? && y.AddListOption? && x.attribute == y.attribute && x.option == y.option
    requires x in DiffPlan(d, cur).actions && y in DiffPlan(d, cur).actions
    ensures x == y
  {
    hide DiffPlan;
    OptionInPlan(d, cur, x);
    OptionInPlan(d, cur, y);
    var a :| a in d.attributes && PlansOption(cur, a, x);
    var b :| b in d.attributes && PlansOption(cur, b, y);
    OptionMissing(cur, a, x);
    OptionMissing(cur, b, y);
  }

  lemma SameBindObject(d: Desired, cur: Current, x: Action, y: Action)
    requires x.BindAttribute? && y.BindAttribute? && x.attribute == y.attribute && x.template == y.template
    requires x in DiffPlan(d, cur).actions && y in DiffPlan(d, cur).actions
    ensures x == y
  {
    hide DiffPlan;
    BindInPlan(d, cur, x);
    BindInPlan(d, cur, y);
    var a :| a in d.attributes && PlansBind(cur, a, x);
    var b :| b in d.attributes && PlansBind(cur, b, y);
    assert a.slug == b.slug == x.attribute;
    assert cur.attributes[a.slug] == cur.attributes[b.slug];
  }

  lemma PlanMainObjects(d: Desired, cur: Current, x: Action, y: Action)
    requires WellFormed(d)
    requires x in DiffPlan(d, cur).actions && y in DiffPlan(d, cur).actions && MainObject(x) == MainObject(y)
    ensures x == y
  {
    hide DiffPlan, WellFormed;
    if x.CreateAttribute? {
      SameAttributeObject(d, cur, x, y);
    } else if x.AddListOption? {
      SameOptionObject(d, cur, x, y);
    } else if x.BindAttribute? {
      SameBindObject(d, cur, x, y);
    }
  }

  lemma PlanNoRepeats(d: Desired, cur: Current)
    requires WellFormed(d)
    ensures NoRepeats(DiffPlan(d, cur).actions)
  {
    hide DiffPlan;
    var g0, g1, g2, g3, g4 := PlanGroups(d, cur);
    forall x ensures multiset(DiffPlan(d, cur).actions)[x] <= 1 {
      GroupsOnce(d, cur, x);
      OneGroupOnly(g0, g1, g2, g3, g4, x);
    }
    forall x, y | x in DiffPlan(d, cur).actions && y in DiffPlan(d, cur).actions && MainObject(x) == MainObject(y)
      ensures x == y
    {
      PlanMainObjects(d, cur, x, y);
    }
  }

  // ------------------------------------------------------------- filtering

  lemma {:induction false} FilterMembers(actions: seq<Action>, done: seq<ActionResult>)
    ensures var out := NotYetDone(actions, done);
            && multiset(out) <= multiset(actions)
            && (forall x :: x in out <==> x in actions && (x.BindAttribute? || !Did(done, x)))
  {
    if actions != [] {
      var n := |actions| - 1;
      FilterMembers(actions[..n], done);
      assert actions == actions[..n] + [actions[n]];
      var kept := Keep(done)(actions[n]);
      hide Did;
      assert NotYetDone(actions, done) == NotYetDone(actions[..n], done) + kept;
    }
  }

  /** A re-plan without the done part keeps the order. */
  lemma {:induction false} FilterPhased(actions: seq<Action>, done: seq<ActionResult>)
    requires Phased(actions)
    ensures Phased(NotYetDone(actions, done))
  {
    if actions != [] {
      var n := |actions| - 1;
      var init, last := actions[..n], actions[n];
      FilterPhased(init, done);
      FilterMembers(init, done);
      var before, kept := NotYetDone(init, done), Keep(done)(last);
      assert NotYetDone(actions, done) == before + kept;
      hide Did;
      forall x | x in before ensures Phase(x) <= Phase(last) {
        assert x in init;
      }
      PhasedConcat(before, kept, Phase(last));
    }
  }

  lemma FilterNoRepeats(actions: seq<Action>, out: seq<Action>)
    requires NoRepeats(actions) && multiset(out) <= multiset(actions)
    ensures NoRepeats(out)
  {
    forall x | x in out ensures x in actions {
      assert x in multiset(out);
      assert x in multiset(actions);
    }
  }

  lemma RestOf(s: seq<Action>)
    requires s != [] && NoRepeats(s)
    ensures NoRepeats(s[1..])
    ensures forall x :: x in s[1..] <==> x in s && x != s[0]
    ensures forall x :: x in s[1..] ==> MainObject(x) != MainObject(s[0])
    ensures Phased(s) ==> Phased(s[1..])
  {
    assert s == [s[0]] + s[1..];
    assert multiset(s) == multiset{s[0]} + multiset(s[1..]);
    forall x ensures multiset(s[1..])[x] <= multiset(s)[x] {}
    assert multiset(s[1..])[s[0]] == 0;
  }
}
