/** List options in one host's run: those of an attribute are planned together,
    so a run forgets some only after it found one of that attribute taken. */
module SchemaOptions {
  import opened Ordering
  import opened Schema
  import opened SchemaPlan
  import opened SchemaHost
  import opened SchemaHostLaws
  import opened SchemaRuns

  predicate OptionKnown(r: Resolved, slug: string, value: string) {
    value in ItemsOf(r.listItems, slug)
  }

  /** Every option desired of a has an item id. */
  ghost predicate AllOptionsKnown(a: DesiredAttribute, r: Resolved) {
    forall v :: v in a.options ==> OptionKnown(r, a.slug, v)
  }

  /** Every desired list option has an item id. */
  ghost predicate OptionsKnown(d: Desired, r: Resolved) {
    forall a :: a in d.attributes ==> AllOptionsKnown(a, r)
  }

  predicate AddsTo(x: Action, slug: string) {
    x.AddListOption? && x.attribute == slug
  }

  ghost predicate AddsOption(s: seq<Action>, slug: string, value: string) {
    exists x :: x in s && AddsTo(x, slug) && x.option == value
  }

  ghost predicate OptionsCovered(a: DesiredAttribute, rem: seq<Action>, r: Resolved) {
    forall v :: v in a.options ==> OptionKnown(r, a.slug, v) || AddsOption(rem, a.slug, v)
  }

  /** This run sent, or found there, an option of the attribute. */
  predicate MetOption(done: seq<ActionResult>, slug: string) {
    exists e :: e in done && AddsTo(e.action, slug)
  }

  /** This run found an option of the attribute already there and skipped it. */
  predicate SkippedOption(done: seq<ActionResult>, slug: string) {
    exists e :: e in done && e.skipped && AddsTo(e.action, slug)
  }

  predicate NoneLeft(rem: seq<Action>, slug: string) {
    forall x :: x in rem ==> !AddsTo(x, slug)
  }

  // --------------------------------------------------- one attribute at a time

  /** Options come in the order of their attributes' slugs. */
  ghost predicate OptionsSorted(s: seq<Action>) {
    forall i, j :: 0 <= i < j < |s| && s[i].AddListOption? && s[j].AddListOption? ==>
      StringLe(s[i].attribute, s[j].attribute)
  }

  /** An attribute's options stand together: behind one of them comes another of
      the same attribute or none at all. */
  lemma OptionsContiguous(s: seq<Action>, slug: string)
    requires Phased(s) && OptionsSorted(s) && |s| > 1 && AddsTo(s[0], slug) && !NoneLeft(s[1..], slug)
    ensures AddsTo(s[1], slug)
  {
    var x :| x in s[1..] && AddsTo(x, slug);
    var k :| 1 <= k < |s| && s[k] == x;
    assert Phase(s[0]) <= Phase(s[1]) <= Phase(s[k]);
    if k > 1 { StringLeAntisymmetric(s[1].attribute, slug); }
  }

  lemma SortedConcat(s: seq<Action>, t: seq<Action>)
    requires OptionsSorted(s) && OptionsSorted(t)
    requires forall x, y :: x in s && y in t && x.AddListOption? && y.AddListOption? ==>
               StringLe(x.attribute, y.attribute)
    ensures OptionsSorted(s + t)
  {
  }

  lemma OptionsOfSorted(cur: Current, a: DesiredAttribute)
    ensures OptionsSorted(OptionAdds(cur)(a))
    ensures forall x :: x in OptionAdds(cur)(a) ==> AddsTo(x, a.slug)
  {
    hide OptionsPlanned, OptionAdd;
    forall x | x in OptionAdds(cur)(a) ensures AddsTo(x, a.slug) {
      OptionContribution(cur, a, x);
      OptionMissing(cur, a, x);
    }
    hide OptionAdds;
    StringLeReflexive(a.slug);
    var s := OptionAdds(cur)(a);
    forall i, j | 0 <= i < j < |s|
      ensures s[i].AddListOption? && s[j].AddListOption? && StringLe(s[i].attribute, s[j].attribute)
    {
      assert AddsTo(s[i], a.slug) && AddsTo(s[j], a.slug);
    }
  }

  lemma {:induction false} GatheredSorted(attrs: seq<DesiredAttribute>, cur: Current)
    requires SortedBy(attrs, AttributeLe)
    ensures OptionsSorted(Gather(attrs, OptionAdds(cur)))
    ensures forall x :: x in Gather(attrs, OptionAdds(cur)) && x.AddListOption? ==>
              exists a :: a in attrs && a.slug == x.attribute
  {
    hide OptionAdds;
    if attrs != [] {
      var n := |attrs| - 1;
      var init, last := attrs[..n], attrs[n];
      GatheredSorted(init, cur);
      OptionsOfSorted(cur, last);
      var before, own := Gather(init, OptionAdds(cur)), OptionAdds(cur)(last);
      forall x, y | x in before && y in own && x.AddListOption? && y.AddListOption?
        ensures StringLe(x.attribute, y.attribute)
      {
        var a :| a in init && a.slug == x.attribute;
        var i :| 0 <= i < n && attrs[i] == a;
        assert AttributeLe(attrs[i], attrs[n]);
      }
      SortedConcat(before, own);
    }
  }

  lemma OtherPhasesSorted(s: seq<Action>, p: nat)
    requires AllInPhase(s, p) && p != 3
    ensures forall x :: x in s ==> !x.AddListOption?
  {
  }

  lemma AttributePreorder()
    ensures Preorder(AttributeLe)
  {
    StringPreorder();
  }

  lemma PlanOptionsSorted(d: Desired, cur: Current)
    ensures OptionsSorted(DiffPlan(d, cur).actions)
  {
    hide DiffPlan, Gather, Sort, AttributeLe;
    var g0, g1, g2, g3, g4 := PlanGroups(d, cur);
    AttributePreorder();
    SortSorts(d.attributes, AttributeLe);
    GatheredSorted(Sort(d.attributes, AttributeLe), cur);
    OtherPhasesSorted(g0, 0);
    OtherPhasesSorted(g1, 1);
    OtherPhasesSorted(g2, 2);
    OtherPhasesSorted(g4, 4);
    hide AllInPhase;
    SortedConcat(g0, g1);
    SortedConcat(g0 + g1, g2);
    SortedConcat(g0 + g1 + g2, g3);
    SortedConcat(g0 + g1 + g2 + g3, g4);
  }

  lemma {:induction false} FilterSorted(actions: seq<Action>, done: seq<ActionResult>)
    requires OptionsSorted(actions)
    ensures OptionsSorted(NotYetDone(actions, done))
  {
    if actions != [] {
      var n := |actions| - 1;
      var init, last := actions[..n], actions[n];
      FilterSorted(init, done);
      FilterMembers(init, done);
      var before, kept := NotYetDone(init, done), Keep(done)(last);
      assert NotYetDone(actions, done) == before + kept;
      hide Did;
      forall x | x in before && x.AddListOption? && last.AddListOption? ensures StringLe(x.attribute, last.attribute) {
        assert x in init;
      }
      SortedConcat(before, kept);
    }
  }

  // ------------------------------------------------------------ the invariant

  /** Nothing of a is forgotten: an option is known or still to come, and once one
      was sent the others are next or there are none. */
  ghost predicate OnTheWay(a: DesiredAttribute, rem: seq<Action>, log: Log) {
    && OptionsCovered(a, rem, log.resolved)
    && (MetOption(log.done, a.slug) ==> NoneLeft(rem, a.slug) || (rem != [] && AddsTo(rem[0], a.slug)))
  }

  /** The run is about to skip x: the other attributes' options are all known or
      none of them was sent yet. */
  ghost predicate Unhurt(a: DesiredAttribute, x: Action, log: Log) {
    AddsTo(x, a.slug) || !MetOption(log.done, a.slug) || AllOptionsKnown(a, log.resolved)
  }

  ghost predicate AttributeSafe(a: DesiredAttribute, h: Host) {
    SkippedOption(h.log.done, a.slug) ||
    match h
    case Applying(rem, log) => OnTheWay(a, rem, log)
    case Rereading(x, _, log) => Unhurt(a, x, log)
    case Stopped(_, _) => true
    case _ => AllOptionsKnown(a, h.log.resolved)
  }

  ghost predicate NothingSkipped(done: seq<ActionResult>) {
    forall e :: e in done ==> !e.skipped
  }

  ghost predicate OptionInv(d: Desired, h: Host) {
    && (h.Applying? ==> OptionsSorted(h.remaining))
    && (h.Rereading? ==> h.log.rereads > 0)
    && (h.log.rereads == 0 ==> NothingSkipped(h.log.done))
    && forall a :: a in d.attributes ==> AttributeSafe(a, h)
  }

  lemma AdvanceOptions(d: Desired, rem: seq<Action>, log: Log)
    requires OptionsSorted(rem) && (log.rereads == 0 ==> NothingSkipped(log.done))
    requires forall a :: a in d.attributes ==> SkippedOption(log.done, a.slug) || OnTheWay(a, rem, log)
    ensures OptionInv(d, Advance(Applying(rem, log)))
  {
    hide Prepare, MetOption, SkippedOption, NothingSkipped, OptionsSorted;
    forall a | a in d.attributes && rem == [] && OnTheWay(a, rem, log) ensures AllOptionsKnown(a, log.resolved) {}
  }

  /** What a plan made from cur leaves out of a's options, cur shows. */
  lemma PlanCoversOptions(d: Desired, cur: Current, a: DesiredAttribute)
    requires WellFormed(d) && ConflictFree(d, cur) && a in d.attributes
    ensures OptionsCovered(a, DiffPlan(d, cur).actions, ResolvedFrom(cur))
  {
    hide DiffPlan;
    assert WellFormedAttribute(d, a);
    forall v | v in a.options
      ensures OptionKnown(ResolvedFrom(cur), a.slug, v) || AddsOption(DiffPlan(d, cur).actions, a.slug, v)
    {
      if a.slug !in cur.attributes || v !in cur.attributes[a.slug].options {
        var x := AddListOption(a.slug, KnownId(cur, a.slug), v);
        assert PlansOption(cur, a, x);
        OptionInPlan(d, cur, x);
      }
    }
  }

  lemma StartOptions(d: Desired, cur: Current)
    requires WellFormed(d)
    ensures OptionInv(d, Start(d, cur))
  {
    hide DiffPlan, WellFormed, ConflictFree, OptionsSorted, OptionsCovered, Advance;
    var plan, log := DiffPlan(d, cur), Log([], 0, ResolvedFrom(cur), false);
    if plan.conflicts == [] {
      ConflictsExact(d, cur);
      PlanOptionsSorted(d, cur);
      forall a | a in d.attributes ensures OnTheWay(a, plan.actions, log) { PlanCoversOptions(d, cur, a); }
      AdvanceOptions(d, plan.actions, log);
    }
  }

  // ----------------------------------------------------------------- steps

  lemma PerformOnTheWay(a: DesiredAttribute, rem: seq<Action>, log: Log, id: Id)
    requires rem != [] && Phased(rem) && OptionsSorted(rem) && OnTheWay(a, rem, log)
    ensures OnTheWay(a, rem[1..], Performed(rem[0], log, id))
  {
    var x, rest, next := rem[0], rem[1..], Performed(rem[0], log, id);
    forall v | v in a.options ensures OptionKnown(next.resolved, a.slug, v) || AddsOption(rest, a.slug, v) {
      if !OptionKnown(log.resolved, a.slug, v) {
        var y :| y in rem && AddsTo(y, a.slug) && y.option == v;
        if y != x { assert y in rest; }
      }
    }
    if !NoneLeft(rest, a.slug) {
      if AddsTo(x, a.slug) {
        OptionsContiguous(rem, a.slug);
      } else {
        assert !NoneLeft(rem, a.slug);
        assert !MetOption(log.done, a.slug);
        MetOne(log.done, x, false, a.slug);
      }
    }
  }

  lemma MetOne(done: seq<ActionResult>, x: Action, skipped: bool, slug: string)
    ensures MetOption(done + [ActionResult(x, skipped)], slug) <==> MetOption(done, slug) || AddsTo(x, slug)
    ensures SkippedOption(done + [ActionResult(x, skipped)], slug) <==>
            SkippedOption(done, slug) || (skipped && AddsTo(x, slug))
  {
    var done' := done + [ActionResult(x, skipped)];
    assert done'[|done|] in done';
    forall e | e in done ensures e in done' {}
  }

  lemma ApplyingOptions(d: Desired, delays: nat, h: Host, t: Tick)
    requires h.Applying? && HostInv(d, h) && OptionInv(d, h)
    ensures OptionInv(d, Receive(d, delays, h, t))
  {
    hide Prepare, Covered, OptionsCovered, MetOption, SkippedOption, NoneLeft, OptionsSorted, AllOptionsKnown;
    var rem, log := h.remaining, h.log;
    var next := Performed(rem[0], log, if t.write.Accepted? then t.write.id else "0");
    forall a | a in d.attributes ensures SkippedOption(next.done, a.slug) <==> SkippedOption(log.done, a.slug) {
      MetOne(log.done, rem[0], false, a.slug);
    }
    if t.write.Accepted? {
      forall a | a in d.attributes && OnTheWay(a, rem, log) ensures OnTheWay(a, rem[1..], next) {
        PerformOnTheWay(a, rem, log, t.write.id);
      }
      RestSorted(rem);
      hide OnTheWay, Advance;
      AdvanceOptions(d, rem[1..], next.(verifyDue := log.verifyDue || rem[0].BindAttribute?));
    } else {
      forall a | a in d.attributes && OnTheWay(a, rem, log) ensures Unhurt(a, rem[0], log) {
        FrontUnhurt(a, rem, log);
      }
    }
  }

  lemma RestSorted(rem: seq<Action>)
    requires rem != [] && OptionsSorted(rem)
    ensures OptionsSorted(rem[1..])
  {
  }

  lemma FrontUnhurt(a: DesiredAttribute, rem: seq<Action>, log: Log)
    requires rem != [] && OnTheWay(a, rem, log)
    ensures Unhurt(a, rem[0], log)
  {
  }

  /** A re-plan keeps a's options all when none was met, and drops them all otherwise. */
  lemma FilterOptions(actions: seq<Action>, done: seq<ActionResult>, slug: string)
    ensures var out := NotYetDone(actions, done);
            if MetOption(done, slug) then NoneLeft(out, slug)
            else forall x :: x in actions && AddsTo(x, slug) ==> x in out
  {
    FilterMembers(actions, done);
    hide NotYetDone;
    if MetOption(done, slug) {
      var e :| e in done && AddsTo(e.action, slug);
      forall x | AddsTo(x, slug) ensures Did(done, x) { assert SameKey(e.action, x); }
    } else {
      forall x, e | AddsTo(x, slug) && e in done ensures !SameKey(e.action, x) {}
    }
  }

  lemma MergedKnows(read: Resolved, own: Resolved, slug: string, v: string)
    requires OptionKnown(read, slug, v) || OptionKnown(own, slug, v)
    ensures OptionKnown(Merged(read, own), slug, v)
  {
  }

  lemma ReplanOnTheWay(d: Desired, seen: Current, a: DesiredAttribute, x: Action, log: Log, merged: Log)
    requires WellFormed(d) && ConflictFree(d, seen) && a in d.attributes && Unhurt(a, x, log)
    requires merged.done == log.done + [ActionResult(x, true)]
    requires merged.resolved == Merged(ResolvedFrom(seen), log.resolved)
    ensures SkippedOption(merged.done, a.slug) ||
            OnTheWay(a, NotYetDone(DiffPlan(d, seen).actions, merged.done), merged)
  {
    hide DiffPlan, WellFormed, ConflictFree, Merged, ResolvedFrom, NotYetDone, OptionKnown, MetOption, SkippedOption;
    var all := DiffPlan(d, seen).actions;
    var out := NotYetDone(all, merged.done);
    MetOne(log.done, x, true, a.slug);
    FilterOptions(all, merged.done, a.slug);
    PlanCoversOptions(d, seen, a);
    if !AddsTo(x, a.slug) {
      forall v | v in a.options ensures OptionKnown(merged.resolved, a.slug, v) || AddsOption(out, a.slug, v) {
        if OptionKnown(ResolvedFrom(seen), a.slug, v) || OptionKnown(log.resolved, a.slug, v) {
          MergedKnows(ResolvedFrom(seen), log.resolved, a.slug, v);
        }
      }
    }
  }

  lemma ReplanOptions(d: Desired, x: Action, seen: Current, log: Log)
    requires WellFormed(d) && log.rereads > 0
    requires forall a :: a in d.attributes ==> SkippedOption(log.done, a.slug) || Unhurt(a, x, log)
    ensures OptionInv(d, Replan(d, x, seen, log))
  {
    hide DiffPlan, WellFormed, ConflictFree, Merged, ResolvedFrom, NotYetDone, Advance, Unhurt, OnTheWay, SkippedOption,
         OptionsSorted;
    var plan := DiffPlan(d, seen);
    var merged := log.(done := log.done + [ActionResult(x, true)],
                       resolved := Merged(ResolvedFrom(seen), log.resolved));
    ConflictsExact(d, seen);
    if plan.conflicts == [] {
      forall a | a in d.attributes
        ensures SkippedOption(merged.done, a.slug) || OnTheWay(a, NotYetDone(plan.actions, merged.done), merged)
      {
        MetOne(log.done, x, true, a.slug);
        if !SkippedOption(log.done, a.slug) { ReplanOnTheWay(d, seen, a, x, log, merged); }
      }
      PlanOptionsSorted(d, seen);
      FilterSorted(plan.actions, merged.done);
      AdvanceOptions(d, NotYetDone(plan.actions, merged.done), merged);
    }
  }

  lemma StartVerifyingOptions(d: Desired, seen: Current, log: Log)
    requires OptionInv(d, VerifyRead(log))
    ensures OptionInv(d, StartVerifying(d, seen, log))
  {
    hide DiffPlan, NotYetDone, Prepare, Merged, ResolvedFrom, SkippedOption, NothingSkipped;
    forall a | a in d.attributes && AllOptionsKnown(a, log.resolved)
      ensures AllOptionsKnown(a, Merged(ResolvedFrom(seen), log.resolved))
    {
      forall v | v in a.options { MergedKnows(ResolvedFrom(seen), log.resolved, a.slug, v); }
    }
  }

  lemma LearnKeepsOptions(x: Action, r: Resolved, id: Id, slug: string, v: string)
    requires OptionKnown(r, slug, v)
    ensures OptionKnown(Learn(x, r, id), slug, v)
  {
  }

  lemma VerifyingOptions(d: Desired, delays: nat, h: Host, t: Tick)
    requires h.Verifying? && h.remaining != [] && OptionInv(d, h)
    ensures OptionInv(d, Receive(d, delays, h, t))
  {
    hide Prepare, MetOption, SkippedOption, Learn, OptionKnown;
    var x, log := h.remaining[0], h.log;
    forall a | a in d.attributes
      ensures SkippedOption(log.done + [ActionResult(x, false)], a.slug) <==> SkippedOption(log.done, a.slug)
    {
      MetOne(log.done, x, false, a.slug);
    }
    if t.write.Accepted? {
      forall a | a in d.attributes && AllOptionsKnown(a, log.resolved)
        ensures AllOptionsKnown(a, Learn(x, log.resolved, t.write.id))
      {
        forall v | v in a.options { LearnKeepsOptions(x, log.resolved, t.write.id, a.slug, v); }
      }
    }
  }

  lemma ReceiveOptions(d: Desired, delays: nat, h: Host, t: Tick)
    requires WellFormed(d) && HostInv(d, h) && OptionInv(d, h)
    ensures OptionInv(d, Receive(d, delays, h, t))
  {
    hide Replan, StartVerifying, Prepare, Advance, WellFormed, SkippedOption, MetOption, NothingSkipped,
         AllOptionsKnown;
    match h {
      case Applying(_, _) => ApplyingOptions(d, delays, h, t);
      case Rereading(x, _, log) =>
        if t.read.Shown? && Exists(t.read.cur, x) {
          forall a | a in d.attributes ensures SkippedOption(log.done, a.slug) || Unhurt(a, x, log) {
            assert AttributeSafe(a, h);
          }
          ReplanOptions(d, x, t.read.cur, log);
        }
      case VerifyRead(log) =>
        if t.read.Shown? { StartVerifyingOptions(d, t.read.cur, log); }
      case Verifying(rem, _) => VerifyingOptions(d, delays, h, t);
      case _ =>
    }
  }

  lemma {:induction false} RunOptions(d: Desired, delays: nat, cur: Current, script: nat -> Tick, n: nat)
    requires WellFormed(d)
    ensures OptionInv(d, Run(d, delays, Start(d, cur), script, 0, n))
  {
    hide Start, Receive, WellFormed, OptionInv, HostInv;
    if n == 0 {
      StartOptions(d, cur);
    } else {
      RunOptions(d, delays, cur, script, n - 1);
      RunKeeps(d, delays, cur, script, n - 1);
      ReceiveOptions(d, delays, Run(d, delays, Start(d, cur), script, 0, n - 1), script(n - 1));
    }
  }

  /** Whatever the platform answers and however often the run re-plans: a run that
      succeeds holds the item id of every option of an attribute, unless it found
      an option of that very attribute already there. Refusals of anything else,
      other attributes' options included, cost no option. */
  lemma OptionsKnownUnlessTaken(d: Desired, delays: nat, cur: Current, script: nat -> Tick, n: nat, a: DesiredAttribute)
    requires WellFormed(d) && a in d.attributes
    ensures var h := Run(d, delays, Start(d, cur), script, 0, n);
            h.Succeeded? ==> AllOptionsKnown(a, h.log.resolved) || SkippedOption(h.log.done, a.slug)
  {
    hide Run, WellFormed;
    RunOptions(d, delays, cur, script, n);
    assert AttributeSafe(a, Run(d, delays, Start(d, cur), script, 0, n));
  }
}
