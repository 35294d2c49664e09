/** Theorems about every run of one host, whatever the platform answers. */
module SchemaRuns {
  import opened Ordering
  import opened Schema
  import opened SchemaPlan
  import opened SchemaHost
  import opened SchemaHostLaws

  /** x is an action some plan for d may contain. */
  ghost predicate Asked(d: Desired, x: Action) {
    match x
    case CreateTemplate(t) => HasTemplate(d, t)
    case CreateAttribute(_, _, _, _, _) => exists a :: a in d.attributes && x == CreateOf(a)
    case AddListOption(s, _, v) => exists a :: a in d.attributes && a.slug == s && v in a.options
    case BindAttribute(s, _, t, _) => exists a :: a in d.attributes && a.slug == s && t in a.templates
  }

  ghost predicate AllAsked(d: Desired, s: seq<Action>) {
    forall x :: x in s ==> Asked(d, x)
  }

  ghost predicate CreatesAttribute(s: seq<Action>, slug: string) {
    exists x :: x in s && x.CreateAttribute? && x.attribute == slug
  }

  /** Every desired template and attribute has an id, or is about to get one. */
  ghost predicate Covered(d: Desired, rem: seq<Action>, r: Resolved) {
    && (forall t :: HasTemplate(d, t) ==> t in r.templates || CreateTemplate(t) in rem)
    && (forall s :: HasAttribute(d, s) ==> s in r.attributes || CreatesAttribute(rem, s))
  }

  /** Every desired template and attribute has an id. */
  ghost predicate AllKnown(d: Desired, r: Resolved) {
    && (forall t :: HasTemplate(d, t) ==> t in r.templates)
    && (forall s :: HasAttribute(d, s) ==> s in r.attributes)
  }

  /** Whatever this run created or found there has an id. */
  ghost predicate DoneKnown(done: seq<ActionResult>, r: Resolved) {
    forall e :: e in done ==>
      match e.action
      case CreateTemplate(t) => t in r.templates
      case CreateAttribute(s, _, _, _, _) => s in r.attributes
      case _ => true
  }

  /** No object this run created or found is created again. */
  ghost predicate Untouched(rem: seq<Action>, done: seq<ActionResult>) {
    forall x, e :: x in rem && e in done && !x.BindAttribute? ==> MainObject(e.action) != MainObject(x)
  }

  /** What holds of the actions still to run. */
  ghost predicate Sound(d: Desired, rem: seq<Action>, log: Log) {
    && Phased(rem) && NoRepeats(rem) && AllAsked(d, rem)
    && DoneKnown(log.done, log.resolved) && Untouched(rem, log.done)
  }

  ghost predicate FrontReady(rem: seq<Action>, r: Resolved) {
    rem != [] && Prepare(rem[0], r).Send?
  }

  ghost predicate HostInv(d: Desired, h: Host) {
    match h
    case Applying(rem, log) => Sound(d, rem, log) && Covered(d, rem, log.resolved) && FrontReady(rem, log.resolved)
    case Rereading(a, _, log) => DoneKnown(log.done, log.resolved)
    case VerifyRead(log) => AllKnown(d, log.resolved) && DoneKnown(log.done, log.resolved)
    case Verifying(rem, log) => Sound(d, rem, log) && AllKnown(d, log.resolved) && FrontReady(rem, log.resolved)
    case Succeeded(log) => AllKnown(d, log.resolved)
    case Stopped(_, why) => !why.OrderViolated?
  }

  // ------------------------------------------------------------ plan facts

  lemma PlanAsked(d: Desired, cur: Current)
    ensures AllAsked(d, DiffPlan(d, cur).actions)
  {
    hide DiffPlan;
    forall x | x in DiffPlan(d, cur).actions ensures Asked(d, x) {
      if x.CreateTemplate? {
        TemplateCreateInPlan(d, cur, x.template);
      } else if x.CreateAttribute? {
        AttributeCreateInPlan(d, cur, x);
      } else if x.AddListOption? {
        OptionInPlan(d, cur, x);
        var a :| a in d.attributes && PlansOption(cur, a, x);
        OptionMissing(cur, a, x);
      } else {
        BindInPlan(d, cur, x);
      }
    }
  }

  lemma PlanCovers(d: Desired, cur: Current, r: Resolved)
    requires cur.templates.Keys <= r.templates.Keys && cur.attributes.Keys <= r.attributes.Keys
    ensures Covered(d, DiffPlan(d, cur).actions, r)
  {
    hide DiffPlan, CreateOf;
    forall t | HasTemplate(d, t) ensures t in r.templates || CreateTemplate(t) in DiffPlan(d, cur).actions {
      TemplateCreateInPlan(d, cur, t);
    }
    forall s | HasAttribute(d, s) ensures s in r.attributes || CreatesAttribute(DiffPlan(d, cur).actions, s) {
      if s !in r.attributes {
        var a :| a in d.attributes && a.slug == s;
        CreateOfFields(a);
        AttributeCreateInPlan(d, cur, CreateOf(a));
      }
    }
  }

  lemma CreateOfFields(a: DesiredAttribute)
    ensures CreateOf(a).CreateAttribute? && CreateOf(a).attribute == a.slug && CreateOf(a).kind == a.kind
    ensures CreateOf(a).target == a.target && CreateOf(a).display == a.display
    ensures forall t :: t in CreateOf(a).templates <==> t in a.templates
  {
  }

  // ------------------------------------------------------------- readiness

  lemma {:induction false} IdsOfKnown(templates: map<string, Id>, slugs: seq<string>)
    requires forall s :: s in slugs ==> s in templates
    ensures IdsOf(templates, slugs).Some?
    ensures |IdsOf(templates, slugs).value| == |slugs|
    ensures forall i :: 0 <= i < |slugs| ==> IdsOf(templates, slugs).value[i] == templates[slugs[i]]
  {
    if slugs != [] { IdsOfKnown(templates, slugs[..|slugs| - 1]); }
  }

  /** Nothing of a later phase is needed by the first action. */
  lemma FirstIsReady(d: Desired, rem: seq<Action>, log: Log)
    requires WellFormed(d) && rem != [] && Phased(rem) && AllAsked(d, rem) && Covered(d, rem, log.resolved)
    ensures FrontReady(rem, log.resolved)
  {
    hide Sort, StringLe;
    var x, r := rem[0], log.resolved;
    forall y | y in rem ensures Phase(x) <= Phase(y) {}
    assert Asked(d, x);
    if x.CreateAttribute? {
      var a :| a in d.attributes && x == CreateOf(a);
      CreateOfFields(a);
      assert WellFormedAttribute(d, a);
      forall t | t in x.templates ensures t in r.templates {
        assert t == a.templates[0];
      }
      IdsOfKnown(r.templates, x.templates);
      if x.kind.KReference? {
        assert x.target in r.templates;
        DisplayIsKnown(d, rem, r, x.display);
      }
    } else if x.AddListOption? {
      assert HasAttribute(d, x.attribute);
      forall y | y in rem ensures !y.CreateAttribute? {
        assert Phase(x) <= Phase(y);
      }
    } else if x.BindAttribute? {
      var a :| a in d.attributes && a.slug == x.attribute && x.template in a.templates;
      assert WellFormedAttribute(d, a);
      assert HasTemplate(d, x.template);
      assert CreateTemplate(x.template) in rem ==> Phase(CreateTemplate(x.template)) == 0;
    }
  }

  lemma DisplayIsKnown(d: Desired, rem: seq<Action>, r: Resolved, display: string)
    requires WellFormed(d) && AllAsked(d, rem) && Covered(d, rem, r)
    requires DisplayDeclared(d, display) && forall y :: y in rem ==> Phase(y) >= 2
    ensures display in r.attributes
  {
    var b :| b in d.attributes && b.slug == display && !b.kind.KReference?;
    assert HasAttribute(d, display);
    forall y | y in rem && y.CreateAttribute? ensures y.attribute != display {
      var a :| a in d.attributes && y == CreateOf(a);
      CreateOfFields(a);
      if a.slug == display { SameSlugSameAttribute(d, a, b); }
    }
  }

  // ------------------------------------------------------------ the invariant

  lemma AdvanceApplying(d: Desired, rem: seq<Action>, log: Log)
    requires WellFormed(d) && Sound(d, rem, log) && Covered(d, rem, log.resolved)
    ensures HostInv(d, Advance(Applying(rem, log)))
  {
    if rem != [] { FirstIsReady(d, rem, log); }
  }

  lemma AdvanceVerifying(d: Desired, rem: seq<Action>, log: Log)
    requires WellFormed(d) && Sound(d, rem, log) && AllKnown(d, log.resolved)
    ensures HostInv(d, Advance(Verifying(rem, log)))
  {
    if rem != [] { FirstIsReady(d, rem, log); }
  }

  lemma PlanSound(d: Desired, cur: Current, log: Log)
    requires WellFormed(d) && DoneKnown(log.done, log.resolved)
    ensures Sound(d, NotYetDone(DiffPlan(d, cur).actions, log.done), log)
  {
    hide DiffPlan;
    var all := DiffPlan(d, cur).actions;
    var out := NotYetDone(all, log.done);
    PlanPhased(d, cur);
    PlanNoRepeats(d, cur);
    PlanAsked(d, cur);
    FilterMembers(all, log.done);
    FilterPhased(all, log.done);
    FilterNoRepeats(all, out);
    hide NotYetDone;
    forall x, e | x in out && e in log.done && !x.BindAttribute? ensures MainObject(e.action) != MainObject(x) {
      assert !SameKey(e.action, x);
    }
  }

  lemma NotDoneCovers(d: Desired, cur: Current, log: Log)
    requires DoneKnown(log.done, log.resolved)
    requires cur.templates.Keys <= log.resolved.templates.Keys && cur.attributes.Keys <= log.resolved.attributes.Keys
    ensures Covered(d, NotYetDone(DiffPlan(d, cur).actions, log.done), log.resolved)
  {
    hide DiffPlan;
    var all := DiffPlan(d, cur).actions;
    var out := NotYetDone(all, log.done);
    PlanCovers(d, cur, log.resolved);
    FilterMembers(all, log.done);
    hide NotYetDone;
    forall t | HasTemplate(d, t) ensures t in log.resolved.templates || CreateTemplate(t) in out {
      if CreateTemplate(t) in all && Did(log.done, CreateTemplate(t)) {
        var e :| e in log.done && SameKey(e.action, CreateTemplate(t));
      }
    }
    forall s | HasAttribute(d, s) ensures s in log.resolved.attributes || CreatesAttribute(out, s) {
      if s !in log.resolved.attributes {
        var y :| y in all && y.CreateAttribute? && y.attribute == s;
        forall e | e in log.done ensures !SameKey(e.action, y) {}
      }
    }
  }

  lemma StartKeeps(d: Desired, cur: Current)
    requires WellFormed(d)
    ensures HostInv(d, Start(d, cur))
  {
    hide DiffPlan;
    var log := Log([], 0, ResolvedFrom(cur), false);
    var plan := DiffPlan(d, cur);
    if plan.conflicts == [] {
      PlanSound(d, cur, log);
      NotDoneCovers(d, cur, log);
      NothingDone(plan.actions);
      AdvanceApplying(d, plan.actions, log);
    }
  }

  lemma {:induction false} NothingDone(actions: seq<Action>)
    ensures NotYetDone(actions, []) == actions
  {
    if actions != [] {
      var n := |actions| - 1;
      NothingDone(actions[..n]);
      assert !Did([], actions[n]);
      hide Did;
      assert actions == actions[..n] + [actions[n]];
    }
  }

  /** Removing the first action and noting it done keeps everything sound. */
  lemma PerformKeeps(d: Desired, rem: seq<Action>, log: Log, next: Log)
    requires Sound(d, rem, log) && rem != []
    requires next.done == log.done + [ActionResult(rem[0], false)]
    requires log.resolved.templates.Keys <= next.resolved.templates.Keys
    requires log.resolved.attributes.Keys <= next.resolved.attributes.Keys
    requires rem[0].CreateTemplate? ==> rem[0].template in next.resolved.templates
    requires rem[0].CreateAttribute? ==> rem[0].attribute in next.resolved.attributes
    ensures Sound(d, rem[1..], next)
    ensures Covered(d, rem, log.resolved) ==> Covered(d, rem[1..], next.resolved)
    ensures AllKnown(d, log.resolved) ==> AllKnown(d, next.resolved)
  {
    RestOf(rem);
    if Covered(d, rem, log.resolved) {
      forall s | HasAttribute(d, s) ensures s in next.resolved.attributes || CreatesAttribute(rem[1..], s) {
        if s !in log.resolved.attributes {
          var y :| y in rem && y.CreateAttribute? && y.attribute == s;
          if y != rem[0] { assert y in rem[1..]; }
        }
      }
    }
  }

  lemma ApplyingKeeps(d: Desired, delays: nat, h: Host, t: Tick)
    requires WellFormed(d) && h.Applying? && HostInv(d, h)
    ensures HostInv(d, Receive(d, delays, h, t))
  {
    hide Prepare;
    var rem, log := h.remaining, h.log;
    if t.write.Accepted? {
      var next := Performed(rem[0], log, t.write.id).(verifyDue := log.verifyDue || rem[0].BindAttribute?);
      PerformKeeps(d, rem, log, next);
      AdvanceApplying(d, rem[1..], next);
    }
  }

  lemma VerifyingKeeps(d: Desired, delays: nat, h: Host, t: Tick)
    requires WellFormed(d) && h.Verifying? && HostInv(d, h)
    ensures HostInv(d, Receive(d, delays, h, t))
  {
    var rem, log := h.remaining, h.log;
    assert Asked(d, rem[0]);
    var next := match t.write
      case Accepted(id) => Performed(rem[0], log, id)
      case _ => log.(done := log.done + [ActionResult(rem[0], false)]);
    KnownNames(d, rem[0], log.resolved);
    hide Prepare;
    PerformKeeps(d, rem, log, next);
    AdvanceVerifying(d, rem[1..], next);
  }

  lemma KnownNames(d: Desired, x: Action, r: Resolved)
    requires Asked(d, x) && AllKnown(d, r)
    ensures x.CreateTemplate? ==> x.template in r.templates
    ensures x.CreateAttribute? ==> x.attribute in r.attributes
  {
    if x.CreateAttribute? {
      var a :| a in d.attributes && x == CreateOf(a);
      CreateOfFields(a);
      assert HasAttribute(d, a.slug);
    }
  }

  lemma MergedKeys(cur: Current, own: Resolved)
    ensures var m := Merged(ResolvedFrom(cur), own);
            && m.templates.Keys == cur.templates.Keys + own.templates.Keys
            && m.attributes.Keys == cur.attributes.Keys + own.attributes.Keys
            && (forall s :: s in own.templates ==> m.templates[s] == own.templates[s])
            && (forall s :: s in own.attributes ==> m.attributes[s] == own.attributes[s])
            && (forall s :: s in cur.templates && s !in own.templates ==> m.templates[s] == cur.templates[s].id)
            && (forall s :: s in cur.attributes && s !in own.attributes ==> m.attributes[s] == cur.attributes[s].id)
  {
  }

  lemma SkippedKnown(a: Action, seen: Current, done: seq<ActionResult>, own: Resolved, r: Resolved)
    requires DoneKnown(done, own) && Exists(seen, a)
    requires r.templates.Keys == seen.templates.Keys + own.templates.Keys
    requires r.attributes.Keys == seen.attributes.Keys + own.attributes.Keys
    ensures DoneKnown(done + [ActionResult(a, true)], r)
  {
  }

  lemma ReplanKeeps(d: Desired, a: Action, seen: Current, log: Log)
    requires WellFormed(d) && DoneKnown(log.done, log.resolved) && Exists(seen, a)
    ensures HostInv(d, Replan(d, a, seen, log))
  {
    hide DiffPlan;
    var plan := DiffPlan(d, seen);
    var merged := log.(done := log.done + [ActionResult(a, true)],
                       resolved := Merged(ResolvedFrom(seen), log.resolved));
    MergedKeys(seen, log.resolved);
    if plan.conflicts == [] {
      hide Merged, ResolvedFrom;
      SkippedKnown(a, seen, log.done, log.resolved, merged.resolved);
      hide DoneKnown, Exists, Covered, Sound, Advance, HostInv;
      PlanSound(d, seen, merged);
      NotDoneCovers(d, seen, merged);
      AdvanceApplying(d, NotYetDone(plan.actions, merged.done), merged);
    }
  }

  lemma StartVerifyingKeeps(d: Desired, seen: Current, log: Log)
    requires WellFormed(d) && AllKnown(d, log.resolved) && DoneKnown(log.done, log.resolved)
    ensures HostInv(d, StartVerifying(d, seen, log))
  {
    hide DiffPlan;
    var merged := log.(resolved := Merged(ResolvedFrom(seen), log.resolved));
    MergedKeys(seen, log.resolved);
    hide Merged, ResolvedFrom;
    PlanSound(d, seen, merged);
    AdvanceVerifying(d, NotYetDone(DiffPlan(d, seen).actions, merged.done), merged);
  }

  lemma ReceiveKeeps(d: Desired, delays: nat, h: Host, t: Tick)
    requires WellFormed(d) && HostInv(d, h)
    ensures HostInv(d, Receive(d, delays, h, t))
  {
    hide Replan, StartVerifying, DiffPlan, Prepare, Advance;
    if h.Applying? {
      ApplyingKeeps(d, delays, h, t);
    } else if h.Verifying? {
      VerifyingKeeps(d, delays, h, t);
    } else if h.Rereading? && t.read.Shown? && Exists(t.read.cur, h.action) {
      ReplanKeeps(d, h.action, t.read.cur, h.log);
    } else if h.VerifyRead? && t.read.Shown? {
      StartVerifyingKeeps(d, t.read.cur, h.log);
    }
  }

  lemma {:induction false} RunKeeps(d: Desired, delays: nat, cur: Current, script: nat -> Tick, n: nat)
    requires WellFormed(d)
    ensures HostInv(d, Run(d, delays, Start(d, cur), script, 0, n))
  {
    hide HostInv, Start, Receive, WellFormed;
    if n == 0 {
      StartKeeps(d, cur);
    } else {
      RunKeeps(d, delays, cur, script, n - 1);
      ReceiveKeeps(d, delays, Run(d, delays, Start(d, cur), script, 0, n - 1), script(n - 1));
    }
  }

  /** In every run of ApplyWith, whatever the platform answers, re-plans and the
      verification pass included: no action finds an id it needs missing, and a
      run that succeeds knows the id of every desired template and attribute. */
  lemma PlanOrderNeverViolated(d: Desired, delays: nat, cur: Current, script: nat -> Tick, n: nat)
    requires WellFormed(d)
    ensures var h := Run(d, delays, Start(d, cur), script, 0, n);
            && !(h.Stopped? && h.why.OrderViolated?)
            && (h.Succeeded? ==> AllKnown(d, h.log.resolved))
  {
    RunKeeps(d, delays, cur, script, n);
    hide Run, Start;
  }
}
