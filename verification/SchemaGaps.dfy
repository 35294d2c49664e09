/** Where reconciliation falls short of its promise, exactly: the options of one
    attribute share one key, so a re-plan drops those not added yet. */
module SchemaGaps {
  import opened Ordering
  import opened Schema
  import opened SchemaPlan
  import opened SchemaHost
  import opened SchemaHostLaws
  import opened SchemaLearning
  import opened SchemaOptions

  /** This run created or found the object x creates. */
  predicate DidObject(done: seq<ActionResult>, x: Action) {
    exists e :: e in done && MainObject(e.action) == MainObject(x)
  }

  /** A re-plan keeps what this run has not done yet, option by option, exactly
      when no attribute has one option done and another one missing. */
  lemma ReplanKeepsUndoneExactly(actions: seq<Action>, done: seq<ActionResult>)
    ensures (forall x :: x in actions && !DidObject(done, x) ==> x in NotYetDone(actions, done)) <==>
            (forall x :: x in actions && x.AddListOption? && MetOption(done, x.attribute) ==> DidObject(done, x))
  {
    FilterMembers(actions, done);
    hide NotYetDone;
    forall x | x in actions && x.AddListOption? ensures Did(done, x) <==> MetOption(done, x.attribute) {
      if Did(done, x) {
        var e :| e in done && SameKey(e.action, x);
        assert AddsTo(e.action, x.attribute);
      }
      if MetOption(done, x.attribute) {
        var e :| e in done && AddsTo(e.action, x.attribute);
        assert SameKey(e.action, x);
      }
    }
    forall x | x in actions && !x.AddListOption? && !x.BindAttribute? ensures Did(done, x) ==> DidObject(done, x) {
      if Did(done, x) {
        var e :| e in done && SameKey(e.action, x);
        assert MainObject(e.action) == MainObject(x);
      }
    }
  }

  /** The run met an option of the attribute and plans to add none. */
  ghost predicate Abandoned(h: Host, slug: string) {
    MetOption(h.log.done, slug) && NoneLeft(RemainingOf(h), slug)
  }

  lemma AbandonedAdvance(h: Host, slug: string)
    requires MetOption(h.log.done, slug) && NoneLeft(RemainingOf(h), slug)
    ensures Abandoned(Advance(h), slug)
  {
    hide Prepare;
  }

  lemma ReplanAbandons(d: Desired, a: Action, seen: Current, log: Log, slug: string)
    requires MetOption(log.done + [ActionResult(a, true)], slug)
    ensures Abandoned(Replan(d, a, seen, log), slug)
  {
    hide DiffPlan, Merged, ResolvedFrom, Advance, NotYetDone, MetOption;
    var plan := DiffPlan(d, seen);
    var merged := log.(done := log.done + [ActionResult(a, true)],
                       resolved := Merged(ResolvedFrom(seen), log.resolved));
    FilterOptions(plan.actions, merged.done, slug);
    if plan.conflicts == [] {
      AbandonedAdvance(Applying(NotYetDone(plan.actions, merged.done), merged), slug);
    }
  }

  lemma StillAbandoned(d: Desired, delays: nat, h: Host, t: Tick, slug: string)
    requires Abandoned(h, slug)
    ensures Abandoned(Receive(d, delays, h, t), slug)
  {
    hide DiffPlan, Merged, ResolvedFrom, Advance, NotYetDone, Learn, MetOption;
    match h {
      case Applying(rem, log) =>
        if rem != [] && t.write.Accepted? {
          MetOne(log.done, rem[0], false, slug);
          var next := Performed(rem[0], log, t.write.id);
          AbandonedAdvance(Applying(rem[1..], next.(verifyDue := log.verifyDue || rem[0].BindAttribute?)), slug);
        }
      case Verifying(rem, log) =>
        if rem != [] {
          MetOne(log.done, rem[0], false, slug);
          var next := match t.write
            case Accepted(id) => Performed(rem[0], log, id)
            case _ => log.(done := log.done + [ActionResult(rem[0], false)]);
          AbandonedAdvance(Verifying(rem[1..], next), slug);
        }
      case Rereading(a, tries, log) =>
        if t.read.Shown? && Exists(t.read.cur, a) {
          MetOne(log.done, a, true, slug);
          ReplanAbandons(d, a, t.read.cur, log, slug);
        }
      case VerifyRead(log) =>
        if t.read.Shown? {
          var merged := log.(resolved := Merged(ResolvedFrom(t.read.cur), log.resolved));
          var plan := DiffPlan(d, t.read.cur);
          FilterOptions(plan.actions, merged.done, slug);
          AbandonedAdvance(Verifying(NotYetDone(plan.actions, merged.done), merged), slug);
        }
      case _ =>
    }
  }

  /** When an option turns out to exist already, this host never adds another
      option of that attribute again, whatever is still missing. */
  lemma {:induction false} OptionsAbandonedAfterRefusal(
      d: Desired, delays: nat, a: Action, tries: nat, log: Log, seen: Current, script: nat -> Tick, from: nat, n: nat)
    requires a.AddListOption? && n > 0
    requires script(from).read == Shown(seen) && Exists(seen, a)
    ensures Abandoned(Run(d, delays, Rereading(a, tries, log), script, from, n), a.attribute)
  {
    hide Replan, Exists, Abandoned;
    if n == 1 {
      MetOne(log.done, a, true, a.attribute);
      ReplanAbandons(d, a, seen, log, a.attribute);
    } else {
      OptionsAbandonedAfterRefusal(d, delays, a, tries, log, seen, script, from, n - 1);
      hide Receive;
      StillAbandoned(d, delays, Run(d, delays, Rereading(a, tries, log), script, from, n - 1),
                     script(from + n - 1), a.attribute);
    }
  }

  // ------------------------------------------------- one run that loses an option

  const ARCH := DesiredAttribute("arch", KList, ["amd64", "arm64"], ["host"], "", "")
  const WANTED := Desired([DesiredTemplate("host")], [ARCH])

  /** The project with arch bound to the host and the given options. */
  function Project(options: map<string, Id>): Current {
    Current(map["host" := CurrentTemplate("1", {"2"})], map["arch" := CurrentAttribute("2", "list", options, None)])
  }

  function AddOf(v: string): Action { AddListOption("arch", Some("2"), v) }

  lemma SortOne<T(!new)>(x: T, le: (T, T) -> bool)
    ensures Sort([x], le) == [x]
  {
    assert [x][..0] == [];
  }

  lemma GatherOne<A, B>(a: A, f: A -> seq<B>)
    ensures Gather([a], f) == f(a)
  {
    assert [a][..0] == [];
  }

  lemma GatherTwo<A, B>(a: A, b: A, f: A -> seq<B>)
    ensures Gather([a, b], f) == f(a) + f(b)
  {
    assert [a, b][..1] == [a];
    GatherOne(a, f);
  }

  lemma WantedWellFormed()
    ensures WellFormed(WANTED)
  {
    assert DesiredTemplate("host") in WANTED.templates;
    assert ARCH.options[0] != ARCH.options[1];
  }

  /** What each part of the plan contributes on that project. */
  lemma WantedParts(options: map<string, Id>)
    ensures var cur := Project(options);
            && TemplateCreates(cur)(DesiredTemplate("host")) == [] && AttributeCreates(cur)(ARCH) == []
            && ReferenceCreates(cur)(ARCH) == [] && ConflictsOf(cur)(ARCH) == [] && BindAdds(cur)(ARCH) == []
            && OptionAdds(cur)(ARCH) == (if "amd64" in options then [] else [AddOf("amd64")]) +
                                        (if "arm64" in options then [] else [AddOf("arm64")])
  {
    hide Sort, Gather;
    var cur := Project(options);
    assert "1" in BoundTo(cur, "2") by { assert "host" in cur.templates; }
    GatherOne("host", BindAdd(cur, "arch", cur.attributes["arch"]));
    GatherTwo("amd64", "arm64", OptionAdd(cur, ARCH));
  }

  lemma PlanOfWanted(options: map<string, Id>)
    ensures DiffPlan(WANTED, Project(options)) ==
            Plan((if "amd64" in options then [] else [AddOf("amd64")]) +
                 (if "arm64" in options then [] else [AddOf("arm64")]), [])
  {
    hide Gather, TemplateCreates, AttributeCreates, ReferenceCreates, OptionAdds, BindAdds, ConflictsOf, Project;
    var cur := Project(options);
    SortOne(DesiredTemplate("host"), TemplateLe);
    SortOne(ARCH, AttributeLe);
    WantedParts(options);
    GatherOne(DesiredTemplate("host"), TemplateCreates(cur));
    GatherOne(ARCH, AttributeCreates(cur));
    GatherOne(ARCH, ReferenceCreates(cur));
    GatherOne(ARCH, OptionAdds(cur));
    GatherOne(ARCH, BindAdds(cur));
    GatherOne(ARCH, ConflictsOf(cur));
    var no: seq<Action> := [];
    assert Sort(no, BindLe) == no;
  }

  /** Another host adds amd64 just before this one does. */
  function Scenario(): nat -> Tick {
    (i: nat) => Tick(Refused, Shown(Project(map["amd64" := "3"])), true)
  }

  function LogAfter(n: nat): Log {
    if n == 0 then Log([], 0, ResolvedFrom(Project(map[])), false)
    else if n == 1 then LogAfter(0).(rereads := 1)
    else LogAfter(1).(done := [ActionResult(AddOf("amd64"), true)],
                      resolved := Merged(ResolvedFrom(Project(map["amd64" := "3"])), ResolvedFrom(Project(map[]))))
  }

  lemma ScenarioBegins()
    ensures Start(WANTED, Project(map[])) == Applying([AddOf("amd64"), AddOf("arm64")], LogAfter(0))
  {
    PlanOfWanted(map[]);
    assert [AddOf("amd64")] + [AddOf("arm64")] == [AddOf("amd64"), AddOf("arm64")];
    hide DiffPlan, ResolvedFrom, Project;
  }

  lemma ScenarioReplans()
    ensures Replan(WANTED, AddOf("amd64"), Project(map["amd64" := "3"]), LogAfter(1)) == Succeeded(LogAfter(2))
  {
    hide DiffPlan, Merged, ResolvedFrom, Project, Sort, Gather;
    PlanOfWanted(map["amd64" := "3"]);
    var done := [ActionResult(AddOf("amd64"), true)];
    assert LogAfter(1).done + done == done;
    assert [] + [AddOf("arm64")] == [AddOf("arm64")];
    assert SameKey(done[0].action, AddOf("arm64"));
    FilterOne(AddOf("arm64"), done);
  }

  lemma ScenarioUnknown()
    ensures !OptionsKnown(WANTED, LogAfter(2).resolved)
  {
    assert !OptionKnown(LogAfter(2).resolved, "arch", "arm64");
    assert ARCH in WANTED.attributes && "arm64" in ARCH.options && !AllOptionsKnown(ARCH, LogAfter(2).resolved);
  }

  lemma TwoReplies(d: Desired, delays: nat, script: nat -> Tick, h0: Host, h1: Host, h2: Host)
    requires Receive(d, delays, h0, script(0)) == h1 && Receive(d, delays, h1, script(1)) == h2
    ensures Run(d, delays, h0, script, 0, 2) == h2
    ensures Sent(d, delays, h0, script, 0, 2) == [NextCall(h0), NextCall(h1)]
  {
    hide Receive, NextCall;
    assert Run(d, delays, h0, script, 0, 0) == h0;
    assert Run(d, delays, h0, script, 0, 1) == h1;
    assert Sent(d, delays, h0, script, 0, 1) == [] + [NextCall(h0)];
  }

  lemma ScenarioRefused()
    ensures Receive(WANTED, 5, Applying([AddOf("amd64"), AddOf("arm64")], LogAfter(0)), Scenario()(0)) ==
            Rereading(AddOf("amd64"), 0, LogAfter(1))
    ensures NextCall(Applying([AddOf("amd64"), AddOf("arm64")], LogAfter(0))) == NewOption("2", "amd64")
  {
    hide ResolvedFrom, Project, WANTED;
  }

  lemma ScenarioAnswered()
    ensures Receive(WANTED, 5, Rereading(AddOf("amd64"), 0, LogAfter(1)), Scenario()(1)) == Succeeded(LogAfter(2))
  {
    ScenarioReplans();
    assert Exists(Project(map["amd64" := "3"]), AddOf("amd64"));
    hide Replan, WANTED, Project, Exists;
  }

  /** The run that loses an option: refused amd64, it re-plans, drops arm64 and
      reports success having added nothing. */
  lemma SuccessWithAnOptionMissing()
    ensures WellFormed(WANTED)
    ensures var h := Run(WANTED, 5, Start(WANTED, Project(map[])), Scenario(), 0, 2);
            h.Succeeded? && !OptionsKnown(WANTED, h.log.resolved)
    ensures Sent(WANTED, 5, Start(WANTED, Project(map[])), Scenario(), 0, 2) == [NewOption("2", "amd64"), ReadSchema]
  {
    WantedWellFormed();
    ScenarioBegins();
    ScenarioRefused();
    ScenarioAnswered();
    ScenarioUnknown();
    hide OptionsKnown, Start, Receive, WellFormed, WANTED, Project, LogAfter, NextCall;
    var h1 := Rereading(AddOf("amd64"), 0, LogAfter(1));
    TwoReplies(WANTED, 5, Scenario(), Start(WANTED, Project(map[])), h1, Succeeded(LogAfter(2)));
    RereadingReads(h1);
  }

  lemma RereadingReads(h: Host)
    requires h.Rereading?
    ensures NextCall(h) == ReadSchema
  {
  }

  lemma FilterOne(x: Action, done: seq<ActionResult>)
    requires !x.BindAttribute? && Did(done, x)
    ensures NotYetDone([x], done) == []
  {
    GatherOne(x, Keep(done));
  }
}
