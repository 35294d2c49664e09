/** What one host's run learns: ids are write-once whatever later reads show,
    and nothing is created twice. */
module SchemaLearning {
  import opened Schema
  import opened SchemaPlan
  import opened SchemaHost
  import opened SchemaRuns

  /** The id held for the object an action creates. */
  function IdOf(x: Action, r: Resolved): Option<Id> {
    match x
    case CreateTemplate(t) => Get(r.templates, t)
    case CreateAttribute(s, _, _, _, _) => Get(r.attributes, s)
    case AddListOption(s, _, v) => Get(ItemsOf(r.listItems, s), v)
    case BindAttribute(_, _, _, _) => None
  }

  /** later forgets nothing earlier did, nor the id of anything it did. */
  ghost predicate Remembers(earlier: Log, later: Log) {
    && earlier.done <= later.done
    && forall e :: e in earlier.done && IdOf(e.action, earlier.resolved).Some? ==>
                     IdOf(e.action, later.resolved) == IdOf(e.action, earlier.resolved)
  }

  lemma RemembersTransitive(a: Log, b: Log, c: Log)
    requires Remembers(a, b) && Remembers(b, c)
    ensures Remembers(a, c)
  {
    forall e | e in a.done && IdOf(e.action, a.resolved).Some?
      ensures IdOf(e.action, c.resolved) == IdOf(e.action, a.resolved)
    {
      assert e in b.done;
    }
  }

  lemma MergeRemembers(seen: Current, own: Resolved, x: Action)
    requires IdOf(x, own).Some?
    ensures IdOf(x, Merged(ResolvedFrom(seen), own)) == IdOf(x, own)
  {
  }

  lemma PerformRemembers(rem: seq<Action>, log: Log, id: Id)
    requires rem != [] && Untouched(rem, log.done)
    ensures Remembers(log, Performed(rem[0], log, id))
    ensures !rem[0].BindAttribute? ==> IdOf(rem[0], Performed(rem[0], log, id).resolved) == Some(id)
  {
    var x, next := rem[0], Performed(rem[0], log, id);
    forall e | e in log.done && IdOf(e.action, log.resolved).Some?
      ensures IdOf(e.action, next.resolved) == IdOf(e.action, log.resolved)
    {
      if !x.BindAttribute? { assert MainObject(e.action) != MainObject(x); }
    }
  }

  lemma AdvanceLog(h: Host)
    ensures Advance(h).log == h.log
  {
  }

  lemma ReceiveRemembers(d: Desired, delays: nat, h: Host, t: Tick)
    requires HostInv(d, h)
    ensures Remembers(h.log, Receive(d, delays, h, t).log)
  {
    hide Advance, DiffPlan, NotYetDone, Prepare, AllKnown, Covered;
    var h' := Receive(d, delays, h, t);
    match h {
      case Applying(rem, log) =>
        if t.write.Accepted? {
          PerformRemembers(rem, log, t.write.id);
          var next := Performed(rem[0], log, t.write.id);
          AdvanceLog(Applying(rem[1..], next.(verifyDue := log.verifyDue || rem[0].BindAttribute?)));
        }
      case Verifying(rem, log) =>
        if t.write.Accepted? {
          PerformRemembers(rem, log, t.write.id);
          AdvanceLog(Verifying(rem[1..], Performed(rem[0], log, t.write.id)));
        } else if t.write.Refused? {
          AdvanceLog(Verifying(rem[1..], log.(done := log.done + [ActionResult(rem[0], false)])));
        }
      case Rereading(a, tries, log) =>
        if t.read.Shown? && Exists(t.read.cur, a) { ReplanRemembers(d, a, t.read.cur, log); }
      case VerifyRead(log) =>
        if t.read.Shown? { StartVerifyingRemembers(d, t.read.cur, log); }
      case _ =>
    }
  }

  lemma ReplanRemembers(d: Desired, a: Action, seen: Current, log: Log)
    ensures Remembers(log, Replan(d, a, seen, log).log)
  {
    hide Advance, DiffPlan, NotYetDone, Merged, ResolvedFrom;
    var merged := log.(done := log.done + [ActionResult(a, true)],
                       resolved := Merged(ResolvedFrom(seen), log.resolved));
    AdvanceLog(Applying(NotYetDone(DiffPlan(d, seen).actions, merged.done), merged));
    forall e | e in log.done && IdOf(e.action, log.resolved).Some?
      ensures IdOf(e.action, merged.resolved) == IdOf(e.action, log.resolved)
    {
      MergeRemembers(seen, log.resolved, e.action);
    }
  }

  lemma StartVerifyingRemembers(d: Desired, seen: Current, log: Log)
    ensures Remembers(log, StartVerifying(d, seen, log).log)
  {
    hide Advance, DiffPlan, NotYetDone, Merged, ResolvedFrom;
    var merged := log.(resolved := Merged(ResolvedFrom(seen), log.resolved));
    AdvanceLog(Verifying(NotYetDone(DiffPlan(d, seen).actions, merged.done), merged));
    forall e | e in log.done && IdOf(e.action, log.resolved).Some?
      ensures IdOf(e.action, merged.resolved) == IdOf(e.action, log.resolved)
    {
      MergeRemembers(seen, log.resolved, e.action);
    }
  }

  lemma {:induction false} RunRemembers(d: Desired, delays: nat, cur: Current, script: nat -> Tick, m: nat, n: nat)
    requires WellFormed(d) && m <= n
    ensures Remembers(Run(d, delays, Start(d, cur), script, 0, m).log, Run(d, delays, Start(d, cur), script, 0, n).log)
  {
    hide Start, Receive, HostInv, WellFormed;
    if m < n {
      RunRemembers(d, delays, cur, script, m, n - 1);
      RunKeeps(d, delays, cur, script, n - 1);
      ReceiveRemembers(d, delays, Run(d, delays, Start(d, cur), script, 0, n - 1), script(n - 1));
      hide Remembers;
      RemembersTransitive(Run(d, delays, Start(d, cur), script, 0, m).log,
                          Run(d, delays, Start(d, cur), script, 0, n - 1).log,
                          Run(d, delays, Start(d, cur), script, 0, n).log);
    }
  }

  function RemainingOf(h: Host): seq<Action> {
    match h
    case Applying(rem, _) => rem
    case Verifying(rem, _) => rem
    case _ => []
  }

  lemma AcceptedIsDone(d: Desired, delays: nat, h: Host, t: Tick)
    requires HostInv(d, h) && RemainingOf(h) != [] && t.write.Accepted? && !RemainingOf(h)[0].BindAttribute?
    ensures var a, log := RemainingOf(h)[0], Receive(d, delays, h, t).log;
            ActionResult(a, false) in log.done && IdOf(a, log.resolved) == Some(t.write.id)
  {
    hide Advance, Prepare, AllKnown, Covered;
    PerformRemembers(RemainingOf(h), h.log, t.write.id);
    var rem, log := RemainingOf(h), h.log;
    if h.Applying? {
      var next := Performed(rem[0], log, t.write.id);
      AdvanceLog(Applying(rem[1..], next.(verifyDue := log.verifyDue || rem[0].BindAttribute?)));
    } else {
      AdvanceLog(Verifying(rem[1..], Performed(rem[0], log, t.write.id)));
    }
  }

  lemma DoneIsNotNext(d: Desired, h: Host, e: ActionResult)
    requires HostInv(d, h) && RemainingOf(h) != [] && e in h.log.done && !e.action.BindAttribute?
    ensures MainObject(RemainingOf(h)[0]) != MainObject(e.action)
  {
    hide Prepare, AllKnown, Covered;
    var x := RemainingOf(h)[0];
    if x.BindAttribute? { assert !MainObject(e.action).BindingObject?; }
  }

  /** Whatever object this run created, or found there and skipped, it never asks
      for again, whatever any later read shows or fails to show. */
  lemma DoneIsNeverRepeated(d: Desired, delays: nat, cur: Current, script: nat -> Tick, m: nat, n: nat, e: ActionResult)
    requires WellFormed(d) && m <= n
    requires e in Run(d, delays, Start(d, cur), script, 0, m).log.done && !e.action.BindAttribute?
    ensures var later := Run(d, delays, Start(d, cur), script, 0, n);
            && e in later.log.done
            && (RemainingOf(later) != [] ==> MainObject(RemainingOf(later)[0]) != MainObject(e.action))
  {
    hide Start, Receive, HostInv, WellFormed, RemainingOf, Run;
    RunKeeps(d, delays, cur, script, n);
    RunRemembers(d, delays, cur, script, m, n);
    var later := Run(d, delays, Start(d, cur), script, 0, n);
    if RemainingOf(later) != [] { DoneIsNotNext(d, later, e); }
  }

  /** Once the platform accepted an object this run created, its id stays as the
      write answered it and the object is never created again, whatever any
      later read shows or fails to show. */
  lemma LearnedIdsAreWriteOnce(d: Desired, delays: nat, cur: Current, script: nat -> Tick, m: nat, n: nat)
    requires WellFormed(d) && m < n
    requires var h := Run(d, delays, Start(d, cur), script, 0, m);
             RemainingOf(h) != [] && !RemainingOf(h)[0].BindAttribute? && script(m).write.Accepted?
    ensures var a := RemainingOf(Run(d, delays, Start(d, cur), script, 0, m))[0];
            var later := Run(d, delays, Start(d, cur), script, 0, n);
            && IdOf(a, later.log.resolved) == Some(script(m).write.id)
            && (RemainingOf(later) != [] ==> MainObject(RemainingOf(later)[0]) != MainObject(a))
  {
    hide Start, Receive, HostInv, WellFormed, RemainingOf;
    var h := Run(d, delays, Start(d, cur), script, 0, m);
    var next := Run(d, delays, Start(d, cur), script, 0, m + 1);
    var later := Run(d, delays, Start(d, cur), script, 0, n);
    RunKeeps(d, delays, cur, script, m);
    RunKeeps(d, delays, cur, script, n);
    assert next == Receive(d, delays, h, script(m));
    AcceptedIsDone(d, delays, h, script(m));
    RunRemembers(d, delays, cur, script, m + 1, n);
    hide Run;
    var a := RemainingOf(h)[0];
    assert ActionResult(a, false) in later.log.done;
    if RemainingOf(later) != [] { DoneIsNotNext(d, later, ActionResult(a, false)); }
  }
}
