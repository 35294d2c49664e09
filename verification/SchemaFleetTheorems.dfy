/** The theorems about every run of a fleet: additivity, and convergence of each
    host that succeeds. */
module SchemaFleetTheorems {
  import opened Schema
  import opened SchemaPlan
  import opened SchemaHost
  import opened SchemaHostLaws
  import opened SchemaRuns
  import opened SchemaFleet
  import opened SchemaFleetSafety

  // ---------------------------------------------------------------- writes

  lemma WriteProgress(d: Desired, p0: Current, p: Platform, p': Platform, h: Host, reply: WriteReply)
    requires WellFormed(d) && HostOk(d, p0, p.schema, h) && RemainingIs(h) != []
    requires PlatformOk(p) && AttributesOk(d, p0, p.schema) && Grows(p0, p.schema)
    requires Answers(p, NextCall(h), reply, p')
    ensures Progress(d, p0, p, p')
    ensures reply.Accepted? ==> Provided(d, p'.schema, RemainingIs(h)[0], h.log.resolved, reply.id)
  {
    var x, r := RemainingIs(h)[0], h.log.resolved;
    assert Prepare(x, r).Send? && NextCall(h) == Prepare(x, r).call && Asked(d, x);
    hide Prepare, Effect, Accepts, HostInv, Provided, NextCall, BoundOrPending, AttributesOk, Asked;
    if reply.Accepted? {
      AcceptedWrite(d, p0, p, x, r, reply.id);
    } else if p' != p {
      var id :| Accepts(p, NextCall(h), id) && p' == Effect(p, NextCall(h), id);
      AcceptedWrite(d, p0, p, x, r, id);
    }
  }

  function RemainingIs(h: Host): seq<Action> {
    match h
    case Applying(rem, _) => rem
    case Verifying(rem, _) => rem
    case _ => []
  }

  lemma AcceptedApplying(d: Desired, delays: nat, p0: Current, cur: Current, cur': Current, h: Host, t: Tick)
    requires WellFormed(d) && h.Applying? && HostOk(d, p0, cur, h) && Grows(cur, cur') && t.write.Accepted?
    requires Provided(d, cur', h.remaining[0], h.log.resolved, t.write.id)
    ensures HostOk(d, p0, cur', Receive(d, delays, h, t))
  {
    var rem, log := h.remaining, h.log;
    ReceiveKeeps(d, delays, h, t);
    OldMatchStays(d, p0, cur, cur');
    ActionsSafeStay(p0, cur, cur', rem);
    RestBoundOrPending(d, cur, cur', rem, log.resolved, t.write.id);
    hide Prepare, Learn, OldMatch, BoundOrPending, HostInv, Advance;
    var next := Performed(rem[0], log, t.write.id).(verifyDue := log.verifyDue || rem[0].BindAttribute?);
    AdvanceHostOk(d, p0, cur', rem[1..], next);
  }

  lemma VerifyingAnswered(d: Desired, delays: nat, p0: Current, cur: Current, cur': Current, h: Host, t: Tick)
    requires WellFormed(d) && h.Verifying? && HostOk(d, p0, cur, h) && Grows(cur, cur') && !t.write.WriteFailed?
    requires t.write.Accepted? ==> Provided(d, cur', h.remaining[0], h.log.resolved, t.write.id)
    ensures HostOk(d, p0, cur', Receive(d, delays, h, t))
  {
    var rem, log := h.remaining, h.log;
    ReceiveKeeps(d, delays, h, t);
    OldMatchStays(d, p0, cur, cur');
    ActionsSafeStay(p0, cur, cur', rem);
    BoundOrPendingStays(d, cur, cur', []);
    TruthStays(log.resolved, cur, cur');
    hide Prepare, Learn, OldMatch, BoundOrPending, HostInv, Advance;
    var next := if t.write.Accepted? then Performed(rem[0], log, t.write.id)
                else log.(done := log.done + [ActionResult(rem[0], false)]);
    AdvanceVerifyOk(d, p0, cur', rem[1..], next);
  }

  lemma WriteKeeps(d: Desired, delays: nat, p0: Current, p: Platform, p': Platform, h: Host, t: Tick)
    requires WellFormed(d) && HostOk(d, p0, p.schema, h) && RemainingIs(h) != []
    requires PlatformOk(p) && AttributesOk(d, p0, p.schema) && Grows(p0, p.schema)
    requires Answers(p, NextCall(h), t.write, p')
    ensures Progress(d, p0, p, p') && HostOk(d, p0, p'.schema, Receive(d, delays, h, t))
  {
    WriteProgress(d, p0, p, p', h, t.write);
    hide Provided, Answers, AttributesOk, NextCall;
    if h.Applying? && t.write.Accepted? {
      AcceptedApplying(d, delays, p0, p.schema, p'.schema, h, t);
    } else if h.Verifying? && !t.write.WriteFailed? {
      VerifyingAnswered(d, delays, p0, p.schema, p'.schema, h, t);
    } else {
      ReceiveKeeps(d, delays, h, t);
      HostStays(d, p0, p.schema, p'.schema, h);
      hide HostInv, BoundOrPending, ActionsSafe, OldMatch, Truthful, Grows;
    }
  }

  // ----------------------------------------------------------------- reads

  lemma PlannedBindSafe(d: Desired, p0: Current, seen: Current, cur: Current, x: Action)
    requires WellFormed(d) && Grows(p0, seen) && Grows(seen, cur) && AttributesOk(d, p0, seen)
    requires x.BindAttribute? && x in DiffPlan(d, seen).actions
    ensures BindSafe(p0, cur, x)
  {
    hide DiffPlan, Grows, PlansBind, Matches;
    BindInPlan(d, seen, x);
    var a :| a in d.attributes && PlansBind(seen, a, x);
    BindSafeFrom(d, p0, seen, cur, a, x);
  }

  lemma BindSafeFrom(d: Desired, p0: Current, seen: Current, cur: Current, a: DesiredAttribute, x: Action)
    requires WellFormed(d) && Grows(p0, seen) && Grows(seen, cur) && AttributesOk(d, p0, seen)
    requires a in d.attributes && PlansBind(seen, a, x)
    ensures BindSafe(p0, cur, x)
  {
    assert WellFormedAttribute(d, a) && AttributeOk(p0, seen, a);
    BindFields(seen, a, x);
    hide PlansBind, Matches;
    BaseGrows(p0, seen, a.slug);
    hide BoundTo, Base;
  }

  lemma BindFields(cur: Current, a: DesiredAttribute, x: Action)
    requires PlansBind(cur, a, x)
    ensures x.attribute == a.slug && x.template in a.templates && x.boundId == cur.attributes[a.slug].id
    ensures BoundTo(cur, x.boundId) <= x.templateIds <= BoundTo(cur, x.boundId) + IdOfTemplate(cur, x.template)
  {
  }

  lemma PlannedOptionSafe(d: Desired, p0: Current, seen: Current, cur: Current, x: Action)
    requires Grows(seen, cur) && x.AddListOption? && x in DiffPlan(d, seen).actions
    ensures ActionSafe(p0, cur, x)
  {
    hide DiffPlan;
    OptionInPlan(d, seen, x);
    var a :| a in d.attributes && PlansOption(seen, a, x);
    OptionMissing(seen, a, x);
  }

  lemma PlannedActionsSafe(d: Desired, p0: Current, seen: Current, cur: Current, done: seq<ActionResult>)
    requires WellFormed(d) && Grows(p0, seen) && Grows(seen, cur) && AttributesOk(d, p0, seen)
    ensures ActionsSafe(p0, cur, NotYetDone(DiffPlan(d, seen).actions, done))
  {
    hide DiffPlan, AttributesOk, Grows, BindSafe, WellFormed;
    FilterMembers(DiffPlan(d, seen).actions, done);
    hide NotYetDone;
    forall x | x in NotYetDone(DiffPlan(d, seen).actions, done) ensures ActionSafe(p0, cur, x) {
      if x.BindAttribute? {
        PlannedBindSafe(d, p0, seen, cur, x);
      } else if x.AddListOption? {
        PlannedOptionSafe(d, p0, seen, cur, x);
      }
    }
  }

  /** A desired attribute a read shows unbound gets a bind in the plan. */
  lemma UnboundIsPlanned(d: Desired, seen: Current, a: DesiredAttribute)
    requires WellFormed(d) && DistinctIds(seen) && ConflictFree(d, seen)
    requires a in d.attributes && |a.templates| == 1 && a.slug in seen.attributes && !IsBound(seen, a)
    ensures WillBind(DiffPlan(d, seen).actions, a)
  {
    hide DiffPlan;
    var t := TemplateOf(a);
    if t in seen.templates { BoundExactly(seen, a.slug, t); }
    var x := BindAdd(seen, a.slug, seen.attributes[a.slug])(t)[0];
    assert PlansBind(seen, a, x);
    BindInPlan(d, seen, x);
  }

  /** An attribute this run has dealt with but a stale read does not show is bound. */
  lemma DoneIsBound(d: Desired, p0: Current, seen: Current, cur: Current, a: DesiredAttribute, r: Resolved)
    requires WellFormed(d) && a in d.attributes && |a.templates| == 1
    requires Grows(p0, seen) && AttributesOk(d, p0, cur) && Truthful(r, cur)
    requires a.slug !in seen.attributes && a.slug in r.attributes
    ensures IsBound(cur, a)
  {
    assert AttributeOk(p0, cur, a);
  }

  lemma ReplanBindsAll(d: Desired, p0: Current, seen: Current, cur: Current, log: Log)
    requires WellFormed(d) && DistinctIds(seen) && ConflictFree(d, seen)
    requires Grows(p0, seen) && Grows(seen, cur) && AttributesOk(d, p0, cur)
    requires Truthful(log.resolved, cur) && DoneKnown(log.done, log.resolved)
    ensures BoundOrPending(d, cur, NotYetDone(DiffPlan(d, seen).actions, log.done))
  {
    hide DiffPlan;
    var all := DiffPlan(d, seen).actions;
    var out := NotYetDone(all, log.done);
    FilterMembers(all, log.done);
    hide NotYetDone, ConflictFree, DistinctIds;
    forall a | a in d.attributes
      ensures |a.templates| == 1 && (IsBound(cur, a) || WillBind(out, a) || CreatesAttribute(out, a.slug))
    {
      assert WellFormedAttribute(d, a);
      if a.slug in seen.attributes {
        if IsBound(seen, a) {
          BoundStays(seen, cur, a);
        } else {
          UnboundIsPlanned(d, seen, a);
          var x :| x in all && x.BindAttribute? && x.attribute == a.slug;
          assert x in out;
        }
      } else {
        hide Grows, AttributesOk;
        CreateOfFields(a);
        AttributeCreateInPlan(d, seen, CreateOf(a));
        hide CreateOf;
        if Did(log.done, CreateOf(a)) {
          var e :| e in log.done && SameKey(e.action, CreateOf(a));
          assert a.slug in log.resolved.attributes;
          DoneIsBound(d, p0, seen, cur, a, log.resolved);
        } else {
          assert CreateOf(a) in out;
        }
      }
    }
  }

  lemma ReadTruthful(seen: Current, cur: Current)
    requires Grows(seen, cur)
    ensures Truthful(ResolvedFrom(seen), cur)
  {
  }

  lemma MergedItem(read: Resolved, own: Resolved, s: string, v: string)
    requires s in Merged(read, own).listItems && v in Merged(read, own).listItems[s]
    ensures (s in own.listItems && v in own.listItems[s] && Merged(read, own).listItems[s][v] == own.listItems[s][v]) ||
            (s in read.listItems && v in read.listItems[s] && Merged(read, own).listItems[s][v] == read.listItems[s][v])
  {
  }

  lemma MergedTruthful(seen: Current, cur: Current, own: Resolved)
    requires Grows(seen, cur) && Truthful(own, cur)
    ensures Truthful(Merged(ResolvedFrom(seen), own), cur)
  {
    hide ResolvedFrom, Grows;
    var read := ResolvedFrom(seen);
    ReadTruthful(seen, cur);
    MergedKeys(seen, own);
    var m := Merged(read, own);
    forall s, v | s in m.listItems && v in m.listItems[s]
      ensures s in cur.attributes && v in cur.attributes[s].options && cur.attributes[s].options[v] == m.listItems[s][v]
    {
      MergedItem(read, own, s, v);
    }
    hide Merged;
  }

  lemma SeenOldMatch(d: Desired, p0: Current, seen: Current, cur: Current)
    requires ConflictFree(d, seen) && Grows(p0, seen) && Grows(seen, cur)
    ensures OldMatch(d, p0, cur)
  {
    forall a | a in d.attributes && a.slug in p0.attributes ensures a.slug in cur.attributes && Matches(cur, a) {
      MatchesStays(seen, cur, a);
    }
  }

  /** What a read may show: a state between the fleet's start and now. */
  ghost predicate MaySee(d: Desired, p0: Current, seen: Current, cur: Current)
    requires WellFormed(d)
  {
    && DistinctIds(seen) && Grows(p0, seen) && Grows(seen, cur)
    && AttributesOk(d, p0, seen) && AttributesOk(d, p0, cur)
  }

  lemma StartOk(d: Desired, p0: Current, seen: Current, cur: Current)
    requires WellFormed(d) && MaySee(d, p0, seen, cur)
    ensures HostOk(d, p0, cur, Start(d, seen))
  {
    hide DiffPlan, HostInv, Truthful, OldMatch, BoundOrPending, ActionsSafe, NotYetDone, ResolvedFrom, WellFormed,
         AttributesOk, Grows, DistinctIds;
    StartKeeps(d, seen);
    ConflictsExact(d, seen);
    var plan := DiffPlan(d, seen);
    var log := Log([], 0, ResolvedFrom(seen), false);
    NothingDone(plan.actions);
    ReadTruthful(seen, cur);
    if plan.conflicts == [] {
      hide Advance;
      SeenOldMatch(d, p0, seen, cur);
      PlannedActionsSafe(d, p0, seen, cur, []);
      ReplanBindsAll(d, p0, seen, cur, log);
      AdvanceHostOk(d, p0, cur, plan.actions, log);
    }
  }

  /** Applying a filtered plan made from a read, with the merged ids. */
  lemma FilteredPlanOk(d: Desired, p0: Current, seen: Current, cur: Current, log: Log)
    requires WellFormed(d) && MaySee(d, p0, seen, cur) && DiffPlan(d, seen).conflicts == []
    requires DoneKnown(log.done, log.resolved) && Truthful(log.resolved, cur)
    requires HostInv(d, Advance(Applying(NotYetDone(DiffPlan(d, seen).actions, log.done), log)))
    ensures HostOk(d, p0, cur, Advance(Applying(NotYetDone(DiffPlan(d, seen).actions, log.done), log)))
  {
    hide DiffPlan, HostInv, Advance, NotYetDone, DoneKnown, Truthful;
    ConflictsExact(d, seen);
    SeenOldMatch(d, p0, seen, cur);
    PlannedActionsSafe(d, p0, seen, cur, log.done);
    ReplanBindsAll(d, p0, seen, cur, log);
    hide MaySee, OldMatch, ActionsSafe, BoundOrPending, ConflictFree;
    AdvanceHostOk(d, p0, cur, NotYetDone(DiffPlan(d, seen).actions, log.done), log);
  }

  lemma ReplanOk(d: Desired, p0: Current, seen: Current, cur: Current, a: Action, log: Log)
    requires WellFormed(d) && MaySee(d, p0, seen, cur)
    requires DoneKnown(log.done, log.resolved) && Truthful(log.resolved, cur) && Exists(seen, a)
    ensures HostOk(d, p0, cur, Replan(d, a, seen, log))
  {
    hide DiffPlan, HostInv, Advance, NotYetDone, ConflictFree, WellFormed, Merged, ResolvedFrom, MaySee, BoundOrPending;
    ReplanKeeps(d, a, seen, log);
    var plan := DiffPlan(d, seen);
    if plan.conflicts == [] {
      var merged := log.(done := log.done + [ActionResult(a, true)],
                         resolved := Merged(ResolvedFrom(seen), log.resolved));
      MergedOk(d, p0, seen, cur, a, log);
      hide DoneKnown, Exists, Truthful, HostOk;
      FilteredPlanOk(d, p0, seen, cur, merged);
    }
  }

  lemma MergedOk(d: Desired, p0: Current, seen: Current, cur: Current, a: Action, log: Log)
    requires WellFormed(d) && MaySee(d, p0, seen, cur)
    requires DoneKnown(log.done, log.resolved) && Truthful(log.resolved, cur) && Exists(seen, a)
    ensures Truthful(Merged(ResolvedFrom(seen), log.resolved), cur)
    ensures DoneKnown(log.done + [ActionResult(a, true)], Merged(ResolvedFrom(seen), log.resolved))
  {
    hide Merged, ResolvedFrom, WellFormed;
    MergedTruthful(seen, cur, log.resolved);
    MergedKeys(seen, log.resolved);
    SkippedKnown(a, seen, log.done, log.resolved, Merged(ResolvedFrom(seen), log.resolved));
  }

  lemma StartVerifyingOk(d: Desired, p0: Current, seen: Current, cur: Current, log: Log)
    requires WellFormed(d) && MaySee(d, p0, seen, cur)
    requires HostOk(d, p0, cur, VerifyRead(log))
    ensures HostOk(d, p0, cur, StartVerifying(d, seen, log))
  {
    hide DiffPlan, Advance;
    StartVerifyingKeeps(d, seen, log);
    hide HostInv;
    var merged := log.(resolved := Merged(ResolvedFrom(seen), log.resolved));
    MergedTruthful(seen, cur, log.resolved);
    hide Merged, ResolvedFrom;
    PlannedActionsSafe(d, p0, seen, cur, merged.done);
    hide MaySee, Truthful, OldMatch, BoundOrPending;
    var plan := DiffPlan(d, seen);
    if plan.actions != [] && plan.conflicts == [] {
      AdvanceVerifyOk(d, p0, cur, NotYetDone(plan.actions, merged.done), merged);
    }
  }

  lemma ReadKeeps(d: Desired, delays: nat, p0: Current, seen: Current, cur: Current, h: Host, t: Tick)
    requires WellFormed(d) && MaySee(d, p0, seen, cur) && HostOk(d, p0, cur, h)
    requires NextCall(h) == ReadSchema && (t.read.Shown? ==> t.read.cur == seen)
    ensures HostOk(d, p0, cur, Receive(d, delays, h, t))
  {
    hide MaySee, Replan, StartVerifying, BoundOrPending, ActionsSafe, OldMatch, Truthful, Exists, WellFormed;
    ReceiveKeeps(d, delays, h, t);
    if h.Rereading? && t.read.Shown? && Exists(seen, h.action) {
      ReplanOk(d, p0, seen, cur, h.action, h.log);
    } else if h.VerifyRead? && t.read.Shown? {
      StartVerifyingOk(d, p0, seen, cur, h.log);
    } else {
      hide HostInv;
    }
  }

  // ----------------------------------------------------------------- steps

  lemma HistoryExtends(d: Desired, history: seq<Platform>, after: Platform)
    requires WellFormed(d) && HistoryOk(d, history)
    requires Progress(d, history[0].schema, history[|history| - 1], after)
    ensures HistoryOk(d, history + [after])
  {
    var longer, n := history + [after], |history|;
    hide PlatformOk, AttributesOk, WellFormed, Grows;
    assert longer[0] == history[0];
    forall j, k | 0 <= j <= k < |longer| ensures Grows(longer[j].schema, longer[k].schema) {
      if k == n && j < n {
        assert Grows(history[j].schema, history[n - 1].schema);
        GrowsTransitive(history[j].schema, history[n - 1].schema, after.schema);
      } else if j == n {
        GrowsReflexive(after.schema);
      }
    }
    forall k | 0 <= k < |longer|
      ensures PlatformOk(longer[k]) && AttributesOk(d, history[0].schema, longer[k].schema) {}
  }

  lemma GrowsReflexive(c: Current)
    ensures Grows(c, c)
  {
  }

  lemma SeenOk(d: Desired, history: seq<Platform>, k: nat)
    requires WellFormed(d) && HistoryOk(d, history) && k < |history|
    ensures MaySee(d, history[0].schema, history[k].schema, history[|history| - 1].schema)
  {
    hide AttributesOk, Grows, WellFormed;
    assert Grows(history[0].schema, history[k].schema);
  }

  lemma OthersProgress(d: Desired, p0: Current, p: Platform, after: Platform)
    requires WellFormed(d) && AttributesOk(d, p0, p.schema) && OthersAdd(d, p, after)
    ensures Progress(d, p0, p, after)
  {
    forall a | a in d.attributes ensures |a.templates| == 1 && AttributeOk(p0, after.schema, a) {
      if a.slug in after.schema.attributes { AttributeStays(p0, p.schema, after.schema, a); }
    }
  }

  lemma MembersStay(d: Desired, f: Fleet, after: Platform)
    requires WellFormed(d) && FleetInv(d, f) && Progress(d, f.history[0].schema, Now(f), after)
    ensures FleetInv(d, f.(history := f.history + [after]))
  {
    HistoryExtends(d, f.history, after);
    hide HistoryOk, WellFormed, HostOk;
    forall i | 0 <= i < |f.members| && f.members[i].Running?
      ensures HostOk(d, f.history[0].schema, after.schema, f.members[i].host)
    {
      HostStays(d, f.history[0].schema, Now(f).schema, after.schema, f.members[i].host);
    }
  }

  lemma MemberMoves(d: Desired, f: Fleet, i: nat, since: nat, h: Host)
    requires WellFormed(d) && FleetInv(d, f) && i < |f.members| && since < |f.history|
    requires HostOk(d, f.history[0].schema, Now(f).schema, h)
    ensures FleetInv(d, f.(members := f.members[i := Running(since, h)]))
  {
    hide HostOk, WellFormed, HistoryOk;
  }

  lemma CallMeansRemaining(d: Desired, h: Host)
    requires HostInv(d, h) && NextCall(h) != ReadSchema && NextCall(h) != NoCall
    ensures RemainingIs(h) != []
  {
  }

  lemma NextKeeps(d: Desired, delays: nat, f: Fleet, l: Label, f': Fleet)
    requires WellFormed(d) && FleetInv(d, f) && Next(d, delays, f, l, f')
    ensures FleetInv(d, f') && f.history <= f'.history
  {
    var p0, now := f.history[0].schema, Now(f);
    hide Start, Receive, HostInv, WellFormed, Answers, MaySee, NextCall;
    match l {
      case Begins(i, seen) =>
        SeenOk(d, f.history, seen);
        StartOk(d, p0, f.history[seen].schema, now.schema);
        hide FleetInv, HostOk;
        MemberMoves(d, f, i, seen, Start(d, f.history[seen].schema));
      case Reads(i, seen, t) =>
        SeenOk(d, f.history, seen);
        var m := f.members[i];
        assert HostOk(d, p0, now.schema, m.host);
        hide HostOk, HistoryOk;
        ReadKeeps(d, delays, p0, f.history[seen].schema, now.schema, m.host, t);
        MemberMoves(d, f, i, m.since, Receive(d, delays, m.host, t));
      case Writes(i, t, after) =>
        var m := f.members[i];
        assert HostOk(d, p0, now.schema, m.host);
        CallMeansRemaining(d, m.host);
        hide HostOk, AttributesOk, Grows, PlatformOk;
        WriteKeeps(d, delays, p0, now, after, m.host, t);
        MembersStay(d, f, after);
        MemberMoves(d, f.(history := f.history + [after]), i, m.since, Receive(d, delays, m.host, t));
      case Others(after) =>
        hide HostOk, AttributesOk, Grows, PlatformOk;
        OthersProgress(d, p0, now, after);
        MembersStay(d, f, after);
    }
  }

  lemma InitOk(d: Desired, f: Fleet)
    requires WellFormed(d) && Init(f)
    ensures FleetInv(d, f)
  {
    GrowsReflexive(f.history[0].schema);
    var p := f.history[0].schema;
    forall i | 0 <= i < |f.members| ensures f.members[i].Waiting? { assert f.members[i] in f.members; }
    forall a | a in d.attributes ensures |a.templates| == 1 && AttributeOk(p, p, a) {
      assert WellFormedAttribute(d, a);
    }
  }

  lemma {:induction false} BehaviorKeeps(d: Desired, delays: nat, states: seq<Fleet>, labels: seq<Label>, k: nat)
    requires WellFormed(d) && Behavior(d, delays, states, labels) && k < |states|
    ensures FleetInv(d, states[k])
  {
    hide WellFormed, Next, FleetInv, Init;
    if k == 0 {
      InitOk(d, states[0]);
    } else {
      BehaviorKeeps(d, delays, states, labels, k - 1);
      NextKeeps(d, delays, states[k - 1], labels[k - 1], states[k]);
    }
  }

  lemma {:induction false} HistoryGrows(d: Desired, delays: nat, states: seq<Fleet>, labels: seq<Label>, j: nat, k: nat)
    requires WellFormed(d) && Behavior(d, delays, states, labels) && j <= k < |states|
    ensures states[j].history <= states[k].history
  {
    hide WellFormed, Next, FleetInv, Init;
    if j < k {
      HistoryGrows(d, delays, states, labels, j, k - 1);
      BehaviorKeeps(d, delays, states, labels, k - 1);
      NextKeeps(d, delays, states[k - 1], labels[k - 1], states[k]);
    }
  }

  // -------------------------------------------------------------- theorems

  /** In every interleaving of any number of hosts that want the same schema,
      over reads that lag, refusals, lost answers and other actors' additions,
      no visible template, attribute, option or binding is ever removed. */
  lemma FleetIsAdditive(d: Desired, delays: nat, states: seq<Fleet>, labels: seq<Label>, j: nat, k: nat)
    requires WellFormed(d) && Behavior(d, delays, states, labels) && j <= k < |states|
    ensures states[j].history != [] && states[k].history != []
    ensures Grows(Now(states[j]).schema, Now(states[k]).schema)
  {
    hide WellFormed, Behavior, PlatformOk, AttributesOk, Grows;
    HistoryGrows(d, delays, states, labels, j, k);
    BehaviorKeeps(d, delays, states, labels, j);
    BehaviorKeeps(d, delays, states, labels, k);
    var n := |states[j].history| - 1;
    assert states[j].history[n] == states[k].history[n];
  }

  /** Every desired template, attribute and binding is there, as desired. */
  ghost predicate Converged(d: Desired, cur: Current) {
    ConflictFree(d, cur) && forall o :: Wants(d, o) && !o.OptionObject? ==> Present(cur, o)
  }

  lemma SucceededConverged(d: Desired, p0: Current, cur: Current, h: Host)
    requires WellFormed(d) && h.Succeeded? && HostOk(d, p0, cur, h) && AttributesOk(d, p0, cur)
    ensures Converged(d, cur)
  {
    hide DiffPlan, WellFormedAttribute;
    var r := h.log.resolved;
    forall a | a in d.attributes && a.slug in cur.attributes ensures Matches(cur, a) {
      assert AttributeOk(p0, cur, a);
    }
    forall o | Wants(d, o) && !o.OptionObject? ensures Present(cur, o) {
      match o
      case TemplateObject(t) => assert t in r.templates;
      case AttributeObject(s) => assert s in r.attributes;
      case BindingObject(s, t) =>
        var a :| a in d.attributes && a.slug == s && t in a.templates;
        assert IsBound(cur, a);
    }
  }

  /** Whenever a host has reported success, every desired template, attribute
      and binding exists on the platform, with the desired types and targets, and
      every id the host holds is the platform's, then and ever after. */
  lemma SuccessMeansConverged(d: Desired, delays: nat, states: seq<Fleet>, labels: seq<Label>, k: nat, i: nat)
    requires WellFormed(d) && Behavior(d, delays, states, labels) && k < |states|
    requires i < |states[k].members| && states[k].members[i].Running? && states[k].members[i].host.Succeeded?
    ensures states[k].history != []
    ensures Converged(d, Now(states[k]).schema)
    ensures AllKnown(d, states[k].members[i].host.log.resolved)
    ensures Truthful(states[k].members[i].host.log.resolved, Now(states[k]).schema)
  {
    hide WellFormed, Behavior, AttributesOk, Grows, PlatformOk, Converged, BoundOrPending, OldMatch, Truthful, AllKnown;
    BehaviorKeeps(d, delays, states, labels, k);
    var f := states[k];
    SucceededConverged(d, f.history[0].schema, Now(f).schema, f.members[i].host);
  }
}
