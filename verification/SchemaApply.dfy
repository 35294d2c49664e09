/** ApplyWith as internal/schema/apply.go runs it, against an API whose answers
    are any script, proved to run the machine of SchemaHost.dfy. */
module SchemaApply {
  import opened Schema
  import opened SchemaDiff
  import opened SchemaPlan
  import opened SchemaHost
  import opened SchemaRuns
  import opened SchemaBounds

  /** The platform as one host sees it: instant by instant the script decides
      the answer; every call is recorded. */
  class Api {
    const script: nat -> Tick
    var clock: nat
    var sent: seq<Call>

    constructor (script: nat -> Tick)
      ensures this.script == script && clock == 0 && sent == []
    {
      this.script := script;
      clock, sent := 0, [];
    }

    method Write(call: Call) returns (reply: WriteReply)
      modifies this
      ensures clock == old(clock) + 1 && sent == old(sent) + [call] && reply == script(old(clock)).write
    {
      reply := script(clock).write;
      clock, sent := clock + 1, sent + [call];
    }

    method Read() returns (reply: ReadReply)
      modifies this
      ensures clock == old(clock) + 1 && sent == old(sent) + [ReadSchema] && reply == script(old(clock)).read
    {
      reply := script(clock).read;
      clock, sent := clock + 1, sent + [ReadSchema];
    }

    /** The pause after the last read. */
    method Sleep() returns (awake: bool)
      requires clock > 0
      ensures awake == script(clock - 1).awake
    {
      awake := script(clock - 1).awake;
    }
  }

  datatype Outcome = Done | AlreadyExists | OtherError | PlanOrderError

  /** What execute does with the platform's answer to a prepared request. */
  ghost predicate Executed(a: Action, r: Resolved, reply: WriteReply, outcome: Outcome, r': Resolved) {
    match reply
    case Accepted(id) => outcome == Done && r' == Learn(a, r, id)
    case Refused => outcome == AlreadyExists && r' == r
    case WriteFailed => outcome == OtherError && r' == r
  }

  method TemplateIds(slugs: seq<string>, templates: map<string, Id>) returns (ids: Option<seq<Id>>)
    ensures ids == IdsOf(templates, slugs)
  {
    var found: seq<Id> := [];
    for i := 0 to |slugs|
      invariant IdsOf(templates, slugs[..i]) == Some(found)
    {
      assert slugs[..i + 1][..i] == slugs[..i];
      if slugs[i] !in templates {
        MissingId(templates, slugs, i + 1);
        return None;
      }
      found := found + [templates[slugs[i]]];
    }
    assert slugs[..|slugs|] == slugs;
    ids := Some(found);
  }

  lemma {:induction false} MissingId(templates: map<string, Id>, slugs: seq<string>, i: nat)
    requires i <= |slugs| && IdsOf(templates, slugs[..i]).None?
    ensures IdsOf(templates, slugs).None?
    decreases |slugs| - i
  {
    if i == |slugs| {
      assert slugs[..i] == slugs;
    } else {
      assert slugs[..i + 1][..i] == slugs[..i];
      MissingId(templates, slugs, i + 1);
    }
  }

  method Execute(api: Api, a: Action, r: Resolved) returns (outcome: Outcome, r': Resolved)
    modifies api
    ensures Prepare(a, r).PlanOrderViolated? ==>
              outcome == PlanOrderError && r' == r && api.clock == old(api.clock) && api.sent == old(api.sent)
    ensures Prepare(a, r).Send? ==>
              api.clock == old(api.clock) + 1 && api.sent == old(api.sent) + [Prepare(a, r).call] &&
              Executed(a, r, api.script(old(api.clock)).write, outcome, r')
  {
    r' := r;
    var reply: WriteReply;
    match a {
      case CreateTemplate(t) =>
        reply := api.Write(NewTemplate(t));
        if reply.Accepted? {
          r' := r.(templates := r.templates[t := reply.id]);
        }
      case CreateAttribute(s, kind, ts, target, display) =>
        var ids := TemplateIds(ts, r.templates);
        if ids.None? {
          return PlanOrderError, r;
        }
        var refTarget: Option<Id>, refDisplay: Option<Id> := None, None;
        if kind.KReference? {
          refTarget, refDisplay := Get(r.templates, target), Get(r.attributes, display);
          if refTarget.None? || refDisplay.None? {
            return PlanOrderError, r;
          }
        }
        reply := api.Write(NewAttribute(s, kind, ids.value, refTarget, refDisplay));
        if reply.Accepted? {
          r' := r.(attributes := r.attributes[s := reply.id]);
        }
      case AddListOption(s, known, v) =>
        var id := known;
        if id.None? {
          id := Get(r.attributes, s);
        }
        if id.None? {
          return PlanOrderError, r;
        }
        reply := api.Write(NewOption(id.value, v));
        if reply.Accepted? {
          r' := r.(listItems := r.listItems[s := ItemsOf(r.listItems, s)[v := reply.id]]);
        }
      case BindAttribute(_, id, t, ids) =>
        if t !in r.templates {
          return PlanOrderError, r;
        }
        reply := api.Write(SetBindings(id, ids + {r.templates[t]}));
    }
    outcome := match reply case Accepted(_) => Done case Refused => AlreadyExists case WriteFailed => OtherError;
  }

  method DropDone(actions: seq<Action>, done: seq<ActionResult>) returns (out: seq<Action>)
    ensures out == NotYetDone(actions, done)
  {
    out := [];
    for i := 0 to |actions|
      invariant out == Gather(actions[..i], Keep(done))
    {
      GatherStep(actions, i, Keep(done));
      if !actions[i].BindAttribute? && Did(done, actions[i]) {
        continue;
      }
      out := out + [actions[i]];
    }
    assert actions[..|actions|] == actions;
  }

  /** Overlays own's list items, slug by slug, onto read's. */
  method MergeItems(read: map<string, map<string, Id>>, own: map<string, map<string, Id>>)
    returns (items: map<string, map<string, Id>>)
    ensures items == map s | s in read.Keys + own.Keys :: ItemsOf(read, s) + ItemsOf(own, s)
  {
    items := read;
    var slugs := own.Keys;
    while slugs != {}
      invariant slugs <= own.Keys
      invariant items.Keys == read.Keys + (own.Keys - slugs)
      invariant forall s :: s in items ==>
                  items[s] == ItemsOf(read, s) + (if s in slugs then map[] else ItemsOf(own, s))
    {
      var slug :| slug in slugs;
      items := items[slug := ItemsOf(items, slug) + own[slug]];
      slugs := slugs - {slug};
    }
  }

  method Merge(read: Resolved, own: Resolved) returns (r: Resolved)
    ensures r == Merged(read, own)
  {
    var items := MergeItems(read.listItems, own.listItems);
    r := Resolved(read.templates + own.templates, read.attributes + own.attributes, items);
  }

  /** A run in progress: what was asked, when it began, and the machine that
      stands for it. */
  ghost function Machine(api: Api, d: Desired, delays: nat, cur: Current, began: nat): Host
    requires api.clock >= began
    reads api
  {
    Run(d, delays, Start(d, cur), api.script, began, api.clock - began)
  }

  ghost function Calls(api: Api, d: Desired, delays: nat, cur: Current, began: nat): seq<Call>
    requires api.clock >= began
    reads api
  {
    Sent(d, delays, Start(d, cur), api.script, began, api.clock - began)
  }

  lemma StillWaiting(d: Desired, delays: nat, a: Action, tries: nat, log: Log, t: Tick)
    requires t.read.Shown? && !Exists(t.read.cur, a) && tries < delays && t.awake
    ensures Receive(d, delays, Rereading(a, tries, log), t) == Rereading(a, tries + 1, log)
  {
  }

  /** The read that ended a wait: the machine was still re-reading before it. */
  ghost predicate LastRead(api: Api, delays: nat, a: Action, before: Host, tries: nat, log: Log,
                           last: Option<Current>, settled: bool)
    requires api.clock > 0
    reads api
  {
    var t := api.script(api.clock - 1);
    && before == Rereading(a, tries, log)
    && t.read == (if last.None? then ReadFailed else Shown(last.value))
    && (settled <==> last.Some? && Exists(last.value, a))
    && (last.Some? && !settled ==> tries >= delays || !t.awake)
  }

  /** Re-reads until the object action a would create shows, the budget is
      spent, or the pause is cut short. */
  method Until(api: Api, d: Desired, delays: nat, a: Action, log: Log, ghost cur: Current, ghost began: nat)
    returns (last: Option<Current>, settled: bool, ghost tries: nat)
    requires api.clock >= began
    requires Machine(api, d, delays, cur, began) == Rereading(a, 0, log)
    requires api.sent == Calls(api, d, delays, cur, began)
    modifies api
    ensures api.clock > old(api.clock)
    ensures api.sent == Calls(api, d, delays, cur, began)
    ensures LastRead(api, delays, a, Run(d, delays, Start(d, cur), api.script, began, api.clock - began - 1),
                     tries, log, last, settled)
  {
    hide Replan, StartVerifying, Advance, DiffPlan;
    tries := 0;
    var i: nat := 0;
    while true
      invariant tries == i <= delays && api.clock >= old(api.clock)
      invariant Machine(api, d, delays, cur, began) == Rereading(a, i, log)
      invariant api.sent == Calls(api, d, delays, cur, began)
      decreases delays - i
    {
      ghost var h := Machine(api, d, delays, cur, began);
      var reply := api.Read();
      assert Run(d, delays, Start(d, cur), api.script, began, api.clock - began - 1) == h;
      if reply.ReadFailed? {
        return None, false, tries;
      }
      if Exists(reply.cur, a) {
        return Some(reply.cur), true, tries;
      }
      if i >= delays {
        return Some(reply.cur), false, tries;
      }
      var awake := api.Sleep();
      if !awake {
        return Some(reply.cur), false, tries;
      }
      StillWaiting(d, delays, a, i, log, api.script(api.clock - 1));
      i := i + 1;
      tries := i;
    }
  }

  /** How a finished run is read off the machine. */
  function Ended(log: Log, failure: Option<Stop>): Host {
    if failure.None? then Succeeded(log) else Stopped(log, failure.value)
  }

  /** The platform refused a because its object exists: wait until it shows,
      then plan again from what the read shows. */
  method SkipAndReplan(api: Api, d: Desired, delays: nat, ghost cur: Current, a: Action, log: Log)
    returns (failure: Option<Stop>, res: Log, remaining: seq<Action>)
    requires Machine(api, d, delays, cur, 0) == Rereading(a, 0, log)
    requires api.sent == Calls(api, d, delays, cur, 0)
    modifies api
    ensures Machine(api, d, delays, cur, 0) ==
            if failure.None? then Advance(Applying(remaining, res)) else Stopped(res, failure.value)
    ensures api.sent == Calls(api, d, delays, cur, 0)
    ensures res.rereads == log.rereads
  {
    hide DiffPlan, NotYetDone, Merged, ResolvedFrom, Prepare, Learn, Exists, Advance;
    res, remaining := log, [];
    var seen, present;
    ghost var tries;
    seen, present, tries := Until(api, d, delays, a, res, cur, 0);
    assert Machine(api, d, delays, cur, 0) ==
           Receive(d, delays, Rereading(a, tries, log), api.script(api.clock - 1));
    if seen.None? {
      return Some(RereadFailed(a)), res, remaining;
    }
    if !present {
      return Some(StillAbsent(a)), res, remaining;
    }
    res := res.(done := res.done + [ActionResult(a, true)]);
    var replan := Diff(d, seen.value);
    if replan.conflicts != [] {
      return Some(Conflicted(replan.conflicts)), res, remaining;
    }
    var resolved := Merge(ResolvedFrom(seen.value), res.resolved);
    res := res.(resolved := resolved);
    remaining := DropDone(replan.actions, res.done);
    failure := None;
  }

  /** Reconciles d onto the project whose schema was read as cur. */
  method ApplyWith(api: Api, d: Desired, cur: Current, delays: nat) returns (res: Log, failure: Option<Stop>)
    requires api.clock == 0 && api.sent == []
    modifies api
    ensures Ended(res, failure) == Run(d, delays, Start(d, cur), api.script, 0, api.clock)
    ensures api.sent == Sent(d, delays, Start(d, cur), api.script, 0, api.clock)
  {
    hide DiffPlan, NotYetDone, Merged, ResolvedFrom, Prepare, Learn, Exists, Replan;
    var plan := Diff(d, cur);
    res := Log([], 0, ResolvedFrom(cur), false);
    if plan.conflicts != [] {
      return res, Some(Conflicted(plan.conflicts));
    }
    var remaining := plan.actions;
    while remaining != []
      invariant Advance(Applying(remaining, res)) == Machine(api, d, delays, cur, 0)
      invariant api.sent == Calls(api, d, delays, cur, 0)
      invariant res.rereads <= MAX_REREADS
      decreases MAX_REREADS - res.rereads, |remaining|
    {
      var a := remaining[0];
      ghost var h := Applying(remaining, res);
      remaining := remaining[1..];
      var outcome, resolved := Execute(api, a, res.resolved);
      if outcome == PlanOrderError {
        return res, Some(OrderViolated(a));
      }
      assert Machine(api, d, delays, cur, 0) == Receive(d, delays, h, api.script(api.clock - 1));
      if outcome == Done {
        res := res.(done := res.done + [ActionResult(a, false)], resolved := resolved,
                    verifyDue := res.verifyDue || a.BindAttribute?);
        continue;
      }
      if outcome == AlreadyExists && res.rereads < MAX_REREADS {
        res := res.(rereads := res.rereads + 1);
        failure, res, remaining := SkipAndReplan(api, d, delays, cur, a, res);
        if failure.Some? {
          return;
        }
        continue;
      }
      return res, Some(ActionFailed(a));
    }

    if res.verifyDue {
      ghost var h := VerifyRead(res);
      var reply := api.Read();
      assert Machine(api, d, delays, cur, 0) == Receive(d, delays, h, api.script(api.clock - 1));
      if reply.ReadFailed? {
        return res, Some(VerifyFailed);
      }
      var resolved := Merge(ResolvedFrom(reply.cur), res.resolved);
      res := res.(resolved := resolved);
      var replan := Diff(d, reply.cur);
      if replan.actions != [] && replan.conflicts == [] {
        remaining := DropDone(replan.actions, res.done);
        failure, res := Verify(api, d, delays, cur, remaining, res);
        return;
      }
    }
    failure := None;
  }

  /** The verification pass: a refusal means the object is there after all. */
  method Verify(api: Api, d: Desired, delays: nat, ghost cur: Current, actions: seq<Action>, log: Log)
    returns (failure: Option<Stop>, res: Log)
    requires api.clock >= 0
    requires Advance(Verifying(actions, log)) == Machine(api, d, delays, cur, 0)
    requires api.sent == Calls(api, d, delays, cur, 0)
    modifies api
    ensures Ended(res, failure) == Machine(api, d, delays, cur, 0)
    ensures api.sent == Calls(api, d, delays, cur, 0)
  {
    hide DiffPlan, NotYetDone, Merged, ResolvedFrom, Prepare, Learn, Exists, Replan, StartVerifying;
    res := log;
    for i := 0 to |actions|
      invariant Advance(Verifying(actions[i..], res)) == Machine(api, d, delays, cur, 0)
      invariant api.sent == Calls(api, d, delays, cur, 0)
    {
      var a := actions[i];
      ghost var h := Verifying(actions[i..], res);
      assert actions[i..][1..] == actions[i + 1..];
      var outcome, resolved := Execute(api, a, res.resolved);
      if outcome == PlanOrderError {
        return Some(OrderViolated(a)), res;
      }
      assert Machine(api, d, delays, cur, 0) == Receive(d, delays, h, api.script(api.clock - 1));
      if outcome == OtherError {
        return Some(ActionFailed(a)), res;
      }
      res := res.(done := res.done + [ActionResult(a, false)], resolved := resolved);
    }
    failure := None;
  }

  /** The default settle policy pauses five times. */
  const DEFAULT_DELAYS: nat := 5

  /** Apply with the default policy: on a well-formed schema the plan order holds
      and success means every id is known, whatever the platform answered. */
  method Apply(api: Api, d: Desired, cur: Current) returns (res: Log, failure: Option<Stop>)
    requires api.clock == 0 && api.sent == []
    requires WellFormed(d)
    modifies api
    ensures Ended(res, failure) == Run(d, DEFAULT_DELAYS, Start(d, cur), api.script, 0, api.clock)
    ensures failure.Some? ==> !failure.value.OrderViolated?
    ensures failure.None? ==> AllKnown(d, res.resolved)
    ensures WriteCount(api.sent) <= (MAX_REREADS + 2) * MaxPlan(d)
    ensures ReadCount(api.sent) <= MAX_REREADS * (DEFAULT_DELAYS + 1) + 1
  {
    hide WellFormed, Start, AllKnown, MaxPlan, WriteCount, ReadCount;
    res, failure := ApplyWith(api, d, cur, DEFAULT_DELAYS);
    PlanOrderNeverViolated(d, DEFAULT_DELAYS, cur, api.script, api.clock);
    CallsAreBounded(d, DEFAULT_DELAYS, cur, api.script, api.clock);
  }
}
