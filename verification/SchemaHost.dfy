/** One host reconciling the schema (internal/schema/apply.go) as a state
    machine: it sends one API call at a time and moves on the reply, whatever
    the reply is. ApplyWith (SchemaApply.dfy) runs exactly this machine, and
    SchemaFleet.dfy interleaves many of them. */
module SchemaHost {
  import opened Schema

  const MAX_REREADS: nat := 5

  // -------------------------------------------------------------- resolved

  datatype Resolved = Resolved(
    templates: map<string, Id>, attributes: map<string, Id>, listItems: map<string, map<string, Id>>)

  function ItemsOf(items: map<string, map<string, Id>>, slug: string): map<string, Id> {
    if slug in items then items[slug] else map[]
  }

  function ResolvedFrom(cur: Current): Resolved {
    Resolved(
      map s | s in cur.templates :: cur.templates[s].id,
      map s | s in cur.attributes :: cur.attributes[s].id,
      map s | s in cur.attributes && cur.attributes[s].options != map[] :: cur.attributes[s].options)
  }

  /** read overlaid with the ids this run learned itself. */
  function Merged(read: Resolved, own: Resolved): Resolved {
    Resolved(
      read.templates + own.templates,
      read.attributes + own.attributes,
      map s | s in read.listItems.Keys + own.listItems.Keys :: ItemsOf(read.listItems, s) + ItemsOf(own.listItems, s))
  }

  // --------------------------------------------------------------- actions

  /** A request to the platform. */
  datatype Call =
    | NoCall
    | ReadSchema
    | NewTemplate(slug: string)
    | NewAttribute(slug: string, kind: Kind, templateIds: seq<Id>, refTarget: Option<Id>, refDisplay: Option<Id>)
    | NewOption(attributeId: Id, value: string)
    | SetBindings(attributeId: Id, boundIds: set<Id>)

  datatype Prepared = Send(call: Call) | PlanOrderViolated

  function Get(m: map<string, Id>, slug: string): Option<Id> {
    if slug in m then Some(m[slug]) else None
  }

  /** The ids of template slugs, in order; None when one has no id yet. */
  function IdsOf(templates: map<string, Id>, slugs: seq<string>): Option<seq<Id>> {
    if slugs == [] then Some([])
    else
      var n := |slugs| - 1;
      var init := IdsOf(templates, slugs[..n]);
      if init.None? || slugs[n] !in templates then None else Some(init.value + [templates[slugs[n]]])
  }

  /** The request an action makes, given the ids resolved so far. */
  function Prepare(a: Action, r: Resolved): Prepared {
    match a
    case CreateTemplate(t) => Send(NewTemplate(t))
    case CreateAttribute(s, kind, ts, target, display) =>
      var ids := IdsOf(r.templates, ts);
      if ids.None? then PlanOrderViolated
      else if !kind.KReference? then Send(NewAttribute(s, kind, ids.value, None, None))
      else if target !in r.templates || display !in r.attributes then PlanOrderViolated
      else Send(NewAttribute(s, kind, ids.value, Some(r.templates[target]), Some(r.attributes[display])))
    case AddListOption(s, known, v) =>
      var id := if known.Some? then known else Get(r.attributes, s);
      if id.None? then PlanOrderViolated else Send(NewOption(id.value, v))
    case BindAttribute(_, id, t, ids) =>
      if t !in r.templates then PlanOrderViolated else Send(SetBindings(id, ids + {r.templates[t]}))
  }

  /** The ids known once the platform accepted an action. */
  function Learn(a: Action, r: Resolved, id: Id): Resolved {
    match a
    case CreateTemplate(t) => r.(templates := r.templates[t := id])
    case CreateAttribute(s, _, _, _, _) => r.(attributes := r.attributes[s := id])
    case AddListOption(s, _, v) => r.(listItems := r.listItems[s := ItemsOf(r.listItems, s)[v := id]])
    case BindAttribute(_, _, _, _) => r
  }

  /** Whether the object an action would create is present. */
  predicate Exists(cur: Current, a: Action) {
    match a
    case CreateTemplate(t) => t in cur.templates
    case CreateAttribute(s, _, _, _, _) => s in cur.attributes
    case AddListOption(s, _, v) => s in cur.attributes && v in cur.attributes[s].options
    case BindAttribute(s, _, t, _) =>
      t in cur.templates && s in cur.attributes && cur.attributes[s].id in cur.templates[t].attributeIds
  }

  datatype ActionResult = ActionResult(action: Action, skipped: bool)

  /** Two actions the code treats as the same: one type, one slug. For options
      the slug is the attribute's, not the option's. */
  predicate SameKey(a: Action, b: Action) {
    (match a
     case CreateTemplate(_) => b.CreateTemplate?
     case CreateAttribute(_, _, _, _, _) => b.CreateAttribute?
     case AddListOption(_, _, _) => b.AddListOption?
     case BindAttribute(_, _, _, _) => b.BindAttribute?) && a.Slug() == b.Slug()
  }

  predicate Did(done: seq<ActionResult>, a: Action) {
    exists r :: r in done && SameKey(r.action, a)
  }

  function Keep(done: seq<ActionResult>): Action -> seq<Action> {
    (a: Action) => if !a.BindAttribute? && Did(done, a) then [] else [a]
  }

  /** A re-plan without what this run already did; binds always stay. */
  function NotYetDone(actions: seq<Action>, done: seq<ActionResult>): seq<Action> {
    Gather(actions, Keep(done))
  }

  // --------------------------------------------------------------- machine

  datatype Log = Log(done: seq<ActionResult>, rereads: nat, resolved: Resolved, verifyDue: bool)

  datatype Stop =
    | Conflicted(conflicts: seq<Conflict>)
    | OrderViolated(action: Action)
    | ActionFailed(action: Action)
    | RereadFailed(action: Action)
    | StillAbsent(action: Action)
    | VerifyFailed

  datatype Host =
    | Applying(remaining: seq<Action>, log: Log)
    | Rereading(action: Action, tries: nat, log: Log)
    | VerifyRead(log: Log)
    | Verifying(remaining: seq<Action>, log: Log)
    | Succeeded(log: Log)
    | Stopped(log: Log, why: Stop)

  datatype WriteReply = Accepted(id: Id) | Refused | WriteFailed

  datatype ReadReply = Shown(cur: Current) | ReadFailed

  /** What the world answers at one instant: to a write, to a read, and whether
      the pause after an unsettled read was slept through. */
  datatype Tick = Tick(write: WriteReply, read: ReadReply, awake: bool)

  /** Moves past everything that needs no API call. */
  function Advance(h: Host): Host {
    match h
    case Applying(rem, log) =>
      if rem == [] then (if log.verifyDue then VerifyRead(log) else Succeeded(log))
      else if Prepare(rem[0], log.resolved).PlanOrderViolated? then Stopped(log, OrderViolated(rem[0]))
      else h
    case Verifying(rem, log) =>
      if rem == [] then Succeeded(log)
      else if Prepare(rem[0], log.resolved).PlanOrderViolated? then Stopped(log, OrderViolated(rem[0]))
      else h
    case _ => h
  }

  function Start(d: Desired, cur: Current): Host {
    var plan := DiffPlan(d, cur);
    var log := Log([], 0, ResolvedFrom(cur), false);
    if plan.conflicts != [] then Stopped(log, Conflicted(plan.conflicts))
    else Advance(Applying(plan.actions, log))
  }

  function NextCall(h: Host): Call {
    match h
    case Applying(rem, log) =>
      if rem != [] && Prepare(rem[0], log.resolved).Send? then Prepare(rem[0], log.resolved).call else NoCall
    case Verifying(rem, log) =>
      if rem != [] && Prepare(rem[0], log.resolved).Send? then Prepare(rem[0], log.resolved).call else NoCall
    case Rereading(_, _, _) => ReadSchema
    case VerifyRead(_) => ReadSchema
    case _ => NoCall
  }

  /** The refused object turned out to exist: skip it and plan again. */
  function Replan(d: Desired, a: Action, seen: Current, log: Log): Host {
    var plan := DiffPlan(d, seen);
    var skipped := log.(done := log.done + [ActionResult(a, true)]);
    if plan.conflicts != [] then Stopped(skipped, Conflicted(plan.conflicts))
    else
      var merged := skipped.(resolved := Merged(ResolvedFrom(seen), skipped.resolved));
      Advance(Applying(NotYetDone(plan.actions, merged.done), merged))
  }

  function StartVerifying(d: Desired, seen: Current, log: Log): Host {
    var merged := log.(resolved := Merged(ResolvedFrom(seen), log.resolved));
    var plan := DiffPlan(d, seen);
    if plan.actions != [] && plan.conflicts == [] then Advance(Verifying(NotYetDone(plan.actions, merged.done), merged))
    else Succeeded(merged)
  }

  function Performed(a: Action, log: Log, id: Id): Log {
    log.(done := log.done + [ActionResult(a, false)], resolved := Learn(a, log.resolved, id))
  }

  /** The machine's step on the world's answer; delays is the settle budget. */
  function Receive(d: Desired, delays: nat, h: Host, t: Tick): Host {
    match h
    case Applying(rem, log) =>
      if rem == [] then h
      else (
        match t.write
        case Accepted(id) =>
          var next := Performed(rem[0], log, id);
          Advance(Applying(rem[1..], next.(verifyDue := log.verifyDue || rem[0].BindAttribute?)))
        case Refused =>
          if log.rereads < MAX_REREADS then Rereading(rem[0], 0, log.(rereads := log.rereads + 1))
          else Stopped(log, ActionFailed(rem[0]))
        case WriteFailed => Stopped(log, ActionFailed(rem[0])))
    case Rereading(a, tries, log) => (
      match t.read
      case ReadFailed => Stopped(log, RereadFailed(a))
      case Shown(seen) =>
        if Exists(seen, a) then Replan(d, a, seen, log)
        else if tries >= delays || !t.awake then Stopped(log, StillAbsent(a))
        else Rereading(a, tries + 1, log))
    case VerifyRead(log) => (
      match t.read
      case ReadFailed => Stopped(log, VerifyFailed)
      case Shown(seen) => StartVerifying(d, seen, log))
    case Verifying(rem, log) =>
      if rem == [] then h
      else (
        match t.write
        case Accepted(id) => Advance(Verifying(rem[1..], Performed(rem[0], log, id)))
        case Refused => Advance(Verifying(rem[1..], log.(done := log.done + [ActionResult(rem[0], false)])))
        case WriteFailed => Stopped(log, ActionFailed(rem[0])))
    case _ => h
  }

  /** The host after n replies, the first at instant `from`. */
  function Run(d: Desired, delays: nat, h: Host, script: nat -> Tick, from: nat, n: nat): Host {
    if n == 0 then h else Receive(d, delays, Run(d, delays, h, script, from, n - 1), script(from + n - 1))
  }

  /** The calls it made for them. */
  function Sent(d: Desired, delays: nat, h: Host, script: nat -> Tick, from: nat, n: nat): seq<Call> {
    if n == 0 then []
    else Sent(d, delays, h, script, from, n - 1) + [NextCall(Run(d, delays, h, script, from, n - 1))]
  }
}
