/** One host alone with the project: the platform can accept every request of its
    plan, so the run succeeds, and the project becomes the least extension. */
module SchemaAlone {
  import opened Schema
  import opened SchemaPlan
  import opened SchemaHost
  import opened SchemaHostLaws
  import opened SchemaRuns
  import opened SchemaOptions
  import opened SchemaBounds
  import opened SchemaTermination
  import opened SchemaFleet
  import opened SchemaFleetSafety
  import opened SchemaFleetTheorems
  import opened SchemaExtension

  // ---------------------------------------------------------- fresh ids

  /** Every id the platform uses. */
  ghost function UsedIds(p: Platform): set<string> {
    p.hidden.Keys + (set s | s in p.schema.templates :: p.schema.templates[s].id) +
    (set s, i | s in p.schema.templates && i in p.schema.templates[s].attributeIds :: i) +
    (set s | s in p.schema.attributes :: p.schema.attributes[s].id)
  }

  lemma {:induction false} LongerThanAll(ids: set<string>) returns (n: nat)
    ensures forall i :: i in ids ==> |i| <= n
    decreases |ids|
  {
    n := 0;
    if ids != {} {
      var i :| i in ids;
      var m := LongerThanAll(ids - {i});
      n := if |i| > m then |i| else m;
    }
  }

  /** The platform never runs out of ids. */
  lemma SomeFreshId(p: Platform) returns (id: Id)
    ensures FreshId(p, id)
  {
    var n := LongerThanAll(UsedIds(p));
    id := seq(n + 1, _ => '0');
    assert id !in UsedIds(p);
  }

  // --------------------------------------------- the platform can accept

  /** Nothing the remaining actions create is there. */
  ghost predicate Missing(cur: Current, rem: seq<Action>) {
    forall x :: x in rem && !x.BindAttribute? ==> !Present(cur, MainObject(x))
  }

  lemma TemplateAccepted(p: Platform, x: Action, r: Resolved, id: Id)
    requires x.CreateTemplate? && !Present(p.schema, MainObject(x)) && FreshId(p, id)
    ensures Accepts(p, Prepare(x, r).call, id)
  {
  }

  lemma KnownId(p: Platform, slug: string)
    requires slug in p.schema.templates
    ensures KnownTemplateId(p, p.schema.templates[slug].id)
  {
  }

  lemma AttributeAccepted(d: Desired, p: Platform, x: Action, r: Resolved, id: Id)
    requires WellFormed(d) && x.CreateAttribute? && Asked(d, x) && Truthful(r, p.schema) && Prepare(x, r).Send?
    requires !Present(p.schema, MainObject(x)) && FreshId(p, id)
    ensures Accepts(p, Prepare(x, r).call, id)
  {
    var a :| a in d.attributes && x == CreateOf(a);
    CreateOfFields(a);
    hide Truthful, CreateOf, FreshId;
    assert WellFormedAttribute(d, a);
    var ids, target, display := CreateCall(d, p.schema, a, r);
    hide Prepare;
    KnownId(p, TemplateOf(a));
    if a.kind.KReference? { KnownId(p, a.target); }
    hide KnownTemplateId;
  }

  /** A desired attribute that exists has the desired type. */
  lemma DesiredMatches(d: Desired, p0: Current, cur: Current, a: DesiredAttribute)
    requires WellFormed(d) && a in d.attributes && a.slug in cur.attributes
    requires OldMatch(d, p0, cur) && AttributesOk(d, p0, cur)
    ensures Matches(cur, a)
  {
    assert AttributeOk(p0, cur, a);
  }

  lemma OptionAccepted(d: Desired, p0: Current, p: Platform, x: Action, r: Resolved, id: Id)
    requires WellFormed(d) && x.AddListOption? && Asked(d, x) && Truthful(r, p.schema) && Prepare(x, r).Send?
    requires ActionSafe(p0, p.schema, x) && OldMatch(d, p0, p.schema) && AttributesOk(d, p0, p.schema)
    requires !Present(p.schema, MainObject(x))
    ensures Accepts(p, Prepare(x, r).call, id)
  {
    var attributeId := OptionCall(p0, p.schema, x, r);
    hide Truthful, ActionSafe, Prepare, OldMatch, AttributesOk;
    var a :| a in d.attributes && a.slug == x.attribute && x.option in a.options;
    assert WellFormedAttribute(d, a) && a.kind.KList?;
    DesiredMatches(d, p0, p.schema, a);
    assert HasId(p, x.attribute, attributeId);
  }

  lemma BindAccepted(d: Desired, p0: Current, p: Platform, x: Action, r: Resolved, id: Id)
    requires x.BindAttribute? && Truthful(r, p.schema) && Prepare(x, r).Send?
    requires BindSafe(p0, p.schema, x) && Grows(p0, p.schema)
    ensures Accepts(p, Prepare(x, r).call, id)
  {
    BaseGrows(p0, p.schema, x.attribute);
    assert HasId(p, x.attribute, x.boundId);
    var ids := x.templateIds + {r.templates[x.template]};
    forall i | i in ids ensures KnownTemplateId(p, i) {
      if i in BoundTo(p.schema, x.boundId) {
        var s :| s in p.schema.templates && p.schema.templates[s].id == i;
      }
    }
  }

  /** A host whose pending creates are all missing asks only for what the platform
      can do. */
  lemma WriteAccepted(d: Desired, p0: Current, p: Platform, h: Host, id: Id)
    requires WellFormed(d) && HostOk(d, p0, p.schema, h) && h.Applying? && Missing(p.schema, h.remaining)
    requires AttributesOk(d, p0, p.schema) && Grows(p0, p.schema) && FreshId(p, id)
    ensures Accepts(p, NextCall(h), id)
  {
    hide WellFormed, Truthful, AttributesOk, Grows, FreshId, Accepts, BoundOrPending, OldMatch, Covered;
    var x, r := h.remaining[0], h.log.resolved;
    assert Asked(d, x) && ActionSafe(p0, p.schema, x) && NextCall(h) == Prepare(x, r).call;
    hide Prepare, Asked, Present;
    match x {
      case CreateTemplate(_) => TemplateAccepted(p, x, r, id);
      case CreateAttribute(_, _, _, _, _) => AttributeAccepted(d, p, x, r, id);
      case AddListOption(_, _, _) => OptionAccepted(d, p0, p, x, r, id);
      case BindAttribute(_, _, _, _) => BindAccepted(d, p0, p, x, r, id);
    }
  }

  // ------------------------------------------------------- a run by itself

  /** A fleet of one, nobody else at work: every read shows the present, every call
      is answered, and a write the platform can accept it accepts. */
  ghost predicate Undisturbed(f: Fleet, l: Label)
    requires f.history != []
  {
    match l
    case Begins(_, seen) => seen == |f.history| - 1
    case Reads(_, seen, t) => seen == |f.history| - 1 && t.read.Shown?
    case Writes(i, t, _) =>
      i < |f.members| && f.members[i].Running? &&
      ((exists id :: Accepts(Now(f), NextCall(f.members[i].host), id)) ==> t.write.Accepted?)
    case Others(_) => false
  }

  ghost predicate AloneStep(d: Desired, delays: nat, f: Fleet, l: Label, f': Fleet) {
    f.history != [] && Undisturbed(f, l) && Next(d, delays, f, l, f')
  }

  ghost predicate AloneRun(d: Desired, delays: nat, states: seq<Fleet>, labels: seq<Label>) {
    && |states| == |labels| + 1
    && Init(states[0]) && |states[0].members| == 1
    && forall k :: 0 <= k < |labels| ==> AloneStep(d, delays, states[k], labels[k], states[k + 1])
  }

  lemma AloneIsFleet(d: Desired, delays: nat, states: seq<Fleet>, labels: seq<Label>)
    requires AloneRun(d, delays, states, labels)
    ensures Behavior(d, delays, states, labels)
    ensures forall k :: 0 <= k < |labels| ==> !labels[k].Others?
  {
    hide Next, Init, Undisturbed;
    forall k | 0 <= k < |labels|
      ensures states[k].history != [] && Next(d, delays, states[k], labels[k], states[k + 1]) && !labels[k].Others?
    {
      assert AloneStep(d, delays, states[k], labels[k], states[k + 1]);
      NoOthers(states[k], labels[k]);
    }
  }

  lemma NoOthers(f: Fleet, l: Label)
    requires f.history != [] && Undisturbed(f, l)
    ensures !l.Others?
  {
  }

  /** The host is on its way to success. */
  ghost predicate Thriving(cur: Current, h: Host) {
    match h
    case Applying(rem, log) => log.rereads == 0 && Missing(cur, rem)
    case VerifyRead(log) => log.rereads == 0
    case Succeeded(log) => log.rereads == 0
    case _ => false
  }

  /** What holds of a lone host after every step. */
  ghost predicate AloneInv(d: Desired, delays: nat, f: Fleet)
    requires WellFormed(d)
  {
    && FleetInv(d, f) && |f.members| == 1
    && match f.members[0]
       case Waiting => |f.history| == 1 && ConflictFree(d, Now(f).schema)
       case Running(_, h) => Thriving(Now(f).schema, h) && OptionInv(d, h) && InBounds(delays, h)
  }

  lemma NotStuck(d: Desired, cur: Current, rem: seq<Action>, log: Log)
    requires HostInv(d, Advance(Applying(rem, log))) && log.rereads == 0 && Missing(cur, rem)
    ensures Thriving(cur, Advance(Applying(rem, log)))
  {
    hide Prepare, Covered, AllKnown, Missing, Sound;
  }

  lemma PlanMissing(d: Desired, cur: Current)
    requires DistinctIds(cur)
    ensures Missing(cur, DiffPlan(d, cur).actions)
  {
    hide DiffPlan, DistinctIds;
    forall x | x in DiffPlan(d, cur).actions && !x.BindAttribute? ensures !Present(cur, MainObject(x)) {
      PlanProvidesOnlyMissing(d, cur, x, MainObject(x));
    }
  }

  lemma StartThrives(d: Desired, cur: Current)
    requires WellFormed(d) && DistinctIds(cur) && ConflictFree(d, cur)
    ensures Thriving(cur, Start(d, cur))
  {
    hide WellFormed, DiffPlan, DistinctIds, ConflictFree, Missing, Thriving, Advance, HostInv, ResolvedFrom;
    ConflictsExact(d, cur);
    StartKeeps(d, cur);
    PlanMissing(d, cur);
    NotStuck(d, cur, DiffPlan(d, cur).actions, Log([], 0, ResolvedFrom(cur), false));
  }

  /** What a write adds: its main object and bindings. */
  lemma WriteAddsMain(d: Desired, p0: Current, p: Platform, x: Action, r: Resolved, id: Id, o: Object)
    requires WellFormed(d) && MayWrite(d, p0, p, x, r, id) && !o.BindingObject?
    requires Present(Effect(p, Prepare(x, r).call, id).schema, o) && !Present(p.schema, o)
    ensures o == MainObject(x)
  {
    hide WellFormed, AttributesOk, Grows, Truthful;
    match x {
      case CreateTemplate(t) => NewTemplateAdds(p, t, id, o);
      case CreateAttribute(_, _, _, _, _) => AttributeAddsMain(d, p0, p, x, r, id, o);
      case AddListOption(_, _, _) => OptionAddsMain(d, p0, p, x, r, id, o);
      case BindAttribute(_, _, _, _) =>
        SchemaExtension.BindAdds(p, x.attribute, x.boundId, x.templateIds + {r.templates[x.template]}, o);
    }
  }

  lemma OptionAddsMain(d: Desired, p0: Current, p: Platform, x: Action, r: Resolved, id: Id, o: Object)
    requires WellFormed(d) && x.AddListOption? && MayWrite(d, p0, p, x, r, id)
    requires Present(Effect(p, Prepare(x, r).call, id).schema, o) && !Present(p.schema, o)
    ensures o == MainObject(x)
  {
    hide WellFormed, AttributesOk, Grows, Truthful, PlatformOk, Accepts, WithOption, ActionSafe, Present;
    var attributeId := OptionCall(p0, p.schema, x, r);
    NewOptionAdds(p, x.attribute, attributeId, x.option, id, o);
  }

  lemma AttributeAddsMain(d: Desired, p0: Current, p: Platform, x: Action, r: Resolved, id: Id, o: Object)
    requires WellFormed(d) && x.CreateAttribute? && MayWrite(d, p0, p, x, r, id) && !o.BindingObject?
    requires Present(Effect(p, Prepare(x, r).call, id).schema, o) && !Present(p.schema, o)
    ensures o == MainObject(x)
  {
    var a :| a in d.attributes && x == CreateOf(a);
    hide Truthful, CreateOf;
    assert WellFormedAttribute(d, a);
    var ids, target, display := CreateCall(d, p.schema, a, r);
    hide Prepare;
    NewAttributeAdds(p, a.slug, a.kind, ids, target, id, o);
  }

  /** Once the first action is done the rest is still missing. */
  lemma RestMissing(d: Desired, p0: Current, p: Platform, rem: seq<Action>, r: Resolved, id: Id)
    requires WellFormed(d) && rem != [] && NoRepeats(rem) && Missing(p.schema, rem)
    requires MayWrite(d, p0, p, rem[0], r, id)
    ensures Missing(Effect(p, Prepare(rem[0], r).call, id).schema, rem[1..])
  {
    assert Prepare(rem[0], r).Send?;
    hide WellFormed, MayWrite, Effect, Prepare, Present;
    RestOf(rem);
    var cur' := Effect(p, Prepare(rem[0], r).call, id).schema;
    forall x | x in rem[1..] && !x.BindAttribute? ensures !Present(cur', MainObject(x)) {
      if Present(cur', MainObject(x)) { WriteAddsMain(d, p0, p, rem[0], r, id, MainObject(x)); }
    }
  }

  lemma AcceptedThrives(d: Desired, delays: nat, history: seq<Platform>, h: Host, t: Tick)
    requires WellFormed(d) && history != [] && HistoryOk(d, history) && h.Applying? && t.write.Accepted?
    requires var p := history[|history| - 1];
             HostOk(d, history[0].schema, p.schema, h) && Thriving(p.schema, h) && Accepts(p, NextCall(h), t.write.id)
    ensures var p := history[|history| - 1];
            Thriving(Effect(p, NextCall(h), t.write.id).schema, Receive(d, delays, h, t))
  {
    hide WellFormed, HistoryOk, Accepts, Effect, NextCall, Missing, Truthful, OldMatch, ActionsSafe, BoundOrPending,
         Prepare, MayWrite, Advance, Covered, NoRepeats, Phased, AllAsked, DoneKnown, Untouched;
    var p0, p := history[0].schema, history[|history| - 1];
    var rem, log := h.remaining, h.log;
    HostMayWrite(d, history, p0, p, h);
    RestMissing(d, p0, p, rem, log.resolved, t.write.id);
    ReceiveKeeps(d, delays, h, t);
    var next := Performed(rem[0], log, t.write.id).(verifyDue := log.verifyDue || rem[0].BindAttribute?);
    NotStuck(d, Effect(p, NextCall(h), t.write.id).schema, rem[1..], next);
  }

  /** The read that ends a run with binds shows everything there, so the run ends. */
  lemma VerifiedThrives(d: Desired, p0: Current, cur: Current, log: Log)
    requires WellFormed(d) && DistinctIds(cur) && log.rereads == 0 && AttributesOk(d, p0, cur)
    requires HostOk(d, p0, cur, VerifyRead(log)) && OptionInv(d, VerifyRead(log))
    ensures StartVerifying(d, cur, log).Succeeded?
  {
    hide DiffPlan, Merged, ResolvedFrom, DistinctIds;
    AllThere(d, p0, cur, log);
    PlanEmptyExactly(d, cur);
  }

  lemma AllThere(d: Desired, p0: Current, cur: Current, log: Log)
    requires WellFormed(d) && log.rereads == 0 && AttributesOk(d, p0, cur)
    requires HostOk(d, p0, cur, VerifyRead(log)) && OptionInv(d, VerifyRead(log))
    ensures Satisfies(d, cur)
  {
    hide WellFormed, AttributesOk, OldMatch, BoundOrPending, AllKnown, DoneKnown, Truthful, AttributeSafe;
    SucceededConverged(d, p0, cur, Succeeded(log));
    forall o | Wants(d, o) ensures Present(cur, o) {
      if o.OptionObject? {
        var a :| a in d.attributes && a.slug == o.attribute && o.value in a.options;
        OptionThere(d, a, o.value, log, cur);
      }
    }
  }

  lemma OptionThere(d: Desired, a: DesiredAttribute, v: string, log: Log, cur: Current)
    requires OptionInv(d, VerifyRead(log)) && log.rereads == 0 && a in d.attributes && v in a.options
    requires Truthful(log.resolved, cur)
    ensures Present(cur, OptionObject(a.slug, v))
  {
    assert AttributeSafe(a, VerifyRead(log));
    NoneSkipped(d, VerifyRead(log), a.slug);
    assert OptionKnown(log.resolved, a.slug, v);
  }

  // ------------------------------------------------------------------ steps

  lemma BeginsAlone(d: Desired, delays: nat, f: Fleet, l: Label, f': Fleet)
    requires WellFormed(d) && AloneInv(d, delays, f) && AloneStep(d, delays, f, l, f') && l.Begins?
    requires FleetInv(d, f')
    ensures AloneInv(d, delays, f')
  {
    hide WellFormed, Start, FleetInv, OptionInv, Thriving, InBounds, ConflictFree;
    var cur := Now(f).schema;
    NowDistinct(d, f);
    StartThrives(d, cur);
    StartOptions(d, cur);
    StartFuel(d, delays, cur);
  }

  lemma NowDistinct(d: Desired, f: Fleet)
    requires WellFormed(d) && FleetInv(d, f)
    ensures f.history != [] && HistoryOk(d, f.history) && DistinctIds(Now(f).schema)
    ensures AttributesOk(d, f.history[0].schema, Now(f).schema) && Grows(f.history[0].schema, Now(f).schema)
    ensures forall i :: 0 <= i < |f.members| && f.members[i].Running? ==>
              HostOk(d, f.history[0].schema, Now(f).schema, f.members[i].host)
  {
    hide WellFormed, HostOk, AttributesOk, Grows, DistinctIds;
    assert PlatformOk(Now(f));
  }

  lemma ReadsAlone(d: Desired, delays: nat, f: Fleet, l: Label, f': Fleet)
    requires WellFormed(d) && AloneInv(d, delays, f) && AloneStep(d, delays, f, l, f') && l.Reads?
    requires FleetInv(d, f')
    ensures AloneInv(d, delays, f')
  {
    hide WellFormed, FleetInv, OptionInv, InBounds, StartVerifying, HostOk, HostInv, HistoryOk;
    var h, cur := f.members[0].host, Now(f).schema;
    NowDistinct(d, f);
    CarriesOn(d, delays, f, l.tick);
    assert HostOk(d, f.history[0].schema, cur, f.members[0].host);
    assert h.VerifyRead? by { ReadersOf(cur, h); }
    VerifiedThrives(d, f.history[0].schema, cur, h.log);
    VerifyingLog(d, cur, h.log);
  }

  lemma ReadersOf(cur: Current, h: Host)
    requires Thriving(cur, h) && NextCall(h) == ReadSchema
    ensures h.VerifyRead?
  {
  }

  lemma VerifyingLog(d: Desired, cur: Current, log: Log)
    ensures StartVerifying(d, cur, log).log.rereads == log.rereads
  {
    hide DiffPlan, Merged, ResolvedFrom, NotYetDone, Prepare;
  }

  /** The invariants of any run carry on. */
  lemma CarriesOn(d: Desired, delays: nat, f: Fleet, t: Tick)
    requires WellFormed(d) && AloneInv(d, delays, f) && f.members[0].Running?
    ensures OptionInv(d, Receive(d, delays, f.members[0].host, t))
    ensures InBounds(delays, Receive(d, delays, f.members[0].host, t))
  {
    hide WellFormed, FleetInv, OptionInv, InBounds, Receive, HostInv, Thriving, Cost, WritesLeft, ReadsLeft;
    MemberInv(d, f, 0);
    ReceiveOptions(d, delays, f.members[0].host, t);
    StepFuel(d, delays, f.members[0].host, t);
  }

  /** The lone host's next request, whatever fresh id the platform would give. */
  lemma AloneAccepted(d: Desired, delays: nat, f: Fleet, id: Id)
    requires WellFormed(d) && AloneInv(d, delays, f) && f.members[0].Running? && FreshId(Now(f), id)
    requires NextCall(f.members[0].host) != NoCall && NextCall(f.members[0].host) != ReadSchema
    ensures f.members[0].host.Applying? && Accepts(Now(f), NextCall(f.members[0].host), id)
  {
    hide WellFormed, FleetInv, OptionInv, InBounds, FreshId, Accepts, HostOk, AttributesOk, Grows;
    NowDistinct(d, f);
    WritersOf(Now(f).schema, f.members[0].host);
    WriteAccepted(d, f.history[0].schema, Now(f), f.members[0].host, id);
  }

  lemma WritersOf(cur: Current, h: Host)
    requires Thriving(cur, h) && NextCall(h) != NoCall && NextCall(h) != ReadSchema
    ensures h.Applying? && Missing(cur, h.remaining)
  {
  }

  lemma WritesAlone(d: Desired, delays: nat, f: Fleet, l: Label, f': Fleet)
    requires WellFormed(d) && AloneInv(d, delays, f) && AloneStep(d, delays, f, l, f') && l.Writes?
    requires FleetInv(d, f')
    ensures AloneInv(d, delays, f')
  {
    hide WellFormed, FleetInv, OptionInv, InBounds, Accepts, Effect, HostOk, HistoryOk, Receive, NextCall, Thriving;
    var id := SomeFreshId(Now(f));
    AloneAccepted(d, delays, f, id);
    NowDistinct(d, f);
    CarriesOn(d, delays, f, l.tick);
    AcceptedThrives(d, delays, f.history, f.members[0].host, l.tick);
  }

  lemma AloneKeeps(d: Desired, delays: nat, f: Fleet, l: Label, f': Fleet)
    requires WellFormed(d) && AloneInv(d, delays, f) && AloneStep(d, delays, f, l, f')
    ensures AloneInv(d, delays, f')
  {
    hide WellFormed, AloneInv, AloneStep;
    StepKeepsFleet(d, delays, f, l, f');
    match l {
      case Begins(_, _) => BeginsAlone(d, delays, f, l, f');
      case Reads(_, _, _) => ReadsAlone(d, delays, f, l, f');
      case Writes(_, _, _) => WritesAlone(d, delays, f, l, f');
    }
  }

  lemma StepKeepsFleet(d: Desired, delays: nat, f: Fleet, l: Label, f': Fleet)
    requires WellFormed(d) && AloneInv(d, delays, f) && AloneStep(d, delays, f, l, f')
    ensures FleetInv(d, f') && !l.Others?
  {
    hide WellFormed, FleetInv, Next;
    NextKeeps(d, delays, f, l, f');
  }

  lemma {:induction false} AloneRunKeeps(d: Desired, delays: nat, states: seq<Fleet>, labels: seq<Label>, k: nat)
    requires WellFormed(d) && AloneRun(d, delays, states, labels) && k < |states|
    requires ConflictFree(d, Now(states[0]).schema)
    ensures AloneInv(d, delays, states[k])
  {
    hide WellFormed, AloneStep, AloneInv, ConflictFree;
    if k == 0 {
      FirstAlone(d, delays, states[0]);
    } else {
      AloneRunKeeps(d, delays, states, labels, k - 1);
      AloneKeeps(d, delays, states[k - 1], labels[k - 1], states[k]);
    }
  }

  lemma FirstAlone(d: Desired, delays: nat, f: Fleet)
    requires WellFormed(d) && Init(f) && |f.members| == 1 && ConflictFree(d, Now(f).schema)
    ensures AloneInv(d, delays, f)
  {
    hide WellFormed, FleetInv, ConflictFree;
    InitOk(d, f);
    assert f.members[0] in f.members;
  }

  // --------------------------------------------------------- how long it takes

  function StepsLeft(d: Desired, delays: nat, m: Member): nat {
    match m
    case Waiting => CallBound(d, delays) + 1
    case Running(_, h) => CallsLeft(d, delays, h)
  }

  lemma StepsDrop(d: Desired, delays: nat, f: Fleet, l: Label, f': Fleet)
    requires WellFormed(d) && AloneInv(d, delays, f) && AloneStep(d, delays, f, l, f')
    ensures |f'.members| == 1
    ensures StepsLeft(d, delays, f'.members[0]) < StepsLeft(d, delays, f.members[0])
  {
    hide WellFormed, FleetInv, OptionInv, InBounds, HostInv, Thriving, CallsLeft, CallBound, Receive, Start, Answers;
    match l {
      case Begins(_, seen) => StartUses(d, delays, f.history[seen].schema);
      case Reads(_, _, t) =>
        MemberInv(d, f, 0);
        StepUses(d, delays, f.members[0].host, t);
      case Writes(_, t, _) =>
        MemberInv(d, f, 0);
        StepUses(d, delays, f.members[0].host, t);
      case Others(_) =>
    }
  }

  lemma {:induction false} AloneRunUses(d: Desired, delays: nat, states: seq<Fleet>, labels: seq<Label>, k: nat)
    requires WellFormed(d) && AloneRun(d, delays, states, labels) && k < |states|
    requires ConflictFree(d, Now(states[0]).schema)
    ensures |states[k].members| == 1 && k + StepsLeft(d, delays, states[k].members[0]) <= CallBound(d, delays) + 1
  {
    hide WellFormed, AloneStep, AloneInv, ConflictFree, CallsLeft, CallBound;
    if k == 0 {
      assert states[0].members[0] in states[0].members;
    } else {
      AloneRunUses(d, delays, states, labels, k - 1);
      AloneRunKeeps(d, delays, states, labels, k - 1);
      StepsDrop(d, delays, states[k - 1], labels[k - 1], states[k]);
    }
  }

  // -------------------------------------------------------------- theorems

  /** At every point of a run by itself, the platform can accept what the host
      asks for, with any id it has not used. */
  lemma EveryRequestAcceptable(d: Desired, delays: nat, states: seq<Fleet>, labels: seq<Label>, k: nat, id: Id)
    requires WellFormed(d) && AloneRun(d, delays, states, labels) && k < |states|
    requires ConflictFree(d, Now(states[0]).schema)
    requires states[k].members != [] && states[k].members[0].Running?
    requires NextCall(states[k].members[0].host) != NoCall && NextCall(states[k].members[0].host) != ReadSchema
    ensures states[k].history != []
    ensures FreshId(Now(states[k]), id) ==> Accepts(Now(states[k]), NextCall(states[k].members[0].host), id)
  {
    hide WellFormed, AloneRun, AloneInv, ConflictFree, FreshId, Accepts;
    AloneRunKeeps(d, delays, states, labels, k);
    HasHistory(d, delays, states[k]);
    if FreshId(Now(states[k]), id) { AloneAccepted(d, delays, states[k], id); }
  }

  lemma HasHistory(d: Desired, delays: nat, f: Fleet)
    requires WellFormed(d) && AloneInv(d, delays, f)
    ensures f.history != [] && |f.members| == 1
  {
    hide WellFormed, FleetInv;
    NowDistinct(d, f);
  }

  /** The host reported success without ever being refused. */
  predicate Finished(f: Fleet) {
    |f.members| == 1 && f.members[0].Running? && f.members[0].host.Succeeded? && f.members[0].host.log.rereads == 0
  }

  /** Until it has finished, a run by itself goes on. */
  lemma GoesOn(d: Desired, delays: nat, f: Fleet) returns (l: Label, f': Fleet)
    requires WellFormed(d) && AloneInv(d, delays, f) && !Finished(f)
    ensures AloneStep(d, delays, f, l, f')
  {
    hide WellFormed, FleetInv, OptionInv, InBounds, Start, Receive, Accepts, Effect, HistoryOk, HostOk, FreshId;
    NowDistinct(d, f);
    var last := |f.history| - 1;
    if f.members[0].Waiting? {
      l := Begins(0, last);
      f' := f.(members := f.members[0 := Running(last, Start(d, f.history[last].schema))]);
    } else {
      var h := f.members[0].host;
      MemberInv(d, f, 0);
      Since(d, f);
      if h.VerifyRead? {
        var t := Tick(Refused, Shown(Now(f).schema), true);
        l := Reads(0, last, t);
        f' := f.(members := f.members[0 := Running(f.members[0].since, Receive(d, delays, h, t))]);
      } else {
        ApplyingCalls(d, h);
        var id := SomeFreshId(Now(f));
        AloneAccepted(d, delays, f, id);
        var t := Tick(Accepted(id), ReadFailed, true);
        var after := Effect(Now(f), NextCall(h), id);
        l := Writes(0, t, after);
        f' := Fleet(f.history + [after], f.members[0 := Running(f.members[0].since, Receive(d, delays, h, t))]);
      }
    }
  }

  lemma ApplyingCalls(d: Desired, h: Host)
    requires HostInv(d, h) && h.Applying?
    ensures NextCall(h) != NoCall && NextCall(h) != ReadSchema
  {
  }

  lemma Since(d: Desired, f: Fleet)
    requires WellFormed(d) && FleetInv(d, f)
    ensures forall i :: 0 <= i < |f.members| && f.members[i].Running? ==> f.members[i].since < |f.history|
  {
    hide WellFormed, HistoryOk, HostOk;
  }

  lemma FinishedStops(d: Desired, delays: nat, f: Fleet, l: Label, f': Fleet)
    requires Finished(f)
    ensures !AloneStep(d, delays, f, l, f')
  {
    hide Start, Receive, Answers, OthersAdd, Accepts;
  }

  /** The least extension. On a project without conflicts a host by itself, on a
      platform that refuses only what it cannot accept, takes boundedly many steps;
      it can take no more if and only if it has succeeded, never refused; and then
      the project holds exactly what it held before and what is desired. */
  lemma LeastExtension(d: Desired, delays: nat, states: seq<Fleet>, labels: seq<Label>, o: Object)
    requires WellFormed(d) && AloneRun(d, delays, states, labels) && ConflictFree(d, Now(states[0]).schema)
    ensures |labels| <= CallBound(d, delays) + 1
    ensures Finished(states[|labels|]) <==> forall l, f :: !AloneStep(d, delays, states[|labels|], l, f)
    ensures Finished(states[|labels|]) ==>
              && states[|labels|].history != []
              && Satisfies(d, Now(states[|labels|]).schema)
              && (Present(Now(states[|labels|]).schema, o) <==> Present(Now(states[0]).schema, o) || Wants(d, o))
  {
    hide WellFormed, AloneInv, AloneStep, ConflictFree, Satisfies, CallBound, StepsLeft, Behavior, Present, Wants;
    var n := |labels|;
    AloneRunUses(d, delays, states, labels, n);
    AloneRunKeeps(d, delays, states, labels, n);
    if Finished(states[n]) {
      forall l, f ensures !AloneStep(d, delays, states[n], l, f) { FinishedStops(d, delays, states[n], l, f); }
      AloneIsFleet(d, delays, states, labels);
      UnrefusedSuccessSatisfies(d, delays, states, labels, n, 0);
      UnrefusedSuccessExtends(d, delays, states, labels, n, 0, o);
    } else {
      var l, f := GoesOn(d, delays, states[n]);
    }
  }

  /** And such a run exists from every project without conflicts: nothing above is
      about runs that cannot happen. */
  lemma {:induction false} RunToSuccess(d: Desired, delays: nat, states: seq<Fleet>, labels: seq<Label>)
    returns (states': seq<Fleet>, labels': seq<Label>)
    requires WellFormed(d) && AloneRun(d, delays, states, labels) && ConflictFree(d, Now(states[0]).schema)
    ensures AloneRun(d, delays, states', labels') && states <= states' && labels <= labels'
    ensures Finished(states'[|labels'|])
    decreases CallBound(d, delays) + 1 - |labels|
  {
    hide WellFormed, AloneInv, AloneStep, ConflictFree, CallBound, StepsLeft, Init;
    states', labels' := states, labels;
    var n := |labels|;
    AloneRunUses(d, delays, states, labels, n);
    AloneRunKeeps(d, delays, states, labels, n);
    if !Finished(states[n]) {
      var l, f := GoesOn(d, delays, states[n]);
      Lengthened(d, delays, states, labels, l, f);
      AloneRunUses(d, delays, states + [f], labels + [l], n + 1);
      states', labels' := RunToSuccess(d, delays, states + [f], labels + [l]);
    }
  }

  lemma Lengthened(d: Desired, delays: nat, states: seq<Fleet>, labels: seq<Label>, l: Label, f: Fleet)
    requires AloneRun(d, delays, states, labels) && AloneStep(d, delays, states[|labels|], l, f)
    ensures AloneRun(d, delays, states + [f], labels + [l])
  {
    hide AloneStep, Init;
    var ss, ls := states + [f], labels + [l];
    forall k | 0 <= k < |ls| ensures AloneStep(d, delays, ss[k], ls[k], ss[k + 1]) {
      if k < |labels| { assert ss[k] == states[k] && ss[k + 1] == states[k + 1] && ls[k] == labels[k]; }
    }
  }
}
