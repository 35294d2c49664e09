/** What a fleet leaves behind: what was there and what is desired, nothing else,
    options included. And what a bind costs templates omnistat cannot see. */
module SchemaExtension {
  import opened Schema
  import opened SchemaPlan
  import opened SchemaHost
  import opened SchemaRuns
  import opened SchemaOptions
  import opened SchemaFleet
  import opened SchemaFleetSafety
  import opened SchemaFleetTheorems

  // ------------------------------------------------ writes add only desired

  lemma NewTemplateAdds(p: Platform, slug: string, id: Id, o: Object)
    requires Accepts(p, NewTemplate(slug), id)
    requires Present(Effect(p, NewTemplate(slug), id).schema, o) && !Present(p.schema, o)
    ensures o == TemplateObject(slug)
  {
  }

  lemma NewOptionAdds(p: Platform, slug: string, attributeId: Id, value: string, id: Id, o: Object)
    requires PlatformOk(p) && HasId(p, slug, attributeId)
    requires Present(WithOption(p.schema, attributeId, value, id), o) && !Present(p.schema, o)
    ensures o == OptionObject(slug, value)
  {
  }

  lemma NewAttributeAdds(p: Platform, slug: string, kind: Kind, ids: seq<Id>, target: Option<Id>, id: Id, o: Object)
    requires slug !in p.schema.attributes && FreshId(p, id)
    requires Present(WithAttribute(p.schema, slug, kind, ids, target, id), o) && !Present(p.schema, o)
    ensures o == AttributeObject(slug) ||
            (o.BindingObject? && o.attribute == slug && o.template in p.schema.templates &&
             p.schema.templates[o.template].id in ids)
  {
  }

  lemma BindAdds(p: Platform, slug: string, attributeId: Id, ids: set<Id>, o: Object)
    requires PlatformOk(p) && HasId(p, slug, attributeId)
    requires Present(WithBindings(p.schema, attributeId, ids), o) && !Present(p.schema, o)
    ensures o.BindingObject? && o.attribute == slug && o.template in p.schema.templates &&
        p.schema.templates[o.template].id in ids
  {
  }

  /** What an accepted write of a host adds is desired. */
  lemma WriteAddsDesired(d: Desired, p0: Current, p: Platform, x: Action, r: Resolved, id: Id, o: Object)
    requires WellFormed(d) && MayWrite(d, p0, p, x, r, id)
    requires Present(Effect(p, Prepare(x, r).call, id).schema, o) && !Present(p.schema, o)
    ensures Wants(d, o)
  {
    match x {
      case CreateTemplate(t) => NewTemplateAdds(p, t, id, o);
      case CreateAttribute(_, _, _, _, _) => AttributeAddsDesired(d, p0, p, x, r, id, o);
      case AddListOption(s, _, v) =>
        var attributeId := OptionCall(p0, p.schema, x, r);
        NewOptionAdds(p, s, attributeId, v, id, o);
      case BindAttribute(_, _, _, _) => BindAddsDesired(d, p0, p, x, r, id, o);
    }
  }

  lemma AttributeAddsDesired(d: Desired, p0: Current, p: Platform, x: Action, r: Resolved, id: Id, o: Object)
    requires WellFormed(d) && x.CreateAttribute? && MayWrite(d, p0, p, x, r, id)
    requires Present(Effect(p, Prepare(x, r).call, id).schema, o) && !Present(p.schema, o)
    ensures Wants(d, o)
  {
    var a :| a in d.attributes && x == CreateOf(a);
    hide Truthful, CreateOf;
    assert WellFormedAttribute(d, a);
    var ids, target, display := CreateCall(d, p.schema, a, r);
    hide Prepare;
    NewAttributeAdds(p, a.slug, a.kind, ids, target, id, o);
    if o.BindingObject? {
      assert o.template == TemplateOf(a);
    }
  }

  lemma BindAddsDesired(d: Desired, p0: Current, p: Platform, x: Action, r: Resolved, id: Id, o: Object)
    requires WellFormed(d) && x.BindAttribute? && MayWrite(d, p0, p, x, r, id)
    requires Present(Effect(p, Prepare(x, r).call, id).schema, o) && !Present(p.schema, o)
    ensures Wants(d, o)
  {
    var ids := x.templateIds + {r.templates[x.template]};
    BindAdds(p, x.attribute, x.boundId, ids, o);
    BaseGrows(p0, p.schema, x.attribute);
    BoundExactly(p.schema, o.attribute, o.template);
    assert p.schema.templates[o.template].id !in Base(p0, x.attribute);
    assert o.template == x.template;
  }

  /** A host about to write may write: its request was prepared from what is so. */
  lemma HostMayWrite(d: Desired, history: seq<Platform>, p0: Current, p: Platform, h: Host)
    requires WellFormed(d) && HistoryOk(d, history) && p0 == history[0].schema && p == history[|history| - 1]
    requires HostOk(d, p0, p.schema, h) && RemainingIs(h) != []
    ensures Prepare(RemainingIs(h)[0], h.log.resolved).Send?
    ensures NextCall(h) == Prepare(RemainingIs(h)[0], h.log.resolved).call
    ensures forall id :: Accepts(p, NextCall(h), id) ==> MayWrite(d, p0, p, RemainingIs(h)[0], h.log.resolved, id)
  {
    hide WellFormed, BoundOrPending, AttributesOk, Truthful, ActionSafe, Accepts, Prepare, Grows, PlatformOk;
    var x := RemainingIs(h)[0];
    assert Asked(d, x) && ActionSafe(p0, p.schema, x);
  }

  /** Only a write that was carried out changes the project. */
  lemma AnswerAddsDesired(d: Desired, history: seq<Platform>, p': Platform, h: Host, reply: WriteReply, o: Object)
    requires WellFormed(d) && history != [] && HistoryOk(d, history) && RemainingIs(h) != []
    requires HostOk(d, history[0].schema, history[|history| - 1].schema, h)
    requires Answers(history[|history| - 1], NextCall(h), reply, p')
    requires Present(p'.schema, o) && !Present(history[|history| - 1].schema, o)
    ensures Wants(d, o)
  {
    hide WellFormed, Wants, Present, HistoryOk, HostOk, Accepts, Effect, NextCall;
    var p0, p := history[0].schema, history[|history| - 1];
    HostMayWrite(d, history, p0, p, h);
    var x, r := RemainingIs(h)[0], h.log.resolved;
    var id :| Accepts(p, NextCall(h), id) && p' == Effect(p, NextCall(h), id);
    WriteAddsDesired(d, p0, p, x, r, id, o);
  }

  lemma StepAddsDesired(d: Desired, delays: nat, f: Fleet, l: Label, f': Fleet, o: Object)
    requires WellFormed(d) && FleetInv(d, f) && Next(d, delays, f, l, f') && !l.Others?
    requires Present(Now(f').schema, o) && !Present(Now(f).schema, o)
    ensures Wants(d, o)
  {
    hide WellFormed, Start, Receive, Wants, Present, Answers, HistoryOk, HostOk, NextCall;
    if l.Writes? {
      var h := f.members[l.i].host;
      assert Now(f') == l.after;
      WriterIsReady(d, f, l.i);
      AnswerAddsDesired(d, f.history, l.after, h, l.tick.write, o);
    }
  }

  lemma WriterIsReady(d: Desired, f: Fleet, i: nat)
    requires WellFormed(d) && FleetInv(d, f) && i < |f.members| && f.members[i].Running?
    requires NextCall(f.members[i].host) != ReadSchema && NextCall(f.members[i].host) != NoCall
    ensures f.history != [] && HistoryOk(d, f.history) && RemainingIs(f.members[i].host) != []
    ensures HostOk(d, f.history[0].schema, Now(f).schema, f.members[i].host)
  {
    hide WellFormed, HistoryOk, NextCall, HostInv, Truthful, OldMatch, ActionsSafe, BoundOrPending;
    assert HostOk(d, f.history[0].schema, Now(f).schema, f.members[i].host);
    CallMeansRemaining(d, f.members[i].host);
  }

  /** With nobody else at work, everything the project holds was there before
      the fleet started or is desired. */
  lemma {:induction false} FleetAddsOnlyDesired(
      d: Desired, delays: nat, states: seq<Fleet>, labels: seq<Label>, k: nat, o: Object)
    requires WellFormed(d) && Behavior(d, delays, states, labels) && k < |states|
    requires forall j :: 0 <= j < k ==> !labels[j].Others?
    ensures states[0].history != [] && states[k].history != []
    ensures Present(Now(states[k]).schema, o) ==> Present(Now(states[0]).schema, o) || Wants(d, o)
  {
    hide WellFormed, Next, Init, Wants, Present, HostOk, HistoryOk;
    BehaviorKeeps(d, delays, states, labels, k);
    InvHistory(d, states[k]);
    BehaviorKeeps(d, delays, states, labels, 0);
    InvHistory(d, states[0]);
    if k > 0 {
      FleetAddsOnlyDesired(d, delays, states, labels, k - 1, o);
      BehaviorKeeps(d, delays, states, labels, k - 1);
      if Present(Now(states[k]).schema, o) && !Present(Now(states[k - 1]).schema, o) {
        StepAddsDesired(d, delays, states[k - 1], labels[k - 1], states[k], o);
      }
    }
  }

  lemma InvHistory(d: Desired, f: Fleet)
    requires WellFormed(d) && FleetInv(d, f)
    ensures f.history != []
  {
  }

  // ------------------------------------------------------------- options

  lemma NobodyRunsYet(f: Fleet)
    requires Init(f)
    ensures forall i :: 0 <= i < |f.members| ==> f.members[i].Waiting?
  {
    forall i | 0 <= i < |f.members| ensures f.members[i].Waiting? {
      assert f.members[i] in f.members;
    }
  }

  lemma {:induction false} MembersOptions(
      d: Desired, delays: nat, states: seq<Fleet>, labels: seq<Label>, k: nat, i: nat)
    requires WellFormed(d) && Behavior(d, delays, states, labels) && k < |states|
    requires i < |states[k].members| && states[k].members[i].Running?
    ensures OptionInv(d, states[k].members[i].host)
  {
    hide WellFormed, Start, Receive, OptionInv, NextCall, Answers, OthersAdd, FleetInv, HostInv;
    NobodyRunsYet(states[0]);
    if k > 0 {
      var f, l := states[k - 1], labels[k - 1];
      var moved := (l.Begins? || l.Reads? || l.Writes?) && l.i == i;
      if moved && l.Begins? {
        StartOptions(d, f.history[l.seen].schema);
      } else {
        assert f.members[i].Running?;
        MembersOptions(d, delays, states, labels, k - 1, i);
        BehaviorKeeps(d, delays, states, labels, k - 1);
        MemberInv(d, f, i);
        if moved { ReceiveOptions(d, delays, f.members[i].host, l.tick); }
      }
    }
  }

  lemma MemberInv(d: Desired, f: Fleet, i: nat)
    requires WellFormed(d) && FleetInv(d, f) && i < |f.members| && f.members[i].Running?
    ensures HostInv(d, f.members[i].host)
  {
    hide WellFormed, HistoryOk, HostInv, Truthful, OldMatch, ActionsSafe, BoundOrPending;
    assert HostOk(d, f.history[0].schema, Now(f).schema, f.members[i].host);
  }

  /** In a fleet, whatever was refused, a host's success leaves every option of an
      attribute on the platform, unless the host found one of that very attribute
      already there. */
  lemma SuccessHasOptions(d: Desired, delays: nat, states: seq<Fleet>, labels: seq<Label>, k: nat, i: nat,
                          a: DesiredAttribute)
    requires WellFormed(d) && Behavior(d, delays, states, labels) && k < |states| && a in d.attributes
    requires i < |states[k].members| && states[k].members[i].Running? && states[k].members[i].host.Succeeded?
    requires !SkippedOption(states[k].members[i].host.log.done, a.slug)
    ensures states[k].history != []
    ensures forall v :: v in a.options ==> Present(Now(states[k]).schema, OptionObject(a.slug, v))
  {
    hide WellFormed, Behavior, AllKnown, SkippedOption, Converged;
    SuccessMeansConverged(d, delays, states, labels, k, i);
    MembersOptions(d, delays, states, labels, k, i);
    assert AttributeSafe(a, states[k].members[i].host);
    var r, cur := states[k].members[i].host.log.resolved, Now(states[k]).schema;
    forall v | v in a.options ensures Present(cur, OptionObject(a.slug, v)) {
      assert OptionKnown(r, a.slug, v);
    }
  }

  lemma NoneSkipped(d: Desired, h: Host, slug: string)
    requires OptionInv(d, h) && h.log.rereads == 0
    ensures !SkippedOption(h.log.done, slug)
  {
  }

  /** A host that succeeds without a refusal leaves the project satisfying the
      desired schema in full, options included. */
  lemma UnrefusedSuccessSatisfies(d: Desired, delays: nat, states: seq<Fleet>, labels: seq<Label>, k: nat, i: nat)
    requires WellFormed(d) && Behavior(d, delays, states, labels) && k < |states|
    requires i < |states[k].members| && states[k].members[i].Running?
    requires states[k].members[i].host.Succeeded? && states[k].members[i].host.log.rereads == 0
    ensures states[k].history != [] && Satisfies(d, Now(states[k]).schema)
  {
    hide WellFormed, Behavior, Truthful, AllKnown, OptionInv;
    SuccessMeansConverged(d, delays, states, labels, k, i);
    MembersOptions(d, delays, states, labels, k, i);
    var cur := Now(states[k]).schema;
    forall o | Wants(d, o) ensures Present(cur, o) {
      if o.OptionObject? {
        var a :| a in d.attributes && a.slug == o.attribute && o.value in a.options;
        NoneSkipped(d, states[k].members[i].host, a.slug);
        SuccessHasOptions(d, delays, states, labels, k, i, a);
      }
    }
  }

  /** When a host has succeeded without a refusal and only the fleet was at work,
      the project holds exactly what it held before and what is desired. */
  lemma UnrefusedSuccessExtends(d: Desired, delays: nat, states: seq<Fleet>, labels: seq<Label>, k: nat, i: nat,
                                o: Object)
    requires WellFormed(d) && Behavior(d, delays, states, labels) && k < |states|
    requires forall j :: 0 <= j < k ==> !labels[j].Others?
    requires i < |states[k].members| && states[k].members[i].Running?
    requires states[k].members[i].host.Succeeded? && states[k].members[i].host.log.rereads == 0
    ensures states[0].history != [] && states[k].history != []
    ensures Present(Now(states[k]).schema, o) <==> Present(Now(states[0]).schema, o) || Wants(d, o)
  {
    hide WellFormed, Behavior, Grows, Wants, Present;
    FleetAddsOnlyDesired(d, delays, states, labels, k, o);
    UnrefusedSuccessSatisfies(d, delays, states, labels, k, i);
    FleetIsAdditive(d, delays, states, labels, 0, k);
    if Present(Now(states[0]).schema, o) { PresentStays(Now(states[0]).schema, Now(states[k]).schema, o); }
  }

  lemma PresentStays(c: Current, c': Current, o: Object)
    requires Grows(c, c') && Present(c, o)
    ensures Present(c', o)
  {
  }

  // ------------------------------------------------------ hidden templates

  lemma HiddenAfterBind(p: Platform, p': Platform, a: Id, ids: set<Id>)
    requires exists id :: p' == Effect(p, SetBindings(a, ids), id)
    requires forall h :: h in p.hidden ==> h !in ids
    ensures p'.hidden.Keys == p.hidden.Keys && forall h :: h in p.hidden ==> p'.hidden[h] == p.hidden[h] - {a}
  {}

  /** Templates without a slug are invisible, so the ids a host sends never name
      one: a bind takes the attribute away from every hidden template. It leaves
      the hidden templates alone exactly when none of them held the attribute. */
  lemma BindKeepsHiddenExactly(d: Desired, p0: Current, p: Platform, x: Action, r: Resolved, id: Id)
    requires WellFormed(d) && x.BindAttribute? && MayWrite(d, p0, p, x, r, id)
    requires forall s :: s in p.schema.templates ==> p.schema.templates[s].id !in p.hidden
    ensures Effect(p, Prepare(x, r).call, id).hidden == p.hidden <==>
            forall h :: h in p.hidden ==> x.boundId !in p.hidden[h]
  {
    hide WellFormed, DiffPlan;
    var ids, p' := x.templateIds + {r.templates[x.template]}, Effect(p, Prepare(x, r).call, id);
    BaseGrows(p0, p.schema, x.attribute);
    forall h | h in p.hidden ensures h !in ids {
      assert h !in BoundTo(p.schema, x.boundId);
    }
    HiddenAfterBind(p, p', x.boundId, ids);
    if h :| h in p.hidden && x.boundId in p.hidden[h] {
      assert p'.hidden[h] != p.hidden[h];
    } else {
      assert forall h :: h in p.hidden ==> p'.hidden[h] == p.hidden[h];
      assert p'.hidden == p.hidden;
    }
  }
}
