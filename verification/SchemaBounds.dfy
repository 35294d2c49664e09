/** How much one run can ask of the platform: FR-024's re-reads bound the calls. */
module SchemaBounds {
  import opened Ordering
  import opened Schema
  import opened SchemaPlan
  import opened SchemaHost
  import opened SchemaHostLaws

  /** The most actions attributes can need: each its creation or its bind, and its options. */
  function Weight(attrs: seq<DesiredAttribute>): nat {
    if attrs == [] then 0 else Weight(attrs[..|attrs| - 1]) + 1 + |attrs[|attrs| - 1].options|
  }

  function MaxPlan(d: Desired): nat {
    |d.templates| + Weight(d.attributes)
  }

  lemma {:induction false} WeightInsert(s: seq<DesiredAttribute>, x: DesiredAttribute)
    ensures Weight(Insert(s, x, AttributeLe)) == Weight(s) + 1 + |x.options|
  {
    if s == [] || AttributeLe(s[|s| - 1], x) {
      assert (s + [x])[..|s|] == s;
    } else {
      var init := Insert(s[..|s| - 1], x, AttributeLe);
      WeightInsert(s[..|s| - 1], x);
      assert (init + [s[|s| - 1]])[..|init|] == init;
    }
  }

  lemma {:induction false} WeightSort(s: seq<DesiredAttribute>)
    ensures Weight(Sort(s, AttributeLe)) == Weight(s)
  {
    if s != [] {
      WeightSort(s[..|s| - 1]);
      WeightInsert(Sort(s[..|s| - 1], AttributeLe), s[|s| - 1]);
    }
  }

  lemma {:induction false} GatherSize<A, B>(s: seq<A>, f: A -> seq<B>)
    requires forall i :: 0 <= i < |s| ==> |f(s[i])| <= 1
    ensures |Gather(s, f)| <= |s|
  {
    if s != [] { GatherSize(s[..|s| - 1], f); }
  }

  lemma OptionsSize(cur: Current, a: DesiredAttribute)
    ensures |OptionAdds(cur)(a)| <= |a.options|
  {
    GatherSize(a.options, OptionAdd(cur, a));
  }

  lemma BindsSize(cur: Current, a: DesiredAttribute)
    requires |a.templates| == 1
    ensures |BindAdds(cur)(a)| <= if a.slug in cur.attributes then 1 else 0
  {
    if a.slug in cur.attributes { GatherSize(a.templates, BindAdd(cur, a.slug, cur.attributes[a.slug])); }
  }

  lemma ContributionSize(d: Desired, cur: Current, a: DesiredAttribute)
    requires WellFormedAttribute(d, a)
    ensures |AttributeCreates(cur)(a)| + |ReferenceCreates(cur)(a)| + |OptionAdds(cur)(a)| + |BindAdds(cur)(a)|
            <= 1 + |a.options|
  {
    hide OptionAdds, BindAdds, CreateOf;
    OptionsSize(cur, a);
    BindsSize(cur, a);
  }

  lemma {:induction false} AttributesSize(d: Desired, cur: Current, attrs: seq<DesiredAttribute>)
    requires forall a :: a in attrs ==> WellFormedAttribute(d, a)
    ensures |Gather(attrs, AttributeCreates(cur))| + |Gather(attrs, ReferenceCreates(cur))| +
            |Gather(attrs, OptionAdds(cur))| + |Gather(attrs, BindAdds(cur))| <= Weight(attrs)
  {
    hide AttributeCreates, ReferenceCreates, OptionAdds, BindAdds, WellFormedAttribute;
    if attrs != [] {
      var n := |attrs| - 1;
      AttributesSize(d, cur, attrs[..n]);
      ContributionSize(d, cur, attrs[n]);
    }
  }

  lemma PlanSize(d: Desired, cur: Current)
    requires WellFormed(d)
    ensures |DiffPlan(d, cur).actions| <= MaxPlan(d)
  {
    hide DiffPlan, AttributeCreates, ReferenceCreates, OptionAdds, BindAdds;
    var g0, g1, g2, g3, g4 := PlanGroups(d, cur);
    GatherSize(Sort(d.templates, TemplateLe), TemplateCreates(cur));
    AttributesSize(d, cur, Sort(d.attributes, AttributeLe));
    WeightSort(d.attributes);
  }

  lemma {:induction false} FilterSize(actions: seq<Action>, done: seq<ActionResult>)
    ensures |NotYetDone(actions, done)| <= |actions|
  {
    hide Did;
    GatherSize(actions, Keep(done));
  }

  // ---------------------------------------------------------------- fuel

  function Rounds(log: Log): nat {
    if log.rereads <= MAX_REREADS then MAX_REREADS - log.rereads else 0
  }

  /** Writes a run may still make, m bounding every plan. */
  function WritesLeft(m: nat, h: Host): nat {
    match h
    case Applying(rem, log) => |rem| + Rounds(log) * m + m
    case Rereading(_, _, log) => m + Rounds(log) * m + m
    case VerifyRead(_) => m
    case Verifying(rem, _) => |rem|
    case _ => 0
  }

  /** Reads a run may still make. */
  function ReadsLeft(delays: nat, h: Host): nat {
    match h
    case Applying(_, log) => Rounds(log) * (delays + 1) + 1
    case Rereading(_, tries, log) =>
      (if tries <= delays then delays + 1 - tries else 0) + Rounds(log) * (delays + 1) + 1
    case VerifyRead(_) => 1
    case _ => 0
  }

  ghost predicate InBounds(delays: nat, h: Host) {
    && h.log.rereads <= MAX_REREADS
    && (h.Rereading? ==> h.tries <= delays)
  }

  function Cost(call: Call): (nat, nat) {
    match call
    case NoCall => (0, 0)
    case ReadSchema => (0, 1)
    case _ => (1, 0)
  }

  lemma AdvanceFuel(m: nat, delays: nat, h: Host)
    ensures WritesLeft(m, Advance(h)) <= WritesLeft(m, h) && ReadsLeft(delays, Advance(h)) <= ReadsLeft(delays, h)
    ensures InBounds(delays, h) ==> InBounds(delays, Advance(h))
  {
    hide Prepare;
  }

  ghost predicate Fuelled(d: Desired, delays: nat, h: Host, t: Tick) {
    var h' := Receive(d, delays, h, t);
    && InBounds(delays, h')
    && WritesLeft(MaxPlan(d), h') + Cost(NextCall(h)).0 <= WritesLeft(MaxPlan(d), h)
    && ReadsLeft(delays, h') + Cost(NextCall(h)).1 <= ReadsLeft(delays, h)
  }

  lemma WriteCosts(h: Host)
    requires h.Applying? || h.Verifying?
    ensures Cost(NextCall(h)).1 == 0 && Cost(NextCall(h)).0 <= if h.remaining == [] then 0 else 1
  {}

  lemma ApplyingFuel(d: Desired, delays: nat, h: Host, t: Tick)
    requires WellFormed(d) && InBounds(delays, h) && h.Applying?
    ensures Fuelled(d, delays, h, t)
  {
    hide DiffPlan, Advance, MaxPlan, NotYetDone, Merged, ResolvedFrom, Learn, Exists, WellFormed, Prepare, NextCall;
    var m, rem, log := MaxPlan(d), h.remaining, h.log;
    WriteCosts(h);
    if rem != [] {
      if t.write.Accepted? {
        var next := Performed(rem[0], log, t.write.id).(verifyDue := log.verifyDue || rem[0].BindAttribute?);
        AdvanceFuel(m, delays, Applying(rem[1..], next));
      } else if t.write.Refused? && log.rereads < MAX_REREADS {
        assert Rounds(log) * m == (Rounds(log) - 1) * m + m;
        assert Rounds(log) * (delays + 1) == (Rounds(log) - 1) * (delays + 1) + (delays + 1);
      }
    }
  }

  lemma RereadingFuel(d: Desired, delays: nat, h: Host, t: Tick)
    requires WellFormed(d) && InBounds(delays, h) && h.Rereading?
    ensures Fuelled(d, delays, h, t)
  {
    hide DiffPlan, Advance, MaxPlan, NotYetDone, Merged, ResolvedFrom, Exists, WellFormed;
    if t.read.Shown? && Exists(t.read.cur, h.action) {
      var plan := DiffPlan(d, t.read.cur);
      var merged := h.log.(done := h.log.done + [ActionResult(h.action, true)],
                           resolved := Merged(ResolvedFrom(t.read.cur), h.log.resolved));
      PlanSize(d, t.read.cur);
      FilterSize(plan.actions, merged.done);
      AdvanceFuel(MaxPlan(d), delays, Applying(NotYetDone(plan.actions, merged.done), merged));
    }
  }

  lemma VerifyReadFuel(d: Desired, delays: nat, h: Host, t: Tick)
    requires WellFormed(d) && InBounds(delays, h) && h.VerifyRead?
    ensures Fuelled(d, delays, h, t)
  {
    hide DiffPlan, Advance, MaxPlan, NotYetDone, Merged, ResolvedFrom, WellFormed;
    if t.read.Shown? {
      var plan := DiffPlan(d, t.read.cur);
      var merged := h.log.(resolved := Merged(ResolvedFrom(t.read.cur), h.log.resolved));
      PlanSize(d, t.read.cur);
      FilterSize(plan.actions, merged.done);
      AdvanceFuel(MaxPlan(d), delays, Verifying(NotYetDone(plan.actions, merged.done), merged));
    }
  }

  lemma VerifyingFuel(d: Desired, delays: nat, h: Host, t: Tick)
    requires WellFormed(d) && InBounds(delays, h) && h.Verifying?
    ensures Fuelled(d, delays, h, t)
  {
    hide DiffPlan, Advance, MaxPlan, NotYetDone, Merged, ResolvedFrom, Learn, Exists, WellFormed, Prepare, NextCall;
    var m, rem, log := MaxPlan(d), h.remaining, h.log;
    WriteCosts(h);
    if rem != [] && t.write.Accepted? {
      AdvanceFuel(m, delays, Verifying(rem[1..], Performed(rem[0], log, t.write.id)));
    } else if rem != [] && t.write.Refused? {
      AdvanceFuel(m, delays, Verifying(rem[1..], log.(done := log.done + [ActionResult(rem[0], false)])));
    }
  }

  lemma StepFuel(d: Desired, delays: nat, h: Host, t: Tick)
    requires WellFormed(d) && InBounds(delays, h)
    ensures Fuelled(d, delays, h, t)
  {
    hide MaxPlan, WellFormed, Advance, DiffPlan, Prepare, Learn;
    if h.Applying? {
      ApplyingFuel(d, delays, h, t);
    } else if h.Rereading? {
      RereadingFuel(d, delays, h, t);
    } else if h.VerifyRead? {
      VerifyReadFuel(d, delays, h, t);
    } else if h.Verifying? {
      VerifyingFuel(d, delays, h, t);
    }
  }

  function WriteCount(calls: seq<Call>): nat {
    if calls == [] then 0 else WriteCount(calls[..|calls| - 1]) + Cost(calls[|calls| - 1]).0
  }

  function ReadCount(calls: seq<Call>): nat {
    if calls == [] then 0 else ReadCount(calls[..|calls| - 1]) + Cost(calls[|calls| - 1]).1
  }

  lemma StartFuel(d: Desired, delays: nat, cur: Current)
    requires WellFormed(d)
    ensures var h := Start(d, cur);
            && InBounds(delays, h)
            && WritesLeft(MaxPlan(d), h) <= (MAX_REREADS + 2) * MaxPlan(d)
            && ReadsLeft(delays, h) <= MAX_REREADS * (delays + 1) + 1
  {
    hide DiffPlan, Advance, MaxPlan, ResolvedFrom;
    PlanSize(d, cur);
    AdvanceFuel(MaxPlan(d), delays, Applying(DiffPlan(d, cur).actions, Log([], 0, ResolvedFrom(cur), false)));
  }

  lemma {:induction false} RunFuel(d: Desired, delays: nat, cur: Current, script: nat -> Tick, n: nat)
    requires WellFormed(d)
    ensures var h, calls := Run(d, delays, Start(d, cur), script, 0, n), Sent(d, delays, Start(d, cur), script, 0, n);
            && InBounds(delays, h)
            && WriteCount(calls) + WritesLeft(MaxPlan(d), h) <= (MAX_REREADS + 2) * MaxPlan(d)
            && ReadCount(calls) + ReadsLeft(delays, h) <= MAX_REREADS * (delays + 1) + 1
  {
    hide WellFormed, Start, Receive, InBounds, WritesLeft, ReadsLeft, NextCall, MaxPlan, Cost;
    if n == 0 {
      StartFuel(d, delays, cur);
    } else {
      RunFuel(d, delays, cur, script, n - 1);
      var h := Run(d, delays, Start(d, cur), script, 0, n - 1);
      StepFuel(d, delays, h, script(n - 1));
      var before := Sent(d, delays, Start(d, cur), script, 0, n - 1);
      assert (before + [NextCall(h)])[..|before|] == before;
    }
  }

  /** Whatever the platform answers, one run makes at most seven plans' worth of
      writes, and at most five settled re-reads and one verification read. */
  lemma CallsAreBounded(d: Desired, delays: nat, cur: Current, script: nat -> Tick, n: nat)
    requires WellFormed(d)
    ensures WriteCount(Sent(d, delays, Start(d, cur), script, 0, n)) <= (MAX_REREADS + 2) * MaxPlan(d)
    ensures ReadCount(Sent(d, delays, Start(d, cur), script, 0, n)) <= MAX_REREADS * (delays + 1) + 1
  {
    RunFuel(d, delays, cur, script, n);
  }
}
