/** Every run of apply ends, and one that is never refused and never fails ends in
    success (internal/schema/apply.go). */
module SchemaTermination {
  import opened Schema
  import opened SchemaPlan
  import opened SchemaHost
  import opened SchemaRuns
  import opened SchemaBounds

  predicate Over(h: Host) { h.Succeeded? || h.Stopped? }

  /** A bound on the calls a run makes. */
  function CallBound(d: Desired, delays: nat): nat {
    (MAX_REREADS + 2) * MaxPlan(d) + MAX_REREADS * (delays + 1) + 1
  }

  function CallsLeft(d: Desired, delays: nat, h: Host): nat {
    WritesLeft(MaxPlan(d), h) + ReadsLeft(delays, h)
  }

  /** A run that is not over makes a call, and each call uses up what is left. */
  lemma StepUses(d: Desired, delays: nat, h: Host, t: Tick)
    requires WellFormed(d) && HostInv(d, h) && InBounds(delays, h)
    ensures !Over(h) ==> CallsLeft(d, delays, Receive(d, delays, h, t)) < CallsLeft(d, delays, h)
    ensures Over(h) ==> Receive(d, delays, h, t) == h
  {
    hide WellFormed, Receive, MaxPlan, WritesLeft, ReadsLeft;
    StepFuel(d, delays, h, t);
    if Over(h) {
      OverStays(d, delays, h, t);
    } else {
      SomeCall(d, h);
    }
  }

  lemma OverStays(d: Desired, delays: nat, h: Host, t: Tick)
    requires Over(h)
    ensures Receive(d, delays, h, t) == h
  {}

  lemma SomeCall(d: Desired, h: Host)
    requires HostInv(d, h) && !Over(h)
    ensures Cost(NextCall(h)).0 + Cost(NextCall(h)).1 >= 1
  {}

  /** Whatever the platform answers, a run is over once it has had that many answers. */
  lemma EveryRunEnds(d: Desired, delays: nat, cur: Current, script: nat -> Tick, n: nat)
    requires WellFormed(d) && n >= CallBound(d, delays)
    ensures Over(Run(d, delays, Start(d, cur), script, 0, n))
  {
    hide Start, Receive, WellFormed, MaxPlan, CallsLeft, CallBound, HostInv, InBounds;
    RunUses(d, delays, cur, script, n);
    var h := Run(d, delays, Start(d, cur), script, 0, n);
    RunKeeps(d, delays, cur, script, n);
    RunFuel(d, delays, cur, script, n);
    StepUses(d, delays, h, script(n));
  }

  lemma {:induction false} RunUses(d: Desired, delays: nat, cur: Current, script: nat -> Tick, n: nat)
    requires WellFormed(d)
    ensures var h := Run(d, delays, Start(d, cur), script, 0, n);
            Over(h) || n + CallsLeft(d, delays, h) <= CallBound(d, delays)
  {
    hide Start, Receive, WellFormed, MaxPlan, CallsLeft, HostInv, InBounds;
    if n == 0 {
      StartUses(d, delays, cur);
    } else {
      RunUses(d, delays, cur, script, n - 1);
      RunKeeps(d, delays, cur, script, n - 1);
      RunFuel(d, delays, cur, script, n - 1);
      StepUses(d, delays, Run(d, delays, Start(d, cur), script, 0, n - 1), script(n - 1));
    }
  }

  lemma StartUses(d: Desired, delays: nat, cur: Current)
    requires WellFormed(d)
    ensures CallsLeft(d, delays, Start(d, cur)) <= CallBound(d, delays)
  {
    hide Start, WellFormed, MaxPlan, WritesLeft, ReadsLeft;
    StartFuel(d, delays, cur);
  }

  /** Every write is accepted and every read answered. */
  ghost predicate Smooth(script: nat -> Tick) {
    forall k: nat :: script(k).write.Accepted? && script(k).read.Shown?
  }

  ghost predicate Unrefused(h: Host) { !h.Stopped? && !h.Rereading? && h.log.rereads == 0 }

  lemma AdvanceUnrefused(h: Host)
    requires (h.Applying? || h.Verifying?) && h.log.rereads == 0
    ensures Unrefused(Advance(h)) || (Advance(h).Stopped? && Advance(h).why.OrderViolated?)
  {
    hide Prepare;
  }

  lemma NoOrderViolation(d: Desired, h: Host)
    requires HostInv(d, h)
    ensures !(h.Stopped? && h.why.OrderViolated?)
  {}

  lemma SmoothStep(d: Desired, delays: nat, h: Host, t: Tick)
    requires WellFormed(d) && HostInv(d, h) && Unrefused(h) && t.write.Accepted? && t.read.Shown?
    ensures Unrefused(Receive(d, delays, h, t))
  {
    hide WellFormed, DiffPlan, Merged, ResolvedFrom, NotYetDone, Learn, HostInv, Advance;
    ReceiveKeeps(d, delays, h, t);
    NoOrderViolation(d, Receive(d, delays, h, t));
    if h.Applying? && h.remaining != [] {
      var next := Performed(h.remaining[0], h.log, t.write.id);
      AdvanceUnrefused(Applying(h.remaining[1..],
                                next.(verifyDue := h.log.verifyDue || h.remaining[0].BindAttribute?)));
    } else if h.VerifyRead? {
      var merged := h.log.(resolved := Merged(ResolvedFrom(t.read.cur), h.log.resolved));
      AdvanceUnrefused(Verifying(NotYetDone(DiffPlan(d, t.read.cur).actions, merged.done), merged));
    } else if h.Verifying? && h.remaining != [] {
      AdvanceUnrefused(Verifying(h.remaining[1..], Performed(h.remaining[0], h.log, t.write.id)));
    }
  }

  lemma SmoothStart(d: Desired, cur: Current)
    requires WellFormed(d) && ConflictFree(d, cur)
    ensures Unrefused(Start(d, cur))
  {
    hide WellFormed, DiffPlan, ResolvedFrom, HostInv, Advance, ConflictFree;
    StartKeeps(d, cur);
    ConflictsExact(d, cur);
    NoOrderViolation(d, Start(d, cur));
    AdvanceUnrefused(Applying(DiffPlan(d, cur).actions, Log([], 0, ResolvedFrom(cur), false)));
  }

  lemma {:induction false} SmoothRun(d: Desired, delays: nat, cur: Current, script: nat -> Tick, n: nat)
    requires WellFormed(d) && ConflictFree(d, cur) && Smooth(script)
    ensures Unrefused(Run(d, delays, Start(d, cur), script, 0, n))
  {
    hide WellFormed, ConflictFree, Start, Receive, HostInv, Unrefused;
    if n == 0 {
      SmoothStart(d, cur);
    } else {
      SmoothRun(d, delays, cur, script, n - 1);
      RunKeeps(d, delays, cur, script, n - 1);
      assert script(n - 1).write.Accepted?;
      SmoothStep(d, delays, Run(d, delays, Start(d, cur), script, 0, n - 1), script(n - 1));
    }
  }

  /** On a project without conflicts, a run whose writes are all accepted and whose
      reads are all answered succeeds, without a refusal, within the bound. */
  lemma SmoothRunsSucceed(d: Desired, delays: nat, cur: Current, script: nat -> Tick, n: nat)
    requires WellFormed(d) && ConflictFree(d, cur) && Smooth(script) && n >= CallBound(d, delays)
    ensures var h := Run(d, delays, Start(d, cur), script, 0, n); h.Succeeded? && h.log.rereads == 0
  {
    hide WellFormed, ConflictFree, Run, Smooth, CallBound;
    SmoothRun(d, delays, cur, script, n);
    EveryRunEnds(d, delays, cur, script, n);
  }
}
