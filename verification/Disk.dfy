/** The disk module's baseline and counter deltas (internal/module/disk/io.go).
    Values are the increases before they are scaled to rates. */
module Disk {
  import opened Schema

  datatype Counter = ReadBytes | WriteBytes | ReadOps | WriteOps

  const COUNTERS: seq<Counter> := [ReadBytes, WriteBytes, ReadOps, WriteOps]

  /** The cumulative counters of one device. */
  datatype Counters = Counters(readBytes: nat, writeBytes: nat, readOps: nat, writeOps: nat, busyMillis: nat)

  function Get(c: Counters, which: Counter): nat {
    match which
    case ReadBytes => c.readBytes
    case WriteBytes => c.writeBytes
    case ReadOps => c.readOps
    case WriteOps => c.writeOps
  }

  datatype Reading = Reading(at: int, dev: map<string, Counters>)

  /** What the host answers to one collection: the first read, whether there was time
      for the prime pause and it was slept through, and the read after it. */
  datatype Answers = Answers(read: Option<Reading>, canPrime: bool, slept: bool, next: Option<Reading>)

  datatype IoError = ReadFailed | NoDevices

  /** The increases of an interval; a counter that went backwards has none. */
  datatype Rates = Rates(elapsed: int, deltas: map<Counter, nat>, busiest: Option<nat>)

  function Common(prev: Reading, cur: Reading): set<string> {
    set n | n in cur.dev && n in prev.dev
  }

  predicate Forward(prev: Reading, cur: Reading, which: Counter) {
    forall n :: n in Common(prev, cur) ==> Get(prev.dev[n], which) <= Get(cur.dev[n], which)
  }

  /** The sum of f over a set. */
  ghost function Sum(s: set<string>, f: string -> nat): nat
    decreases |s|
  {
    if s == {} then 0
    else
      var x :| x in s;
      f(x) + Sum(s - {x}, f)
  }

  lemma {:induction false} SumTakesAny(s: set<string>, f: string -> nat, x: string)
    requires x in s
    ensures Sum(s, f) == f(x) + Sum(s - {x}, f)
    decreases |s|
  {
    var y :| y in s && Sum(s, f) == f(y) + Sum(s - {y}, f);
    if y != x {
      SumTakesAny(s - {y}, f, x);
      SumTakesAny(s - {x}, f, y);
      assert s - {y} - {x} == s - {x} - {y};
    }
  }

  function At(r: Reading, which: Counter): string -> nat {
    (n: string) => if n in r.dev then Get(r.dev[n], which) else 0
  }

  /** One counter's increase over the devices in both readings. */
  ghost function Delta(prev: Reading, cur: Reading, which: Counter): int {
    Sum(Common(prev, cur), At(cur, which)) - Sum(Common(prev, cur), At(prev, which))
  }

  predicate BusyForward(prev: Reading, cur: Reading) {
    forall n :: n in Common(prev, cur) ==> prev.dev[n].busyMillis <= cur.dev[n].busyMillis
  }

  /** The increase of the busiest device. */
  ghost predicate Busiest(prev: Reading, cur: Reading, busiest: nat) {
    && (forall n :: n in Common(prev, cur) ==> cur.dev[n].busyMillis - prev.dev[n].busyMillis <= busiest)
    && (busiest == 0 || exists n :: n in Common(prev, cur) && cur.dev[n].busyMillis - prev.dev[n].busyMillis == busiest)
  }

  method DeltaOf(prev: Reading, cur: Reading, which: Counter) returns (delta: Option<nat>)
    ensures delta.Some? <==> Forward(prev, cur, which)
    ensures delta.Some? ==> delta.value == Delta(prev, cur, which)
  {
    var common := Common(prev, cur);
    var rest, sum := common, 0;
    while rest != {}
      invariant rest <= common && sum >= 0
      invariant forall n :: n in common - rest ==> Get(prev.dev[n], which) <= Get(cur.dev[n], which)
      invariant Sum(common, At(cur, which)) - Sum(common, At(prev, which)) ==
                sum + Sum(rest, At(cur, which)) - Sum(rest, At(prev, which))
    {
      var n :| n in rest;
      var p, c := Get(prev.dev[n], which), Get(cur.dev[n], which);
      if c < p {
        return None;
      }
      SumTakesAny(rest, At(cur, which), n);
      SumTakesAny(rest, At(prev, which), n);
      sum := sum + (c - p);
      rest := rest - {n};
    }
    delta := Some(sum);
  }

  method BusiestOf(prev: Reading, cur: Reading) returns (busiest: Option<nat>)
    ensures busiest.Some? <==> BusyForward(prev, cur)
    ensures busiest.Some? ==> Busiest(prev, cur, busiest.value)
  {
    var common := Common(prev, cur);
    var rest := common;
    var most: nat := 0;
    while rest != {}
      invariant rest <= common
      invariant forall n :: n in common - rest ==> 0 <= cur.dev[n].busyMillis - prev.dev[n].busyMillis <= most
      invariant most == 0 || exists n :: n in common && cur.dev[n].busyMillis - prev.dev[n].busyMillis == most
    {
      var n :| n in rest;
      var p, c := prev.dev[n].busyMillis, cur.dev[n].busyMillis;
      if c < p {
        return None;
      }
      if c - p > most {
        most := c - p;
      }
      rest := rest - {n};
    }
    busiest := Some(most);
  }

  /** What an interval yields: an error without a common device, nothing when no time
      passed, else the increase of every counter that did not go backwards. */
  ghost predicate Yields(prev: Reading, cur: Reading, withBusy: bool, rates: Option<Rates>, error: Option<IoError>) {
    if Common(prev, cur) == {} then rates == None && error == Some(NoDevices)
    else if cur.at <= prev.at then rates == None && error == None
    else
      && error == None && rates.Some? && rates.value.elapsed == cur.at - prev.at
      && (forall which :: which in rates.value.deltas <==> Forward(prev, cur, which))
      && (forall which :: which in rates.value.deltas ==> rates.value.deltas[which] == Delta(prev, cur, which))
      && (rates.value.busiest.Some? <==> withBusy && BusyForward(prev, cur))
      && (rates.value.busiest.Some? ==> Busiest(prev, cur, rates.value.busiest.value))
  }

  method RatesOf(prev: Reading, cur: Reading, withBusy: bool) returns (rates: Option<Rates>, error: Option<IoError>)
    ensures Yields(prev, cur, withBusy, rates, error)
  {
    hide Forward, Delta, Busiest, BusyForward;
    if Common(prev, cur) == {} {
      return None, Some(NoDevices);
    }
    if cur.at <= prev.at {
      return None, None;
    }
    var deltas: map<Counter, nat> := map[];
    for i := 0 to |COUNTERS|
      invariant forall which :: which in deltas <==> which in COUNTERS[..i] && Forward(prev, cur, which)
      invariant forall which :: which in deltas ==> deltas[which] == Delta(prev, cur, which)
    {
      var delta := DeltaOf(prev, cur, COUNTERS[i]);
      assert COUNTERS[..i + 1] == COUNTERS[..i] + [COUNTERS[i]];
      if delta.Some? {
        deltas := deltas[COUNTERS[i] := delta.value];
      }
    }
    assert forall which: Counter :: which in COUNTERS[..|COUNTERS|] by { AllCounters(); }
    var busiest: Option<nat> := None;
    if withBusy {
      busiest := BusiestOf(prev, cur);
    }
    rates, error := Some(Rates(cur.at - prev.at, deltas, busiest)), None;
  }

  lemma AllCounters()
    ensures forall which: Counter :: which in COUNTERS[..|COUNTERS|]
  {
    forall which: Counter ensures which in COUNTERS[..|COUNTERS|] {
      match which {
        case ReadBytes => assert COUNTERS[..4][0] == which;
        case WriteBytes => assert COUNTERS[..4][1] == which;
        case ReadOps => assert COUNTERS[..4][2] == which;
        case WriteOps => assert COUNTERS[..4][3] == which;
      }
    }
  }

  /** The reading a collection retains. */
  function Retained(last: Option<Reading>, a: Answers): Option<Reading> {
    if a.read.None? then last
    else if last.Some? then a.read
    else if a.canPrime && a.slept && a.next.Some? then a.next
    else a.read
  }

  /** The interval a collection reports on: from the retained reading, or across the
      prime pause of the first one. */
  function Interval(last: Option<Reading>, a: Answers): Option<(Reading, Reading)> {
    if a.read.None? then None
    else if last.Some? then Some((last.value, a.read.value))
    else if a.canPrime && a.slept && a.next.Some? then Some((a.read.value, a.next.value))
    else None
  }

  class Module {
    var last: Option<Reading>

    constructor ()
      ensures last == None
    {
      last := None;
    }

    /** One collection. A failed read leaves the baseline untouched; on every other
        path it is assigned exactly once. */
    method Io(a: Answers, withBusy: bool) returns (rates: Option<Rates>, error: Option<IoError>)
      modifies this
      ensures last == Retained(old(last), a)
      ensures a.read.None? ==> rates == None && error == Some(ReadFailed)
      ensures a.read.Some? && Interval(old(last), a).None? ==> rates == None && error == None
      ensures Interval(old(last), a).Some? ==>
                Yields(Interval(old(last), a).value.0, Interval(old(last), a).value.1, withBusy, rates, error)
    {
      if a.read.None? {
        return None, Some(ReadFailed);
      }
      var cur := a.read.value;
      if last.Some? {
        var prev := last.value;
        last := Some(cur);
        rates, error := RatesOf(prev, cur, withBusy);
        return;
      }
      if !a.canPrime || !a.slept || a.next.None? {
        last := Some(cur);
        return None, None;
      }
      last := a.next;
      rates, error := RatesOf(cur, a.next.value, withBusy);
    }
  }

  // ------------------------------------------------------------- telescoping

  /** The baseline after n collections. */
  function After(runs: seq<Answers>, n: nat): Option<Reading>
    requires n <= |runs|
  {
    if n == 0 then None else Retained(After(runs, n - 1), runs[n - 1])
  }

  function IntervalAt(runs: seq<Answers>, n: nat): Option<(Reading, Reading)>
    requires n < |runs|
  {
    Interval(After(runs, n), runs[n])
  }

  /** What n collections report of a counter in all, counting the devices in d. */
  ghost function Reported(runs: seq<Answers>, n: nat, d: set<string>, which: Counter): int
    requires n <= |runs|
  {
    if n == 0 then 0
    else
      Reported(runs, n - 1, d, which) +
      match IntervalAt(runs, n - 1)
      case None => 0
      case Some((prev, cur)) => Sum(d, At(cur, which)) - Sum(d, At(prev, which))
  }

  /** The first reading that entered an interval or became the baseline. */
  function First(runs: seq<Answers>, n: nat): Option<Reading>
    requires n <= |runs|
  {
    if n == 0 then None
    else if First(runs, n - 1).Some? then First(runs, n - 1)
    else runs[n - 1].read
  }

  /** Whichever reads fail in between, and whether or not the first collection could
      prime, the increases of any devices telescope: what was reported in all is the
      last reading less the first. Nothing is counted twice, nothing is lost. */
  lemma {:induction false} ReportsTelescope(runs: seq<Answers>, n: nat, d: set<string>, which: Counter)
    requires n <= |runs|
    ensures First(runs, n).Some? <==> After(runs, n).Some?
    ensures Reported(runs, n, d, which) ==
            if After(runs, n).None? then 0
            else Sum(d, At(After(runs, n).value, which)) - Sum(d, At(First(runs, n).value, which))
  {
    if n > 0 { ReportsTelescope(runs, n - 1, d, which); }
  }

  /** No clock stands still, no counter goes backwards, and every reading has the
      devices d and no others. */
  predicate Steady(runs: seq<Answers>, n: nat, d: set<string>, which: Counter)
    requires n <= |runs|
  {
    forall k :: 0 <= k < n && IntervalAt(runs, k).Some? ==>
      var (prev, cur) := IntervalAt(runs, k).value;
      prev.at < cur.at && prev.dev.Keys == d && cur.dev.Keys == d && Forward(prev, cur, which)
  }

  /** On steady readings what Reported adds up is what the collections published. */
  lemma PublishedIsReported(prev: Reading, cur: Reading, d: set<string>, which: Counter, withBusy: bool,
                            rates: Option<Rates>, error: Option<IoError>)
    requires d != {} && prev.dev.Keys == d && cur.dev.Keys == d && prev.at < cur.at && Forward(prev, cur, which)
    requires Yields(prev, cur, withBusy, rates, error)
    ensures rates.Some? && which in rates.value.deltas
    ensures rates.value.deltas[which] == Sum(d, At(cur, which)) - Sum(d, At(prev, which))
  {
    assert Common(prev, cur) == d;
  }

  /** The sum of everything published. */
  ghost function Published(outs: seq<Option<Rates>>, which: Counter): nat {
    if outs == [] then 0
    else
      var out := outs[|outs| - 1];
      Published(outs[..|outs| - 1], which) +
      if out.Some? && which in out.value.deltas then out.value.deltas[which] else 0
  }

  /** outs are what the collections of a run returned. */
  ghost predicate Outputs(runs: seq<Answers>, outs: seq<Option<Rates>>, withBusy: bool) {
    |outs| == |runs| && forall k :: 0 <= k < |runs| ==>
      match IntervalAt(runs, k)
      case None => outs[k] == None
      case Some((prev, cur)) =>
        Yields(prev, cur, withBusy, outs[k], None) || Yields(prev, cur, withBusy, outs[k], Some(NoDevices))
  }

  /** Over any run of collections on a steady set of devices, whichever reads failed:
      the published increases sum to the last reading less the first. */
  lemma PublishedTelescopes(runs: seq<Answers>, outs: seq<Option<Rates>>, n: nat, d: set<string>, which: Counter,
                            withBusy: bool)
    requires n <= |runs| && Outputs(runs, outs, withBusy) && d != {} && Steady(runs, n, d, which)
    ensures First(runs, n).Some? <==> After(runs, n).Some?
    ensures Published(outs[..n], which) ==
            if After(runs, n).None? then 0
            else Sum(d, At(After(runs, n).value, which)) - Sum(d, At(First(runs, n).value, which))
  {
    PublishedAre(runs, outs, n, d, which, withBusy);
    ReportsTelescope(runs, n, d, which);
  }

  lemma {:induction false} PublishedAre(runs: seq<Answers>, outs: seq<Option<Rates>>, n: nat, d: set<string>,
                                        which: Counter, withBusy: bool)
    requires n <= |runs| && Outputs(runs, outs, withBusy) && d != {} && Steady(runs, n, d, which)
    ensures Published(outs[..n], which) == Reported(runs, n, d, which)
  {
    hide Yields, After, Sum, Forward, Interval;
    if n > 0 {
      PublishedAre(runs, outs, n - 1, d, which, withBusy);
      assert outs[..n][..n - 1] == outs[..n - 1];
      if IntervalAt(runs, n - 1).Some? {
        var (prev, cur) := IntervalAt(runs, n - 1).value;
        var error := if Yields(prev, cur, withBusy, outs[n - 1], None) then None else Some(NoDevices);
        PublishedIsReported(prev, cur, d, which, withBusy, outs[n - 1], error);
      }
    }
  }
}
