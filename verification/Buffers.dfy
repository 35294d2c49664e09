/** The host's buffer plus one per module-owned entity (internal/collect/buffers.go). */
module Buffers {
  import opened Ordering
  import opened Samples
  import opened Buffer

  const MAX_KEYS_PER_MODULE: nat := 256

  /** Every entity's buffer as a value; keys counts the entities of each module. */
  datatype Many = Many(max: nat, host: State, targets: map<Target, State>, keys: map<string, nat>)

  function Fresh(max: nat): State { State(max, map[], map[], map[]) }

  /** Routing: the host's samples to the host, an entity's to its own buffer, which
      a module may have so many of; a sample beyond that is dropped. */
  function Routed(b: Many, s: Sample): Many {
    if s.target == HOST then b.(host := Added(b.host, s))
    else if s.target in b.targets then b.(targets := b.targets[s.target := Added(b.targets[s.target], s)])
    else if CountOf(b.keys, s.target.owner) >= MAX_KEYS_PER_MODULE then b
    else b.(targets := b.targets[s.target := Added(Fresh(b.max), s)],
            keys := b.keys[s.target.owner := CountOf(b.keys, s.target.owner) + 1])
  }

  function RoutedAll(b: Many, samples: seq<Sample>): Many {
    if samples == [] then b else Routed(RoutedAll(b, samples[..|samples| - 1]), samples[|samples| - 1])
  }

  function EmptyMany(max: nat): Many { Many(max, Fresh(max), map[], map[]) }

  /** Every sample a buffer holds is its entity's own. */
  predicate HoldsOnly(b: State, t: Target) {
    && (forall slug :: slug in b.dims ==> b.dims[slug].target == t)
    && (forall slug, s :: slug in b.metrics && s in b.metrics[slug].items ==> s.target == t)
  }

  function Of(b: Many, owner: string): set<Target> {
    set t | t in b.targets && t.owner == owner
  }

  ghost predicate Routes(b: Many) {
    && HoldsOnly(b.host, HOST) && HOST !in b.targets
    && (forall t :: t in b.targets ==> HoldsOnly(b.targets[t], t))
    && (forall owner :: CountOf(b.keys, owner) == |Of(b, owner)| <= MAX_KEYS_PER_MODULE)
  }

  lemma AddedHolds(b: State, s: Sample, t: Target)
    requires HoldsOnly(b, t) && s.target == t
    ensures HoldsOnly(Added(b, s), t)
  {
    if s.IsMetric() {
      var q := QueueOf(b, s.slug);
      forall x | x in Pushed(q, s, b.max).items ensures x.target == t {
        if x != s { assert x in q.items; }
      }
    }
  }

  lemma RouteKeeps(b: Many, s: Sample)
    requires Routes(b)
    ensures Routes(Routed(b, s))
  {
    hide Added, HoldsOnly;
    FreshHolds(b.max, s.target);
    if s.target == HOST {
      AddedHolds(b.host, s, HOST);
      SameOf(b, Routed(b, s));
    } else if s.target in b.targets {
      AddedHolds(b.targets[s.target], s, s.target);
      SameOf(b, Routed(b, s));
    } else if CountOf(b.keys, s.target.owner) < MAX_KEYS_PER_MODULE {
      AddedHolds(Fresh(b.max), s, s.target);
      OneMore(b, Routed(b, s), s.target);
    }
  }

  lemma SameOf(b: Many, b': Many)
    requires b.targets.Keys == b'.targets.Keys
    ensures forall owner :: Of(b', owner) == Of(b, owner)
  {
    forall owner ensures Of(b', owner) == Of(b, owner) {
      assert forall t :: t in b.targets <==> t in b'.targets;
    }
  }

  lemma OneMore(b: Many, b': Many, t: Target)
    requires t !in b.targets && b'.targets.Keys == b.targets.Keys + {t}
    ensures forall owner :: |Of(b', owner)| == |Of(b, owner)| + if owner == t.owner then 1 else 0
  {
    forall owner ensures |Of(b', owner)| == |Of(b, owner)| + if owner == t.owner then 1 else 0 {
      assert forall u :: u in b'.targets <==> u in b.targets || u == t;
      assert Of(b', owner) == if owner == t.owner then Of(b, owner) + {t} else Of(b, owner);
    }
  }

  lemma FreshHolds(max: nat, t: Target)
    ensures HoldsOnly(Fresh(max), t)
  {}

  /** Over every run: each buffered sample is in exactly its entity's buffer, the
      counter of a module is the number of its entities, and never exceeds the cap. */
  lemma {:induction false} RunsRoute(max: nat, samples: seq<Sample>)
    ensures Routes(RoutedAll(EmptyMany(max), samples))
  {
    hide Routed, HoldsOnly, Routes;
    if samples == [] {
      EmptyRoutes(max);
    } else {
      RunsRoute(max, samples[..|samples| - 1]);
      RouteKeeps(RoutedAll(EmptyMany(max), samples[..|samples| - 1]), samples[|samples| - 1]);
    }
  }

  lemma EmptyRoutes(max: nat)
    ensures Routes(EmptyMany(max))
  {
    forall owner ensures Of(EmptyMany(max), owner) == {} {}
  }

  function AddedAll(b: State, samples: seq<Sample>): State {
    if samples == [] then b else Added(AddedAll(b, samples[..|samples| - 1]), samples[|samples| - 1])
  }

  function OfTarget(samples: seq<Sample>, t: Target): seq<Sample> {
    if samples == [] then []
    else
      var s := samples[|samples| - 1];
      OfTarget(samples[..|samples| - 1], t) + if s.target == t then [s] else []
  }

  /** An entity with a buffer holds what its own samples alone would have left; the
      samples of other entities do not show. */
  lemma {:induction false} EachAlone(max: nat, samples: seq<Sample>, t: Target)
    ensures var b := RoutedAll(EmptyMany(max), samples);
            && b.max == max
            && (t == HOST ==> b.host == AddedAll(Fresh(max), OfTarget(samples, t)))
            && (t != HOST && t in b.targets ==> b.targets[t] == AddedAll(Fresh(max), OfTarget(samples, t)))
            && (t != HOST && t !in b.targets && OfTarget(samples, t) != [] ==>
                CountOf(b.keys, t.owner) >= MAX_KEYS_PER_MODULE)
            && (t != HOST && t in b.targets ==> OfTarget(samples, t) != [])
  {
    hide Added;
    if samples != [] {
      var n := |samples| - 1;
      EachAlone(max, samples[..n], t);
      var mine := OfTarget(samples[..n], t);
      if samples[n].target == t {
        assert (mine + [samples[n]])[..|mine|] == mine;
      } else {
        assert mine + [] == mine;
      }
    }
  }

  function Bound(limit: int): nat { if limit <= 0 then DEFAULT_MAX else limit }

  /** Ordered by module, template and key. */
  predicate TargetLe(a: Target, b: Target) {
    if a.owner != b.owner then StringLe(a.owner, b.owner)
    else if a.template != b.template then StringLe(a.template, b.template)
    else StringLe(a.key, b.key)
  }

  lemma FullDrops(b: Many, s: Sample)
    requires s.target != HOST && s.target !in b.targets && CountOf(b.keys, s.target.owner) >= MAX_KEYS_PER_MODULE
    ensures Routed(b, s) == b
  {}

  lemma OpenedThenAdded(before: Many, widened: Many, s: Sample)
    requires s.target != HOST && s.target !in before.targets &&
        CountOf(before.keys, s.target.owner) < MAX_KEYS_PER_MODULE
    requires widened == before.(targets := before.targets[s.target := Fresh(before.max)],
                               keys := before.keys[s.target.owner := CountOf(before.keys, s.target.owner) + 1])
    ensures widened.(targets := widened.targets[s.target := Added(widened.targets[s.target], s)]) == Routed(before, s)
  {
    hide Added, Fresh;
  }

  /** One buffer object per entity, none shared. */
  class Buffers {
    const limit: int
    const host: Buffer
    var targets: map<Target, Buffer>
    var keys: map<string, nat>

    ghost predicate Valid()
      reads this, host, targets.Values
    {
      && host.max == Bound(limit) && host !in targets.Values
      && (forall t :: t in targets ==> targets[t].max == Bound(limit))
      && (forall t, u :: t in targets && u in targets && t != u ==> targets[t] != targets[u])
    }

    function Value(): Many
      reads this, host, targets.Values
    {
      Many(Bound(limit), host.Value(), map t | t in targets :: targets[t].Value(), keys)
    }

    constructor (limit: int)
      ensures Valid() && fresh(host) && Value() == EmptyMany(Bound(limit)) && this.limit == limit
    {
      this.limit := limit;
      host := new Buffer(limit);
      targets, keys := map[], map[];
    }

    method Add(s: Sample)
      requires Valid()
      modifies this, host, targets.Values
      ensures Valid() && Value() == Routed(old(Value()), s)
      ensures fresh(targets.Values - old(targets.Values))
    {
      hide Added, Fresh;
      if s.target == HOST {
        AddToHost(s);
      } else if s.target in targets {
        AddTo(s);
      } else {
        AddToNew(s);
      }
    }

    method AddToNew(s: Sample)
      requires Valid() && s.target !in targets && s.target != HOST
      modifies this
      ensures Valid() && Value() == Routed(old(Value()), s)
      ensures fresh(targets.Values - old(targets.Values))
    {
      hide Added, Fresh, Routed;
      if CountOf(keys, s.target.owner) >= MAX_KEYS_PER_MODULE {
        FullDrops(Value(), s);
        return;
      }
      ghost var before := Value();
      Open(s.target);
      ghost var widened := Value();
      AddTo(s);
      OpenedThenAdded(before, widened, s);
    }

    method AddToHost(s: Sample)
      requires Valid()
      modifies host
      ensures Valid() && Value() == old(Value()).(host := Added(old(host.Value()), s))
    {
      hide Added;
      host.Add(s);
      assert Value().targets == old(Value()).targets;
    }

    /** A buffer for an entity that has none. */
    method Open(t: Target)
      requires Valid() && t !in targets
      modifies this
      ensures Valid() && t in targets && fresh(targets[t]) && targets == old(targets)[t := targets[t]]
      ensures Value() == old(Value()).(targets := old(Value()).targets[t := Fresh(Bound(limit))],
                                       keys := old(keys)[t.owner := CountOf(old(keys), t.owner) + 1])
      ensures fresh(targets.Values - old(targets.Values))
    {
      var buf := new Buffer(limit);
      targets := targets[t := buf];
      keys := keys[t.owner := CountOf(keys, t.owner) + 1];
      assert Value().targets == old(Value()).targets[t := Fresh(Bound(limit))];
    }

    method AddTo(s: Sample)
      requires Valid() && s.target in targets
      modifies targets[s.target]
      ensures Valid()
      ensures Value() ==
          old(Value()).(targets := old(Value()).targets[s.target := Added(old(Value()).targets[s.target], s)])
    {
      hide Added;
      assert targets[s.target] in targets.Values;
      targets[s.target].Add(s);
      assert forall t :: t in targets && t != s.target ==> targets[t].Value() == old(targets[t].Value());
    }

    /** The entities that have a buffer, ordered. */
    method Targets() returns (out: seq<Target>)
      ensures multiset(out) == multiset(targets.Keys) && SortedBy(out, TargetLe)
    {
      out := [];
      var rest := targets.Keys;
      while rest != {}
        invariant rest <= targets.Keys && multiset(out) == multiset(targets.Keys - rest)
      {
        var t :| t in rest;
        out := out + [t];
        assert targets.Keys - (rest - {t}) == (targets.Keys - rest) + {t};
        rest := rest - {t};
      }
      assert targets.Keys - rest == targets.Keys;
      TargetPreorder();
      SortSorts(out, TargetLe);
      out := Sort(out, TargetLe);
    }
  }

  lemma TargetPreorder()
    ensures Preorder(TargetLe)
  {
    StringPreorder();
    forall x, y, z | TargetLe(x, y) && TargetLe(y, z) ensures TargetLe(x, z) {
      StringLeAntisymmetricAll();
    }
  }

  lemma StringLeAntisymmetricAll()
    ensures forall a: string, b: string :: StringLe(a, b) && StringLe(b, a) ==> a == b
  {
    forall a: string, b: string | StringLe(a, b) && StringLe(b, a) ensures a == b { StringLeAntisymmetric(a, b); }
  }
}
