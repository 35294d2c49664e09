/** What every interleaving of concurrent resolutions guarantees. */
module IdentityTheorems {
  import opened Schema
  import opened Identity
  import opened IdentityFleet

  lemma {:induction false} BehaviorKeeps(ws: seq<World>, ls: seq<Label>, k: nat)
    requires Behavior(ws, ls) && k < |ws|
    ensures Inv(ws[k])
  {
    hide Inv, Step;
    if k == 0 {
      InitialHolds(ws[0]);
    } else {
      BehaviorKeeps(ws, ls, k - 1);
      StepKeeps(ws[k - 1], ls[k - 1], ws[k]);
    }
  }

  lemma InitialHolds(w: World)
    requires Initial(w)
    ensures Inv(w)
  {
    ExtendsSelf(Now(w));
  }

  lemma {:induction false} HistoryGrows(ws: seq<World>, ls: seq<Label>, i: nat, j: nat)
    requires Behavior(ws, ls) && i <= j < |ws|
    ensures ws[i].history != [] && ws[i].history <= ws[j].history
    ensures |ws[i].procs| <= |ws[j].procs|
    decreases j
  {
    BehaviorKeeps(ws, ls, i);
    if i < j {
      HistoryGrows(ws, ls, i, j - 1);
      assert Step(ws[j - 1], ls[j - 1], ws[j]);
    }
  }

  lemma Later(ws: seq<World>, ls: seq<Label>, i: nat, j: nat)
    requires Behavior(ws, ls) && i <= j < |ws|
    ensures ws[i].history != [] && ws[j].history != [] && Extends(Now(ws[i]), Now(ws[j])) && UniqueKeys(Now(ws[j]))
  {
    hide Extends;
    HistoryGrows(ws, ls, i, j);
    BehaviorKeeps(ws, ls, j);
    var n := |ws[i].history| - 1;
    assert ws[j].history[n] == Now(ws[i]);
  }

  /** No key is ever overwritten or cleared, whatever the identities of the
      processes and whatever their searches returned. */
  lemma KeysNeverChange(ws: seq<World>, ls: seq<Label>, i: nat, j: nat, id: Id)
    requires Behavior(ws, ls) && i <= j < |ws|
    requires ws[i].history != [] && id in Now(ws[i]) && Now(ws[i])[id].key != ""
    ensures ws[j].history != [] && id in Now(ws[j]) && Now(ws[j])[id].key == Now(ws[i])[id].key
  {
    Later(ws, ls, i, j);
  }

  /** A record without a key is only ever given the identity it carries. */
  lemma KeysAreIdentities(ws: seq<World>, ls: seq<Label>, i: nat, j: nat, id: Id)
    requires Behavior(ws, ls) && i <= j < |ws|
    requires ws[i].history != [] && id in Now(ws[i]) && Now(ws[i])[id].key == ""
    ensures ws[j].history != [] && id in Now(ws[j]) && Now(ws[j])[id].key in {"", Now(ws[i])[id].value}
  {
    Later(ws, ls, i, j);
  }

  predicate EndedWith(w: World, p: nat, res: Resolution) {
    p < |w.procs| && w.procs[p].pc == Ended(Resolved(res))
  }

  /** What a process was told it keeps: the record holds its key from then on. */
  lemma SettledHolds(ws: seq<World>, ls: seq<Label>, k: nat, m: nat, p: nat, res: Resolution)
    requires Behavior(ws, ls) && k <= m < |ws|
    requires EndedWith(ws[k], p, res) && Settled(res.how)
    ensures ws[m].history != [] && res.id.Some?
    ensures Holds(Now(ws[m]), res.id.value, ws[k].procs[p].config.template, ws[k].procs[p].config.key)
  {
    BehaviorKeeps(ws, ls, k);
    assert Entitled(ws[k].history, Now(ws[k]), ws[k].procs[p]);
    Later(ws, ls, k, m);
  }

  /** All processes of one identity that found, adopted or created their record got
      the same one, at whatever moments they ended, and it holds the key for good. */
  lemma AllAgree(ws: seq<World>, ls: seq<Label>, i: nat, j: nat, m: nat, p: nat, q: nat, first: Resolution,
                 second: Resolution)
    requires Behavior(ws, ls) && i <= m < |ws| && j <= m
    requires EndedWith(ws[i], p, first) && Settled(first.how)
    requires EndedWith(ws[j], q, second) && Settled(second.how)
    requires ws[i].procs[p].config.template == ws[j].procs[q].config.template
    requires ws[i].procs[p].config.key == ws[j].procs[q].config.key
    ensures first.id.Some? && first.id == second.id && ws[m].history != []
    ensures Holds(Now(ws[m]), first.id.value, ws[i].procs[p].config.template, ws[i].procs[p].config.key)
  {
    SettledHolds(ws, ls, i, m, p, first);
    SettledHolds(ws, ls, j, m, q, second);
    Later(ws, ls, m, m);
    BehaviorKeeps(ws, ls, i);
    KeysAreNotEmpty(ws[i], p);
  }

  /** A record with someone else's key is used as it is, and keeps that key. */
  lemma OtherKeyIsLeftAlone(ws: seq<World>, ls: seq<Label>, k: nat, m: nat, p: nat, res: Resolution)
    requires Behavior(ws, ls) && k <= m < |ws|
    requires EndedWith(ws[k], p, res) && res.how.AdoptedOtherKey?
    ensures ws[m].history != [] && res.id.Some? && res.how.other != ws[k].procs[p].config.key
    ensures Holds(Now(ws[m]), res.id.value, ws[k].procs[p].config.template, res.how.other)
  {
    BehaviorKeeps(ws, ls, k);
    assert Entitled(ws[k].history, Now(ws[k]), ws[k].procs[p]);
    Later(ws, ls, k, m);
  }

  /** The step at which a process learns that it created its record. */
  predicate Creates(w: World, l: Label, w': World, template: string, key: string) {
    && l.Moves? && l.p < |w.procs| == |w'.procs| && w.procs[l.p].pc.Upserting?
    && l.answer.upsert.Upserted? && l.answer.upsert.created
    && w.procs[l.p].config.template == template && w.procs[l.p].config.key == key
  }

  /** Of all processes of one identity at most one is told that it created the record. */
  lemma AtMostOneCreates(ws: seq<World>, ls: seq<Label>, i: nat, j: nat, template: string, key: string)
    requires Behavior(ws, ls) && i < |ls| && j < |ls|
    requires Creates(ws[i], ls[i], ws[i + 1], template, key) && Creates(ws[j], ls[j], ws[j + 1], template, key)
    ensures i == j
  {
    if i < j {
      CreatedOnce(ws, ls, i, j, template, key);
    } else if j < i {
      CreatedOnce(ws, ls, j, i, template, key);
    }
  }

  lemma CreatedOnce(ws: seq<World>, ls: seq<Label>, i: nat, j: nat, template: string, key: string)
    requires Behavior(ws, ls) && i < j < |ls|
    requires Creates(ws[i], ls[i], ws[i + 1], template, key)
    ensures !Creates(ws[j], ls[j], ws[j + 1], template, key)
  {
    hide Extends, Next, UniqueKeys, Inv;
    BehaviorKeeps(ws, ls, i);
    KeysAreNotEmpty(ws[i], ls[i].p);
    assert Step(ws[i], ls[i], ws[i + 1]) && Step(ws[j], ls[j], ws[j + 1]);
    var id := ls[i].answer.upsert.id;
    assert Holds(Now(ws[i + 1]), id, template, key);
    Later(ws, ls, i + 1, j);
    StaysHeld(Now(ws[i + 1]), Now(ws[j]), id, template, key);
  }

  lemma StaysHeld(h: Records, r: Records, id: Id, template: string, key: string)
    requires Extends(h, r) && Holds(h, id, template, key) && key != ""
    ensures Holds(r, id, template, key)
  {}
}
