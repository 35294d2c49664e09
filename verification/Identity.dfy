/** Resolving a record by its external key, as the machine that ResolveHost and
    Keyed.Resolve run (internal/identity/resolve.go, internal/identity/keyed.go). */
module Identity {
  import opened Ordering
  import opened Schema
  import opened Text

  const MAX_KEY_LEN: nat := 128
  const UPSERT_ATTEMPTS: nat := 3

  /** Why a key cannot identify an entity. */
  datatype KeyFault = EmptyKey | Untrimmed | TooLong | HasControl

  function KeyFaultOf(key: string): Option<KeyFault> {
    if key == "" then Some(EmptyKey)
    else if TrimSpace(key) != key then Some(Untrimmed)
    else if |key| > MAX_KEY_LEN then Some(TooLong)
    else if exists i :: 0 <= i < |key| && IsControl(key[i]) then Some(HasControl)
    else None
  }

  predicate ValidKey(key: string) { KeyFaultOf(key).None? }

  /** Exactly the keys a platform that trims what it is sent keeps as they are,
      within the length and without control characters. */
  lemma ValidKeyExactly(key: string)
    ensures ValidKey(key) <==>
            && 0 < |key| <= MAX_KEY_LEN && !IsSpace(key[0]) && !IsSpace(key[|key| - 1])
            && forall i :: 0 <= i < |key| ==> !IsControl(key[i])
    ensures ValidKey(key) ==> TrimSpace(key) == key
  {
    TrimmedExactly(key);
  }

  /** What adoption learns of a candidate; key is empty when it holds none. */
  datatype Summary = Summary(id: Id, createdAt: int, key: string)

  predicate OlderFirst(a: Summary, b: Summary) { a.createdAt <= b.createdAt }

  datatype LookupReply = Holder(id: Id) | NoHolder | LookupFailed
  datatype SearchReply = Candidates(found: seq<Summary>) | SearchFailed
  datatype SetReply = KeySet | SetTaken | SetFailed
  datatype UpsertReply = Upserted(id: Id, created: bool) | UpsertTaken | UpsertFailed

  /** The platform's answer at an instant, whichever call it receives. */
  datatype Answer = Answer(lookup: LookupReply, search: SearchReply, setKey: SetReply, upsert: UpsertReply)

  datatype Call = EntityByKey | FindEntities | SetEntityKey(id: Id) | UpsertByKey

  datatype How = Found | Adopted | AdoptedOtherKey(other: string) | Created | WouldAdopt | WouldCreate

  /** id is None only for WouldCreate. */
  datatype Resolution = Resolution(id: Option<Id>, how: How, duplicates: seq<Id>)

  datatype Ending = Resolved(r: Resolution) | Failed

  /** adopts: a host start, which searches before it creates; a module entity does not. */
  datatype Config = Config(template: string, key: string, dryRun: bool, adopts: bool)

  /** The call a process makes next, or how it ended. */
  datatype Pc =
    | LookingUp
    | Searching
    | SettingKey(pick: Id, duplicates: seq<Id>)
    | LookingAgain
    | Upserting(attempt: nat)
    | LookingLast
    | Ended(ending: Ending)

  function CallOf(pc: Pc): Option<Call> {
    match pc
    case LookingUp => Some(EntityByKey)
    case Searching => Some(FindEntities)
    case SettingKey(pick, _) => Some(SetEntityKey(pick))
    case LookingAgain => Some(EntityByKey)
    case Upserting(_) => Some(UpsertByKey)
    case LookingLast => Some(EntityByKey)
    case Ended(_) => None
  }

  function Ids(found: seq<Summary>): seq<Id> {
    seq(|found|, i requires 0 <= i < |found| => found[i].id)
  }

  function EndWith(id: Id, how: How, duplicates: seq<Id>): Pc {
    Ended(Resolved(Resolution(Some(id), how, duplicates)))
  }

  function Creation(c: Config): Pc {
    if c.dryRun then Ended(Resolved(Resolution(None, WouldCreate, []))) else Upserting(0)
  }

  /** The oldest candidate decides. */
  function Adoption(c: Config, found: seq<Summary>): Pc
    requires found != []
  {
    var sorted := Sort(found, OlderFirst);
    var pick := sorted[0];
    var duplicates := if |sorted| > 1 then Ids(sorted) else [];
    if pick.key == c.key then EndWith(pick.id, Found, duplicates)
    else if pick.key != "" then EndWith(pick.id, AdoptedOtherKey(pick.key), duplicates)
    else if c.dryRun then EndWith(pick.id, WouldAdopt, duplicates)
    else SettingKey(pick.id, duplicates)
  }

  function Next(c: Config, pc: Pc, a: Answer): Pc {
    match pc
    case LookingUp =>
      (match a.lookup
       case Holder(id) => EndWith(id, Found, [])
       case NoHolder => if c.adopts then Searching else Creation(c)
       case LookupFailed => Ended(Failed))
    case Searching =>
      (match a.search
       case Candidates(found) => if found == [] then Creation(c) else Adoption(c, found)
       case SearchFailed => Ended(Failed))
    case SettingKey(pick, duplicates) =>
      (match a.setKey
       case KeySet => EndWith(pick, Adopted, duplicates)
       case SetTaken => LookingAgain
       case SetFailed => Ended(Failed))
    case LookingAgain =>
      if a.lookup.Holder? then EndWith(a.lookup.id, Found, []) else Ended(Failed)
    case Upserting(n) =>
      (match a.upsert
       case Upserted(id, created) => EndWith(id, if created then Created else Found, [])
       case UpsertTaken => if n + 1 < UPSERT_ATTEMPTS then Upserting(n + 1) else LookingLast
       case UpsertFailed => Ended(Failed))
    case LookingLast =>
      if a.lookup.Holder? then EndWith(a.lookup.id, Found, []) else Ended(Failed)
    case Ended(_) => pc
  }

  /** n answers of the script, beginning with the one at from. */
  function Run(c: Config, pc: Pc, script: nat -> Answer, from: nat, n: nat): Pc {
    if n == 0 then pc else Next(c, Run(c, pc, script, from, n - 1), script(from + n - 1))
  }

  /** The calls made for them. */
  function Made(c: Config, pc: Pc, script: nat -> Answer, from: nat, n: nat): seq<Call> {
    if n == 0 then []
    else
      var call := CallOf(Run(c, pc, script, from, n - 1));
      Made(c, pc, script, from, n - 1) + (if call.Some? then [call.value] else [])
  }

  /** A bound on the calls that remain. */
  function Remaining(pc: Pc): nat {
    match pc
    case LookingUp => 6
    case Searching => 5
    case SettingKey(_, _) => 2
    case LookingAgain => 1
    case Upserting(n) => if n < UPSERT_ATTEMPTS then UPSERT_ATTEMPTS + 1 - n else 2
    case LookingLast => 1
    case Ended(_) => 0
  }

  lemma NextDecreases(c: Config, pc: Pc, a: Answer)
    requires !pc.Ended?
    ensures Remaining(Next(c, pc, a)) < Remaining(pc)
  {}

  lemma StepAccounts(c: Config, pc: Pc, a: Answer)
    ensures Remaining(Next(c, pc, a)) + (if CallOf(pc).Some? then 1 else 0) <= Remaining(pc)
    ensures CallOf(pc).Some? <==> !pc.Ended?
    ensures pc.Ended? ==> Next(c, pc, a).Ended?
    ensures Remaining(pc) == 0 ==> pc.Ended?
  {
    if !pc.Ended? { NextDecreases(c, pc, a); }
  }

  /** Whatever the platform answers, a resolution ends after at most six calls. */
  lemma {:induction false} CallsAreBounded(c: Config, pc: Pc, script: nat -> Answer, from: nat, n: nat)
    ensures |Made(c, pc, script, from, n)| + Remaining(Run(c, pc, script, from, n)) <= Remaining(pc)
    ensures !Run(c, pc, script, from, n).Ended? ==> |Made(c, pc, script, from, n)| == n
    ensures n >= Remaining(pc) ==> Run(c, pc, script, from, n).Ended?
  {
    hide Next, Remaining, CallOf;
    StepAccounts(c, Run(c, pc, script, from, n), script(0));
    if n > 0 {
      CallsAreBounded(c, pc, script, from, n - 1);
      StepAccounts(c, Run(c, pc, script, from, n - 1), script(from + n - 1));
    }
  }

  /** A dry run never writes. */
  lemma {:induction false} DryRunWritesNothing(c: Config, script: nat -> Answer, from: nat, n: nat)
    requires c.dryRun
    ensures forall call :: call in Made(c, LookingUp, script, from, n) ==> (call.EntityByKey? || call.FindEntities?)
    ensures var pc := Run(c, LookingUp, script, from, n); !pc.Upserting? && !pc.SettingKey?
  {
    if n > 0 { DryRunWritesNothing(c, script, from, n - 1); }
  }
}
