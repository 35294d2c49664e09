/** The schema data model and the additive plan: internal/schema/schema.go and
    the result of internal/schema/diff.go. */
module Schema {
  import opened Ordering

  datatype Option<+T> = None | Some(value: T)

  /** A platform id; the platform never issues an empty one. */
  type Id = s: string | s != "" witness "0"

  datatype Kind = KText | KNumber | KBoolean | KDate | KDatetime | KList | KMetric | KReference

  /** The semantic type discovery reports for a manifest kind. */
  function TypeOf(k: Kind): string {
    match k
    case KText => "string"
    case KNumber => "number"
    case KBoolean => "boolean"
    case KDate => "date"
    case KDatetime => "datetime"
    case KList => "list"
    case KMetric => "metric"
    case KReference => "reference"
  }

  datatype DesiredTemplate = DesiredTemplate(slug: string)

  datatype DesiredAttribute = DesiredAttribute(
    slug: string, kind: Kind, options: seq<string>, templates: seq<string>, target: string, display: string)

  datatype Desired = Desired(templates: seq<DesiredTemplate>, attributes: seq<DesiredAttribute>)

  datatype CurrentTemplate = CurrentTemplate(id: Id, attributeIds: set<Id>)

  /** options maps an option's value to its item id. */
  datatype CurrentAttribute = CurrentAttribute(id: Id, typ: string, options: map<string, Id>, refTemplateId: Option<Id>)

  /** The project schema as discovery shows it, keyed by slug. */
  datatype Current = Current(templates: map<string, CurrentTemplate>, attributes: map<string, CurrentAttribute>)

  /** attributeId is None until the attribute is created. templateIds are the
      bindings seen when the plan was made, plus the target's id if known. */
  datatype Action =
    | CreateTemplate(template: string)
    | CreateAttribute(attribute: string, kind: Kind, templates: seq<string>, target: string, display: string)
    | AddListOption(attribute: string, attributeId: Option<Id>, option: string)
    | BindAttribute(attribute: string, boundId: Id, template: string, templateIds: set<Id>)
  {
    function Slug(): string {
      if CreateTemplate? then template else attribute
    }
  }

  datatype Conflict =
    | WrongType(slug: string, kind: Kind, actual: string)
    | WrongTarget(slug: string, target: string, actualId: Option<Id>)

  datatype Plan = Plan(actions: seq<Action>, conflicts: seq<Conflict>)

  // ---------------------------------------------------------------- orders

  predicate TemplateLe(a: DesiredTemplate, b: DesiredTemplate) { StringLe(a.slug, b.slug) }

  predicate AttributeLe(a: DesiredAttribute, b: DesiredAttribute) { StringLe(a.slug, b.slug) }

  predicate ConflictLe(a: Conflict, b: Conflict) { StringLe(a.slug, b.slug) }

  /** Binds are ordered by attribute, then template. */
  predicate BindLe(a: Action, b: Action) {
    if a.BindAttribute? && b.BindAttribute? then
      if a.attribute != b.attribute then StringLe(a.attribute, b.attribute) else StringLe(a.template, b.template)
    else true
  }

  // ------------------------------------------------------------- gathering

  /** Concatenates what f contributes for each element, in order. */
  function Gather<A, B>(s: seq<A>, f: A -> seq<B>): seq<B> {
    if s == [] then [] else Gather(s[..|s| - 1], f) + f(s[|s| - 1])
  }

  lemma {:induction false} GatherMember<A(!new), B>(s: seq<A>, f: A -> seq<B>, x: B)
    ensures x in Gather(s, f) <==> exists a :: a in s && x in f(a)
  {
    if s != [] {
      var n := |s| - 1;
      GatherMember(s[..n], f, x);
      assert s == s[..n] + [s[n]];
      if x in Gather(s, f) {
        if x in f(s[n]) {
          assert s[n] in s;
        } else {
          var a :| a in s[..n] && x in f(a);
          assert a in s;
        }
      }
    }
  }

  lemma GatherStep<A, B>(s: seq<A>, i: nat, f: A -> seq<B>)
    requires i < |s|
    ensures Gather(s[..i + 1], f) == Gather(s[..i], f) + f(s[i])
    ensures f(s[i]) == [] ==> Gather(s[..i + 1], f) == Gather(s[..i], f)
  {
    assert s[..i + 1][..i] == s[..i];
  }

  // ------------------------------------------------------------- the plan

  /** The ids of the visible templates an attribute is bound to. */
  function BoundTo(cur: Current, attributeId: Id): set<Id> {
    set s | s in cur.templates && attributeId in cur.templates[s].attributeIds :: cur.templates[s].id
  }

  predicate RefersTo(cur: Current, existing: CurrentAttribute, target: string) {
    target in cur.templates && existing.refTemplateId == Some(cur.templates[target].id)
  }

  /** The existing attribute is what a wants: same type and, for a reference,
      the same target. */
  predicate Matches(cur: Current, a: DesiredAttribute)
    requires a.slug in cur.attributes
  {
    var existing := cur.attributes[a.slug];
    existing.typ == TypeOf(a.kind) && (a.kind.KReference? ==> RefersTo(cur, existing, a.target))
  }

  function TemplateCreates(cur: Current): DesiredTemplate -> seq<Action> {
    (t: DesiredTemplate) => if t.slug in cur.templates then [] else [CreateTemplate(t.slug)]
  }

  function CreateOf(a: DesiredAttribute): Action {
    CreateAttribute(a.slug, a.kind, Sort(a.templates, StringLe), a.target, a.display)
  }

  function AttributeCreates(cur: Current): DesiredAttribute -> seq<Action> {
    (a: DesiredAttribute) => if a.slug in cur.attributes || a.kind.KReference? then [] else [CreateOf(a)]
  }

  function ReferenceCreates(cur: Current): DesiredAttribute -> seq<Action> {
    (a: DesiredAttribute) => if a.slug !in cur.attributes && a.kind.KReference? then [CreateOf(a)] else []
  }

  /** The id an option action carries: none while the attribute is missing. */
  function KnownId(cur: Current, slug: string): Option<Id> {
    if slug in cur.attributes then Some(cur.attributes[slug].id) else None
  }

  function OptionAdd(cur: Current, a: DesiredAttribute): string -> seq<Action> {
    (o: string) =>
      if a.slug in cur.attributes && o in cur.attributes[a.slug].options then []
      else [AddListOption(a.slug, KnownId(cur, a.slug), o)]
  }

  /** Whether the plan looks at a's options: always while it is missing (a
      reference excepted), and for a list once it exists. */
  predicate OptionsPlanned(cur: Current, a: DesiredAttribute) {
    if a.slug in cur.attributes then Matches(cur, a) && a.kind.KList? else !a.kind.KReference?
  }

  function OptionAdds(cur: Current): DesiredAttribute -> seq<Action> {
    (a: DesiredAttribute) => if OptionsPlanned(cur, a) then Gather(a.options, OptionAdd(cur, a)) else []
  }

  function BindAdd(cur: Current, slug: string, existing: CurrentAttribute): string -> seq<Action> {
    (t: string) =>
      var ids := BoundTo(cur, existing.id);
      if t !in cur.templates then [BindAttribute(slug, existing.id, t, ids)]
      else if cur.templates[t].id in ids then []
      else [BindAttribute(slug, existing.id, t, ids + {cur.templates[t].id})]
  }

  function BindAdds(cur: Current): DesiredAttribute -> seq<Action> {
    (a: DesiredAttribute) =>
      if a.slug in cur.attributes && Matches(cur, a)
      then Gather(a.templates, BindAdd(cur, a.slug, cur.attributes[a.slug])) else []
  }

  function ConflictsOf(cur: Current): DesiredAttribute -> seq<Conflict> {
    (a: DesiredAttribute) =>
      if a.slug !in cur.attributes || Matches(cur, a) then []
      else
        var existing := cur.attributes[a.slug];
        if existing.typ != TypeOf(a.kind) then [WrongType(a.slug, a.kind, existing.typ)]
        else [WrongTarget(a.slug, a.target, existing.refTemplateId)]
  }

  /** The plan Diff computes: templates, attributes, references, options,
      binds, each group in slug order. */
  function DiffPlan(d: Desired, cur: Current): Plan {
    var ts := Sort(d.templates, TemplateLe);
    var attrs := Sort(d.attributes, AttributeLe);
    Plan(
      Gather(ts, TemplateCreates(cur)) +
      Gather(attrs, AttributeCreates(cur)) +
      Gather(attrs, ReferenceCreates(cur)) +
      Gather(attrs, OptionAdds(cur)) +
      Sort(Gather(attrs, BindAdds(cur)), BindLe),
      Sort(Gather(attrs, ConflictsOf(cur)), ConflictLe))
  }
}
