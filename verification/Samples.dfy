/** Observations: their values, what may be buffered (internal/collect/validate.go)
    and how a buffered one is written to the platform (Render in
    internal/publish/publish.go). */
module Samples {
  import opened Schema

  /** A Go float; arithmetic on it is not modelled, only whether it is finite. */
  datatype Number = Finite(r: real) | NaN | Infinite

  /** An observation's dynamic value. VWhole stands for every Go integer type. */
  datatype Value =
    | VText(s: string)
    | VFloat(n: Number)
    | VFloat32(n32: Number)
    | VWhole(i: int)
    | VFlag(b: bool)
    | VTime(t: int)
    | VNil
    | VOther

  const ZERO_TIME: int := 0

  /** The entity a sample belongs to; all empty is the host. */
  datatype Target = Target(owner: string, template: string, key: string)

  const HOST := Target("", "", "")

  datatype Sample = Sample(slug: string, kind: Kind, value: Value, at: int, target: Target)
  {
    predicate IsMetric() { kind.KMetric? }
  }

  datatype Checked<+T, +E> = Ok(value: T) | Err(error: E)

  datatype Invalid = NilValue | BadType | NotFinite | ZeroTime | NotAnOption | UnknownKind

  function ToFloat(v: Value): Option<Number> {
    match v
    case VFloat(n) => Some(n)
    case VFloat32(n) => Some(n)
    case VWhole(i) => Some(Finite(i as real))
    case VText(_) => None
    case VFlag(_) => None
    case VTime(_) => None
    case VNil => None
    case VOther => None
  }

  /** Coerces an observed value to the canonical type of the attribute's kind. */
  function Validate(kind: Kind, options: seq<string>, v: Value): Checked<Value, Invalid> {
    if v.VNil? then Err(NilValue)
    else
      match kind
      case KText => if v.VText? then Ok(v) else Err(BadType)
      case KNumber => ValidateNumber(v)
      case KMetric => ValidateNumber(v)
      case KBoolean => if v.VFlag? then Ok(v) else Err(BadType)
      case KDate => ValidateTime(v)
      case KDatetime => ValidateTime(v)
      case KList => if !v.VText? then Err(BadType) else if v.s in options then Ok(v) else Err(NotAnOption)
      case KReference => Err(UnknownKind)
  }

  function ValidateNumber(v: Value): Checked<Value, Invalid> {
    var f := ToFloat(v);
    if f.None? then Err(BadType) else if !f.value.Finite? then Err(NotFinite) else Ok(VFloat(f.value))
  }

  function ValidateTime(v: Value): Checked<Value, Invalid> {
    if !v.VTime? then Err(BadType) else if v.t == ZERO_TIME then Err(ZeroTime) else Ok(v)
  }

  /** What is sent: a boolean, or a string that formats a text, a number, a day,
      an instant, or names a list item. */
  datatype Rendered =
    Plain(s: string) | Decimal(r: Number) | Day(t: int) | Instant(t: int) | Item(id: Id) | Flag(b: bool)
  {
    predicate IsString() { !Flag? }
  }

  datatype RenderError = Bug | NoItem | Unrenderable

  type Items = map<string, map<string, Id>>

  function Render(s: Sample, items: Items): Checked<Rendered, RenderError> {
    match s.kind
    case KText => if s.value.VText? then Ok(Plain(s.value.s)) else Err(Bug)
    case KNumber => RenderNumber(s.value)
    case KMetric => RenderNumber(s.value)
    case KBoolean => if s.value.VFlag? then Ok(Flag(s.value.b)) else Err(Bug)
    case KDate => if s.value.VTime? then Ok(Day(s.value.t)) else Err(Bug)
    case KDatetime => if s.value.VTime? then Ok(Instant(s.value.t)) else Err(Bug)
    case KList =>
      if !s.value.VText? then Err(Bug)
      else if s.slug in items && s.value.s in items[s.slug] then Ok(Item(items[s.slug][s.value.s])) else Err(NoItem)
    case KReference => Err(Unrenderable)
  }

  function RenderNumber(v: Value): Checked<Rendered, RenderError> {
    if v.VFloat? then Ok(Decimal(v.n)) else Err(Bug)
  }

  /** A sample the collector may buffer: its value passed Validate. */
  ghost predicate Collected(s: Sample) {
    exists options: seq<string>, v: Value :: Validate(s.kind, options, v) == Ok(s.value)
  }

  /** Whatever was collected renders, except a list option whose item the project
      does not have; a metric always renders, and to a string. */
  lemma CollectedRenders(s: Sample, items: Items)
    requires Collected(s)
    ensures Render(s, items).Err? <==> s.kind.KList? && !(s.slug in items && s.value.s in items[s.slug])
    ensures Render(s, items).Err? ==> Render(s, items).error == NoItem
    ensures s.IsMetric() ==> Render(s, items).Ok? && Render(s, items).value.IsString()
    ensures s.kind.KBoolean? <==> Render(s, items).Ok? && !Render(s, items).value.IsString()
    ensures Render(s, items).Ok? && Render(s, items).value.Decimal? ==> Render(s, items).value.r.Finite?
    ensures Render(s, items).Ok? && (Render(s, items).value.Day? || Render(s, items).value.Instant?) ==>
              Render(s, items).value.t != ZERO_TIME
  {
    var options: seq<string>, v: Value :| Validate(s.kind, options, v) == Ok(s.value);
  }
}
