/** What modules declare, what the operator may override, and the schema that
    results (internal/manifest/manifest.go, internal/manifest/validate.go,
    internal/manifest/resolve.go). */
module Manifest {
  import opened Ordering
  import opened Schema
  import opened Text

  const HOST := "host"

  predicate SlugChar(c: char) { 'a' <= c <= 'z' || '0' <= c <= '9' || c == '_' }

  predicate ValidSlug(s: string) {
    s != "" && 'a' <= s[0] <= 'z' && forall i :: 0 <= i < |s| ==> SlugChar(s[i])
  }

  predicate ValidModuleName(s: string) {
    && s != "" && 'a' <= s[0] <= 'z'
    && forall i :: 0 <= i < |s| ==> 'a' <= s[i] <= 'z' || '0' <= s[i] <= '9' || s[i] == '-'
  }

  const PLATFORMS: set<string> := {"darwin", "linux", "windows"}

  datatype Template = Template(slug: string, name: string, entity: bool)

  datatype Attribute = Attribute(key: string, name: string, slug: string, kind: Kind, options: seq<string>,
                                 template: string, target: string, rank: int, platforms: seq<string>)

  datatype Manifest = Manifest(name: string, templates: seq<Template>, attributes: seq<Attribute>)

  datatype AttributeOverride = AttributeOverride(slug: string, template: string)

  datatype ModuleOverride = ModuleOverride(template: string, attributes: map<string, AttributeOverride>)

  datatype Overrides = Overrides(hostTemplate: string, modules: map<string, ModuleOverride>)

  /** An attribute with the manifest that declares it. */
  datatype Owned = Owned(m: Manifest, a: Attribute)

  function AttributesOf(): Manifest -> seq<Owned> {
    (m: Manifest) => seq(|m.attributes|, i requires 0 <= i < |m.attributes| => Owned(m, m.attributes[i]))
  }

  /** Every declared attribute, in manifest order. */
  function All(ms: seq<Manifest>): seq<Owned> { Gather(ms, AttributesOf()) }

  // ---------------------------------------------------------- validation

  predicate IsEntity(m: Manifest, slug: string) {
    exists t :: t in m.templates && t.entity && t.slug == slug
  }

  predicate Blankless(s: string) { TrimSpace(s) != "" }

  predicate ValidTemplate(t: Template) {
    ValidSlug(t.slug) && Blankless(t.name) && (t.entity ==> t.slug != HOST)
  }

  predicate DistinctStrings(s: seq<string>) {
    forall i, j :: 0 <= i < j < |s| ==> s[i] != s[j]
  }

  predicate ValidOptions(a: Attribute) {
    && (a.kind.KList? <==> a.options != [])
    && (forall o :: o in a.options ==> Blankless(o))
    && DistinctStrings(a.options)
  }

  predicate ValidTarget(m: Manifest, a: Attribute) {
    if a.kind.KReference? then a.target == HOST && IsEntity(m, a.template) else a.target == ""
  }

  predicate ValidAttribute(m: Manifest, a: Attribute) {
    && a.key != "" && Blankless(a.name) && ValidSlug(a.slug) && ValidOptions(a)
    && (a.template != "" ==> ValidSlug(a.template))
    && ValidTarget(m, a) && a.rank >= 0
    && (forall p :: p in a.platforms ==> p in PLATFORMS)
  }

  predicate IsLink(a: Attribute, slug: string) { a.kind.KReference? && a.template == slug }

  predicate OneLink(m: Manifest, slug: string) {
    exists i :: 0 <= i < |m.attributes| && IsLink(m.attributes[i], slug) &&
      forall j :: 0 <= j < |m.attributes| && IsLink(m.attributes[j], slug) ==> j == i
  }

  predicate ValidManifest(m: Manifest) {
    && ValidModuleName(m.name)
    && (forall t :: t in m.templates ==> ValidTemplate(t))
    && (forall a :: a in m.attributes ==> ValidAttribute(m, a))
    && (forall i, j :: 0 <= i < j < |m.attributes| ==> m.attributes[i].key != m.attributes[j].key)
    && (forall t :: t in m.templates && t.entity ==> OneLink(m, t.slug))
  }

  predicate DistinctSlugs(os: seq<Owned>) {
    forall i, j :: 0 <= i < j < |os| ==> os[i].a.slug != os[j].a.slug
  }

  /** What Validate accepts. */
  predicate Valid(ms: seq<Manifest>) {
    && (forall m :: m in ms ==> ValidManifest(m))
    && (forall i, j :: 0 <= i < j < |ms| ==> ms[i].name != ms[j].name)
    && DistinctSlugs(All(ms))
  }

  // ---------------------------------------------------------- resolution

  predicate Given(s: string) { s != "" && ValidSlug(s) }

  function HostOf(ov: Overrides): string { if Given(ov.hostTemplate) then ov.hostTemplate else HOST }

  const NO_OVERRIDE := ModuleOverride("", map[])

  function ModuleOverrideOf(ov: Overrides, m: Manifest): ModuleOverride {
    if m.name in ov.modules then ov.modules[m.name] else NO_OVERRIDE
  }

  function OverrideOf(ov: Overrides, o: Owned): AttributeOverride {
    var mo := ModuleOverrideOf(ov, o.m);
    if o.a.key in mo.attributes then mo.attributes[o.a.key] else AttributeOverride("", "")
  }

  function EntitiesOf(m: Manifest): seq<string> {
    Gather(m.templates, (t: Template) => if t.entity then [t.slug] else [])
  }

  /** Whether a module-level override renames the one entity template that all the
      module's attributes sit on. */
  predicate AllOnOne(m: Manifest) {
    |EntitiesOf(m)| == 1 && forall a :: a in m.attributes ==> a.template == EntitiesOf(m)[0]
  }

  predicate Renames(ov: Overrides, m: Manifest) {
    Given(ModuleOverrideOf(ov, m).template) && AllOnOne(m)
  }

  function EntitySlug(ov: Overrides, m: Manifest, entity: string): string {
    if Renames(ov, m) then ModuleOverrideOf(ov, m).template else entity
  }

  /** Attribute override, then module override, then the manifest, then the host;
      an entity template's attributes stay on it. */
  function TemplateOf(ov: Overrides, o: Owned): string {
    if o.a.template in EntitiesOf(o.m) then EntitySlug(ov, o.m, o.a.template)
    else if Given(OverrideOf(ov, o).template) then OverrideOf(ov, o).template
    else if Given(ModuleOverrideOf(ov, o.m).template) then ModuleOverrideOf(ov, o.m).template
    else if o.a.template != "" then o.a.template
    else HostOf(ov)
  }

  function SlugOf(ov: Overrides, o: Owned): string {
    if Given(OverrideOf(ov, o).slug) then OverrideOf(ov, o).slug else o.a.slug
  }

  /** entity, owner and key describe an entity template. */
  datatype FoundTemplate = FoundTemplate(slug: string, entity: bool, owner: string, key: string)

  datatype FoundAttribute = FoundAttribute(slug: string, kind: Kind, options: seq<string>, template: string,
                                           owner: string, key: string, entityTemplate: string, target: string,
                                           display: string)

  datatype Resolution = Resolution(host: string, templates: seq<FoundTemplate>, attributes: seq<FoundAttribute>)

  function PlainTemplate(slug: string): FoundTemplate { FoundTemplate(slug, false, "", "") }

  function TemplatesOf(ov: Overrides): Manifest -> seq<FoundTemplate> {
    (m: Manifest) => seq(|m.templates|, i requires 0 <= i < |m.templates| =>
      var t := m.templates[i];
      if t.entity then FoundTemplate(EntitySlug(ov, m, t.slug), true, m.name, t.slug) else PlainTemplate(t.slug))
  }

  function TemplateFor(ov: Overrides): Owned -> seq<FoundTemplate> {
    (o: Owned) => [PlainTemplate(TemplateOf(ov, o))]
  }

  /** Every declaration of a template; the first of a slug counts. */
  function Declarations(ms: seq<Manifest>, ov: Overrides): seq<FoundTemplate> {
    [PlainTemplate(HostOf(ov))] + Gather(ms, TemplatesOf(ov)) + Gather(All(ms), TemplateFor(ov))
  }

  function FirstWins(ts: seq<FoundTemplate>): map<string, FoundTemplate> {
    if ts == [] then map[]
    else
      var before, t := FirstWins(ts[..|ts| - 1]), ts[|ts| - 1];
      if t.slug in before then before else before[t.slug := t]
  }

  function Placed(ov: Overrides, o: Owned): FoundAttribute {
    var entity := o.a.template in EntitiesOf(o.m);
    FoundAttribute(SlugOf(ov, o), o.a.kind, o.a.options, TemplateOf(ov, o), o.m.name, o.a.key,
                   if entity then o.a.template else "", if o.a.kind.KReference? then HostOf(ov) else "", "")
  }

  function AttributeMap(ov: Overrides, os: seq<Owned>): map<string, FoundAttribute> {
    if os == [] then map[]
    else
      var before, r := AttributeMap(ov, os[..|os| - 1]), Placed(ov, os[|os| - 1]);
      if r.slug in before then before else before[r.slug := r]
  }

  predicate IsLabel(ov: Overrides, o: Owned) {
    o.a.rank > 0 && TemplateOf(ov, o) == HostOf(ov)
  }

  /** The better of two labels: the higher rank, then the smaller slug. */
  predicate Outranks(ov: Overrides, o: Owned, p: Owned) {
    o.a.rank > p.a.rank || (o.a.rank == p.a.rank && StringLe(SlugOf(ov, o), SlugOf(ov, p)))
  }

  /** The label a host link shows: the best one bound to the host template, if any. */
  ghost predicate Displays(ms: seq<Manifest>, ov: Overrides, display: Option<string>) {
    match display
    case None => forall o :: o in All(ms) ==> !IsLabel(ov, o)
    case Some(s) => exists o :: o in All(ms) && IsLabel(ov, o) && SlugOf(ov, o) == s &&
                      forall p :: p in All(ms) && IsLabel(ov, p) ==> Outranks(ov, o, p)
  }

  // ------------------------------------------------------------ problems

  predicate KeyOf(m: Manifest, key: string) { exists a :: a in m.attributes && a.key == key }

  predicate GoodSlug(s: string) { s == "" || ValidSlug(s) }

  predicate GoodOverride(m: Manifest, mo: ModuleOverride) {
    && GoodSlug(mo.template)
    && forall key :: key in mo.attributes ==>
         KeyOf(m, key) && GoodSlug(mo.attributes[key].slug) && GoodSlug(mo.attributes[key].template)
  }

  predicate GoodOverrides(ms: seq<Manifest>, ov: Overrides) {
    && GoodSlug(ov.hostTemplate)
    && forall name :: name in ov.modules ==> exists m :: m in ms && m.name == name && GoodOverride(m, ov.modules[name])
  }

  /** A module with entity templates may only be moved as a whole, off the host. */
  predicate GoodEntities(ov: Overrides, m: Manifest) {
    EntitiesOf(m) != [] ==>
      && (Given(ModuleOverrideOf(ov, m).template) ==> AllOnOne(m))
      && forall e :: e in EntitiesOf(m) ==> EntitySlug(ov, m, e) != HostOf(ov)
  }

  /** The slug is an entity template's, after overrides. */
  predicate EntityTaken(ms: seq<Manifest>, ov: Overrides, slug: string) {
    exists m :: m in ms && exists e :: e in EntitiesOf(m) && EntitySlug(ov, m, e) == slug
  }

  predicate NoSharedEntity(ms: seq<Manifest>, ov: Overrides) {
    forall m, n :: m in ms && n in ms && m.name != n.name ==>
      forall e, f :: e in EntitiesOf(m) && f in EntitiesOf(n) ==> EntitySlug(ov, m, e) != EntitySlug(ov, n, f)
  }

  /** An entity template's attribute is not moved off it, and no other lands on one. */
  predicate GoodPlace(ms: seq<Manifest>, ov: Overrides, o: Owned) {
    if o.a.template in EntitiesOf(o.m) then
      OverrideOf(ov, o).template == "" || OverrideOf(ov, o).template == EntitySlug(ov, o.m, o.a.template)
    else !EntityTaken(ms, ov, TemplateOf(ov, o))
  }

  predicate DistinctResolved(ov: Overrides, os: seq<Owned>) {
    forall i, j :: 0 <= i < j < |os| ==> SlugOf(ov, os[i]) != SlugOf(ov, os[j])
  }

  ghost predicate LinksShow(ms: seq<Manifest>, ov: Overrides) {
    (exists o :: o in All(ms) && o.a.kind.KReference?) ==> exists o :: o in All(ms) && IsLabel(ov, o)
  }

  /** Nothing for Resolve to report. */
  ghost predicate Clean(ms: seq<Manifest>, ov: Overrides) {
    && GoodOverrides(ms, ov)
    && (forall m :: m in ms ==> GoodEntities(ov, m))
    && NoSharedEntity(ms, ov)
    && (forall o :: o in All(ms) ==> GoodPlace(ms, ov, o))
    && DistinctResolved(ov, All(ms))
    && LinksShow(ms, ov)
  }

  // ------------------------------------------------------------- result

  function Linked(a: FoundAttribute, display: Option<string>): FoundAttribute {
    if a.kind.KReference? && display.Some? then a.(display := display.value) else a
  }

  function LinkedAll(attrs: map<string, FoundAttribute>, display: Option<string>): map<string, FoundAttribute> {
    map k | k in attrs :: Linked(attrs[k], display)
  }

  /** d is what Resolve returns for a clean input. */
  ghost predicate Resolves(ms: seq<Manifest>, ov: Overrides, d: Resolution) {
    && d.host == HostOf(ov)
    && d.templates == ByKey(FirstWins(Declarations(ms, ov)))
    && exists display ::
         Displays(ms, ov, display) && d.attributes == ByKey(LinkedAll(AttributeMap(ov, All(ms)), display))
  }

  /** The schema as planning sees it. */
  function ToSchema(d: Resolution): Desired {
    Desired(
      seq(|d.templates|, i requires 0 <= i < |d.templates| => DesiredTemplate(d.templates[i].slug)),
      seq(|d.attributes|, i requires 0 <= i < |d.attributes| =>
        var a := d.attributes[i];
        DesiredAttribute(a.slug, a.kind, a.options, [a.template], a.target, a.display)))
  }
}
