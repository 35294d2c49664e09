/** Validate as internal/manifest/validate.go runs it, proved to accept exactly the
    manifests that Manifest.Valid describes. The problem list is kept as whether it
    is empty. */
module ManifestValidate {
  import opened Schema
  import opened Manifest

  method CheckOptions(a: Attribute) returns (ok: bool)
    ensures ok <==> ValidOptions(a)
  {
    ok := !(a.kind.KList? && |a.options| == 0) && !(!a.kind.KList? && |a.options| > 0);
    var seen: set<string> := {};
    var fine := true;
    for i := 0 to |a.options|
      invariant fine ==> seen == set o | o in a.options[..i]
      invariant fine <==> (forall j :: 0 <= j < i ==> Blankless(a.options[j])) && DistinctStrings(a.options[..i])
    {
      ghost var before, more := a.options[..i], a.options[..i + 1];
      assert more == before + [a.options[i]];
      assert a.options[i] in before ==> exists j :: 0 <= j < i && before[j] == more[i];
      assert forall j :: 0 <= j < i ==> before[j] == more[j];
      if !Blankless(a.options[i]) {
        fine := false;
        continue;
      }
      if a.options[i] in seen {
        fine := false;
      }
      seen := seen + {a.options[i]};
    }
    assert a.options[..|a.options|] == a.options;
    ok := ok && fine;
  }

  method CheckAttribute(m: Manifest, a: Attribute, entity: set<string>) returns (ok: bool)
    requires forall slug :: slug in entity <==> IsEntity(m, slug)
    ensures ok <==> ValidAttribute(m, a)
  {
    hide ValidOptions, ValidSlug, IsEntity, Blankless;
    ok := a.key != "" && Blankless(a.name) && ValidSlug(a.slug);
    var options := CheckOptions(a);
    ok := ok && options;
    if a.template != "" && !ValidSlug(a.template) {
      ok := false;
    }
    if a.kind.KReference? && a.target != HOST {
      ok := false;
    } else if a.kind.KReference? && a.template !in entity {
      ok := false;
    } else if !a.kind.KReference? && a.target != "" {
      ok := false;
    }
    if a.rank < 0 {
      ok := false;
    }
    var platforms := true;
    for i := 0 to |a.platforms|
      invariant platforms <==> forall j :: 0 <= j < i ==> a.platforms[j] in PLATFORMS
    {
      if a.platforms[i] !in PLATFORMS {
        platforms := false;
      }
    }
    ok := ok && platforms;
  }

  function LinkCount(s: seq<Attribute>, slug: string): nat {
    if s == [] then 0 else LinkCount(s[..|s| - 1], slug) + if IsLink(s[|s| - 1], slug) then 1 else 0
  }

  ghost predicate OnlyLink(s: seq<Attribute>, slug: string, i: nat) {
    i < |s| && IsLink(s[i], slug) && forall j :: 0 <= j < |s| && IsLink(s[j], slug) ==> j == i
  }

  lemma {:induction false} CountedNone(s: seq<Attribute>, slug: string)
    ensures LinkCount(s, slug) == 0 <==> forall j :: 0 <= j < |s| ==> !IsLink(s[j], slug)
  {
    hide IsLink;
    if s != [] {
      var n := |s| - 1;
      CountedNone(s[..n], slug);
      assert s == s[..n] + [s[n]];
    }
  }

  lemma {:induction false} CountedOnce(s: seq<Attribute>, slug: string)
    ensures LinkCount(s, slug) == 1 <==> exists i: nat :: OnlyLink(s, slug, i)
  {
    hide IsLink;
    if s != [] {
      var n := |s| - 1;
      var init := s[..n];
      assert s == init + [s[n]];
      CountedOnce(init, slug);
      CountedNone(init, slug);
      if IsLink(s[n], slug) {
        assert (forall j :: 0 <= j < n ==> !IsLink(init[j], slug)) <==> OnlyLink(s, slug, n);
      } else {
        forall i: nat ensures OnlyLink(s, slug, i) <==> OnlyLink(init, slug, i) {
          assert forall j :: 0 <= j < n ==> init[j] == s[j];
        }
      }
    }
  }

  function CountAt(links: map<string, nat>, slug: string): nat {
    if slug in links then links[slug] else 0
  }

  predicate DistinctKeys(s: seq<Attribute>) {
    forall i, j :: 0 <= i < j < |s| ==> s[i].key != s[j].key
  }

  method CheckAttributes(m: Manifest, entity: set<string>) returns (ok: bool)
    requires forall slug :: slug in entity <==> IsEntity(m, slug)
    ensures ok <==> (forall a :: a in m.attributes ==> ValidAttribute(m, a)) && DistinctKeys(m.attributes)
  {
    hide ValidAttribute, IsEntity;
    ok := true;
    var seen: set<string> := {};
    var s := m.attributes;
    for i := 0 to |s|
      invariant forall j :: 0 <= j < i ==> s[j].key in seen
      invariant forall key :: key in seen ==> exists j :: 0 <= j < i && s[j].key == key
      invariant ok <==>
                (forall j :: 0 <= j < i ==> ValidAttribute(m, s[j])) &&
                forall j, k :: 0 <= j < k < i ==> s[j].key != s[k].key
    {
      var good := CheckAttribute(m, s[i], entity);
      if !good || s[i].key in seen {
        ok := false;
      }
      seen := seen + {s[i].key};
    }
  }

  /** The host links on each entity template, of attributes that are valid. */
  method CountLinks(m: Manifest, entity: set<string>) returns (links: map<string, nat>)
    requires forall slug :: slug in entity <==> IsEntity(m, slug)
    requires forall a :: a in m.attributes ==> ValidAttribute(m, a)
    ensures forall slug :: CountAt(links, slug) == LinkCount(m.attributes, slug)
  {
    hide ValidAttribute, IsEntity;
    links := map[];
    var s := m.attributes;
    for i := 0 to |s|
      invariant forall slug :: CountAt(links, slug) == LinkCount(s[..i], slug)
    {
      var a := s[i];
      assert a in s && s[..i + 1][..i] == s[..i];
      LinkIsValid(m, a);
      if a.kind.KReference? {
        links := links[a.template := CountAt(links, a.template) + 1];
      }
    }
    assert s[..|s|] == s;
  }

  lemma LinkIsValid(m: Manifest, a: Attribute)
    requires ValidAttribute(m, a)
    ensures a.kind.KReference? ==> a.target == HOST && IsEntity(m, a.template)
  {}

  method CheckTemplates(m: Manifest) returns (ok: bool, entity: set<string>)
    ensures ok <==> forall t :: t in m.templates ==> ValidTemplate(t)
    ensures forall slug :: slug in entity <==> IsEntity(m, slug)
  {
    hide Blankless, ValidSlug;
    ok, entity := true, {};
    for i := 0 to |m.templates|
      invariant ok <==> forall j :: 0 <= j < i ==> ValidTemplate(m.templates[j])
      invariant forall slug :: slug in entity <==>
                exists j :: 0 <= j < i && m.templates[j].entity && m.templates[j].slug == slug
    {
      var t := m.templates[i];
      if !ValidSlug(t.slug) || !Blankless(t.name) {
        ok := false;
      }
      if t.entity {
        entity := entity + {t.slug};
        if t.slug == HOST {
          ok := false;
        }
      }
    }
    forall slug ensures slug in entity <==> IsEntity(m, slug) {
      if IsEntity(m, slug) {
        var t :| t in m.templates && t.entity && t.slug == slug;
        var j :| 0 <= j < |m.templates| && m.templates[j] == t;
      }
    }
  }

  method CheckManifest(m: Manifest) returns (ok: bool)
    ensures ok <==> ValidManifest(m)
  {
    hide ValidAttribute, ValidTemplate, IsEntity, ValidModuleName, OneLink;
    ok := ValidModuleName(m.name);
    var templates, entity := CheckTemplates(m);
    var attributes := CheckAttributes(m, entity);
    ok := ok && templates && attributes;
    if !attributes {
      return false;
    }
    var links := CountLinks(m, entity);
    var linked := true;
    for i := 0 to |m.templates|
      invariant linked <==> forall j :: 0 <= j < i && m.templates[j].entity ==> OneLink(m, m.templates[j].slug)
    {
      var t := m.templates[i];
      OneLinkCounted(m, t.slug);
      if t.entity && CountAt(links, t.slug) != 1 {
        linked := false;
      }
    }
    ok := ok && linked;
  }

  lemma OneLinkCounted(m: Manifest, slug: string)
    ensures OneLink(m, slug) <==> LinkCount(m.attributes, slug) == 1
  {
    CountedOnce(m.attributes, slug);
    if OneLink(m, slug) {
      var i :| 0 <= i < |m.attributes| && IsLink(m.attributes[i], slug) &&
        forall j :: 0 <= j < |m.attributes| && IsLink(m.attributes[j], slug) ==> j == i;
      assert OnlyLink(m.attributes, slug, i);
    }
  }

  /** Accepts exactly the valid manifests. */
  method Validate(ms: seq<Manifest>) returns (ok: bool)
    ensures ok <==> Valid(ms)
  {
    hide ValidManifest, All, DistinctSlugs;
    ok := true;
    var modules: set<string> := {};
    for i := 0 to |ms|
      invariant forall name :: name in modules <==> exists j :: 0 <= j < i && ms[j].name == name
      invariant ok <==>
                (forall j :: 0 <= j < i ==> ValidManifest(ms[j])) &&
                forall j, k :: 0 <= j < k < i ==> ms[j].name != ms[k].name
    {
      var good := CheckManifest(ms[i]);
      if !good || ms[i].name in modules {
        ok := false;
      }
      modules := modules + {ms[i].name};
    }
    var distinct := CheckSlugs(All(ms));
    ok := ok && distinct;
  }

  /** No slug is declared twice, in one module or in two. */
  method CheckSlugs(os: seq<Owned>) returns (ok: bool)
    ensures ok <==> DistinctSlugs(os)
  {
    ok := true;
    var owner: map<string, string> := map[];
    for i := 0 to |os|
      invariant forall slug :: slug in owner <==> exists j :: 0 <= j < i && os[j].a.slug == slug
      invariant ok <==> forall j, k :: 0 <= j < k < i ==> os[j].a.slug != os[k].a.slug
    {
      if os[i].a.slug in owner {
        ok := false;
      } else {
        owner := owner[os[i].a.slug := os[i].m.name];
      }
    }
  }
}
