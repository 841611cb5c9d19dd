/** Page head metadata: path normalisation, `{token}` substitution, the page
    title built from a template, and the eight meta entries plus the optional
    canonical link. */
module Seo {
  import opened Text
  import opened Http

  /** `normalizePath`: the trimmed path, with a leading `/` added when missing;
      a blank path is the root. */
  function NormalizePath(path: string): (r: string)
    ensures |r| > 0 && r[0] == '/'
    ensures Trim(path) == "" ==> r == "/"
    ensures Trim(path) != "" ==> r == (if Trim(path)[0] == '/' then Trim(path) else "/" + Trim(path))
  {
    var trimmed := Trim(path);
    if trimmed == "" then "/"
    else if trimmed[0] == '/' then trimmed
    else "/" + trimmed
  }

  /** Normalising a normalised path changes nothing. */
  lemma NormalizePathIdempotent(path: string)
    ensures NormalizePath(NormalizePath(path)) == NormalizePath(path)
  {
    NormalizedIsTrimmed(path);
    NormalizeFixed(NormalizePath(path));
  }

  /** A normalised path has no whitespace at either end. */
  lemma NormalizedIsTrimmed(path: string)
    ensures Trimmed(NormalizePath(path))
  {
    var t := Trim(path);
    TrimTrimmed(path);
    if t != [] && t[0] != '/' {
      PrependSlashTrimmed(t);
    }
  }

  /** Prefixing `/` to a non-empty trimmed string keeps it trimmed. */
  lemma PrependSlashTrimmed(t: string)
    requires t != [] && Trimmed(t)
    ensures Trimmed("/" + t)
  {
    var r := "/" + t;
    assert r[|r| - 1] == t[|t| - 1];
  }

  /** A trimmed path that starts with `/` is already normalised. */
  lemma NormalizeFixed(r: string)
    requires Trimmed(r) && r != [] && r[0] == '/'
    ensures NormalizePath(r) == r
  {
    TrimFixed(r);
  }

  /** The number of leading word characters (`\w`) of `s`. */
  function WordPrefixLen(s: string): (n: nat)
    ensures n <= |s|
    ensures forall i :: 0 <= i < n ==> IsWordChar(s[i])
    ensures n < |s| ==> !IsWordChar(s[n])
  {
    if s != [] && IsWordChar(s[0]) then 1 + WordPrefixLen(s[1..]) else 0
  }

  predicate IsTokenName(name: string) {
    |name| > 0 && forall i :: 0 <= i < |name| ==> IsWordChar(name[i])
  }

  /** The name of the `{name}` placeholder `\{(\w+)\}` matches at the start of
      `s`, if any. */
  function TokenAt(s: string): (t: Option<string>)
    ensures t.Some? ==> IsTokenName(t.value) && |s| >= |t.value| + 2 && s == "{" + t.value + "}" + s[|t.value| + 2..]
  {
    if s == [] || s[0] != '{' then None
    else
      var n := WordPrefixLen(s[1..]);
      if n >= 1 && n + 1 < |s| && s[n + 1] == '}' then
        assert s == "{" + s[1..n + 1] + "}" + s[n + 2..];
        Some(s[1..n + 1])
      else None
  }

  /** `applyTokens`: one left-to-right pass of
      `replace(/\{(\w+)\}/g, (_, t) => vars[t] ?? '{' + t + '}')`. */
  function ApplyTokens(s: string, vars: Dict): string
    decreases |s|
  {
    if s == [] then ""
    else
      match TokenAt(s)
      case Some(name) => Get(vars, name).GetOr("{" + name + "}") + ApplyTokens(s[|name| + 2..], vars)
      case None => [s[0]] + ApplyTokens(s[1..], vars)
  }

  /** A placeholder is replaced by its value, which is not scanned again, and
      the rest of the text is processed on its own; an unknown placeholder
      stays as written. */
  lemma TokenThenRest(name: string, rest: string, vars: Dict)
    requires IsTokenName(name)
    ensures ApplyTokens("{" + name + "}" + rest, vars) == Get(vars, name).GetOr("{" + name + "}") + ApplyTokens(rest, vars)
  {
    var s := "{" + name + "}" + rest;
    assert s[1..] == name + "}" + rest;
    WordPrefixExact(name, rest);
    assert s[1..|name| + 1] == name;
    assert s[|name| + 2..] == rest;
  }

  lemma {:induction false} WordPrefixExact(name: string, rest: string)
    requires forall i :: 0 <= i < |name| ==> IsWordChar(name[i])
    ensures WordPrefixLen(name + "}" + rest) == |name|
  {
    if name != [] {
      assert (name + "}" + rest)[1..] == name[1..] + "}" + rest;
      WordPrefixExact(name[1..], rest);
    }
  }

  /** Text without `{` is returned unchanged. */
  lemma {:induction false} ApplyTokensNoBrace(s: string, vars: Dict)
    requires forall i :: 0 <= i < |s| ==> s[i] != '{'
    ensures ApplyTokens(s, vars) == s
  {
    if s != [] {
      ApplyTokensNoBrace(s[1..], vars);
    }
  }

  /** With no variables every placeholder stays verbatim: the text is unchanged. */
  lemma {:induction false} ApplyTokensNoVars(s: string)
    ensures ApplyTokens(s, []) == s
    decreases |s|
  {
    if s != [] {
      match TokenAt(s)
      case Some(name) =>
        ApplyTokensNoVars(s[|name| + 2..]);
      case None =>
        ApplyTokensNoVars(s[1..]);
    }
  }

  /** The parts of the site configuration the head builder reads. */
  datatype MetaPage = MetaPage(title: string, description: string, path: string, ogType: Option<string>)

  datatype SiteMeta = SiteMeta(
    clinicName: Option<string>,
    city: Option<string>,
    titleTemplate: string,
    fallbackTitle: string,
    defaultDescription: string,
    ogLocale: Option<string>,
    twitterCard: Option<string>,
    pages: map<string, MetaPage>,
    siteUrl: Option<string>)

  /** The variables every template sees: trimmed clinic name and city. */
  function SiteVars(c: SiteMeta): Dict {
    [("clinicName", Trim(c.clinicName.GetOr(""))), ("city", Trim(c.city.GetOr("")))]
  }

  /** `buildTitleFromConfig`: a blank page title selects the fallback title,
      any other the title template; both see the trimmed page title as
      `pageTitle`. */
  function BuildTitle(c: SiteMeta, pageTitle: string): (r: string)
    ensures var vars := SiteVars(c) + [("pageTitle", Trim(pageTitle))];
            r == if IsBlank(pageTitle) then ApplyTokens(c.fallbackTitle, vars) else ApplyTokens(c.titleTemplate, vars)
  {
    TrimEmptyIffBlank(pageTitle);
    var vars := SiteVars(c) + [("pageTitle", Trim(pageTitle))];
    if Trim(pageTitle) == "" then ApplyTokens(c.fallbackTitle, vars) else ApplyTokens(c.titleTemplate, vars)
  }

  /** `a ?? b ?? fallback`. */
  function FirstOf(a: Option<string>, b: Option<string>, fallback: string): (r: string)
    ensures a.Some? ==> r == a.value
    ensures a.None? && b.Some? ==> r == b.value
    ensures a.None? && b.None? ==> r == fallback
  {
    if a.Some? then a.value else b.GetOr(fallback)
  }

  datatype MetaInput = MetaInput(
    page: Option<string>,
    title: Option<string>,
    description: Option<string>,
    path: Option<string>,
    ogType: Option<string>,
    ogLocale: Option<string>,
    twitterCard: Option<string>)

  /** One meta entry: its key, whether it is a `name` or a `property`
      attribute, and its content. */
  datatype MetaTag = MetaTag(key: string, byProperty: bool, content: string)

  datatype Head = Head(title: string, meta: seq<MetaTag>, canonical: seq<string>)

  /** The selected page configuration, if the page key is given and known. */
  function PageConfig(c: SiteMeta, input: MetaInput): Option<MetaPage> {
    if Truthy(input.page) && input.page.value in c.pages then Some(c.pages[input.page.value]) else None
  }

  function PageTitle(p: Option<MetaPage>): Option<string> {
    if p.Some? then Some(p.value.title) else None
  }

  function PageDescription(p: Option<MetaPage>): Option<string> {
    if p.Some? then Some(p.value.description) else None
  }

  function PagePath(p: Option<MetaPage>): Option<string> {
    if p.Some? then Some(p.value.path) else None
  }

  function PageOgType(p: Option<MetaPage>): Option<string> {
    if p.Some? then p.value.ogType else None
  }

  /** `resolveCanonicalUrl`: nothing without a site URL; otherwise the
      normalised path resolved against it, where `resolve` stands for
      `new URL(path, base).toString()` and is `None` when that throws. */
  function CanonicalUrl(c: SiteMeta, path: string, resolve: (string, string) -> Option<string>): (r: Option<string>)
    ensures !Truthy(c.siteUrl) ==> r.None?
    ensures Truthy(c.siteUrl) ==> r == resolve(NormalizePath(path), c.siteUrl.value)
  {
    if Truthy(c.siteUrl) then resolve(NormalizePath(path), c.siteUrl.value) else None
  }

  /** Surrounding whitespace and a missing leading `/` never change the
      canonical URL: a path and its normalised form resolve alike. */
  lemma CanonicalOfNormalized(c: SiteMeta, path: string, resolve: (string, string) -> Option<string>)
    ensures CanonicalUrl(c, NormalizePath(path), resolve) == CanonicalUrl(c, path, resolve)
  {
    NormalizePathIdempotent(path);
  }

  /** The eight meta entries, in order: the description, four Open Graph
      properties, and three Twitter card names. */
  function MetaTags(title: string, description: string, ogType: string, ogLocale: string, twitterCard: string): (m: seq<MetaTag>)
    ensures |m| == 8
    ensures m[1].content == title && m[6].content == title
    ensures m[0].content == description && m[2].content == description && m[7].content == description
    ensures m[3].content == ogType && m[4].content == ogLocale && m[5].content == twitterCard
    ensures forall i :: 0 <= i < |m| ==> (m[i].byProperty <==> 1 <= i <= 4)
  {
    [ MetaTag("description", false, description),
      MetaTag("og:title", true, title),
      MetaTag("og:description", true, description),
      MetaTag("og:type", true, ogType),
      MetaTag("og:locale", true, ogLocale),
      MetaTag("twitter:card", false, twitterCard),
      MetaTag("twitter:title", false, title),
      MetaTag("twitter:description", false, description) ]
  }

  /** `buildMeta(input)`: title, description and path each from the explicit
      input, else the page configuration, else the site default. */
  function BuildMeta(c: SiteMeta, input: MetaInput, resolve: (string, string) -> Option<string>): (h: Head)
    ensures var p := PageConfig(c, input);
            var vars := SiteVars(c);
            var description := Trim(ApplyTokens(FirstOf(input.description, PageDescription(p), c.defaultDescription), vars));
            var canonical := CanonicalUrl(c, FirstOf(input.path, PagePath(p), "/"), resolve);
            && h.title == BuildTitle(c, ApplyTokens(FirstOf(input.title, PageTitle(p), ""), vars))
            && h.meta == MetaTags(h.title, description, FirstOf(input.ogType, PageOgType(p), "website"),
                                  FirstOf(input.ogLocale, c.ogLocale, "ar_AR"),
                                  FirstOf(input.twitterCard, c.twitterCard, "summary_large_image"))
            && h.canonical == if Truthy(canonical) then [canonical.value] else []
  {
    var p := PageConfig(c, input);
    var vars := SiteVars(c);
    var title := BuildTitle(c, ApplyTokens(FirstOf(input.title, PageTitle(p), ""), vars));
    var description := Trim(ApplyTokens(FirstOf(input.description, PageDescription(p), c.defaultDescription), vars));
    var canonical := CanonicalUrl(c, FirstOf(input.path, PagePath(p), "/"), resolve);
    var ogType := FirstOf(input.ogType, PageOgType(p), "website");
    var ogLocale := FirstOf(input.ogLocale, c.ogLocale, "ar_AR");
    var twitterCard := FirstOf(input.twitterCard, c.twitterCard, "summary_large_image");
    Head(title, MetaTags(title, description, ogType, ogLocale, twitterCard),
         if Truthy(canonical) then [canonical.value] else [])
  }

  /** Without a site URL there is no canonical link; with one, at most one. */
  lemma CanonicalAtMostOne(c: SiteMeta, input: MetaInput, resolve: (string, string) -> Option<string>)
    ensures |BuildMeta(c, input, resolve).canonical| <= 1
    ensures !Truthy(c.siteUrl) ==> BuildMeta(c, input, resolve).canonical == []
  {
  }

  /** Every description entry is already trimmed: trimming it again changes
      nothing, and it neither starts nor ends with whitespace. */
  lemma DescriptionTrimmed(c: SiteMeta, input: MetaInput, resolve: (string, string) -> Option<string>)
    ensures var m := BuildMeta(c, input, resolve).meta;
            && |m| == 8 && Trimmed(m[0].content) && Trim(m[0].content) == m[0].content
            && m[2].content == m[0].content && m[7].content == m[0].content
  {
    var p := PageConfig(c, input);
    var raw := ApplyTokens(FirstOf(input.description, PageDescription(p), c.defaultDescription), SiteVars(c));
    TrimShape(raw);
    TrimFixed(Trim(raw));
  }
}
