/**
 * The plugin configuration: the SEO plugin's title and URL generators and
 * the search plugin's field list and read access.  `getServerSideURL()` and
 * the `searchFields` overrides are not part of this model and are parameters.
 */
module Plugins {
  import opened Wrappers

  /** The fields of a page the generators read; the SEO plugin may pass no document. */
  datatype SeoDoc = SeoDoc(pageTitle: Option<string>, slug: Option<string>)

  const SiteName := "Backend"
  const TitleSuffix := " | Backend"

  /** `doc?.pageTitle` is truthy. */
  predicate HasTitle(doc: Option<SeoDoc>) {
    doc.Some? && doc.value.pageTitle.Some? && doc.value.pageTitle.value != ""
  }

  /** `doc?.slug` is truthy. */
  predicate HasSlug(doc: Option<SeoDoc>) {
    doc.Some? && doc.value.slug.Some? && doc.value.slug.value != ""
  }

  function GenerateTitle(doc: Option<SeoDoc>): (t: string)
    ensures t == SiteName <==> !HasTitle(doc)
    ensures HasTitle(doc) ==>
              |t| > |TitleSuffix| &&
              t[|t| - |TitleSuffix|..] == TitleSuffix &&
              t[..|t| - |TitleSuffix|] == doc.value.pageTitle.value
  {
    if HasTitle(doc) then doc.value.pageTitle.value + TitleSuffix else SiteName
  }

  /** Distinct page titles give distinct browser titles. */
  lemma GenerateTitleInjective(a: Option<SeoDoc>, b: Option<SeoDoc>)
    requires HasTitle(a) && HasTitle(b)
    requires GenerateTitle(a) == GenerateTitle(b)
    ensures a.value.pageTitle == b.value.pageTitle
  {
    var t := GenerateTitle(a);
    assert t[..|t| - |TitleSuffix|] == a.value.pageTitle.value;
    assert t[..|t| - |TitleSuffix|] == b.value.pageTitle.value;
  }

  function GenerateUrl(serverUrl: string, doc: Option<SeoDoc>): (u: string)
    ensures serverUrl <= u
    ensures u == serverUrl <==> !HasSlug(doc)
    ensures HasSlug(doc) ==> u[|serverUrl|..] == "/" + doc.value.slug.value
  {
    if HasSlug(doc) then serverUrl + "/" + doc.value.slug.value else serverUrl
  }

  /** Under one server URL, distinct slugs give distinct URLs. */
  lemma GenerateUrlInjective(serverUrl: string, a: Option<SeoDoc>, b: Option<SeoDoc>)
    requires HasSlug(a) && HasSlug(b)
    requires GenerateUrl(serverUrl, a) == GenerateUrl(serverUrl, b)
    ensures a.value.slug == b.value.slug
  {
    var u := GenerateUrl(serverUrl, a);
    assert u[|serverUrl|..] == "/" + a.value.slug.value;
    assert u[|serverUrl|..] == "/" + b.value.slug.value;
    assert a.value.slug.value == ("/" + a.value.slug.value)[1..];
    assert b.value.slug.value == ("/" + b.value.slug.value)[1..];
  }

  /** `[...defaultFields, ...searchFields]`: the defaults first, in order, then the overrides. */
  function SearchFields<F>(defaultFields: seq<F>, searchFields: seq<F>): (r: seq<F>)
    ensures |r| == |defaultFields| + |searchFields|
    ensures r[..|defaultFields|] == defaultFields && r[|defaultFields|..] == searchFields
  {
    defaultFields + searchFields
  }

  /** The search collection's `read: () => false`. */
  function SearchReadAllowed(): (r: bool)
    ensures !r
  {
    false
  }
}
