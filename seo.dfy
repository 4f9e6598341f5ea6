/**
 * Page metadata: the site's base URL, absolute URLs built on it, and the
 * fields of the metadata record. The configuration values are inputs.
 */
module Seo {
  import opened Wrappers
  import opened Text

  const LOCAL_BASE_URL: string := "http://localhost:3000"

  /** `s.replace(/\/$/, "")`: drops one trailing slash. */
  function DropTrailingSlash(s: string): (r: string)
    ensures s == r + "/" || (r == s && (s == [] || s[|s| - 1] != '/'))
    ensures StartsWith(s, r) && |s| - |r| <= 1
  {
    if s != [] && s[|s| - 1] == '/' then s[..|s| - 1] else s
  }

  /**
   * `baseUrl`: a configured URL that starts with "http", else the configured
   * domain under https, else the local development URL; without one trailing slash.
   */
  function BaseUrl(appUrl: Option<string>, domainName: Option<string>): (r: string)
    ensures StartsWith(r, "http")
    ensures appUrl.Some? && StartsWith(appUrl.value, "http") ==> r == DropTrailingSlash(appUrl.value)
    ensures !(appUrl.Some? && StartsWith(appUrl.value, "http")) && domainName.Some? && domainName.value != [] ==>
      r == "https://" + DropTrailingSlash(domainName.value)
    ensures !(appUrl.Some? && StartsWith(appUrl.value, "http")) && (domainName.None? || domainName.value == []) ==>
      r == LOCAL_BASE_URL
  {
    if appUrl.Some? && StartsWith(appUrl.value, "http") then
      var s := appUrl.value;
      if s != [] && s[|s| - 1] == '/' then
        assert StartsWith(s, "http") && |s| >= 5;
        assert s[..|s| - 1][..4] == s[..4];
        DropTrailingSlash(s)
      else DropTrailingSlash(s)
    else if domainName.Some? && domainName.value != "" then
      var r := "https://" + DropTrailingSlash(domainName.value);
      assert r[..4] == "http";
      r
    else LOCAL_BASE_URL
  }

  /** `toAbsoluteUrl`: absolute URLs are kept, anything else is put under the base URL. */
  function ToAbsoluteUrl(baseUrl: string, relative: Option<string>): (r: string)
    ensures relative.None? || relative.value == [] ==> r == baseUrl
    ensures relative.Some? && StartsWith(relative.value, "http") ==> r == relative.value
    ensures relative.Some? && relative.value != [] && !StartsWith(relative.value, "http") ==>
      StartsWith(r, baseUrl) && r[|baseUrl|..] == (if relative.value[0] == '/' then relative.value else "/" + relative.value)
  {
    if relative.None? || relative.value == "" then baseUrl
    else if StartsWith(relative.value, "http") then relative.value
    else
      var normalized := if StartsWith(relative.value, "/") then relative.value else "/" + relative.value;
      baseUrl + normalized
  }

  /** Under a base URL that starts with "http", every result is absolute, so a second pass changes nothing. */
  lemma AbsoluteUrlIdempotent(baseUrl: string, relative: Option<string>)
    requires StartsWith(baseUrl, "http")
    ensures StartsWith(ToAbsoluteUrl(baseUrl, relative), "http")
    ensures ToAbsoluteUrl(baseUrl, Some(ToAbsoluteUrl(baseUrl, relative))) == ToAbsoluteUrl(baseUrl, relative)
  {
    var r := ToAbsoluteUrl(baseUrl, relative);
    if relative.Some? && relative.value != [] && !StartsWith(relative.value, "http") {
      assert r[..4] == baseUrl[..4];
    }
  }

  /** A relative path is found again at the end of its absolute form. */
  lemma AbsoluteUrlKeepsPath(baseUrl: string, relative: string)
    requires relative != [] && !StartsWith(relative, "http")
    ensures var r := ToAbsoluteUrl(baseUrl, Some(relative));
      |relative| <= |r| && r[|r| - |relative|..] == relative
  {
    var r := ToAbsoluteUrl(baseUrl, Some(relative));
    if relative[0] == '/' {
      assert r[|r| - |relative|..] == r[|baseUrl|..];
    } else {
      assert r[|r| - |relative|..] == r[|baseUrl|..][1..];
    }
  }

  /** The optional fields of `getSEOTags`' argument. */
  datatype SeoInput = SeoInput(
    title: Option<string>, description: Option<string>,
    canonicalUrlRelative: Option<string>, ogImageUrl: Option<string>, noIndex: Option<bool>)

  datatype OpenGraph = OpenGraph(
    title: string, description: string, url: string, siteName: string, kind: string,
    images: Option<seq<string>>)

  datatype TwitterCard = TwitterCard(card: string, title: string, description: string, images: Option<seq<string>>)

  datatype Robots = Robots(index: bool, follow: bool)

  /** The metadata record the pages export. */
  datatype Metadata = Metadata(
    title: string, description: string, metadataBase: string, manifest: string,
    canonical: Option<string>, openGraph: OpenGraph, twitter: TwitterCard,
    icon: string, appleIcon: string, robots: Option<Robots>)

  /** The site configuration `getSEOTags` reads. */
  datatype SiteConfig = SiteConfig(appName: string, appDescription: string, appUrl: Option<string>, domainName: Option<string>)

  /** `getSEOTags`. */
  function GetSeoTags(config: SiteConfig, input: SeoInput): (m: Metadata)
    ensures m.title == input.title.GetOr(config.appName) && m.openGraph.title == m.title && m.twitter.title == m.title
    ensures m.description == input.description.GetOr(config.appDescription)
    ensures m.openGraph.description == m.description && m.twitter.description == m.description
    ensures m.metadataBase == BaseUrl(config.appUrl, config.domainName)
    ensures m.canonical == Some(m.openGraph.url)
    ensures m.openGraph.url == ToAbsoluteUrl(m.metadataBase, input.canonicalUrlRelative)
    ensures m.twitter.card == "summary_large_image" <==> input.ogImageUrl.Some? && input.ogImageUrl.value != []
    ensures m.twitter.card == "summary" <==> !(input.ogImageUrl.Some? && input.ogImageUrl.value != [])
    ensures m.twitter.images.Some? <==> input.ogImageUrl.Some? && input.ogImageUrl.value != []
    ensures m.openGraph.images == m.twitter.images
    ensures m.twitter.images.Some? ==> m.twitter.images.value == [ToAbsoluteUrl(m.metadataBase, input.ogImageUrl)]
    ensures m.robots.Some? <==> input.noIndex == Some(true)
    ensures m.robots.Some? ==> !m.robots.value.index && !m.robots.value.follow
  {
    var base := BaseUrl(config.appUrl, config.domainName);
    var title := input.title.GetOr(config.appName);
    var description := input.description.GetOr(config.appDescription);
    var canonical := ToAbsoluteUrl(base, input.canonicalUrlRelative);
    var ogImage := if input.ogImageUrl.Some? && input.ogImageUrl.value != "" then Some(ToAbsoluteUrl(base, input.ogImageUrl)) else None;
    var images := if ogImage.Some? then Some([ogImage.value]) else None;
    Metadata(
      title, description, base, "/manifest.json",
      if canonical != "" then Some(canonical) else None,
      OpenGraph(title, description, canonical, config.appName, "website", images),
      TwitterCard(if ogImage.Some? then "summary_large_image" else "summary", title, description, images),
      "/icons/icon.svg", "/icons/icon.svg",
      if input.noIndex == Some(true) then Some(Robots(false, false)) else None)
  }
}
