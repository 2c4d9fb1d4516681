/**
  The document head every page sets: the page title, the canonical URL, the Open Graph
  and Twitter tags, and the keyword list, each built from the page's properties (with
  their defaults) and the site configuration.
 */
module Seo {
  import opened Optional
  import opened Strings
  import opened Brand

  /** The properties a page passes; an absent one takes its default. */
  datatype SeoProps = SeoProps(
    title: Option<string>,
    description: Option<string>,
    path: Option<string>,
    image: Option<string>,
    article: Option<bool>)

  /** The site settings the head uses. */
  datatype Site = Site(name: string, siteUrl: string, keywords: seq<string>)

  /** The tags of the head, other than the structured data. */
  datatype Head = Head(
    title: string,
    description: string,
    keywords: string,
    canonical: string,
    ogType: string,
    ogTitle: string,
    ogDescription: string,
    ogUrl: string,
    ogImage: string,
    ogSiteName: string,
    twitterCard: string,
    twitterTitle: string,
    twitterDescription: string,
    twitterImage: string)

  const DefaultDescription: string := "We turn staffing operations into a growth system: predictable pipeline, clean KPIs, and practical automation."
  const DefaultImage: string := "/og.png"
  const Separator: string := " | "
  const Tagline: string := "Staffing Growth Consulting"

  /** `pageTitle`: a non-empty title followed by the brand name, or the brand name followed by
      the fixed tagline. */
  function PageTitle(title: Option<string>, name: string): (t: string)
    ensures title.Some? && title.value != "" ==> t == title.value + Separator + name
    ensures title.None? || title.value == "" ==> t == name + Separator + Tagline
  {
    if title.Some? && title.value != "" then title.value + Separator + name
    else name + Separator + Tagline
  }

  /** Every page title mentions the brand. */
  lemma TitleNamesBrand(title: Option<string>, name: string)
    ensures Contains(PageTitle(title, name), name)
  {
    var t := PageTitle(title, name);
    if title.Some? && title.value != "" {
      assert t[|title.value| + 3..|title.value| + 3 + |name|] == name;
      ContainsAt(t, name, |title.value| + 3);
    } else {
      assert t[0..|name|] == name;
      ContainsAt(t, name, 0);
    }
  }

  /** `url`: the site URL followed by the page path, empty by default. */
  function Url(siteUrl: string, path: Option<string>): (u: string)
    ensures StartsWith(u, siteUrl)
    ensures path.None? ==> u == siteUrl
    ensures path.Some? ==> u[|siteUrl|..] == path.value
  {
    siteUrl + path.GetOr("")
  }

  /** The image tags: the site URL followed by the page image, `/og.png` by default. */
  function ImageUrl(siteUrl: string, image: Option<string>): (u: string)
    ensures StartsWith(u, siteUrl)
    ensures u[|siteUrl|..] == image.GetOr(DefaultImage)
  {
    siteUrl + image.GetOr(DefaultImage)
  }

  /** `og:type`: `article` for an article, `website` otherwise and by default. */
  function OgType(article: Option<bool>): (t: string)
    ensures t == "article" <==> article == Some(true)
    ensures t == "website" <==> article != Some(true)
  {
    if article.GetOr(false) then "article" else "website"
  }

  /** The keywords tag: the keyword list joined with a comma and a space. Each keyword sits
      at its offset (the keywords before it and one `", "` after each), a `", "` follows
      every keyword but the last, and nothing else is in the text. */
  function KeywordsContent(keywords: seq<string>): (k: string)
    ensures keywords != [] ==> |k| == TotalLength(keywords) + 2 * (|keywords| - 1)
    ensures keywords == [] ==> k == ""
    ensures forall i :: 0 <= i < |keywords| ==> OccursAt(k, keywords[i], Offset(keywords, ", ", i))
    ensures forall i :: 0 <= i < |keywords| - 1 ==> OccursAt(k, ", ", Offset(keywords, ", ", i) + |keywords[i]|)
  {
    JoinPlacesParts(keywords, ", ");
    JoinPlacesSeparators(keywords, ", ");
    if keywords == [] then Join(keywords, ", ")
    else
      JoinLength(keywords, ", ");
      Join(keywords, ", ")
  }

  /** The whole head for one page. */
  function SeoHead(props: SeoProps, site: Site): (h: Head)
    ensures h.title == h.ogTitle == h.twitterTitle == PageTitle(props.title, site.name)
    ensures h.description == h.ogDescription == h.twitterDescription == props.description.GetOr(DefaultDescription)
    ensures h.canonical == h.ogUrl == Url(site.siteUrl, props.path)
    ensures h.ogImage == h.twitterImage == ImageUrl(site.siteUrl, props.image)
    ensures h.ogType == OgType(props.article)
    ensures h.keywords == KeywordsContent(site.keywords)
    ensures h.ogSiteName == site.name
  {
    var title := PageTitle(props.title, site.name);
    var description := props.description.GetOr(DefaultDescription);
    var url := Url(site.siteUrl, props.path);
    var image := ImageUrl(site.siteUrl, props.image);
    Head(title, description, KeywordsContent(site.keywords), url, OgType(props.article),
      title, description, url, image, site.name,
      "summary_large_image", title, description, image)
  }

  /** A page that passes nothing gets the brand title, the site URL itself as canonical URL,
      the `website` type and the default image. */
  lemma DefaultHead(site: Site)
    ensures var h := SeoHead(SeoProps(None, None, None, None, None), site);
      && h.title == site.name + " | Staffing Growth Consulting"
      && h.canonical == site.siteUrl
      && h.ogType == "website"
      && h.ogImage == site.siteUrl + "/og.png"
      && h.description == DefaultDescription
  {
    var h := SeoHead(SeoProps(None, None, None, None, None), site);
    assert h.title == PageTitle(None, site.name);
    assert h.canonical == Url(site.siteUrl, None);
    assert h.ogType == OgType(None);
    assert h.ogImage == ImageUrl(site.siteUrl, None);
  }

  /** The configured site with no environment overrides. */
  function DefaultSite(): (site: Site)
    ensures site.name == DefaultName && site.siteUrl == DefaultSiteUrl
  {
    Site(Setting(None, DefaultName), Setting(None, DefaultSiteUrl), SeoKeywords)
  }

  /** The keywords tag of the default site is the ten keywords with nine separators. */
  lemma DefaultKeywordsLength()
    ensures |SeoHead(SeoProps(None, None, None, None, None), DefaultSite()).keywords|
         == TotalLength(SeoKeywords) + 18
  {
  }
}
