/**
 * Page metadata and schema.org records for the portfolio (src/lib/seo.ts).
 *
 * Every input property is optional in the source; an omitted one is `None` here and is
 * replaced by its default. The Open Graph fields that the source adds through a conditional
 * spread are `Option`s in the result: `None` means the key is absent from the record.
 */
module Seo {
  import opened Wrappers

  // ---------------------------------------------------------------------------------------------
  // Constants of generateSEO

  /**
   * The portfolio's texts: the defaults of generateSEO's parameters and the site name it
   * writes. The properties below are proved for any such table, so that no proof has to
   * look inside the long literals of `PortfolioTexts()`.
   */
  datatype SiteTexts = SiteTexts(
    defaultTitle: string,
    defaultDescription: string,
    defaultImage: string,
    defaultUrl: string,
    siteName: string)

  function PortfolioTexts(): SiteTexts {
    SiteTexts(
      "Mudit Garg - Full Stack "
        + "Developer & Software "
        + "Engineer",
      "Based in Germany, I'm a "
        + "Geospatial Developer and "
        + "Software Engineer "
        + "specializing in maps, "
        + "data visualization, and "
        + "web technologies.",
      "https://ronitjadhav."
        + "github.io/ronit.io/"
        + "ronit.png",
      "https://ronitjadhav."
        + "github.io/ronit.io",
      "Mudit Garg Portfolio")
  }

  const Locale: string := "en_US"
  const TwitterCard: string := "summary_large_image"
  const PreviewWidth: int := 1200
  const PreviewHeight: int := 630

  /** The 13 keywords every page carries, in this order; no keyword appears twice. */
  function BaseKeywords(): (r: seq<string>)
    ensures |r| == 13
    ensures forall i, j :: 0 <= i < j < |r| ==> r[i] != r[j]
  {
    [
      "Software Engineer",
      "Leaflet",
      "Python",
      "JavaScript",
      "TypeScript",
      "React",
      "Next.js",
      "NodeJS",
      "ExpressJS",
      "MongoDB",
      "PostgreSQL",
      "Web Development",
      "Data Visualization"
    ]
  }

  // ---------------------------------------------------------------------------------------------
  // Inputs and outputs of generateSEO

  datatype PageType = Website | Article | Profile

  /** The overrides a page passes; `None` is a property it leaves out. */
  datatype SeoProps = SeoProps(
    title: Option<string>,
    description: Option<string>,
    keywords: Option<seq<string>>,
    image: Option<string>,
    url: Option<string>,
    pageType: Option<PageType>,
    publishedTime: Option<string>,
    modifiedTime: Option<string>,
    section: Option<string>,
    tags: Option<seq<string>>)

  /** `generateSEO()` with no argument: every property left out. */
  const NoProps: SeoProps := SeoProps(None, None, None, None, None, None, None, None, None, None)

  datatype Alternates = Alternates(canonical: string)

  datatype OgImage = OgImage(url: string, width: int, height: int, alt: string)

  datatype OpenGraph = OpenGraph(
    pageType: PageType,
    title: string,
    description: string,
    url: string,
    siteName: string,
    images: seq<OgImage>,
    locale: string,
    publishedTime: Option<string>,
    modifiedTime: Option<string>,
    section: Option<string>,
    tags: Option<seq<string>>)

  datatype Twitter = Twitter(card: string, title: string, description: string, images: seq<string>)

  datatype Robots = Robots(index: bool, follow: bool)

  datatype Metadata = Metadata(
    title: string,
    description: string,
    keywords: seq<string>,
    alternates: Alternates,
    openGraph: OpenGraph,
    twitter: Twitter,
    robots: Robots)

  // ---------------------------------------------------------------------------------------------
  // JavaScript truthiness of the optional values

  /** `s` is truthy in JavaScript: present and not the empty string. */
  predicate Truthy(s: Option<string>) {
    s.Some? && s.value != ""
  }

  /**
   * The key of a `...(s && { s })` spread: a truthy value is kept unchanged, anything else
   * leaves the key out, so the key never holds an invented or empty value.
   */
  function WhenTruthy(s: Option<string>): (r: Option<string>)
    ensures r == None || r == s
    ensures r.Some? ==> r.value != ""
    ensures Truthy(s) ==> r == s
  {
    if Truthy(s) then s else None
  }

  /**
   * The key of a `...(tags.length > 0 && { tags })` spread: an empty list leaves the key out
   * (although `[]` is truthy in JavaScript), any other list is kept unchanged.
   */
  function WhenNonEmpty(tags: seq<string>): (r: Option<seq<string>>)
    ensures r == None || r == Some(tags)
    ensures r.Some? ==> r.value != []
    ensures tags != [] ==> r == Some(tags)
  {
    if |tags| > 0 then Some(tags) else None
  }

  // ---------------------------------------------------------------------------------------------
  // generateSEO

  /**
   * `generateSEO(props)` with the portfolio's texts: fills in the defaults and builds the page
   * metadata.
   */
  function GenerateSEO(props: SeoProps): (r: Metadata)
    ensures r.openGraph.siteName == PortfolioTexts().siteName
    ensures props == NoProps ==>
      && r.title == PortfolioTexts().defaultTitle
      && r.description == PortfolioTexts().defaultDescription
      && r.alternates.canonical == PortfolioTexts().defaultUrl
      && r.twitter.images == [PortfolioTexts().defaultImage]
      && r.keywords == BaseKeywords()
  {
    var texts := PortfolioTexts();
    DefaultMetadata(texts);
    GenerateSEOWith(texts, props)
  }

  /**
   * generateSEO over a given table of texts. The result is internally consistent: the social
   * records repeat the page's title, description, address and image, and the keyword list
   * always starts with the base keywords.
   */
  function GenerateSEOWith(texts: SiteTexts, props: SeoProps): (r: Metadata)
    ensures r.openGraph.title == r.title && r.twitter.title == r.title
    ensures r.openGraph.description == r.description && r.twitter.description == r.description
    ensures r.alternates.canonical == r.openGraph.url
    ensures |r.openGraph.images| == 1 && r.twitter.images == [r.openGraph.images[0].url]
    ensures r.openGraph.images[0].alt == r.title
    ensures BaseKeywords() <= r.keywords
  {
    var title := props.title.GetOr(texts.defaultTitle);
    var description := props.description.GetOr(texts.defaultDescription);
    var keywords := props.keywords.GetOr([]);
    var image := props.image.GetOr(texts.defaultImage);
    var url := props.url.GetOr(texts.defaultUrl);
    var pageType := props.pageType.GetOr(Website);
    var tags := props.tags.GetOr([]);
    Metadata(
      title,
      description,
      BaseKeywords() + keywords + tags,
      Alternates(url),
      OpenGraph(
        pageType, title, description, url, texts.siteName,
        [OgImage(image, PreviewWidth, PreviewHeight, title)],
        Locale,
        WhenTruthy(props.publishedTime),
        WhenTruthy(props.modifiedTime),
        WhenTruthy(props.section),
        WhenNonEmpty(tags)),
      Twitter(TwitterCard, title, description, [image]),
      Robots(true, true))
  }

  /** With no argument every field takes its default and the keywords are exactly the base list. */
  lemma DefaultMetadata(texts: SiteTexts)
    ensures var r := GenerateSEOWith(texts, NoProps);
      && r.title == texts.defaultTitle
      && r.description == texts.defaultDescription
      && r.alternates.canonical == texts.defaultUrl
      && r.openGraph.url == texts.defaultUrl
      && r.openGraph.images == [OgImage(texts.defaultImage, 1200, 630, texts.defaultTitle)]
      && r.twitter.images == [texts.defaultImage]
      && r.openGraph.pageType == Website
      && r.keywords == BaseKeywords() && |r.keywords| == 13
      && r.openGraph.publishedTime == None && r.openGraph.modifiedTime == None
      && r.openGraph.section == None && r.openGraph.tags == None
  {
  }

  /**
   * The keyword list is the base list, then the caller's keywords, then the tags, in that
   * order and with every duplicate kept.
   */
  lemma KeywordConcatenation(texts: SiteTexts, props: SeoProps)
    ensures var r := GenerateSEOWith(texts, props);
      var kw := props.keywords.GetOr([]);
      var tags := props.tags.GetOr([]);
      && |r.keywords| == 13 + |kw| + |tags|
      && r.keywords[..13] == BaseKeywords()
      && r.keywords[13..13 + |kw|] == kw
      && r.keywords[13 + |kw|..] == tags
      && multiset(r.keywords) == multiset(BaseKeywords()) + multiset(kw) + multiset(tags)
  {
    var r := GenerateSEOWith(texts, props);
    var kw := props.keywords.GetOr([]);
    var tags := props.tags.GetOr([]);
    assert r.keywords == BaseKeywords() + kw + tags;
  }

  /** The example of a page with one tag and one keyword: the keyword comes before the tag. */
  lemma KeywordOrderExample(texts: SiteTexts)
    ensures GenerateSEOWith(texts, NoProps.(keywords := Some(["b"]), tags := Some(["a"]))).keywords
            == BaseKeywords() + ["b", "a"]
  {
  }

  /** A keyword that repeats a base keyword is kept: the list grows and the word appears twice. */
  lemma DuplicateKeywordKept(texts: SiteTexts)
    ensures var r := GenerateSEOWith(texts, NoProps.(keywords := Some(["React"])));
      |r.keywords| == 14 && r.keywords[5] == "React" && r.keywords[13] == "React"
  {
  }

  /** The page address and the texts given are copied unchanged into the social records. */
  lemma SocialRecordsCopyInputs(texts: SiteTexts, props: SeoProps)
    ensures var r := GenerateSEOWith(texts, props);
      var url := props.url.GetOr(texts.defaultUrl);
      && r.alternates.canonical == url && r.openGraph.url == url
      && r.title == props.title.GetOr(texts.defaultTitle)
      && r.description == props.description.GetOr(texts.defaultDescription)
      && r.openGraph.pageType == props.pageType.GetOr(Website)
      && (props.title.Some? ==> r.openGraph.title == props.title.value && r.twitter.title == props.title.value)
      && (props.url.Some? ==> r.openGraph.url == props.url.value)
  {
  }

  /** Exactly one 1200x630 preview image, described by the title; the Twitter card shows the same image. */
  lemma PreviewImage(texts: SiteTexts, props: SeoProps)
    ensures var r := GenerateSEOWith(texts, props);
      var image := props.image.GetOr(texts.defaultImage);
      && r.openGraph.images == [OgImage(image, 1200, 630, r.title)]
      && r.twitter.images == [image]
  {
  }

  /**
   * The optional Open Graph keys are present exactly when the input is truthy (present and not
   * ""), and then carry the input unchanged; `tags` is present exactly when it is non-empty.
   */
  lemma ConditionalOpenGraphFields(texts: SiteTexts, props: SeoProps)
    ensures var og := GenerateSEOWith(texts, props).openGraph;
      && (og.publishedTime.Some? <==> props.publishedTime.Some? && props.publishedTime.value != "")
      && (og.publishedTime.Some? ==> og.publishedTime == props.publishedTime)
      && (og.modifiedTime.Some? <==> props.modifiedTime.Some? && props.modifiedTime.value != "")
      && (og.modifiedTime.Some? ==> og.modifiedTime == props.modifiedTime)
      && (og.section.Some? <==> props.section.Some? && props.section.value != "")
      && (og.section.Some? ==> og.section == props.section)
      && (og.tags.Some? <==> props.tags.Some? && |props.tags.value| > 0)
      && (og.tags.Some? ==> og.tags == props.tags)
  {
  }

  /** An empty publication time is left out, just like an omitted one. */
  lemma EmptyTimeOmitted(texts: SiteTexts, props: SeoProps)
    requires props.publishedTime == Some("")
    ensures GenerateSEOWith(texts, props).openGraph.publishedTime == None
    ensures GenerateSEOWith(texts, props).openGraph == GenerateSEOWith(texts, props.(publishedTime := None)).openGraph
  {
  }

  /** Whatever the input, robots may index and follow, and the Twitter card is a large image. */
  lemma FixedDirectives(texts: SiteTexts, props: SeoProps)
    ensures GenerateSEOWith(texts, props).robots == Robots(true, true)
    ensures GenerateSEOWith(texts, props).twitter.card == "summary_large_image"
    ensures GenerateSEOWith(texts, props).openGraph.siteName == texts.siteName
    ensures GenerateSEOWith(texts, props).openGraph.locale == "en_US"
  {
  }

  // ---------------------------------------------------------------------------------------------
  // Array.join

  /** Sum of the lengths of the parts. */
  function TotalLength(parts: seq<string>): nat {
    if parts == [] then 0 else |parts[0]| + TotalLength(parts[1..])
  }

  /** Number of separators `join` puts between `n` parts. */
  function Separators(n: nat): nat {
    if n == 0 then 0 else n - 1
  }

  /** `parts.join(sep)`: the parts in order with `sep` between neighbours and nowhere else. */
  function Join(parts: seq<string>, sep: string): (r: string)
    ensures |r| == TotalLength(parts) + Separators(|parts|) * |sep|
    ensures |parts| > 0 ==> parts[0] <= r
  {
    if |parts| == 0 then ""
    else if |parts| == 1 then parts[0]
    else
      var rest := Join(parts[1..], sep);
      assert Separators(|parts|) * |sep| == |sep| + Separators(|parts| - 1) * |sep|;
      parts[0] + sep + rest
  }

  /** Joining two non-empty lists is joining each and putting one separator between them. */
  lemma {:induction false} JoinAppend(xs: seq<string>, ys: seq<string>, sep: string)
    requires |xs| > 0 && |ys| > 0
    ensures Join(xs + ys, sep) == Join(xs, sep) + sep + Join(ys, sep)
  {
    if |xs| == 1 {
      assert (xs + ys)[1..] == ys;
    } else {
      assert (xs + ys)[1..] == xs[1..] + ys;
      JoinAppend(xs[1..], ys, sep);
    }
  }

  /** Appending one part adds the separator and that part at the end. */
  lemma JoinSnoc(xs: seq<string>, x: string, sep: string)
    requires |xs| > 0
    ensures Join(xs + [x], sep) == Join(xs, sep) + sep + x
  {
    JoinAppend(xs, [x], sep);
  }

  // ---------------------------------------------------------------------------------------------
  // generateArticleSchema

  datatype ArticleProps = ArticleProps(
    headline: string,
    description: string,
    author: Option<string>,
    datePublished: string,
    dateModified: Option<string>,
    image: string,
    url: string)

  /** A schema.org `Person` reference. */
  datatype Person = Person(schemaType: string, name: string)

  function SchemaContext(): string {
    "https://schema.org"
  }

  function DefaultAuthor(): string {
    "Mudit Garg"
  }

  datatype ArticleSchema = ArticleSchema(
    context: string,
    schemaType: string,
    headline: string,
    description: string,
    author: Person,
    datePublished: string,
    dateModified: string,
    image: string,
    url: string,
    publisher: Person)

  /**
   * The JSON-LD `Article` record. The publisher is always the author, and the modification date
   * is one of the two dates given, empty only when the publication date is.
   */
  function GenerateArticleSchema(props: ArticleProps): (r: ArticleSchema)
    ensures r.publisher == r.author
    ensures r.dateModified == r.datePublished
            || (props.dateModified.Some? && r.dateModified == props.dateModified.value)
    ensures r.dateModified == "" ==> r.datePublished == ""
  {
    var author := props.author.GetOr(DefaultAuthor());
    ArticleSchema(
      SchemaContext(),
      "Article",
      props.headline,
      props.description,
      Person("Person", author),
      props.datePublished,
      if Truthy(props.dateModified) then props.dateModified.value else props.datePublished,
      props.image,
      props.url,
      Person("Person", author))
  }

  /**
   * `dateModified` is the one given when it is truthy and falls back to `datePublished`
   * otherwise, also when it is "". The author defaults only when it is left out.
   */
  lemma ArticleDefaults(props: ArticleProps)
    ensures var r := GenerateArticleSchema(props);
      && (Truthy(props.dateModified) ==> r.dateModified == props.dateModified.value)
      && (!Truthy(props.dateModified) ==> r.dateModified == props.datePublished)
      && (props.author.None? ==> r.author.name == "Mudit Garg")
      && (props.author.Some? ==> r.author.name == props.author.value)
      && r.publisher.name == r.author.name
      && r.schemaType == "Article" && r.context == "https://schema.org"
      && r.headline == props.headline && r.datePublished == props.datePublished
  {
  }

  /** The example with no modification date and no author. */
  lemma ArticleExample()
    ensures var r := GenerateArticleSchema(ArticleProps("H", "D", None, "2024-01-01", None, "I", "U"));
      r.dateModified == "2024-01-01" && r.author.name == "Mudit Garg"
    ensures GenerateArticleSchema(ArticleProps("H", "D", None, "2024-01-01", Some(""), "I", "U")).dateModified
            == "2024-01-01"
  {
  }

  // ---------------------------------------------------------------------------------------------
  // generateProjectSchema

  datatype ProjectProps = ProjectProps(
    name: string,
    description: string,
    url: string,
    image: string,
    technologies: seq<string>,
    dateCreated: string)

  datatype ProjectSchema = ProjectSchema(
    context: string,
    schemaType: string,
    name: string,
    description: string,
    url: string,
    image: string,
    applicationCategory: string,
    operatingSystem: string,
    author: Person,
    dateCreated: string,
    keywords: string)

  /** The JSON-LD `SoftwareApplication` record; its keywords list the technologies in order. */
  function GenerateProjectSchema(props: ProjectProps): (r: ProjectSchema)
    ensures |r.keywords| == TotalLength(props.technologies) + 2 * Separators(|props.technologies|)
    ensures |props.technologies| > 0 ==> props.technologies[0] <= r.keywords
  {
    ProjectSchema(
      SchemaContext(),
      "SoftwareApplication",
      props.name,
      props.description,
      props.url,
      props.image,
      "WebApplication",
      "Any",
      Person("Person", DefaultAuthor()),
      props.dateCreated,
      Join(props.technologies, ", "))
  }

  /**
   * The fixed fields, and the keyword string: "" for no technology, the technology itself for
   * one, and "X, Y" for two; adding a technology appends ", " and its name.
   */
  lemma ProjectFields(props: ProjectProps)
    ensures var r := GenerateProjectSchema(props);
      && r.schemaType == "SoftwareApplication"
      && r.applicationCategory == "WebApplication"
      && r.operatingSystem == "Any"
      && r.author == Person("Person", "Mudit Garg")
      && r.name == props.name && r.dateCreated == props.dateCreated
      && (props.technologies == [] ==> r.keywords == "")
      && (|props.technologies| == 1 ==> r.keywords == props.technologies[0])
  {
  }

  lemma ProjectKeywordsExample(props: ProjectProps)
    requires props.technologies == ["X", "Y"]
    ensures GenerateProjectSchema(props).keywords == "X, Y"
  {
    assert props.technologies[1..] == ["Y"];
    assert Join(["Y"], ", ") == "Y";
  }

  lemma ProjectKeywordsGrow(props: ProjectProps, tech: string)
    requires |props.technologies| > 0
    ensures GenerateProjectSchema(props.(technologies := props.technologies + [tech])).keywords
            == GenerateProjectSchema(props).keywords + ", " + tech
  {
    JoinSnoc(props.technologies, tech, ", ");
  }
}
