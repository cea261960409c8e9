/**
 * The page metadata component: the full page title rule and the head tags it
 * emits, with their default values.
 */
module Seo {
  import opened Wrappers
  import opened JsText

  // ---------------------------------------------------------------------------
  // Full title
  // ---------------------------------------------------------------------------

  /** The product name whose presence in a title suppresses the suffix. */
  const Brand := "PDFox"
  /** What is appended to a title that does not name the product. */
  const TitleSuffix := " | PDFox - Smart Content Formatter"

  /**
   * The title shown by the browser and in link previews: the page title as it
   * is when it already names the product, otherwise the page title followed
   * by the product suffix.
   */
  function FullTitle(title: string): (r: string)
    ensures Contains(title, Brand) ==> r == title
    ensures !Contains(title, Brand) ==> r == title + TitleSuffix
  {
    if Includes(title, Brand) then title else title + TitleSuffix
  }

  /** The full title starts with the page title and always names the product. */
  lemma FullTitleNamesBrand(title: string)
    ensures title <= FullTitle(title)
    ensures Contains(FullTitle(title), Brand)
  {
    var r := FullTitle(title);
    if !Contains(title, Brand) {
      assert r == title + TitleSuffix;
      forall i | 0 <= i < |Brand| ensures r[|title| + 3..|title| + 8][i] == Brand[i] {
        assert r[|title| + 3 + i] == TitleSuffix[3 + i];
      }
      assert OccursAt(r, Brand, |title| + 3);
    }
  }

  /** Applying the rule to its own result changes nothing. */
  lemma FullTitleIdempotent(title: string)
    ensures FullTitle(FullTitle(title)) == FullTitle(title)
  {
    FullTitleNamesBrand(title);
  }

  // ---------------------------------------------------------------------------
  // Head tags
  // ---------------------------------------------------------------------------

  const DefaultKeywords := "content formatter, AI PDF cleaner, document formatter, text formatter, PDF generator, smart formatting, document editor"
  const DefaultCanonicalUrl := "https://pdfox-generator.lovable.app/"
  const DefaultOgImage := "https://pdfox-generator.lovable.app/og-image.png"
  const DefaultOgType := "website"
  const DefaultTwitterCard := "summary_large_image"

  /**
   * The component's properties; an absent optional one takes its default.
   * The structured data is given as the JSON text it serialises to.
   */
  datatype SeoProps = SeoProps(
    title: string, description: string,
    keywords: Option<string>, canonicalUrl: Option<string>, ogImage: Option<string>,
    ogType: Option<string>, twitterCard: Option<string>, structuredData: Option<string>)

  /** One element placed in the document head. */
  datatype HeadTag =
    | TitleTag(text: string)
    | MetaName(name: string, content: string)
    | MetaProperty(property: string, content: string)
    | CanonicalLink(href: string)
    | JsonLdScript(json: string)

  /** The head elements for the given properties, in the order they are emitted. */
  function HeadTags(p: SeoProps): seq<HeadTag> {
    var fullTitle := FullTitle(p.title);
    var keywords := p.keywords.GetOr(DefaultKeywords);
    var canonicalUrl := p.canonicalUrl.GetOr(DefaultCanonicalUrl);
    var ogImage := p.ogImage.GetOr(DefaultOgImage);
    var ogType := p.ogType.GetOr(DefaultOgType);
    var twitterCard := p.twitterCard.GetOr(DefaultTwitterCard);
    [ TitleTag(fullTitle),
      MetaName("description", p.description),
      MetaName("keywords", keywords),
      MetaName("author", "PDFox"),
      MetaName("robots", "index, follow"),
      MetaName("viewport", "width=device-width, initial-scale=1.0"),
      CanonicalLink(canonicalUrl),
      MetaProperty("og:title", fullTitle),
      MetaProperty("og:description", p.description),
      MetaProperty("og:type", ogType),
      MetaProperty("og:url", canonicalUrl),
      MetaProperty("og:image", ogImage),
      MetaProperty("og:image:width", "1200"),
      MetaProperty("og:image:height", "630"),
      MetaProperty("og:site_name", "PDFox"),
      MetaProperty("og:locale", "en_US"),
      MetaName("twitter:card", twitterCard),
      MetaName("twitter:title", fullTitle),
      MetaName("twitter:description", p.description),
      MetaName("twitter:image", ogImage),
      MetaName("twitter:site", "@DevRative"),
      MetaName("twitter:creator", "@DevRative"),
      MetaName("theme-color", "#6366f1"),
      MetaName("application-name", "PDFox"),
      MetaName("apple-mobile-web-app-title", "PDFox"),
      MetaName("apple-mobile-web-app-capable", "yes"),
      MetaName("apple-mobile-web-app-status-bar-style", "default") ]
    + (if p.structuredData.Some? then [JsonLdScript(p.structuredData.value)] else [])
  }

  /** The same full title is used for the page title, the Open Graph title and the Twitter title. */
  lemma TitlesShareFullTitle(p: SeoProps)
    ensures var tags := HeadTags(p);
            && tags[0] == TitleTag(FullTitle(p.title))
            && tags[7] == MetaProperty("og:title", FullTitle(p.title))
            && tags[17] == MetaName("twitter:title", FullTitle(p.title))
            && forall i :: 0 <= i < |tags| && tags[i].TitleTag? ==> i == 0
  {
  }

  /**
   * Absent properties take their defaults, and one canonical address serves
   * both the canonical link and the Open Graph address.
   */
  lemma DefaultsApplied(p: SeoProps)
    ensures var tags := HeadTags(p);
            && tags[2] == MetaName("keywords", p.keywords.GetOr(DefaultKeywords))
            && tags[6] == CanonicalLink(p.canonicalUrl.GetOr(DefaultCanonicalUrl))
            && tags[10] == MetaProperty("og:url", p.canonicalUrl.GetOr(DefaultCanonicalUrl))
            && tags[11] == MetaProperty("og:image", p.ogImage.GetOr(DefaultOgImage))
            && tags[19] == MetaName("twitter:image", p.ogImage.GetOr(DefaultOgImage))
            && tags[9] == MetaProperty("og:type", p.ogType.GetOr(DefaultOgType))
            && tags[16] == MetaName("twitter:card", p.twitterCard.GetOr(DefaultTwitterCard))
  {
  }

  /** The structured-data script is emitted, last, exactly when structured data is given. */
  lemma StructuredDataScript(p: SeoProps)
    ensures var tags := HeadTags(p);
            && (p.structuredData.Some? ==> |tags| == 28 && tags[27] == JsonLdScript(p.structuredData.value))
            && (p.structuredData.None? ==> |tags| == 27)
            && forall i :: 0 <= i < |tags| && tags[i].JsonLdScript? ==> i == 27
  {
  }
}
