/**
 * The page-metadata builder: the site-wide defaults, and `generateMetadata`,
 * which overrides the title, the description and the Open Graph address.
 * Optional arguments are `None` when omitted; an empty string is just as falsy.
 */
module Seo {
  import opened Common

  /** The top-level title: the default with its template, or a plain string. */
  datatype Title = Templated(default: string, template: string) | Plain(text: string)

  datatype Image = Image(url: string, width: nat, height: nat, alt: string)

  datatype OpenGraph = OpenGraph(
    kind: string, locale: string, url: string, title: string, description: string, siteName: string,
    images: seq<Image>)

  datatype Twitter = Twitter(card: string, title: string, description: string, images: seq<string>)

  datatype GoogleBot = GoogleBot(index: bool, follow: bool, maxVideoPreview: int, maxImagePreview: string, maxSnippet: int)

  /** The fields `generateMetadata` copies from the defaults untouched. */
  datatype Site = Site(
    keywords: seq<string>, authors: seq<string>, creator: string, publisher: string,
    detectEmail: bool, detectAddress: bool, detectTelephone: bool,
    metadataBase: string, canonical: string, languages: map<string, string>,
    robotsIndex: bool, robotsFollow: bool, googleBot: GoogleBot,
    verification: map<string, string>)

  datatype Metadata = Metadata(title: Title, description: string, openGraph: OpenGraph, twitter: Twitter, site: Site)

  const SiteUrl := "https://ekramy-ai.online"
  const DefaultTitle := "حلول ذكاء اصطناعي وبوت ماسنجر | إيجي أفريكا"
  const DefaultDescription := "خدمة البوت الذكي كخدمة أساسية + تسويق إلكتروني وميديا وUGC. نخدم مصر والسعودية والخليج."
  /** What a page title is suffixed with. */
  const TitleSuffix := " | إيجي إفريقيا للمقاولات"

  const DefaultMetadata := Metadata(
    Templated(DefaultTitle, "%s | إيجي أفريكا"),
    DefaultDescription,
    OpenGraph("website", "ar_AR", SiteUrl, "حلول ذكاء اصطناعي وبوت ماسنجر | إيجي أفريكا", "خدمة البوت الذكي كخدمة أساسية + تسويق إلكتروني وميديا وUGC. نخدم مصر والسعودية والخليج.", "إيجي أفريكا",
              [Image("/og-image.png", 1200, 630, "إيجي أفريكا - حلول ذكاء اصطناعي وبوت ماسنجر")]),
    Twitter("summary_large_image", "حلول ذكاء اصطناعي وبوت ماسنجر | إيجي أفريكا", "خدمة البوت الذكي كخدمة أساسية + تسويق إلكتروني وميديا وUGC. نخدم مصر والسعودية والخليج.", ["/og-image.png"]),
    Site(["ذكاء اصطناعي", "بوت ماسنجر", "تسويق إلكتروني", "مونتاج", "جرافيك", "تصوير", "UGC", "مصر", "السعودية", "الخليج", "إيجي أفريكا", "خدمات رقمية", "بوت ذكي", "ميتا", "فيسبوك"],
         ["EKRAMY FOUAAD"], "EKRAMY FOUAAD", "إيجي أفريكا",
         false, false, false,
         SiteUrl, "/", map["ar" := "/"],
         true, true, GoogleBot(true, true, -1, "large", -1),
         map["google" := "google-site-verification-code", "yandex" := "yandex-verification-code",
             "yahoo" := "yahoo-verification-code"]))

  /** A truthy optional string. */
  predicate Given(x: Option<string>) {
    x.Some? && x.value != ""
  }

  function GenerateMetadata(title: Option<string>, description: Option<string>, path: Option<string>): Metadata {
    var d := DefaultMetadata;
    Metadata(
      if Given(title) then Plain(title.value + TitleSuffix) else d.title,
      if Given(description) then description.value else d.description,
      d.openGraph.(
        title := if Given(title) then title.value + TitleSuffix else d.openGraph.title,
        description := if Given(description) then description.value else d.openGraph.description,
        url := if Given(path) then SiteUrl + path.value else d.openGraph.url),
      d.twitter.(
        title := if Given(title) then title.value + TitleSuffix else d.twitter.title,
        description := if Given(description) then description.value else d.twitter.description),
      d.site)
  }

  /** A given title, suffixed, becomes the page, Open Graph and Twitter title; without one all three defaults stay. */
  lemma TitleEverywhere(title: Option<string>, description: Option<string>, path: Option<string>)
    ensures var m := GenerateMetadata(title, description, path);
      if Given(title) then
        m.title == Plain(title.value + TitleSuffix) && m.openGraph.title == title.value + TitleSuffix
        && m.twitter.title == title.value + TitleSuffix
      else
        m.title == DefaultMetadata.title && m.openGraph.title == DefaultMetadata.openGraph.title
        && m.twitter.title == DefaultMetadata.twitter.title
  {
  }

  /** A given description is used in all three places; an empty or missing one falls back to each default. */
  lemma DescriptionEverywhere(title: Option<string>, description: Option<string>, path: Option<string>)
    ensures var m := GenerateMetadata(title, description, path);
      if Given(description) then
        m.description == description.value && m.openGraph.description == description.value
        && m.twitter.description == description.value
      else
        m.description == DefaultMetadata.description && m.openGraph.description == DefaultMetadata.openGraph.description
        && m.twitter.description == DefaultMetadata.twitter.description
  {
  }

  /** A given path only changes the Open Graph address; Twitter has none. */
  lemma PathSetsOpenGraphUrl(title: Option<string>, description: Option<string>, path: Option<string>)
    ensures GenerateMetadata(title, description, path).openGraph.url
            == if Given(path) then SiteUrl + path.value else SiteUrl
    ensures GenerateMetadata(title, description, path).twitter == GenerateMetadata(title, description, None).twitter
  {
  }

  /** Everything else is the default: the site fields, and the Open Graph and Twitter fields not overridden. */
  lemma DefaultsPreserved(title: Option<string>, description: Option<string>, path: Option<string>)
    ensures var m := GenerateMetadata(title, description, path);
      m.site == DefaultMetadata.site
      && m.openGraph.(title := "", description := "", url := "")
         == DefaultMetadata.openGraph.(title := "", description := "", url := "")
      && m.twitter.(title := "", description := "") == DefaultMetadata.twitter.(title := "", description := "")
  {
  }

  /** With no arguments the result is exactly the defaults. */
  lemma NoArgumentsIsDefault()
    ensures GenerateMetadata(None, None, None) == DefaultMetadata
  {
  }
}
