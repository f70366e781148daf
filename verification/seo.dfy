/**
 The document head written by the SEO component (src/components/SEO.jsx):
 the page title and the description, Open Graph and Twitter meta tags.
 */
module Seo {
  import opened Js

  const SiteTitle: string := "ShopEase - Modern Minimalist Commerce"
  const DefaultDescription: string := "Curated collection of premium minimalist artifacts for the modern lifestyle."
  const TitleSuffix: string := " | ShopEase"

  /** The head the component writes: `<title>` and the content of each
      `<meta>` tag, keyed by its `name` or `property`. The two image tags
      are `None` when they are not rendered. */
  datatype Head = Head(
    title: string,
    description: string,
    ogType: string,
    ogTitle: string,
    ogDescription: string,
    ogImage: Option<string>,
    twitterCard: string,
    twitterTitle: string,
    twitterDescription: string,
    twitterImage: Option<string>)

  /** `title ? `${title} | ShopEase` : siteTitle`. */
  function PageTitle(title: Option<string>): (t: string)
    ensures Truthy(title) ==> t == title.value + TitleSuffix
    ensures !Truthy(title) ==> t == SiteTitle
  {
    if Truthy(title) then title.value + TitleSuffix else SiteTitle
  }

  /** The head for the given props: one title shared by `<title>`,
      `og:title` and `twitter:title`; one description (the given one, or
      the default when it is missing or empty) shared by the three
      description tags; the fixed `og:type` and `twitter:card`; and the two
      image tags exactly when a non-empty image is given. */
  function SeoHead(title: Option<string>, description: Option<string>, image: Option<string>): (h: Head)
    ensures h.title == PageTitle(title) && h.ogTitle == h.title && h.twitterTitle == h.title
    ensures Truthy(description) ==> h.description == description.value
    ensures !Truthy(description) ==> h.description == DefaultDescription
    ensures h.ogDescription == h.description && h.twitterDescription == h.description
    ensures h.ogType == "website" && h.twitterCard == "summary_large_image"
    ensures h.ogImage.Some? <==> Truthy(image)
    ensures h.twitterImage == h.ogImage
    ensures h.ogImage.Some? ==> h.ogImage.value == image.value
  {
    var t := PageTitle(title);
    var d := OrElse(description, DefaultDescription);
    var img := if Truthy(image) then image else None;
    Head(t, d, "website", t, d, img, "summary_large_image", t, d, img)
  }

  /** A titled page's head title is the page's own title followed by
      " | ShopEase", so the page title can be read back from it; the site
      title does not end that way, so it is never mistaken for one. */
  lemma TitleRecoverable(title: Option<string>)
    requires Truthy(title)
    ensures var t := SeoHead(title, None, None).title;
      |t| > |TitleSuffix| && t[..|t| - |TitleSuffix|] == title.value && t[|t| - |TitleSuffix|..] == TitleSuffix
    ensures SiteTitle[|SiteTitle| - |TitleSuffix|..] != TitleSuffix
  {
    var t := PageTitle(title);
    assert t == title.value + TitleSuffix;
    assert t[..|title.value|] == title.value;
    assert SiteTitle[|SiteTitle| - |TitleSuffix|..][1] != TitleSuffix[1];
  }
}
