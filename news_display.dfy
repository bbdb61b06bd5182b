/** The news grid: a pure function from the article list to a view, one card
    per article. */
module NewsDisplay {
  import opened Wrappers
  import opened JsString
  import opened Articles

  const DEFAULT_IMAGE := "https://via.placeholder.com/300x200?text=No+Image+Available"
  const NO_NEWS := "No news available."
  const NO_IMAGE_ALT := "No image available"
  const NO_URL := "No URL available for this article"

  /** What a card shows below its abstract: an outbound link or a fixed message.
      A link with `target="_blank"` opens in a new browsing context; `rel`
      holding "noopener" withholds `window.opener` from the opened page, and
      "noreferrer" withholds the Referer header. */
  datatype Footer =
    | ReadMore(href: string, newContext: bool, noOpener: bool, noReferrer: bool)
    | NoUrlMessage(text: string)

  datatype Card = Card(
    image: string,
    alt: string,
    title: string,
    abstractText: string,
    disabled: bool,
    footer: Footer)

  datatype NewsView = NoNews(message: string) | Grid(cards: seq<Card>)

  /** `!url || url.trim() === "" || url === "null"`. */
  predicate IsDisabled(url: Option<string>) {
    match url
    case None => true
    case Some(u) => u == "" || Trim(u) == "" || u == "null"
  }

  /** The rule, stated without `trim`: a URL is unusable exactly when it is
      absent, made of whitespace only (the empty string included), or the
      literal text "null". */
  lemma DisabledIff(url: Option<string>)
    ensures IsDisabled(url) <==>
      url.None? || AllWhitespace(url.value) || url.value == "null"
  {
    if url.Some? {
      TrimEmptyIff(url.value);
    }
  }

  /** Whitespace-only URLs are not usable. */
  lemma BlankUrlsDisabled()
    ensures IsDisabled(Some("   ")) && IsDisabled(Some("\t\n"))
  {
    DisabledIff(Some("   "));
    DisabledIff(Some("\t\n"));
  }

  /** A URL with one visible character that is not the text "null" is usable. */
  lemma EnabledWith(u: string, k: nat)
    requires k < |u| && !IsJsWhitespace(u[k]) && u != "null"
    ensures !IsDisabled(Some(u))
  {
    DisabledIff(Some(u));
  }

  /** Only the exact text "null" is special: look-alikes are usable. */
  lemma NullLookalikesEnabled()
    ensures !IsDisabled(Some(" null")) && !IsDisabled(Some("NULL"))
  {
    EnabledWith(" null", 1);
    EnabledWith("NULL", 0);
  }

  /** `article.multimedia?.[0]?.url || DEFAULT_IMAGE`. */
  function ImageFor(a: Article): (r: string)
    ensures r != ""
    ensures (a.multimedia.Some? && |a.multimedia.value| > 0
             && a.multimedia.value[0].url.Some? && a.multimedia.value[0].url.value != "")
            ==> r == a.multimedia.value[0].url.value
    ensures r != DEFAULT_IMAGE ==>
              a.multimedia.Some? && |a.multimedia.value| > 0
              && a.multimedia.value[0].url == Some(r)
  {
    match a.multimedia
    case None => DEFAULT_IMAGE
    case Some(items) =>
      if |items| == 0 then DEFAULT_IMAGE
      else match items[0].url
        case None => DEFAULT_IMAGE
        case Some(u) => if u != "" then u else DEFAULT_IMAGE
  }

  /** `article.title || "No image available"`. */
  function AltFor(a: Article): (r: string)
    ensures r != ""
    ensures a.title != "" ==> r == a.title
    ensures a.title == "" ==> r == NO_IMAGE_ALT
  {
    if a.title != "" then a.title else NO_IMAGE_ALT
  }

  /** The card for one article. */
  function CardFor(a: Article): (c: Card)
    ensures c.disabled <==> IsDisabled(a.url)
    ensures c.disabled ==> c.footer == NoUrlMessage(NO_URL)
    ensures !c.disabled ==> a.url.Some? && c.footer == ReadMore(a.url.value, true, true, true)
    ensures c.image == ImageFor(a) && c.alt == AltFor(a)
    ensures c.title == a.title && c.abstractText == a.abstractText
  {
    var disabled := IsDisabled(a.url);
    Card(ImageFor(a), AltFor(a), a.title, a.abstractText, disabled,
         if disabled then NoUrlMessage(NO_URL) else ReadMore(a.url.value, true, true, true))
  }

  /** `news.map(...)`: one card per article, in input order. */
  function Cards(news: seq<Article>): (cs: seq<Card>)
    ensures |cs| == |news|
    ensures forall i :: 0 <= i < |news| ==> cs[i] == CardFor(news[i])
  {
    if news == [] then [] else [CardFor(news[0])] + Cards(news[1..])
  }

  /** The whole component: a null or empty list gives the "no news" message,
      anything else the grid of its cards. */
  function Display(news: Option<seq<Article>>): (v: NewsView)
    ensures v.NoNews? <==> news.None? || news.value == []
    ensures v.NoNews? ==> v.message == NO_NEWS
    ensures v.Grid? ==> v.cards == Cards(news.value)
  {
    match news
    case None => NoNews(NO_NEWS)
    case Some(items) => if |items| == 0 then NoNews(NO_NEWS) else Grid(Cards(items))
  }
}
