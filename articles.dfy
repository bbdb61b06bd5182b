/** The article records the news API returns, with the fields the
    application reads.  Title and abstract are strings (the search filter
    calls `toLowerCase` on both, which would throw on anything else); the
    URL and the media list may be absent.  The JSON field `abstract` is
    `abstractText` here, `abstract` being a Dafny keyword. */
module Articles {
  import opened Wrappers

  /** One media item.  A media entry that is itself `null` reads exactly like
      one whose `url` is absent, so `Media(None)` stands for both. */
  datatype Media = Media(url: Option<string>)

  datatype Article = Article(
    title: string,
    abstractText: string,
    url: Option<string>,
    multimedia: Option<seq<Media>>)
}
