/** The client-side search: `news.filter(...)` over title and abstract,
    compared after lower-casing both sides. */
module Search {
  import opened JsString
  import opened Articles

  /** The filter's predicate for one article. */
  predicate Matches(a: Article, term: string) {
    Includes(Lower(a.title), Lower(term)) || Includes(Lower(a.abstractText), Lower(term))
  }

  /** `filteredNews`. */
  function FilterNews(news: seq<Article>, term: string): (r: seq<Article>)
    ensures |r| <= |news|
    ensures forall i :: 0 <= i < |r| ==> Matches(r[i], term)
  {
    if news == [] then []
    else (if Matches(news[0], term) then [news[0]] else []) + FilterNews(news[1..], term)
  }

  /** `sub` can be obtained from `s` by deleting elements (order kept). */
  predicate IsSubsequence(sub: seq<Article>, s: seq<Article>)
    decreases |s|
  {
    if sub == [] then true
    else if s == [] then false
    else if sub[0] == s[0] then IsSubsequence(sub[1..], s[1..])
    else IsSubsequence(sub, s[1..])
  }

  /** The filtered list keeps the articles' relative order. */
  lemma {:induction false} FilterIsSubsequence(news: seq<Article>, term: string)
    ensures IsSubsequence(FilterNews(news, term), news)
  {
    if news != [] {
      FilterIsSubsequence(news[1..], term);
      var rest := FilterNews(news[1..], term);
      if Matches(news[0], term) {
        assert FilterNews(news, term) == [news[0]] + rest;
        assert ([news[0]] + rest)[1..] == rest;
      } else {
        assert FilterNews(news, term) == rest;
        SubsequenceOfTail(rest, news);
      }
    }
  }

  /** A subsequence of the tail is a subsequence of the whole. */
  lemma {:induction false} SubsequenceOfTail(sub: seq<Article>, s: seq<Article>)
    requires s != [] && IsSubsequence(sub, s[1..])
    ensures IsSubsequence(sub, s)
    decreases |s|, 0
  {
    if sub != [] && sub[0] == s[0] {
      SubsequenceDropHead(sub, s[1..]);
    }
  }

  /** Dropping the first element of a subsequence keeps it a subsequence. */
  lemma {:induction false} SubsequenceDropHead(sub: seq<Article>, s: seq<Article>)
    requires sub != [] && IsSubsequence(sub, s)
    ensures IsSubsequence(sub[1..], s)
    decreases |s|, 1
  {
    if sub[0] == s[0] {
      if sub[1..] != [] {
        SubsequenceOfTail(sub[1..], s);
      }
    } else {
      SubsequenceDropHead(sub, s[1..]);
      if sub[1..] != [] {
        SubsequenceOfTail(sub[1..], s);
      }
    }
  }

  /** Each article appears in the filtered list as often as in `news` when it
      matches, and not at all otherwise: the filtered list holds exactly the
      matching articles. */
  lemma {:induction false} FilterMultiplicity(news: seq<Article>, term: string, a: Article)
    ensures multiset(FilterNews(news, term))[a] ==
              if Matches(a, term) then multiset(news)[a] else 0
  {
    if news != [] {
      FilterMultiplicity(news[1..], term, a);
      assert news == [news[0]] + news[1..];
    }
  }

  /** Membership, both ways. */
  lemma FilterMembers(news: seq<Article>, term: string, a: Article)
    ensures a in FilterNews(news, term) <==> a in news && Matches(a, term)
  {
    FilterMultiplicity(news, term, a);
  }

  /** An empty search term keeps every article: `includes("")` always holds. */
  lemma {:induction false} FilterEmptyTerm(news: seq<Article>)
    ensures FilterNews(news, "") == news
  {
    if news != [] {
      IncludesEmpty(Lower(news[0].title));
      FilterEmptyTerm(news[1..]);
    }
  }

  /** Filtering twice with the same term changes nothing more. */
  lemma {:induction false} FilterIdempotent(news: seq<Article>, term: string)
    ensures FilterNews(FilterNews(news, term), term) == FilterNews(news, term)
  {
    if news != [] {
      FilterIdempotent(news[1..], term);
      var rest := FilterNews(news[1..], term);
      if Matches(news[0], term) {
        var once := [news[0]] + rest;
        assert FilterNews(news, term) == once;
        assert once[0] == news[0] && once[1..] == rest;
        assert FilterNews(once, term) == [news[0]] + FilterNews(rest, term);
      } else {
        assert FilterNews(news, term) == rest;
      }
    }
  }
}
