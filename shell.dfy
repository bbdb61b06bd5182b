/** The application shell: its state, the events that change it, the choice
    of what the main area shows, and the component itself as an object whose
    fields are the state hooks and whose methods are the event handlers. */
module Shell {
  import opened Wrappers
  import opened JsString
  import opened Articles
  import opened NewsDisplay
  import opened Fetch
  import opened Search

  /** One snapshot of the component's state hooks. */
  datatype State = State(
    news: seq<Article>,
    loading: bool,
    error: Option<string>,
    selectedCategory: string,
    searchTerm: string,
    darkMode: bool)

  /** The events the shell reacts to. */
  datatype Event =
    | FetchStart                      // first two setters of `fetchNews`
    | FetchDone(outcome: Outcome)     // the `try`/`catch`/`finally` after `await`
    | SelectCategory(category: string)
    | Refresh
    | SearchInput(term: string)
    | ToggleTheme

  /** `toggleMode()`: dark exactly when the stored theme is "dark". */
  function DarkFromStorage(stored: Option<string>): bool {
    stored == Some("dark")
  }

  /** What the theme effect writes under the "theme" key: "dark" or
      "light", which the next session reads back as the same theme. */
  function ThemeValue(dark: bool): (v: string)
    ensures v == "dark" || v == "light"
    ensures DarkFromStorage(Some(v)) == dark
  {
    if dark then "dark" else "light"
  }

  /** The state on first render. */
  function Initial(stored: Option<string>): (s: State)
    ensures Coherent(s) && s.loading && s.news == []
    ensures s.darkMode <==> stored == Some("dark")
  {
    State([], true, None, "All", "", DarkFromStorage(stored))
  }

  /** What every reachable state satisfies: the selected category is one of
      the list, and no error is on record while a fetch is in flight. */
  predicate Coherent(s: State) {
    s.selectedCategory in Categories && (s.loading ==> s.error.None?)
  }

  /** `setLoading(true); setError(null);` */
  function FetchStarted(s: State): (t: State)
    ensures t.loading && t.error.None?
    ensures t.news == s.news && t.selectedCategory == s.selectedCategory
    ensures t.searchTerm == s.searchTerm && t.darkMode == s.darkMode
  {
    s.(loading := true, error := None)
  }

  /** `setNews(...)` or `setError(...)`, then `setLoading(false)`. */
  function FetchCompleted(s: State, o: Outcome): (t: State)
    ensures !t.loading
    ensures FetchResult(o).Ok? ==> t.news == FetchResult(o).value && t.error == s.error
    ensures FetchResult(o).Err? ==> t.news == s.news && t.error == Some(FetchResult(o).error)
    ensures t.selectedCategory == s.selectedCategory
    ensures t.searchTerm == s.searchTerm && t.darkMode == s.darkMode
  {
    match FetchResult(o)
    case Ok(articles) => s.(news := articles, loading := false)
    case Err(message) => s.(error := Some(message), loading := false)
  }

  /** The state after one event.  Selecting a category re-runs the fetch
      effect only when the selection actually changes: React skips an update
      to the same value, and the effect depends on `selectedCategory` alone. */
  function Step(s: State, e: Event): (t: State)
    ensures !e.FetchDone? ==> t.news == s.news
    ensures !e.SelectCategory? ==> t.selectedCategory == s.selectedCategory
    ensures !e.SearchInput? ==> t.searchTerm == s.searchTerm
    ensures !e.ToggleTheme? ==> t.darkMode == s.darkMode
    ensures e.SelectCategory? ==> t.selectedCategory == e.category
    ensures e.SelectCategory? && e.category == s.selectedCategory ==> t == s
    ensures (e.FetchStart? || e.Refresh? || (e.SelectCategory? && e.category != s.selectedCategory))
      ==> t.loading && t.error.None?
    ensures e.SearchInput? ==> t.searchTerm == e.term
    ensures e.ToggleTheme? ==> t.darkMode == !s.darkMode
    ensures e.ToggleTheme? ==> t.loading == s.loading && t.error == s.error
    ensures e.SearchInput? ==> t.loading == s.loading && t.error == s.error
  {
    match e
    case FetchStart => FetchStarted(s)
    case FetchDone(o) => FetchCompleted(s, o)
    case SelectCategory(c) =>
      if c == s.selectedCategory then s else FetchStarted(s.(selectedCategory := c))
    case Refresh => FetchStarted(s)
    case SearchInput(t) => s.(searchTerm := t)
    case ToggleTheme => s.(darkMode := !s.darkMode)
  }

  /** The request an event sends, if any. */
  function RequestOf(cfg: Config, s: State, e: Event): (r: Option<string>)
    ensures r.Some? ==> e.SelectCategory? || e.Refresh?
    ensures e.Refresh? ==> r == Some(RequestUrl(cfg, s.selectedCategory))
    ensures e.SelectCategory? ==> (r.Some? <==> e.category != s.selectedCategory)
    ensures e.SelectCategory? && e.category != s.selectedCategory ==> r == Some(RequestUrl(cfg, e.category))
  {
    match e
    case SelectCategory(c) =>
      if c == s.selectedCategory then None else Some(RequestUrl(cfg, c))
    case Refresh => Some(RequestUrl(cfg, s.selectedCategory))
    case _ => None
  }

  /** A whole fetch cycle: start, then one outcome. */
  function Cycle(s: State, o: Outcome): State {
    Step(Step(s, FetchStart), FetchDone(o))
  }

  /** The initial state is coherent, and the fetch the mount effect starts
      leaves it as it is. */
  lemma InitialCoherent(stored: Option<string>)
    ensures Coherent(Initial(stored))
    ensures Step(Initial(stored), FetchStart) == Initial(stored)
    ensures Initial(stored).darkMode <==> stored == Some("dark")
    ensures stored.None? ==> !Initial(stored).darkMode
  {
  }

  /** Every event keeps the state coherent (categories come from the list). */
  lemma StepPreservesCoherent(s: State, e: Event)
    requires Coherent(s)
    requires e.SelectCategory? ==> e.category in Categories
    ensures Coherent(Step(s, e))
  {
  }

  /** What one fetch cycle commits, outcome by outcome. */
  lemma CycleOutcome(s: State, o: Outcome)
    ensures var t := Cycle(s, o);
      !t.loading
      && t.selectedCategory == s.selectedCategory && t.searchTerm == s.searchTerm
      && t.darkMode == s.darkMode
      && (o.Response? && IsOk(o.status) && o.body.Json? ==>
            t.news == o.body.results.GetOr([]) && t.error == None)
      && (o.Response? && !IsOk(o.status) ==>
            t.news == s.news && t.error == Some(HttpErrorMessage(o.status)))
      && (o.Response? && IsOk(o.status) && o.body.Malformed? ==>
            t.news == s.news && t.error == Some(o.body.message))
      && (o.NetworkError? ==> t.news == s.news && t.error == Some(o.message))
  {
  }

  /** The refresh button starts the same fetch as the effect does, so a
      fetch cycle is also what one refresh and its response do. */
  lemma RefreshStartsFetch(s: State, o: Outcome)
    ensures Step(s, Refresh) == Step(s, FetchStart)
    ensures Step(Step(s, Refresh), FetchDone(o)) == Cycle(s, o)
  {
  }

  /** Refreshing twice with the same response gives the same state as once. */
  lemma RefreshIdempotent(s: State, o: Outcome)
    ensures Cycle(Cycle(s, o), o) == Cycle(s, o)
  {
  }

  /** Typing in the search box touches nothing but the term, and sends no request. */
  lemma SearchIsProjection(cfg: Config, s: State, t: string)
    ensures Step(s, SearchInput(t)) == s.(searchTerm := t)
    ensures Step(s, SearchInput(t)).news == s.news
    ensures RequestOf(cfg, s, SearchInput(t)) == None
  {
  }

  /** Toggling twice restores the flag, hence what is stored. */
  lemma ToggleTwice(s: State)
    ensures Step(Step(s, ToggleTheme), ToggleTheme) == s
    ensures Step(s, ToggleTheme).darkMode != s.darkMode
  {
  }

  /** What the main area shows. */
  datatype MainView =
    | LoadingIndicator
    | ErrorText(message: string)
    | Content(view: NewsView)

  /** `loading ? ... : error ? ... : <NewsDisplay news={filteredNews} />`.
      The branch looks at whether `error` is truthy, so an empty message shows the grid. */
  function Render(s: State): (v: MainView)
    ensures v.LoadingIndicator? <==> s.loading
    ensures v.ErrorText? <==> !s.loading && s.error.Some? && s.error.value != ""
    ensures v.ErrorText? ==> Some(v.message) == s.error
    ensures v.Content? ==> v.view == Display(Some(FilterNews(s.news, s.searchTerm)))
  {
    if s.loading then LoadingIndicator
    else if s.error.Some? && s.error.value != "" then ErrorText(s.error.value)
    else Content(Display(Some(FilterNews(s.news, s.searchTerm))))
  }

  /** Clearing the search shows the whole fetched list again, without a fetch. */
  lemma ClearSearchShowsAll(s: State)
    requires !s.loading && (s.error.None? || s.error.value == "")
    ensures Render(Step(s, SearchInput(""))) == Content(Display(Some(s.news)))
  {
    FilterEmptyTerm(s.news);
  }

  /** A response with status 500: no loading indicator, no grid, and the
      message names the status. */
  lemma Http500Shown(s: State, body: Body)
    ensures Render(Cycle(s, Response(500, body))) == ErrorText("HTTP Error: 500")
  {
    assert NatToDecimal(500) == "500";
  }

  /** A successful response with two articles, the second with the URL text
      "null", under an empty search: two cards in order, the first linking
      to its URL, the second disabled with the fallback message. */
  lemma TwoArticlesShown(s: State, a1: Article, a2: Article, u: string)
    requires s.searchTerm == ""
    requires a1.url == Some(u) && u != "null" && !AllWhitespace(u)
    requires a2.url == Some("null")
    ensures var v := Render(Cycle(s, Response(200, Json(Some([a1, a2])))));
      v.Content? && v.view.Grid? && |v.view.cards| == 2
      && v.view.cards[0] == CardFor(a1) && v.view.cards[1] == CardFor(a2)
      && !v.view.cards[0].disabled && v.view.cards[0].footer == ReadMore(u, true, true, true)
      && v.view.cards[1].disabled && v.view.cards[1].footer == NoUrlMessage(NO_URL)
  {
    FilterEmptyTerm([a1, a2]);
    DisabledIff(a1.url);
  }

  /** The browser's storage cell for the "theme" key. */
  class ThemeStore {
    var theme: Option<string>

    constructor (saved: Option<string>)
      ensures theme == saved
    {
      theme := saved;
    }
  }

  /** The `App` component: one field per state hook, one method per handler. */
  class App {
    const config: Config
    const store: ThemeStore
    var news: seq<Article>
    var loading: bool
    var error: Option<string>
    var selectedCategory: string
    var searchTerm: string
    var darkMode: bool
    /** Every request URL the component has sent, oldest first. */
    ghost var requests: seq<string>

    function Snapshot(): State
      reads this
    {
      State(news, loading, error, selectedCategory, searchTerm, darkMode)
    }

    /** The state is coherent and the stored theme matches the flag. */
    ghost predicate Valid()
      reads this, store
    {
      Coherent(Snapshot()) && store.theme == Some(ThemeValue(darkMode))
    }

    /** First render and the two mount effects: the fetch for "All" and the
        theme write-through. */
    constructor (config: Config, store: ThemeStore)
      modifies store
      ensures this.config == config && this.store == store
      ensures Snapshot() == Initial(old(store.theme))
      ensures Valid()
      ensures requests == [RequestUrl(config, "All")]
    {
      this.config := config;
      this.store := store;
      news := [];
      loading := true;
      error := None;
      selectedCategory := "All";
      searchTerm := "";
      darkMode := DarkFromStorage(store.theme);
      requests := [];
      new;
      store.theme := Some(ThemeValue(darkMode));
      var url := StartFetch(selectedCategory);
    }

    /** The synchronous start of `fetchNews(category)`. */
    method StartFetch(category: string) returns (url: string)
      requires Valid()
      modifies this
      ensures Valid()
      ensures Snapshot() == Step(old(Snapshot()), FetchStart)
      ensures url == RequestUrl(config, category)
      ensures requests == old(requests) + [url]
    {
      loading := true;
      error := None;
      url := RequestUrl(config, category);
      requests := requests + [url];
    }

    /** The rest of `fetchNews`, once the request has settled. */
    method CompleteFetch(outcome: Outcome)
      requires Valid()
      modifies this
      ensures Valid()
      ensures Snapshot() == Step(old(Snapshot()), FetchDone(outcome))
      ensures requests == old(requests)
    {
      match outcome {
        case NetworkError(message) =>
          error := Some(message);
        case Response(status, body) =>
          if !IsOk(status) {
            error := Some(HttpErrorMessage(status));
          } else {
            match body {
              case Malformed(message) => error := Some(message);
              case Json(results) => news := results.GetOr([]);
            }
          }
      }
      loading := false;
    }

    /** A category badge click, and the fetch effect it triggers. */
    method SelectCategory(category: string) returns (url: Option<string>)
      requires Valid() && category in Categories
      modifies this
      ensures Valid()
      ensures Snapshot() == Step(old(Snapshot()), Event.SelectCategory(category))
      ensures url == RequestOf(config, old(Snapshot()), Event.SelectCategory(category))
      ensures requests == old(requests) + (if url.Some? then [url.value] else [])
    {
      var changed := category != selectedCategory;
      selectedCategory := category;
      if changed {
        var u := StartFetch(category);
        url := Some(u);
      } else {
        url := None;
      }
    }

    /** The "Refresh News" button. */
    method Refresh() returns (url: string)
      requires Valid()
      modifies this
      ensures Valid()
      ensures Snapshot() == Step(old(Snapshot()), Event.Refresh)
      ensures Some(url) == RequestOf(config, old(Snapshot()), Event.Refresh)
      ensures requests == old(requests) + [url]
    {
      url := StartFetch(selectedCategory);
    }

    /** The search box's `onChange`. */
    method SetSearchTerm(term: string)
      requires Valid()
      modifies this
      ensures Valid()
      ensures Snapshot() == Step(old(Snapshot()), SearchInput(term))
      ensures requests == old(requests)
    {
      searchTerm := term;
    }

    /** The theme button, and the effect that writes the theme through. */
    method ToggleTheme()
      requires Valid()
      modifies this, store
      ensures Valid()
      ensures Snapshot() == Step(old(Snapshot()), Event.ToggleTheme)
      ensures store.theme == Some(ThemeValue(darkMode))
      ensures requests == old(requests)
    {
      darkMode := !darkMode;
      store.theme := Some(ThemeValue(darkMode));
    }
  }

  /** A session driven through the component's methods alone: a fresh
      browser, an HTTP 500, then a refresh that brings two articles. */
  method FetchSession(config: Config, a1: Article, a2: Article, u: string)
    requires a1.url == Some(u) && u != "null" && !AllWhitespace(u)
    requires a2.url == Some("null")
  {
    var store := new ThemeStore(None);
    var app := new App(config, store);
    assert Render(app.Snapshot()) == LoadingIndicator;

    app.CompleteFetch(Response(500, Json(None)));
    InitialCoherent(None);
    Http500Shown(Initial(None), Json(None));
    assert Render(app.Snapshot()) == ErrorText("HTTP Error: 500");

    ghost var before := app.Snapshot();
    var url := app.Refresh();
    assert url == RequestUrl(config, "All");
    app.CompleteFetch(Response(200, Json(Some([a1, a2]))));
    TwoArticlesShown(before, a1, a2, u);
    var v := Render(app.Snapshot());
    assert v.view.cards[1].disabled && v.view.cards[0].footer == ReadMore(u, true, true, true);
  }

  /** The theme across two sessions over the same storage: light by default,
      a toggle is written through, and the next session starts from it. */
  method ThemeSession(config: Config)
  {
    var store := new ThemeStore(None);
    var app := new App(config, store);
    assert !app.darkMode && store.theme == Some("light");
    app.ToggleTheme();
    assert store.theme == Some("dark");

    var next := new App(config, store);
    assert next.darkMode;
    next.ToggleTheme();
    next.ToggleTheme();
    assert next.darkMode && store.theme == Some("dark");
  }
}
