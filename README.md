# World Trending News: a Dafny model of the application shell and the news grid

The application is a single-page front end over the New York Times Top Stories
API. Its decision logic lives in two places:

- `src/App.jsx`, the shell. It turns a category label into an endpoint and a
  request URL. It holds the state hooks (`news`, `loading`, `error`,
  `selectedCategory`, `searchTerm`, `darkMode`) and updates them on each event:
  fetch start, fetch completion, category click, refresh, search input and
  theme toggle. It writes the theme through to browser storage, filters the
  articles by the search term, and picks what the main area shows: the
  loading text, the error text, or the grid.
- `src/components/NewsDisplay.jsx`, the grid. An empty or null list gives a
  "No news available." message. Otherwise each article becomes one card: an
  image with a fallback, alt text with a fallback, a disabled flag from the
  URL-usability rule, and either a "Read More" link or the "No URL available"
  message.

Modules:

- `Wrappers` (`wrappers.dfy`): `Option` (`null`/`undefined`) and `Result` (a caught error).
- `JsString` (`js_string.dfy`): the JavaScript string operations the code uses.
  These are `toLowerCase` on ASCII, `includes`, `trim` (ECMAScript white space
  and line terminators) and the decimal rendering of a status code in a
  template literal. Each has a reference definition and lemmas tying the two.
- `Articles` (`articles.dfy`): the article record. The JSON field `abstract`
  is named `abstractText`, because `abstract` is a Dafny keyword.
- `NewsDisplay` (`news_display.dfy`): the grid as a pure function from an
  optional article list to a view.
- `Fetch` (`fetch.dfy`): the category list, the endpoint, the request URL and
  what one fetch outcome commits.
- `Search` (`search.dfy`): the search filter and its properties.
- `Shell` (`shell.dfy`): the state as a datatype, the events as pure
  transitions, `Render`, and the component as a class.
  - `App` has one field per state hook and one method per handler. Each
    method's postcondition equates the new `Snapshot()` with `Step` applied
    to the old one.
  - `App` keeps `Valid()`: the state is coherent and storage holds the theme
    that matches `darkMode`.
  - The ghost field `requests` logs every request URL the component sends.
  - `ThemeStore` is the storage cell for the `"theme"` key.
  - Two client methods drive `App` through its contracts. `FetchSession` runs
    an HTTP 500 and then a refresh that returns two articles. `ThemeSession`
    runs a theme toggle that carries over into a second session.

Points where the code's behaviour is easy to misread, and what the model does:

- A URL made only of white space is not usable: the code calls `trim()`.
- The error branch is taken when `error` is truthy, so an empty error
  message shows the grid.
- Selecting the already-selected category starts no fetch: React skips a
  state update to the same value, so the effect (which depends only on
  `selectedCategory`) does not run again.
- An unset API key puts the text `undefined` in the URL.

## Model

| member | source | states |
|---|---|---|
| `JsString.LowerChar` | src/App.jsx:36 | ASCII upper-case letters map to lower case (+32); every other character is unchanged; the result is never upper case |
| `JsString.Lower` | src/App.jsx:62-63 | lower-casing keeps the length |
| `JsString.LowerAt` | src/App.jsx:62-63 | lower-casing works position by position: the character at i is `LowerChar` of the input's |
| `JsString.LowerInjectiveOnCapitalised` | src/App.jsx:36 | two capitalised words with the same lower-case form are equal |
| `JsString.Includes` | src/App.jsx:62-63 | `includes` (the reference recursion over start positions); a positive answer implies the needle is no longer than the haystack; `IncludesIffOccurs` and `IncludesEmpty` state its meaning |
| `JsString.IncludesIffOccurs` | src/App.jsx:62-63 | `includes` holds exactly when the needle occurs as a contiguous slice at some index (both directions) |
| `JsString.IncludesEmpty` | src/App.jsx:61-64 | every string includes the empty string |
| `JsString.LeadingWhitespace` | src/components/NewsDisplay.jsx:13 | the length of the longest white-space prefix: everything before it is white space and the character at it (if any) is not; `TrimStart` drops exactly that prefix |
| `JsString.TrailingWhitespaceStart` | src/components/NewsDisplay.jsx:13 | where the longest white-space suffix starts: everything from it on is white space and the character before it (if any) is not; `TrimEnd` keeps exactly what precedes it |
| `JsString.TrimStart` | src/components/NewsDisplay.jsx:13 | `s[LeadingWhitespace(s)..]`; its properties are those of `LeadingWhitespace` |
| `JsString.TrimEnd` | src/components/NewsDisplay.jsx:13 | `s[..TrailingWhitespaceStart(s)]`; its properties are those of `TrailingWhitespaceStart` |
| `JsString.Trim` | src/components/NewsDisplay.jsx:13 | `trim()` is a contiguous slice of the input starting right after the leading white space, everything after it is white space, and it neither starts nor ends with white space |
| `JsString.TrimEmptyIff` | src/components/NewsDisplay.jsx:13 | `trim()` is empty exactly when every character is white space |
| `JsString.NatToDecimal` | src/App.jsx:40 | the rendering is non-empty, all digits, with no leading zero |
| `JsString.DecimalRoundTrip` | src/App.jsx:40 | parsing the decimal rendering of n gives back n |
| `JsString.DecimalInjective` | src/App.jsx:40 | different status codes render differently |
| `NewsDisplay.IsDisabled` | src/components/NewsDisplay.jsx:13 | the card's URL test: no URL, a URL that trims to "", or the text "null"; `DisabledIff`, `BlankUrlsDisabled`, `EnabledWith` and `NullLookalikesEnabled` state what it means |
| `NewsDisplay.DisabledIff` | src/components/NewsDisplay.jsx:13 | a card is disabled exactly when the URL is absent, all white space (empty included) or the literal "null" |
| `NewsDisplay.BlankUrlsDisabled` | src/components/NewsDisplay.jsx:13 | the whitespace-only URLs "   " and tab-newline are disabled |
| `NewsDisplay.EnabledWith` | src/components/NewsDisplay.jsx:13 | any URL that has a visible character and is not "null" is enabled |
| `NewsDisplay.NullLookalikesEnabled` | src/components/NewsDisplay.jsx:13 | only the exact text "null" is special: " null" and "NULL" are enabled |
| `NewsDisplay.ImageFor` | src/components/NewsDisplay.jsx:22 | the image is the first media item's URL when the list exists, is non-empty and that URL is non-empty; any other result is `DEFAULT_IMAGE`; the image is never empty |
| `NewsDisplay.AltFor` | src/components/NewsDisplay.jsx:23 | alt text is the title when non-empty, else "No image available" |
| `NewsDisplay.CardFor` | src/components/NewsDisplay.jsx:13-41 | disabled iff the URL rule says so; a disabled card shows "No URL available for this article"; an enabled card links to exactly `article.url`, opening a new browsing context with no opener and no referrer; image, alt, title and abstract per the fallbacks |
| `NewsDisplay.Cards` | src/components/NewsDisplay.jsx:12 | exactly one card per article, in input order |
| `NewsDisplay.Display` | src/components/NewsDisplay.jsx:5-12 | a null or empty list gives the "No news available." message and no cards; any other list gives a grid of its cards |
| `Fetch.Endpoint` | src/App.jsx:36 | "All" maps to "home"; any other label maps to its lower-case form |
| `Fetch.CategoriesDistinct` | src/App.jsx:7-12 | the category labels are pairwise distinct |
| `Fetch.CategoriesCapitalised` | src/App.jsx:7-12 | every category label is a capitalised word |
| `Fetch.OnlyAllLooksLikeHome` | src/App.jsx:7-12 | "All" is the first label, and no other four-letter label starts with 'H' |
| `Fetch.HomeEndpoint` | src/App.jsx:36 | a capitalised label other than "All" reaches "home" only if it has four letters and starts with 'H' |
| `Fetch.EndpointHomeIffAll` | src/App.jsx:36 | over the category list, the endpoint is "home" iff the category is "All" |
| `Fetch.EndpointsDistinct` | src/App.jsx:7-12 | the 22 categories map to 22 distinct endpoints |
| `Fetch.BaseUrl` | src/App.jsx:30 | the configured base URL when set and non-empty, else the public API root; never empty |
| `Fetch.ApiKeyText` | src/App.jsx:29-37 | a set API key is inserted as it is; an unset one renders as "undefined" |
| `Fetch.RequestUrl` | src/App.jsx:37 | the request URL starts with the base URL followed by "/"; `RequestUrlDeterminesEndpoint` and `RequestUrlsDistinct` state that it identifies the endpoint |
| `Fetch.RequestUrlDeterminesEndpoint` | src/App.jsx:37 | two request URLs (same configuration) are equal only if their endpoints are equal |
| `Fetch.RequestUrlsDistinct` | src/App.jsx:37 | every category of the list has its own request URL |
| `Fetch.IsOk` | src/App.jsx:40 | `response.ok`: the status is in 200..299; `FetchResult` and `CycleOutcome` state what each side commits |
| `Fetch.HttpErrorMessage` | src/App.jsx:40 | the error message starts with "HTTP Error: " followed by at least one character |
| `Fetch.HttpErrorMessageNamesStatus` | src/App.jsx:40 | the text after "HTTP Error: " is all digits, has no leading zero, and reads back as the status |
| `Fetch.FetchResult` | src/App.jsx:39-45 | success iff the status is 2xx and the body parsed; the articles are `results`, or [] when it is absent; a non-2xx status gives the "HTTP Error: status" message; a body that fails to parse or a failed request gives its own message |
| `Search.Matches` | src/App.jsx:62-63 | the filter's test: the lowered title or the lowered abstract includes the lowered term; `FilterMultiplicity` and `FilterMembers` state the filter in its terms |
| `Search.FilterNews` | src/App.jsx:61-64 | the filtered list is no longer than `news` and every article in it matches the term |
| `Search.FilterIsSubsequence` | src/App.jsx:61-64 | the filtered list is an order-preserving subsequence of `news` |
| `Search.FilterMultiplicity` | src/App.jsx:61-64 | each article occurs in the result as often as in `news` when its lowered title or abstract includes the lowered term, and never otherwise |
| `Search.FilterMembers` | src/App.jsx:61-64 | an article is in the result iff it is in `news` and matches (both directions) |
| `Search.FilterEmptyTerm` | src/App.jsx:61-64 | the empty search term keeps the list unchanged |
| `Search.FilterIdempotent` | src/App.jsx:61-64 | filtering the filtered list with the same term changes nothing |
| `Shell.DarkFromStorage` | src/App.jsx:15-17 | `toggleMode()`: dark exactly when the stored theme is "dark"; `ThemeValue` and `InitialCoherent` state its consequences |
| `Shell.ThemeValue` | src/App.jsx:56-58 | the stored value is "dark" or "light" and reads back as the same theme on the next load |
| `Shell.Initial` | src/App.jsx:20-25 | the first state is coherent, loading, with no news; `darkMode` is true iff the stored theme is "dark" |
| `Shell.Coherent` | src/App.jsx:32-49 | the invariant: the selected category is one of the list and no error is on record while a fetch is in flight; `InitialCoherent` and `StepPreservesCoherent` state that it holds |
| `Shell.FetchStarted` | src/App.jsx:33-34 | loading is set and the error cleared; news, category, search term and theme are unchanged |
| `Shell.FetchCompleted` | src/App.jsx:39-47 | loading is cleared; a successful outcome replaces `news` and keeps `error`; a failed one records its message and keeps `news`; category, search term and theme are unchanged |
| `Shell.Step` | src/App.jsx:32-58 | each event changes only its own part of the state: only a completed fetch changes `news`, only a selection the category, only search input the term, only a toggle the theme. A fetch start, a refresh and a changed selection set loading and clear the error; a changed selection records the chosen category; re-selecting the current category changes nothing; search input records the term and a toggle flips the theme, neither touching `loading` or `error`, so together with the frame clauses each is pinned to its one field |
| `Shell.RequestOf` | src/App.jsx:51-53 | only a category selection or a refresh sends a request; a refresh requests the selected category's URL; a selection sends one iff the category changes, and then requests the newly chosen category's URL |
| `Shell.InitialCoherent` | src/App.jsx:15-25 | the initial state is coherent; the mount fetch leaves it unchanged; `darkMode` starts true iff the stored theme is "dark", so false when nothing is stored |
| `Shell.StepPreservesCoherent` | src/App.jsx:32-58 | every event keeps the selected category in the list and keeps "loading implies no error" |
| `Shell.CycleOutcome` | src/App.jsx:32-49 | after a fetch cycle loading is false. On success `news` is the results or [] and `error` is null. On a non-2xx status, a bad body or a failed request, `error` holds the message and `news` is unchanged. The category, search term and theme are untouched |
| `Shell.Cycle` | src/App.jsx:32-48 | one call of `fetchNews`: the start, then one outcome; `CycleOutcome` states what it commits |
| `Shell.RefreshStartsFetch` | src/App.jsx:118 | the refresh button starts the same fetch as the effect, so a refresh and its response form one `Cycle` |
| `Shell.RefreshIdempotent` | src/App.jsx:118 | two refresh cycles with the same response end in the same state as one |
| `Shell.SearchIsProjection` | src/App.jsx:87 | typing in the search box changes only `searchTerm`: never `news`, and it sends no request |
| `Shell.ToggleTwice` | src/App.jsx:72 | each toggle flips `darkMode`; two toggles restore the state |
| `Shell.Render` | src/App.jsx:108-116 | the loading text shows iff `loading`; otherwise the error text iff `error` is truthy; otherwise the grid of the filtered news; loading has priority over error |
| `Shell.ClearSearchShowsAll` | src/App.jsx:61-64 | once nothing is loading and no error is shown, clearing the search shows the grid of all of `news`, with no fetch |
| `Shell.Http500Shown` | src/App.jsx:40 | after a status-500 response the main area shows exactly "HTTP Error: 500" (no loading text, no grid) |
| `Shell.TwoArticlesShown` | src/App.jsx:115 | two fetched articles under an empty search give two cards in order; the first links to its URL and the second (URL "null") is disabled with the fallback message |
| `Shell.ThemeStore.constructor` | src/App.jsx:16 | the storage cell starts with the value saved by an earlier session, or none |
| `Shell.App.constructor` | src/App.jsx:20-25 | the state starts at the initial hook values with the theme read from storage; storage is then written with the matching theme; the mount effect requests the "All" URL |
| `Shell.App.StartFetch` | src/App.jsx:32-37 | sets loading and clears the error (nothing else changes); returns the request URL for the category; logs it |
| `Shell.App.CompleteFetch` | src/App.jsx:39-48 | commits the fetch outcome as `FetchCompleted` describes and clears loading; sends nothing |
| `Shell.App.SelectCategory` | src/App.jsx:51-53 | records the selection; if it changed, starts a fetch for it and returns its URL; otherwise no request |
| `Shell.App.Refresh` | src/App.jsx:118 | starts a fetch for the selected category and returns its URL |
| `Shell.App.SetSearchTerm` | src/App.jsx:87 | replaces the search term only |
| `Shell.App.ToggleTheme` | src/App.jsx:72 | flips `darkMode` and writes "dark" or "light" to storage to match |

## Left out

- The network request and JSON decoding (`fetch`, `response.json()`) are not modelled. They become the input value `Outcome`: a response with a status and a parsed `results` field, a body that fails to parse or parses to `null` (so that reading `results` throws), or a request that fails. The thrown error's text is a parameter.
- Overlapping fetches are not modelled. Two fetches in flight can settle in either order, and the last one wins. The model runs one fetch cycle at a time: `StartFetch`, then `CompleteFetch`.
- React's scheduling of state updates and effects is reduced to ordered method calls. The mount effects run in the constructor. The category effect runs inside `SelectCategory`.
- JSX markup, CSS classes, the loading and button labels and the footer date are not modelled. They are presentation only. The link's `target="_blank"` and `rel="noopener noreferrer"` are modelled as the three flags of `ReadMore`.
- Browser storage is reduced to `ThemeStore`, a single optional string for the `"theme"` key.
- JsString.Lower: covers ASCII letters only, whereas JavaScript's `toLowerCase` applies full Unicode case mapping; the search and endpoint properties are proved for that ASCII lowering.
- JsString.LowerChar: maps only the ASCII letters 'A' to 'Z', whereas JavaScript also lower-cases non-ASCII letters.
- The display sort `categories.sort()` is not modelled. It only orders the buttons.
- Articles whose title or abstract is not a string are not modelled: a non-string title, or a non-string abstract on an article whose title does not match, makes the filter throw. URL and media values that are neither absent nor strings are not modelled either.
- `data.results` holding something other than an array or null is not modelled.
- src/components/NewsCard.jsx and src/components/NewsList.jsx are not part of this model. The shell does not use them. NewsList repeats NewsDisplay's empty-list check; NewsCard uses the same image-fallback pattern, with a different placeholder image, no alt-text fallback and no URL-usability rule.
