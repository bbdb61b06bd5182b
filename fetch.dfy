/** Request construction and the interpretation of one fetch outcome: the
    pure part of `fetchNews`. */
module Fetch {
  import opened Wrappers
  import opened JsString
  import opened Articles

  /** The fixed category list, in declaration order ("All" first). */
  const Categories: seq<string> := [
    "All", "Science", "World", "Politics", "Technology", "Health",
    "Arts", "Automobiles", "Books", "Business", "Fashion", "Food",
    "Insider", "Magazine", "Movies", "National", "Obituaries",
    "Opinion", "Sports", "Theater", "Travel", "Upshot"]

  const DEFAULT_BASE_URL := "https://api.nytimes.com/svc/topstories/v2"
  const HTTP_ERROR_PREFIX := "HTTP Error: "

  /** The build-time environment: `VITE_NYT_BASE_URL` and `VITE_NYT_API_KEY`,
      each possibly unset. */
  datatype Config = Config(baseUrl: Option<string>, apiKey: Option<string>)

  /** The body of a response, once `response.json()` has run.  `Malformed`
      also covers a body that parses to `null`: reading `data.results` then
      throws, and the message of that error is what `catch` records. */
  datatype Body =
    | Json(results: Option<seq<Article>>)   // `data.results`, possibly absent or null
    | Malformed(message: string)            // `response.json()` or `data.results` threw

  /** What one `fetch` produced. */
  datatype Outcome =
    | Response(status: nat, body: Body)
    | NetworkError(message: string)         // `fetch` itself rejected

  /** `category === "All" ? "home" : category.toLowerCase()`. */
  function Endpoint(category: string): (e: string)
    ensures category == "All" ==> e == "home"
    ensures category != "All" ==> e == Lower(category)
  {
    if category == "All" then "home" else Lower(category)
  }

  /** The category labels are pairwise distinct. */
  lemma CategoriesDistinct()
    ensures forall i, j :: 0 <= i < j < |Categories| ==> Categories[i] != Categories[j]
  {
  }

  /** Every category label is a capitalised word. */
  lemma CategoriesCapitalised()
    ensures forall i :: 0 <= i < |Categories| ==> Capitalised(Categories[i])
  {
  }

  /** "All" comes first, and no other four-letter label starts with 'H'. */
  lemma OnlyAllLooksLikeHome()
    ensures Categories[0] == "All"
    ensures forall i :: 0 < i < |Categories| ==> !(|Categories[i]| == 4 && Categories[i][0] == 'H')
  {
  }

  /** A capitalised label other than "All" has endpoint "home" only if it is
      a four-letter word starting with 'H'. */
  lemma HomeEndpoint(c: string)
    requires Capitalised(c) && c != "All" && Endpoint(c) == "home"
    ensures |c| == 4 && c[0] == 'H'
  {
    LowerAt(c, 0);
  }

  /** Over the category list, the endpoint is "home" exactly for "All". */
  lemma EndpointHomeIffAll(c: string)
    requires c in Categories
    ensures Endpoint(c) == "home" <==> c == "All"
  {
    CategoriesCapitalised();
    OnlyAllLooksLikeHome();
    if c != "All" && Endpoint(c) == "home" {
      HomeEndpoint(c);
    }
  }

  /** `BASE_URL`: the configured value when it is set and non-empty
      (JavaScript's `||`), otherwise the public API root. */
  function BaseUrl(cfg: Config): (b: string)
    ensures b != ""
    ensures cfg.baseUrl.Some? && cfg.baseUrl.value != "" ==> b == cfg.baseUrl.value
    ensures (cfg.baseUrl.None? || cfg.baseUrl.value == "") ==> b == DEFAULT_BASE_URL
  {
    match cfg.baseUrl
    case Some(u) => if u != "" then u else DEFAULT_BASE_URL
    case None => DEFAULT_BASE_URL
  }

  /** `API_KEY` as a template literal renders it: an unset key prints as
      "undefined". */
  function ApiKeyText(cfg: Config): (k: string)
    ensures cfg.apiKey.Some? ==> k == cfg.apiKey.value
    ensures cfg.apiKey.None? ==> k == "undefined"
  {
    cfg.apiKey.GetOr("undefined")
  }

  /** `${BASE_URL}/${endpoint}.json?api-key=${API_KEY}`. */
  function RequestUrl(cfg: Config, category: string): (u: string)
    ensures |u| > |BaseUrl(cfg)| && u[..|BaseUrl(cfg)| + 1] == BaseUrl(cfg) + "/"
  {
    (BaseUrl(cfg) + "/") + (Endpoint(category) + (".json?api-key=" + ApiKeyText(cfg)))
  }

  /** Equal strings with a common prefix and suffix agree in between. */
  lemma {:induction false} CancelAround(p: string, x: string, y: string, q: string)
    requires p + (x + q) == p + (y + q)
    ensures x == y
  {
    assert |x| == |y|;
    assert x == (p + (x + q))[|p|..|p| + |x|];
    assert y == (p + (y + q))[|p|..|p| + |y|];
  }

  /** The URL determines the endpoint: requests for two categories are the
      same URL only if the categories share an endpoint. */
  lemma RequestUrlDeterminesEndpoint(cfg: Config, c1: string, c2: string)
    requires RequestUrl(cfg, c1) == RequestUrl(cfg, c2)
    ensures Endpoint(c1) == Endpoint(c2)
  {
    var p := BaseUrl(cfg) + "/";
    var q := ".json?api-key=" + ApiKeyText(cfg);
    CancelAround(p, Endpoint(c1), Endpoint(c2), q);
  }

  /** The 22 categories have 22 distinct endpoints. */
  lemma EndpointsDistinct(i: nat, j: nat)
    requires i < j < |Categories|
    ensures Endpoint(Categories[i]) != Endpoint(Categories[j])
  {
    CategoriesDistinct();
    CategoriesCapitalised();
    OnlyAllLooksLikeHome();
    var a, b := Categories[i], Categories[j];
    if Endpoint(a) == Endpoint(b) {
      if i == 0 {
        HomeEndpoint(b);
      } else {
        LowerInjectiveOnCapitalised(a, b);
      }
    }
  }

  /** Hence each category of the list has a request URL of its own. */
  lemma RequestUrlsDistinct(cfg: Config, i: nat, j: nat)
    requires i < j < |Categories|
    ensures RequestUrl(cfg, Categories[i]) != RequestUrl(cfg, Categories[j])
  {
    EndpointsDistinct(i, j);
    if RequestUrl(cfg, Categories[i]) == RequestUrl(cfg, Categories[j]) {
      RequestUrlDeterminesEndpoint(cfg, Categories[i], Categories[j]);
    }
  }

  /** `response.ok`: a status in the 2xx range. */
  predicate IsOk(status: nat) {
    200 <= status <= 299
  }

  /** `HTTP Error: ${response.status}`. */
  function HttpErrorMessage(status: nat): (m: string)
    ensures |m| > |HTTP_ERROR_PREFIX| && m[..|HTTP_ERROR_PREFIX|] == HTTP_ERROR_PREFIX
  {
    HTTP_ERROR_PREFIX + NatToDecimal(status)
  }

  /** The message names the status: the digits after the prefix are its
      canonical decimal rendering (no leading zero) and read back as it. */
  lemma HttpErrorMessageNamesStatus(status: nat)
    ensures var digits := HttpErrorMessage(status)[|HTTP_ERROR_PREFIX|..];
      (forall i :: 0 <= i < |digits| ==> IsDigit(digits[i]))
      && (|digits| > 1 ==> digits[0] != '0')
      && ParseDecimal(digits) == status
  {
    assert HttpErrorMessage(status)[|HTTP_ERROR_PREFIX|..] == NatToDecimal(status);
    DecimalRoundTrip(status);
  }

  /** The result of one fetch, as the `try`/`catch` of `fetchNews` sees it:
      the articles to commit, or the message of the error it caught. */
  function FetchResult(o: Outcome): (r: Result<seq<Article>, string>)
    ensures r.Ok? <==> o.Response? && IsOk(o.status) && o.body.Json?
    ensures r.Ok? ==> r.value == o.body.results.GetOr([])
    ensures o.Response? && !IsOk(o.status) ==> r == Err(HttpErrorMessage(o.status))
    ensures o.Response? && IsOk(o.status) && o.body.Malformed? ==> r == Err(o.body.message)
    ensures o.NetworkError? ==> r == Err(o.message)
  {
    match o
    case NetworkError(msg) => Err(msg)
    case Response(status, body) =>
      if !IsOk(status) then Err(HttpErrorMessage(status))
      else match body
        case Malformed(msg) => Err(msg)
        case Json(results) => Ok(results.GetOr([]))
  }
}
