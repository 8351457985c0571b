/**
 * The GIF search page: a query box, the GIFs of the last successful search
 * and the `loading` and `searched` flags that decide which view is shown.
 */
module SearchPage {
  import opened JsSemantics
  import opened GifRecords
  import GiphyRoute

  const DownloadFallback: string := "gif"

  /** The request `handleSearch` sends: `type=search` and the query as typed, untrimmed. */
  function SearchRequest(query: string): (q: GiphyRoute.Query)
    ensures q.typeParam == Some("search") && q.query == Some(query)
  {
    GiphyRoute.Query(Some("search"), Some(query))
  }

  /** The search request reaches Giphy's GIF search with `q` set to the query as typed. */
  lemma SearchRequestRoute(query: string, apiKey: string)
    ensures GiphyRoute.Plan(SearchRequest(query), apiKey) ==
            Some(GiphyRoute.UpstreamCall(GiphyRoute.SearchEndpoint,
                                         map["api_key" := apiKey, "limit" := "20", "q" := query]))
  {
  }

  /** `handleDownload`'s filename on this page. */
  function FileName(title: string): (name: string)
    ensures name == DownloadName(title, DownloadFallback)
    ensures title == "" ==> name == "gif.gif"
  {
    DownloadName(title, DownloadFallback)
  }

  /** The start-up placeholder (line 90). */
  predicate ShowsPlaceholder(query: string, loading: bool, searched: bool)
  {
    query == "" && !loading && !searched
  }

  /** The list of results (line 112). */
  predicate ShowsResults(gifs: seq<Gif>, loading: bool)
  {
    !loading && |gifs| > 0
  }

  /** The "No GIFs found" message (line 141). */
  predicate ShowsNoResults(gifs: seq<Gif>, loading: bool, searched: bool)
  {
    searched && |gifs| == 0 && !loading
  }

  /**
   * While results exist only after a search (the page's invariant), the
   * spinner, the placeholder, the results and the no-result message exclude
   * one another, and after a search exactly one of results and no-result
   * message shows when nothing is loading.
   */
  lemma ViewsExclusive(query: string, gifs: seq<Gif>, loading: bool, searched: bool)
    requires |gifs| > 0 ==> searched
    ensures !(ShowsPlaceholder(query, loading, searched) && ShowsResults(gifs, loading))
    ensures !(ShowsPlaceholder(query, loading, searched) && ShowsNoResults(gifs, loading, searched))
    ensures !(ShowsResults(gifs, loading) && ShowsNoResults(gifs, loading, searched))
    ensures loading ==> !ShowsPlaceholder(query, loading, searched) && !ShowsResults(gifs, loading) &&
                        !ShowsNoResults(gifs, loading, searched)
    ensures !loading && searched ==> (ShowsResults(gifs, loading) <==> !ShowsNoResults(gifs, loading, searched))
  {
  }

  /** The component state of the page. */
  class SearchGifsPage {
    var query: string
    var gifs: seq<Gif>
    var loading: bool
    var searched: bool

    /** Results exist only after a completed search. */
    ghost predicate Valid()
      reads this
    {
      |gifs| > 0 ==> searched
    }

    constructor ()
      ensures Valid()
      ensures query == "" && gifs == [] && !loading && !searched
    {
      query, gifs, loading, searched := "", [], false, false;
    }

    /** The input's `onChange`. */
    method SetQuery(q: string)
      requires Valid()
      modifies this
      ensures Valid()
      ensures query == q && gifs == old(gifs) && loading == old(loading) && searched == old(searched)
    {
      query := q;
    }

    /**
     * `handleSearch`: a blank query (empty after trimming) only raises a
     * toast and changes nothing; otherwise the untrimmed query is sent, a
     * success replaces the list and marks the page searched, a failure keeps
     * both, and `loading` is false after either.
     */
    method HandleSearch(outcome: GiphyFetch) returns (request: Option<GiphyRoute.Query>)
      requires Valid()
      modifies this
      ensures Valid()
      ensures query == old(query)
      ensures old(searched) ==> searched
      ensures Trim(old(query)) == "" ==>
                request == None && gifs == old(gifs) && loading == old(loading) && searched == old(searched)
      ensures Trim(old(query)) != "" ==> request == Some(SearchRequest(old(query))) && !loading
      ensures Trim(old(query)) != "" && outcome.GiphyOk? ==> gifs == MapGifs(outcome.data) && searched
      ensures Trim(old(query)) != "" && outcome.GiphyFailed? ==> gifs == old(gifs) && searched == old(searched)
    {
      if Trim(query) == "" {
        return None;
      }
      loading := true;
      request := Some(SearchRequest(query));
      match outcome {
        case GiphyOk(data) =>
          var gifData := MapGifs(data);
          gifs := gifData;
          searched := true;
        case GiphyFailed =>
      }
      loading := false;
    }
  }
}
