/**
 * The trending GIFs page: on mount it fetches Giphy's trending GIFs once
 * through `/api/giphy?type=trending` and shows them.
 */
module TrendingPage {
  import opened JsSemantics
  import opened GifRecords
  import GiphyRoute

  const DownloadFallback: string := "gif"

  /** The request the page sends: `type=trending`, no query. */
  const TrendingRequest: GiphyRoute.Query := GiphyRoute.Query(Some("trending"), None)

  /** The page's request reaches Giphy's trending GIFs without a `q` parameter. */
  lemma TrendingRequestRoute(apiKey: string)
    ensures GiphyRoute.Plan(TrendingRequest, apiKey) ==
            Some(GiphyRoute.UpstreamCall(GiphyRoute.TrendingEndpoint, map["api_key" := apiKey, "limit" := "20"]))
  {
  }

  /** `handleDownload`'s filename on this page. */
  function FileName(title: string): (name: string)
    ensures name == DownloadName(title, DownloadFallback)
    ensures title == "" ==> name == "gif.gif"
  {
    DownloadName(title, DownloadFallback)
  }

  /** The component state of the page. */
  class TrendingGifsPage {
    var gifs: seq<Gif>
    /** Every request the page has sent, in order. */
    ghost var requests: seq<GiphyRoute.Query>

    /** Mounting: start empty and fetch exactly once. */
    constructor Mount(outcome: GiphyFetch)
      ensures requests == [TrendingRequest]
      ensures outcome.GiphyOk? ==> gifs == MapGifs(outcome.data)
      ensures outcome.GiphyFailed? ==> gifs == []
    {
      gifs := [];
      requests := [];
      new;
      FetchTrendingGifs(outcome);
    }

    /** `fetchTrendingGifs`: a success replaces the list, a failure is only logged. */
    method FetchTrendingGifs(outcome: GiphyFetch)
      modifies this
      ensures requests == old(requests) + [TrendingRequest]
      ensures outcome.GiphyOk? ==> gifs == MapGifs(outcome.data)
      ensures outcome.GiphyFailed? ==> gifs == old(gifs)
    {
      requests := requests + [TrendingRequest];
      match outcome {
        case GiphyOk(data) =>
          var gifData := MapGifs(data);
          gifs := gifData;
        case GiphyFailed =>
      }
    }
  }
}
