/**
 * The stickers page: on mount it fetches Giphy's trending stickers once
 * through `/api/giphy?type=stickers` and shows them.
 */
module StickersPage {
  import opened JsSemantics
  import opened GifRecords
  import GiphyRoute

  const DownloadFallback: string := "sticker"

  /** The request the page sends: `type=stickers`, no query. */
  const StickersRequest: GiphyRoute.Query := GiphyRoute.Query(Some("stickers"), None)

  /** The page's request reaches Giphy's trending stickers without a `q` parameter. */
  lemma StickersRequestRoute(apiKey: string)
    ensures GiphyRoute.Plan(StickersRequest, apiKey) ==
            Some(GiphyRoute.UpstreamCall(GiphyRoute.StickersEndpoint, map["api_key" := apiKey, "limit" := "20"]))
  {
  }

  /** `handleDownload`'s filename on this page. */
  function FileName(title: string): (name: string)
    ensures name == DownloadName(title, DownloadFallback)
    ensures title == "" ==> name == "sticker.gif"
  {
    DownloadName(title, DownloadFallback)
  }

  /** The component state of the page. */
  class StickersPage {
    var stickers: seq<Gif>
    /** Every request the page has sent, in order. */
    ghost var requests: seq<GiphyRoute.Query>

    /** Mounting: start empty and fetch exactly once. */
    constructor Mount(outcome: GiphyFetch)
      ensures requests == [StickersRequest]
      ensures outcome.GiphyOk? ==> stickers == MapGifs(outcome.data)
      ensures outcome.GiphyFailed? ==> stickers == []
    {
      stickers := [];
      requests := [];
      new;
      FetchTrendingStickers(outcome);
    }

    /**
     * `fetchTrendingStickers`: a success replaces the list; a failure keeps
     * it and only raises an error toast.
     */
    method FetchTrendingStickers(outcome: GiphyFetch)
      modifies this
      ensures requests == old(requests) + [StickersRequest]
      ensures outcome.GiphyOk? ==> stickers == MapGifs(outcome.data)
      ensures outcome.GiphyFailed? ==> stickers == old(stickers)
    {
      requests := requests + [StickersRequest];
      match outcome {
        case GiphyOk(data) =>
          var stickerData := MapGifs(data);
          stickers := stickerData;
        case GiphyFailed =>
      }
    }
  }
}
