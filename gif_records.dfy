/**
 * What the three GIF pages share: the Giphy record they read, the `Gif`
 * they keep of it, the `data.map` that turns one into the other, and the
 * download filename `${title || fallback}.gif`.
 */
module GifRecords {

  /** One element of Giphy's `data` array; `originalUrl` is `images.original.url`. */
  datatype GiphyGif = GiphyGif(id: string, title: string, originalUrl: string)

  /** What a page shows and downloads. */
  datatype Gif = Gif(id: string, title: string, url: string)

  /** The result of the page's request to `/api/giphy` and of reading `res.data.data`. */
  datatype GiphyFetch = GiphyFailed | GiphyOk(data: seq<GiphyGif>)

  /** `res.data.data.map(...)`: one Gif per record, in the same order. */
  function MapGifs(data: seq<GiphyGif>): (r: seq<Gif>)
    ensures |r| == |data|
    ensures forall i :: 0 <= i < |data| ==>
              r[i].id == data[i].id && r[i].title == data[i].title && r[i].url == data[i].originalUrl
  {
    if data == [] then []
    else [Gif(data[0].id, data[0].title, data[0].originalUrl)] + MapGifs(data[1..])
  }

  /**
   * `${title || fallback}.gif`: the name always ends in ".gif", and what
   * stands before it is the title, or the fallback when the title is empty.
   */
  function DownloadName(title: string, fallback: string): (name: string)
    ensures |name| >= 4 && name[|name| - 4..] == ".gif"
    ensures name[..|name| - 4] == if title != "" then title else fallback
  {
    (if title != "" then title else fallback) + ".gif"
  }

  /** Different non-empty titles never produce the same filename. */
  lemma DownloadNameInjective(t1: string, t2: string, fallback: string)
    requires t1 != "" && t2 != ""
    ensures DownloadName(t1, fallback) == DownloadName(t2, fallback) <==> t1 == t2
  {
  }
}
