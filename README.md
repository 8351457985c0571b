# Memeify It — a Dafny model of its page logic

Memeify It is a Next.js front end that shows memes from the r/memes listing.
It also searches and lists GIFs and stickers through a small Giphy proxy route,
and it captions imgflip templates. Almost all of it is rendering and calls to
outside services. This project models the logic that remains once each HTTP
result is taken as an input value (a success payload or a failure):

- **Latest feed** (`LatestFeed`, app/latest/page.tsx). The page state is a list
  of memes and an `after` cursor. A fetch builds the request URL from the
  cursor and keeps the image posts that carry a preview. It appends them and
  stores the returned cursor. A fetch happens only when the observed loader is
  intersecting. The page is a class with `memes: seq<Meme>` and
  `after: Option<string>`. A value-level `Apply`/`Replay` gives runs of fetches,
  and the lemmas about runs are stated over them.
- **Giphy proxy** (`GiphyRoute`, app/api/giphy/route.ts). This is an imperative
  `Get`. It assigns an endpoint through the if/else chain and fills in the
  parameter map. It is proved equal to the specification function `Plan`, and
  the dispatch table is proved about `Plan`.
- **GIF pages** (`GifRecords`, `SearchPage`, `TrendingPage`, `StickersPage`).
  `GifRecords` holds what the three pages share: the record mapping and the
  download filename. Each page is a class whose fetch replaces its list on
  success and keeps it on failure. The search page also has the blank-query
  guard, the `loading`/`searched` flags and its view predicates. The trending
  and stickers pages fetch exactly once, from their mounting constructor.
- **Meme generator** (`MemeGenerator`, app/memes/page.tsx). The page holds the
  template window that grows by ten per near-bottom scroll, the selection
  reset, `generateMeme` and the generate-button predicate.
- `JsSemantics` holds the JavaScript value rules the pages rely on. These are
  string truthiness in `a || b`, and `String.prototype.trim` with the
  whitespace and line-terminator characters of ECMA-262.

The Latest page does not de-duplicate by id: it appends every batch as it
comes, and `NoDeduplication` exhibits a post shown twice. It has no
end-of-stream flag and no in-flight guard. `ups` is copied with no default. A
meme's `url` is the post's own `url`, not a preview URL. A null cursor sends the
next request to the first page.

## Model

| member | source | states |
|---|---|---|
| JsSemantics.OrElse | app/api/giphy/route.ts:7-8 | the JavaScript `s or fallback` on a nullable string gives the string when it is present and non-empty, otherwise the fallback |
| JsSemantics.TrimStart | app/gifs/search/page.tsx:36 | the result is a suffix of the input, everything cut off is whitespace, and it does not start with whitespace |
| JsSemantics.TrimEnd | app/gifs/search/page.tsx:36 | the result is a prefix of the input, everything cut off is whitespace, and it does not end with whitespace |
| JsSemantics.TrimIsSlice | app/gifs/search/page.tsx:36 | `trim` returns a contiguous slice of its input with no whitespace at either end, and everything cut away before and after it is whitespace |
| JsSemantics.TrimEmptyIff | app/gifs/search/page.tsx:36 | `query.trim()` is empty exactly when every character of the query is whitespace |
| LatestFeed.RequestUrl | app/latest/page.tsx:46-48 | the URL always starts with the listing URL carrying `limit=20`; it is longer exactly when the cursor is non-null and non-empty, and then the rest is `&after=<cursor>` |
| LatestFeed.RequestUrlInjective | app/latest/page.tsx:46-48 | two cursors give the same URL exactly when both are null/empty or they are equal, so a null cursor requests the first page again |
| LatestFeed.ToMeme | app/latest/page.tsx:55-60 | id, url, title and ups are copied unchanged; the url is the post's own url, not the preview's |
| LatestFeed.FilterMemes | app/latest/page.tsx:52-60 | the filter never adds posts: the batch is no longer than the listing |
| LatestFeed.FilterMemesConcat | app/latest/page.tsx:52-60 | the pipeline works post by post: filtering two batches in a row gives the two results in a row, in order |
| LatestFeed.FilterMemesIff | app/latest/page.tsx:54-60 | a meme is in the batch if and only if some post with `post_hint == "image"` and a preview maps to it |
| LatestFeed.FilterMemesKeepsAll | app/latest/page.tsx:54 | nothing is dropped if and only if every post is an image post with a preview |
| LatestFeed.ReplayAppends | app/latest/page.tsx:62 | after any run of fetches the memes are the old memes followed by every batch in issue order: earlier items unchanged, lengths add |
| LatestFeed.ReplayCursor | app/latest/page.tsx:49-63 | after a run, `after` is the cursor of the last completed fetch, null included; a run of failures changes neither memes nor cursor |
| LatestFeed.ReplayOrigin | app/latest/page.tsx:52-62 | every meme shown was shown before or comes from a kept post of some completed fetch |
| LatestFeed.HarvestOrigin | app/latest/page.tsx:52-62 | every meme of a run's batches comes from a kept post of one of its completed fetches |
| LatestFeed.NoDeduplication | app/latest/page.tsx:62-63 | the same page fetched twice shows its post twice (no de-duplication), and its null cursor sends the next request to the first page |
| LatestFeed.LatestPage.constructor | app/latest/page.tsx:40-41 | the page starts with no memes and a null cursor |
| LatestFeed.LatestPage.FetchMemes | app/latest/page.tsx:45-64 | requests the URL for the stored cursor; a completed fetch appends the filtered batch and stores the returned cursor; a failure changes neither |
| LatestFeed.LatestPage.HandleObserver | app/latest/page.tsx:66-74 | a fetch happens only when the observed entry is intersecting; otherwise nothing is requested or changed |
| GiphyRoute.EffectiveType | app/api/giphy/route.ts:7 | the dispatched type is the `type` parameter when it is present and non-empty, and "trending" otherwise; it is never empty |
| GiphyRoute.PlanParams | app/api/giphy/route.ts:12-29 | exactly the four known types are accepted; every accepted call carries `api_key` and `limit = "20"`, and `q` (the query unchanged, "" when missing) exactly for `search` and `stickers-search` |
| GiphyRoute.EndpointsDistinct | app/api/giphy/route.ts:17-26 | two accepted requests reach the same endpoint exactly when their types are equal |
| GiphyRoute.DefaultIsTrending | app/api/giphy/route.ts:7-18 | a request with no usable type goes to `/v1/gifs/trending` with only `api_key` and `limit` |
| GiphyRoute.Get | app/api/giphy/route.ts:5-39 | the upstream call made is the planned one; an unknown type answers 400 `Invalid type` with no upstream call; an upstream failure answers 500; a success relays the upstream body unchanged with status 200 |
| GifRecords.MapGifs | app/gifs/search/page.tsx:43-47 | the mapping keeps length and order, copies id and title, and takes url from `images.original.url` (the trending and stickers pages use the same mapping) |
| GifRecords.DownloadName | app/gifs/search/page.tsx:63 | the filename ends in ".gif", and what precedes it is the title, or the fallback when the title is empty |
| GifRecords.DownloadNameInjective | app/gifs/search/page.tsx:63 | distinct non-empty titles download under distinct filenames |
| SearchPage.SearchRequest | app/gifs/search/page.tsx:39-41 | the search request has `type = "search"` and the query exactly as typed, untrimmed |
| SearchPage.SearchRequestRoute | app/gifs/search/page.tsx:39-41 | the proxy sends the search request to `/v1/gifs/search` with `q` equal to the typed query |
| SearchPage.FileName | app/gifs/search/page.tsx:63 | the search page downloads as `title.gif`, or `gif.gif` for an empty title |
| SearchPage.ViewsExclusive | app/gifs/search/page.tsx:90-145 | given that results exist only after a search, the spinner, placeholder, results and "No GIFs found" views exclude one another; after a search with nothing loading, exactly one of results and "No GIFs found" shows |
| SearchPage.SearchGifsPage.constructor | app/gifs/search/page.tsx:30-33 | empty query, no GIFs, not loading, not searched |
| SearchPage.SearchGifsPage.SetQuery | app/gifs/search/page.tsx:78 | typing changes only the query |
| SearchPage.SearchGifsPage.HandleSearch | app/gifs/search/page.tsx:35-56 | a query that is empty after trimming sends nothing and changes nothing; otherwise the untrimmed query is sent, success replaces the list and sets `searched`, failure keeps list and `searched`, and `loading` ends false; `searched` never reverts |
| TrendingPage.TrendingRequestRoute | app/gifs/trending/page.tsx:32 | the page's request reaches `/v1/gifs/trending` without `q` |
| TrendingPage.FileName | app/gifs/trending/page.tsx:50 | the trending page downloads as `title.gif`, or `gif.gif` for an empty title |
| TrendingPage.TrendingGifsPage.Mount | app/gifs/trending/page.tsx:28-58 | mounting sends exactly one request and shows the mapped GIFs, or nothing when it fails |
| TrendingPage.TrendingGifsPage.FetchTrendingGifs | app/gifs/trending/page.tsx:30-43 | each fetch sends the trending request; success replaces the list with the mapped data, failure keeps it |
| StickersPage.StickersRequestRoute | app/gifs/stickers/page.tsx:31 | the page's request reaches `/v1/stickers/trending` without `q` |
| StickersPage.FileName | app/gifs/stickers/page.tsx:50 | the stickers page downloads as `title.gif`, or `sticker.gif` for an empty title |
| StickersPage.StickersPage.Mount | app/gifs/stickers/page.tsx:27-58 | mounting sends exactly one request and shows the mapped stickers, or nothing when it fails |
| StickersPage.StickersPage.FetchTrendingStickers | app/gifs/stickers/page.tsx:29-43 | each fetch sends the stickers request; success replaces the list with the mapped data, failure keeps it |
| MemeGenerator.VisibleTemplates | app/memes/page.tsx:103 | the templates shown are a prefix of the list, of length `min(visibleCount, templates.length)` |
| MemeGenerator.LoaderIffHidden | app/memes/page.tsx:128 | the loader shows exactly while some template is not yet shown; without it every template is shown |
| MemeGenerator.WindowGrows | app/memes/page.tsx:38 | growing the window by ten only adds templates at the end of what is shown |
| MemeGenerator.MemeGeneratorPage.Mount | app/memes/page.tsx:16-33 | the window starts at 10, nothing is selected, captions and generated URL are empty, not loading; the templates are the loaded list, or empty when loading fails |
| MemeGenerator.MemeGeneratorPage.LoadTemplates | app/memes/page.tsx:25-33 | a loaded list replaces the templates; a failure keeps them |
| MemeGenerator.MemeGeneratorPage.HandleScroll | app/memes/page.tsx:35-40 | a near-bottom scroll grows the window by exactly 10, any other scroll changes nothing, and the window stays a positive multiple of 10 |
| MemeGenerator.MemeGeneratorPage.SelectTemplate | app/memes/page.tsx:106-111 | selecting sets the template and clears the generated URL and both captions, so the generate button (enabled only when not loading and both captions are non-empty, line 181) is disabled |
| MemeGenerator.MemeGeneratorPage.SetTopText | app/memes/page.tsx:169 | typing sets the top caption |
| MemeGenerator.MemeGeneratorPage.SetBottomText | app/memes/page.tsx:176 | typing sets the bottom caption |
| MemeGenerator.MemeGeneratorPage.GenerateMeme | app/memes/page.tsx:50-72 | with no template it does nothing; otherwise it posts the template id and both captions, replaces the generated URL only on a reply reporting success whose `data` is present (a reply without `data` throws and keeps the URL), and `loading` ends false |

## Left out

- HTTP calls (axios to Reddit, Giphy and imgflip, `fetch` in downloads) are not performed. Each is an input value: a success payload or a failure. Each fetch is one atomic step.
- Overlapping fetches, React re-render timing and stale closures are not modelled. This includes the `useCallback` dependency on `after` and the IntersectionObserver and scroll-listener setup and cleanup.
- LatestFeed.LatestPage.HandleObserver takes the first entry's `isIntersecting` flag. The observer always delivers at least one entry.
- Post `ups` is a JavaScript number. It is modelled as an unbounded integer because the page only copies it.
- The `meme.permalink` link is not modelled. It is not part of the `Meme` shape and always renders as `undefined`.
- URL encoding is not modelled. The proxy is assumed to see the `type` and `query` parameters exactly as the page set them, both through axios serialization and through `searchParams.get`.
- An undefined `GIPHY_API_KEY` is not modelled. The key is a string parameter.
- The upstream JSON is opaque text that is relayed unchanged.
- Scroll metrics are modelled as integers. The browser may report them as fractions. A missing sidebar element, which means no listener, is not modelled.
- Toasts, alerts, console logging and the blob/object-URL/anchor download mechanics are not modelled. Only the filename is kept.
- `downloadMeme` on the meme page is not modelled. It only fetches the generated image and saves it under the fixed name `meme.png`.
- MemeGenerator.MemeGeneratorPage.GenerateMeme reduces the reply to a boolean success flag and an optional `data` URL. The source tests `success` for truthiness, not as a boolean. A successful reply without a `data` object is modelled: reading `data.url` throws, the catch shows an alert, and the URL is kept. A reply whose `data` exists but has no `url` is not modelled; the page would then store `undefined`.
- app/api/generate-meme/route.ts, app/components/Sidebar.tsx, app/gifs/layout.tsx, app/layout.tsx and the authentication route are not part of this model. They forward requests to external services or only render.
