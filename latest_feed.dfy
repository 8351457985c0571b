/**
 * The "Latest" page: an infinite-scroll feed of image posts from the
 * r/memes listing. The page keeps the memes shown so far and the `after`
 * cursor the listing returned last; each fetch requests the page after that
 * cursor, keeps the image posts, appends them and stores the new cursor.
 * There is no de-duplication and no end-of-stream stop: a null cursor makes
 * the next fetch ask for the first page again.
 */
module LatestFeed {
  import opened JsSemantics

  /** The `preview` object of a post; the page only tests that it is present. */
  datatype Preview = Preview(sourceUrls: seq<string>)

  /** One `children[k].data` record of the listing. */
  datatype RedditPost = RedditPost(
    id: string,
    title: string,
    url: string,
    ups: int,
    postHint: Option<string>,
    preview: Option<Preview>)

  /** What the page keeps of a post. */
  datatype Meme = Meme(id: string, url: string, title: string, ups: int)

  /** The parts of a listing response that the page reads. */
  datatype Listing = Listing(children: seq<RedditPost>, after: Option<string>)

  /** The result of the request and of reading its payload. */
  datatype FetchOutcome = FetchFailed | Fetched(listing: Listing)

  /** The page state as a value: the memes shown and the stored cursor. */
  datatype Feed = Feed(memes: seq<Meme>, after: Option<string>)

  const BaseUrl: string := "https://www.reddit.com/r/memes/new.json?limit=20"
  const AfterParam: string := "&after="

  /**
   * The request URL: always the listing with `limit=20`; the cursor is
   * appended as `&after=<cursor>` exactly when it is a non-empty string.
   */
  function RequestUrl(after: Option<string>): (url: string)
    ensures BaseUrl <= url
    ensures Truthy(after) <==> |url| > |BaseUrl|
    ensures Truthy(after) ==> url[|BaseUrl|..] == AfterParam + after.value
  {
    BaseUrl + if Truthy(after) then AfterParam + after.value else ""
  }

  /** Two cursors give the same URL exactly when both are falsy or they are equal. */
  lemma RequestUrlInjective(a: Option<string>, b: Option<string>)
    ensures RequestUrl(a) == RequestUrl(b) <==>
            ((!Truthy(a) && !Truthy(b)) || (Truthy(a) && Truthy(b) && a.value == b.value))
  {
    if Truthy(a) && Truthy(b) && RequestUrl(a) == RequestUrl(b) {
      var ua, ub := RequestUrl(a)[|BaseUrl|..], RequestUrl(b)[|BaseUrl|..];
      assert ua == AfterParam + a.value && ub == AfterParam + b.value;
      assert a.value == ua[|AfterParam|..];
      assert b.value == ub[|AfterParam|..];
    }
  }

  /** The filter of the pipeline: an image post that carries a preview. */
  predicate KeepPost(p: RedditPost)
  {
    p.postHint == Some("image") && p.preview.Some?
  }

  /** The second map of the pipeline: fields copied unchanged, `url` is the post's own. */
  function ToMeme(p: RedditPost): (m: Meme)
    ensures m.id == p.id && m.url == p.url && m.title == p.title && m.ups == p.ups
  {
    Meme(p.id, p.url, p.title, p.ups)
  }

  /** The `filter`/`map` pipeline over the listing's children. */
  function FilterMemes(posts: seq<RedditPost>): (r: seq<Meme>)
    ensures |r| <= |posts|
  {
    if posts == [] then []
    else (if KeepPost(posts[0]) then [ToMeme(posts[0])] else []) + FilterMemes(posts[1..])
  }

  /** The pipeline works post by post: it distributes over concatenation of batches. */
  lemma {:induction false} FilterMemesConcat(a: seq<RedditPost>, b: seq<RedditPost>)
    ensures FilterMemes(a + b) == FilterMemes(a) + FilterMemes(b)
  {
    if a == [] {
      assert a + b == b;
    } else {
      var head := if KeepPost(a[0]) then [ToMeme(a[0])] else [];
      calc {
        FilterMemes(a + b);
      == { assert (a + b)[0] == a[0]; assert (a + b)[1..] == a[1..] + b; }
        head + FilterMemes(a[1..] + b);
      == { FilterMemesConcat(a[1..], b); }
        head + (FilterMemes(a[1..]) + FilterMemes(b));
      ==
        (head + FilterMemes(a[1..])) + FilterMemes(b);
      }
    }
  }

  /** A meme comes out of the pipeline exactly when some kept post maps to it. */
  lemma {:induction false} FilterMemesIff(posts: seq<RedditPost>, m: Meme)
    ensures m in FilterMemes(posts) <==> exists p :: p in posts && KeepPost(p) && ToMeme(p) == m
  {
    if posts != [] {
      FilterMemesIff(posts[1..], m);
      if m in FilterMemes(posts[1..]) {
        var p :| p in posts[1..] && KeepPost(p) && ToMeme(p) == m;
        assert p in posts;
      }
      if exists p :: p in posts && KeepPost(p) && ToMeme(p) == m {
        var p :| p in posts && KeepPost(p) && ToMeme(p) == m;
        if p != posts[0] {
          assert p in posts[1..];
        }
      }
    }
  }

  /** Nothing is dropped exactly when every post is an image post with a preview. */
  lemma {:induction false} FilterMemesKeepsAll(posts: seq<RedditPost>)
    ensures |FilterMemes(posts)| == |posts| <==> forall i :: 0 <= i < |posts| ==> KeepPost(posts[i])
  {
    if posts != [] {
      FilterMemesKeepsAll(posts[1..]);
      if forall i :: 0 <= i < |posts| ==> KeepPost(posts[i]) {
        assert forall i :: 0 <= i < |posts[1..]| ==> KeepPost(posts[1..][i]) by {
          forall i | 0 <= i < |posts[1..]| ensures KeepPost(posts[1..][i]) {
            assert posts[1..][i] == posts[i + 1];
          }
        }
      }
      if |FilterMemes(posts)| == |posts| {
        assert KeepPost(posts[0]);
        forall i | 0 <= i < |posts| ensures KeepPost(posts[i]) {
          if i > 0 {
            assert posts[i] == posts[1..][i - 1];
          }
        }
      }
    }
  }

  /** One completed or failed fetch applied to the page state. */
  function Apply(f: Feed, o: FetchOutcome): Feed
  {
    match o
    case FetchFailed => f
    case Fetched(l) => Feed(f.memes + FilterMemes(l.children), l.after)
  }

  /** A run of fetches, in the order they were issued. */
  function Replay(f: Feed, outs: seq<FetchOutcome>): Feed
    decreases |outs|
  {
    if outs == [] then f else Replay(Apply(f, outs[0]), outs[1..])
  }

  /** The memes a fetch contributes. */
  function Batch(o: FetchOutcome): seq<Meme>
  {
    match o
    case FetchFailed => []
    case Fetched(l) => FilterMemes(l.children)
  }

  /** All batches of a run, concatenated in issue order. */
  function Harvest(outs: seq<FetchOutcome>): seq<Meme>
    decreases |outs|
  {
    if outs == [] then [] else Batch(outs[0]) + Harvest(outs[1..])
  }

  /**
   * The feed is append-only: after any run of fetches the memes are the old
   * memes followed by every batch in issue order, so lengths add and a post
   * delivered twice is shown twice.
   */
  lemma {:induction false} ReplayAppends(f: Feed, outs: seq<FetchOutcome>)
    ensures Replay(f, outs).memes == f.memes + Harvest(outs)
    decreases |outs|
  {
    if outs != [] {
      ReplayAppends(Apply(f, outs[0]), outs[1..]);
      assert Apply(f, outs[0]).memes == f.memes + Batch(outs[0]);
    }
  }

  /**
   * The cursor after a run is the one the last completed fetch returned
   * (null included); a run of failures leaves the whole state unchanged.
   */
  lemma {:induction false} ReplayCursor(f: Feed, outs: seq<FetchOutcome>)
    ensures (forall i :: 0 <= i < |outs| ==> outs[i].FetchFailed?) ==> Replay(f, outs) == f
    ensures forall k :: 0 <= k < |outs| && outs[k].Fetched? &&
                        (forall j :: k < j < |outs| ==> outs[j].FetchFailed?) ==>
                          Replay(f, outs).after == outs[k].listing.after
    decreases |outs|
  {
    if outs != [] {
      var rest := outs[1..];
      ReplayCursor(Apply(f, outs[0]), rest);
      assert forall i :: 0 <= i < |rest| ==> rest[i] == outs[i + 1];
      forall k | 0 <= k < |outs| && outs[k].Fetched? &&
                 (forall j :: k < j < |outs| ==> outs[j].FetchFailed?)
        ensures Replay(f, outs).after == outs[k].listing.after
      {
        if k == 0 {
          assert forall i :: 0 <= i < |rest| ==> rest[i].FetchFailed?;
        } else {
          assert rest[k - 1] == outs[k];
        }
      }
    }
  }

  /** Every meme shown was already shown or comes from a kept post of some completed fetch. */
  lemma ReplayOrigin(f: Feed, outs: seq<FetchOutcome>, m: Meme)
    requires m in Replay(f, outs).memes
    ensures m in f.memes ||
            exists k, p :: 0 <= k < |outs| && outs[k].Fetched? && p in outs[k].listing.children &&
                           KeepPost(p) && m == ToMeme(p)
  {
    ReplayAppends(f, outs);
    if m !in f.memes {
      HarvestOrigin(outs, m);
    }
  }

  lemma {:induction false} HarvestOrigin(outs: seq<FetchOutcome>, m: Meme)
    requires m in Harvest(outs)
    ensures exists k, p :: 0 <= k < |outs| && outs[k].Fetched? && p in outs[k].listing.children &&
                           KeepPost(p) && m == ToMeme(p)
    decreases |outs|
  {
    if m in Batch(outs[0]) {
      FilterMemesIff(outs[0].listing.children, m);
      var p :| p in outs[0].listing.children && KeepPost(p) && ToMeme(p) == m;
      assert outs[0].Fetched? && p in outs[0].listing.children;
    } else {
      HarvestOrigin(outs[1..], m);
      var k, p :| 0 <= k < |outs[1..]| && outs[1..][k].Fetched? &&
                  p in outs[1..][k].listing.children && KeepPost(p) && m == ToMeme(p);
      assert outs[k + 1] == outs[1..][k];
    }
  }

  /**
   * Repeated ids are appended again: the same page delivered twice shows its
   * image post twice, and the null cursor it ends with sends the next
   * request back to the first page.
   */
  lemma NoDeduplication(p: RedditPost)
    requires KeepPost(p)
    ensures Replay(Feed([], None), [Fetched(Listing([p], None)), Fetched(Listing([p], None))])
            == Feed([ToMeme(p), ToMeme(p)], None)
    ensures RequestUrl(Replay(Feed([], None), [Fetched(Listing([p], None))]).after) == BaseUrl
  {
    var outs := [Fetched(Listing([p], None)), Fetched(Listing([p], None))];
    assert FilterMemes([p]) == [ToMeme(p)] by {
      assert [p][1..] == [];
    }
    ReplayAppends(Feed([], None), outs);
    assert Harvest(outs[1..][1..]) == [] by {
      assert outs[1..][1..] == [];
    }
    assert Harvest(outs) == [ToMeme(p), ToMeme(p)];
    ReplayCursor(Feed([], None), outs);
  }

  /** The component state of the page. */
  class LatestPage {
    var memes: seq<Meme>
    var after: Option<string>

    constructor ()
      ensures memes == [] && after == None
    {
      memes := [];
      after := None;
    }

    function Snapshot(): Feed
      reads this
    {
      Feed(memes, after)
    }

    /**
     * `fetchMemes`: request the page after the stored cursor; on a completed
     * fetch append the kept posts and store the returned cursor, on a failure
     * change nothing.
     */
    method FetchMemes(outcome: FetchOutcome) returns (url: string)
      modifies this
      ensures url == RequestUrl(old(after))
      ensures outcome.FetchFailed? ==> memes == old(memes) && after == old(after)
      ensures outcome.Fetched? ==>
                memes == old(memes) + FilterMemes(outcome.listing.children) &&
                after == outcome.listing.after
      ensures Snapshot() == Apply(old(Snapshot()), outcome)
    {
      url := RequestUrl(after);
      match outcome {
        case FetchFailed =>
        case Fetched(listing) =>
          var batch := FilterMemes(listing.children);
          memes := memes + batch;
          after := listing.after;
      }
    }

    /** `handleObserver`: fetch only when the observed loader is intersecting. */
    method HandleObserver(isIntersecting: bool, outcome: FetchOutcome) returns (url: Option<string>)
      modifies this
      ensures !isIntersecting ==> url == None && memes == old(memes) && after == old(after)
      ensures isIntersecting ==>
                url == Some(RequestUrl(old(after))) && Snapshot() == Apply(old(Snapshot()), outcome)
    {
      url := None;
      if isIntersecting {
        var u := FetchMemes(outcome);
        url := Some(u);
      }
    }
  }
}
