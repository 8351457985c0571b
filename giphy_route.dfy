/**
 * The `/api/giphy` GET handler: it reads `type` (default "trending") and
 * `query` (default "") from the request's search parameters, picks one of
 * four Giphy endpoints with its parameter map, rejects any other type with
 * status 400, and relays the upstream JSON or answers 500 when the upstream
 * call fails.
 */
module GiphyRoute {
  import opened JsSemantics

  /** The request's search parameters as `searchParams.get` returns them (null when absent). */
  datatype Query = Query(typeParam: Option<string>, query: Option<string>)

  /** The upstream call the handler makes: an endpoint and its query parameters. */
  datatype UpstreamCall = UpstreamCall(endpoint: string, params: map<string, string>)

  /** The result of the upstream call; the body is the JSON text Giphy returned. */
  datatype Upstream = UpstreamFailed | UpstreamOk(data: string)

  datatype Body = ErrorBody(error: string) | Passthrough(data: string)

  /** The handler's answer: an HTTP status and a JSON body. */
  datatype Response = Response(status: int, body: Body)

  const TrendingEndpoint: string := "https://api.giphy.com/v1/gifs/trending"
  const SearchEndpoint: string := "https://api.giphy.com/v1/gifs/search"
  const StickersEndpoint: string := "https://api.giphy.com/v1/stickers/trending"
  const StickersSearchEndpoint: string := "https://api.giphy.com/v1/stickers/search"

  const InvalidType: Response := Response(400, ErrorBody("Invalid type"))
  const UpstreamError: Response := Response(500, ErrorBody("Failed to fetch from Giphy"))

  /** The type the handler dispatches on: a missing or empty `type` is "trending". */
  function EffectiveType(q: Query): (t: string)
    ensures Truthy(q.typeParam) ==> t == q.typeParam.value
    ensures !Truthy(q.typeParam) ==> t == "trending"
    ensures t != ""
  {
    OrElse(q.typeParam, "trending")
  }

  /** The search text: a missing `query` is "". */
  function EffectiveQuery(q: Query): string
  {
    OrElse(q.query, "")
  }

  /** The endpoint table of the four accepted types. */
  function EndpointOf(t: string): Option<string>
  {
    match t
    case "trending" => Some(TrendingEndpoint)
    case "search" => Some(SearchEndpoint)
    case "stickers" => Some(StickersEndpoint)
    case "stickers-search" => Some(StickersSearchEndpoint)
    case _ => None
  }

  /** The types whose upstream call carries the search text as `q`. */
  predicate CarriesQuery(t: string)
  {
    t == "search" || t == "stickers-search"
  }

  /** The upstream call a request leads to, or None when its type is rejected. */
  function Plan(q: Query, apiKey: string): Option<UpstreamCall>
  {
    var t := EffectiveType(q);
    match EndpointOf(t)
    case None => None
    case Some(e) =>
      var base := map["api_key" := apiKey, "limit" := "20"];
      Some(UpstreamCall(e, if CarriesQuery(t) then base["q" := EffectiveQuery(q)] else base))
  }

  /**
   * Only the four known types are accepted; every accepted call carries the
   * key and `limit=20`, and `q` (the search text, unchanged) exactly for the
   * two search types.
   */
  lemma PlanParams(q: Query, apiKey: string)
    ensures Plan(q, apiKey).Some? <==>
            EffectiveType(q) in {"trending", "search", "stickers", "stickers-search"}
    ensures Plan(q, apiKey).Some? ==>
              var ps := Plan(q, apiKey).value.params;
              && ps.Keys == {"api_key", "limit"} + (if CarriesQuery(EffectiveType(q)) then {"q"} else {})
              && ps["api_key"] == apiKey && ps["limit"] == "20"
              && ("q" in ps ==> ps["q"] == EffectiveQuery(q))
  {
  }

  /** The four accepted types reach four different endpoints. */
  lemma EndpointsDistinct(q1: Query, q2: Query, apiKey: string)
    requires Plan(q1, apiKey).Some? && Plan(q2, apiKey).Some?
    ensures Plan(q1, apiKey).value.endpoint == Plan(q2, apiKey).value.endpoint <==>
            EffectiveType(q1) == EffectiveType(q2)
  {
  }

  /** A request without a usable `type` is served from the trending GIF endpoint. */
  lemma DefaultIsTrending(q: Query, apiKey: string)
    requires !Truthy(q.typeParam)
    ensures Plan(q, apiKey) == Some(UpstreamCall(TrendingEndpoint, map["api_key" := apiKey, "limit" := "20"]))
  {
  }

  /**
   * `GET`: choose the endpoint through the if/else chain and fill in the
   * parameter record; reject an unknown type before any upstream call, relay
   * a successful upstream body unchanged, answer 500 on an upstream failure.
   */
  method Get(q: Query, apiKey: string, upstream: Upstream) returns (call: Option<UpstreamCall>, response: Response)
    ensures call == Plan(q, apiKey)
    ensures call.None? ==> response == InvalidType
    ensures call.Some? && upstream.UpstreamFailed? ==> response == UpstreamError
    ensures call.Some? && upstream.UpstreamOk? ==> response == Response(200, Passthrough(upstream.data))
  {
    var t := OrElse(q.typeParam, "trending");
    var query := OrElse(q.query, "");
    var endpoint := "";
    var params: map<string, string> := map["api_key" := apiKey, "limit" := "20"];

    if t == "trending" {
      endpoint := TrendingEndpoint;
    } else if t == "search" {
      endpoint := SearchEndpoint;
      params := params["q" := query];
    } else if t == "stickers" {
      endpoint := StickersEndpoint;
    } else if t == "stickers-search" {
      endpoint := StickersSearchEndpoint;
      params := params["q" := query];
    } else {
      return None, InvalidType;
    }

    call := Some(UpstreamCall(endpoint, params));
    match upstream {
      case UpstreamFailed =>
        response := UpstreamError;
      case UpstreamOk(data) =>
        response := Response(200, Passthrough(data));
    }
  }
}
