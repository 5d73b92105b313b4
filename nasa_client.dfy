/**
 * `fetch_apod`: one GET to the NASA APOD endpoint and the mapping of what comes
 * back (a transport failure, or a status code and a body) to the record or to
 * one of four error messages. The HTTP round trip itself is the `respond`
 * function of an `Upstream` object, which also logs every request it is sent.
 */
module NasaClient {
  import opened Wrappers
  import opened Json

  const NasaApodUrl: string := "https://api.nasa.gov/planetary/apod"

  /** The default of `fetch_apod`'s `timeout` parameter, in seconds. */
  const DefaultTimeout: int := 10

  /** Query parameters of the request. */
  type Params = map<string, string>

  /** One outbound call `requests.get(url, params=params, timeout=timeout)`. */
  datatype Request = Request(url: string, params: Params, timeout: int)

  /** What the body of a response decodes to: not JSON at all, or a JSON value. */
  datatype Body = NotJson | JsonBody(value: Json)

  /**
   * What the call produced: a `RequestException` raised by the transport
   * (connection failure, DNS failure, `Timeout`), or a response.
   */
  datatype HttpOutcome = TransportFailure | Response(status: int, body: Body)

  /** The four failures, each carrying the exact message of the RuntimeError the source raises. */
  datatype FetchError = Unauthorized | RateLimited | NetworkError | MalformedResponse {
    function Message(): string {
      match this
      case Unauthorized => "API key invalid or unauthorized"
      case RateLimited => "Rate limit exceeded"
      case NetworkError => "Network error when contacting NASA APOD"
      case MalformedResponse => "Unexpected response format"
    }
  }

  /** The message identifies the failure: no two failures share one. */
  lemma MessageInjective(e1: FetchError, e2: FetchError)
    requires e1.Message() == e2.Message()
    ensures e1 == e2
  {
    match e1
    case Unauthorized => assert e1.Message()[0] == 'A';
    case RateLimited => assert e1.Message()[0] == 'R';
    case NetworkError => assert e1.Message()[0] == 'N';
    case MalformedResponse => assert e1.Message()[0] == 'U';
  }

  /** The query: always the API key, and the date only when it is truthy (present and non-empty). */
  function RequestParams(apiKey: string, date: Option<string>): (p: Params)
    ensures "api_key" in p && p["api_key"] == apiKey
    ensures "date" in p <==> date.Some? && date.value != ""
    ensures "date" in p ==> p["date"] == date.value
    ensures p.Keys <= {"api_key", "date"}
  {
    var p := map["api_key" := apiKey];
    if date.Some? && date.value != "" then p["date" := date.value] else p
  }

  /** Statuses for which `raise_for_status` raises HTTPError (4xx client and 5xx server errors). */
  predicate IsHttpError(status: int) {
    400 <= status < 600
  }

  /**
   * The decision chain of `fetch_apod` after the call returns. A RuntimeError
   * raised inside the `try` is not a RequestException, so its message reaches
   * the caller unchanged; HTTPError from `raise_for_status`, a body that does not
   * decode as JSON and a transport failure are RequestExceptions and become the
   * network-error message.
   */
  function Classify(o: HttpOutcome): (r: Result<Object, FetchError>)
    ensures o.TransportFailure? ==> r == Failure(NetworkError)
    ensures o.Response? && (o.status == 401 || o.status == 403) ==> r == Failure(Unauthorized)
    ensures o.Response? && o.status == 429 ==> r == Failure(RateLimited)
    ensures o.Response? && IsHttpError(o.status) && o.status !in {401, 403, 429} ==> r == Failure(NetworkError)
    ensures o.Response? && !IsHttpError(o.status) && o.body.NotJson? ==> r == Failure(NetworkError)
    ensures o.Response? && !IsHttpError(o.status) && o.body.JsonBody? && !o.body.value.JObj? ==> r == Failure(MalformedResponse)
    ensures r.Success? <==> o.Response? && !IsHttpError(o.status) && o.body.JsonBody? && o.body.value.JObj?
    ensures r.Success? ==> o.body == JsonBody(JObj(r.value))
  {
    match o
    case TransportFailure => Failure(NetworkError)
    case Response(status, body) =>
      if status == 401 || status == 403 then Failure(Unauthorized)
      else if status == 429 then Failure(RateLimited)
      else if IsHttpError(status) then Failure(NetworkError)
      else match body
        case NotJson => Failure(NetworkError)
        case JsonBody(JObj(fields)) => Success(fields)
        case JsonBody(_) => Failure(MalformedResponse)
  }

  /** The status check comes first: a 401 or 403 is Unauthorized whatever its body. */
  lemma UnauthorizedBeforeBody(status: int, b1: Body, b2: Body)
    requires status == 401 || status == 403
    ensures Classify(Response(status, b1)) == Classify(Response(status, b2)) == Failure(Unauthorized)
  {
  }

  /** The upstream provider: how it answers each request, and the requests sent to it so far. */
  class Upstream {
    const respond: Request -> HttpOutcome
    var requests: seq<Request>

    constructor (respond: Request -> HttpOutcome)
      ensures this.respond == respond && requests == []
    {
      this.respond := respond;
      requests := [];
    }

    /** `requests.get`: one call, logged, answered by `respond`. */
    method Get(request: Request) returns (o: HttpOutcome)
      modifies this
      ensures requests == old(requests) + [request]
      ensures o == respond(request)
    {
      requests := requests + [request];
      o := respond(request);
    }
  }

  /** The request `fetch_apod(date, timeout)` sends. */
  function FetchRequest(apiKey: string, date: Option<string>, timeout: int): Request {
    Request(NasaApodUrl, RequestParams(apiKey, date), timeout)
  }

  /**
   * `fetch_apod(date, timeout)`: builds the query, makes exactly one call, no
   * retry, and classifies what comes back. The API key is `NASA_API_KEY`.
   */
  method FetchApod(up: Upstream, apiKey: string, date: Option<string>, timeout: int)
    returns (r: Result<Object, FetchError>)
    modifies up
    ensures up.requests == old(up.requests) + [FetchRequest(apiKey, date, timeout)]
    ensures r == Classify(up.respond(FetchRequest(apiKey, date, timeout)))
  {
    var params := map["api_key" := apiKey];
    if date.Some? && date.value != "" {
      params := params["date" := date.value];
    }
    var o := up.Get(Request(NasaApodUrl, params, timeout));
    r := Classify(o);
  }
}
