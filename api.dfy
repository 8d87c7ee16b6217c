/**
 * The three calls to the joke service (src/api.py). The HTTP transport is
 * not modelled: each call is split into the request it hands to the
 * transport and what it makes of the transport's `Outcome`.
 */
module Api {
  import opened Wrappers
  import opened PyJson

  const RandomPath := "/jokes/random"
  const CategoriesPath := "/jokes/categories"
  const SearchPath := "/jokes/search"

  const TimedOutMessage := "Request timed out while fetching random joke"
  const NetworkMessagePrefix := "Network error while fetching random joke: "
  const InvalidJsonMessage := "Invalid JSON received from API"
  const BadShapeMessage := "API returned unexpected response shape"

  /** One GET as handed to the transport: the path under the configured base
      URL, the query parameters and the timeout in seconds. */
  datatype Request = Request(path: string, params: map<string, string>, timeout: int)

  /** What became of one request. `detail` is the text of the exception the
      transport or the decoder raised. */
  datatype Outcome =
    | TimedOut(detail: string)      // requests.exceptions.Timeout
    | NetworkError(detail: string)  // any other RequestException, an error status included
    | Undecodable(detail: string)   // resp.json() raised ValueError
    | Decoded(body: Json)

  /** The exceptions an API call raises: the module's own APIError, or the
      transport's and decoder's exceptions passed through unchanged. */
  datatype ApiFailure =
    | APIError(message: string)
    | Timeout(detail: string)
    | RequestError(detail: string)
    | JsonDecodeError(detail: string)
  {
    /** `str(e)` */
    function Text(): string
    {
      match this
      case APIError(m) => m
      case Timeout(d) => d
      case RequestError(d) => d
      case JsonDecodeError(d) => d
    }
  }

  /** `timeout or DEFAULT_TIMEOUT`: both a missing and a zero timeout mean the
      configured default. */
  function EffectiveTimeout(timeout: Option<int>, default: int): (t: int)
    ensures (timeout == None || timeout == Some(0)) ==> t == default
    ensures timeout.Some? && timeout.value != 0 ==> t == timeout.value
  {
    if timeout.Some? && timeout.value != 0 then timeout.value else default
  }

  /** The exception of a failed request, as `requests` raises it. */
  function Raw(o: Outcome): (e: ApiFailure)
    requires !o.Decoded?
    ensures !e.APIError? && e.Text() == o.detail
  {
    match o
    case TimedOut(d) => Timeout(d)
    case NetworkError(d) => RequestError(d)
    case Undecodable(d) => JsonDecodeError(d)
  }

  /** The request `get_random_joke` sends: a `category` parameter only for a
      non-empty category. */
  function RandomJokeRequest(category: Option<string>, timeout: Option<int>, default: int): (r: Request)
    ensures r.path == RandomPath && r.timeout == EffectiveTimeout(timeout, default)
    ensures "category" in r.params <==> category.Some? && category.value != ""
    ensures "category" in r.params ==> r.params == map["category" := category.value]
    ensures "category" !in r.params ==> r.params == map[]
  {
    var params := if category.Some? && category.value != "" then map["category" := category.value] else map[];
    Request(RandomPath, params, EffectiveTimeout(timeout, default))
  }

  /** What `get_random_joke` makes of the outcome: the payload itself when it
      is a dict with a "value" key, otherwise an APIError whose message
      names the first check that failed. */
  function RandomJoke(o: Outcome): (r: Result<Json, ApiFailure>)
    ensures r.Ok? <==> o.Decoded? && o.body.JObj? && HasKey(o.body.members, "value")
    ensures r.Ok? ==> r.value == o.body
    ensures r.Err? ==> r.error.APIError?
    ensures o.TimedOut? ==> r == Err(APIError(TimedOutMessage))
    ensures o.NetworkError? ==> r == Err(APIError(NetworkMessagePrefix + o.detail))
    ensures o.Undecodable? ==> r == Err(APIError(InvalidJsonMessage))
    ensures o.Decoded? && r.Err? ==> r == Err(APIError(BadShapeMessage))
  {
    match o
    case TimedOut(_) => Err(APIError(TimedOutMessage))
    case NetworkError(d) => Err(APIError(NetworkMessagePrefix + d))
    case Undecodable(_) => Err(APIError(InvalidJsonMessage))
    case Decoded(data) =>
      if data.JObj? && Lookup(data.members, "value").Some? then Ok(data)
      else Err(APIError(BadShapeMessage))
  }

  /** The request `get_categories` sends. */
  function CategoriesRequest(timeout: Option<int>, default: int): (r: Request)
    ensures r == Request(CategoriesPath, map[], EffectiveTimeout(timeout, default))
  {
    Request(CategoriesPath, map[], EffectiveTimeout(timeout, default))
  }

  /** What `get_categories` makes of the outcome: the decoded body as it is,
      or the transport's exception unwrapped. */
  function Categories(o: Outcome): (r: Result<Json, ApiFailure>)
    ensures r.Ok? <==> o.Decoded?
    ensures r.Ok? ==> r.value == o.body
    ensures r.Err? ==> !r.error.APIError? && r.error.Text() == o.detail
  {
    if o.Decoded? then Ok(o.body) else Err(Raw(o))
  }

  /** The request `search_jokes` sends; the limit is not sent. */
  function SearchRequest(query: string, timeout: Option<int>, default: int): (r: Request)
    ensures r == Request(SearchPath, map["query" := query], EffectiveTimeout(timeout, default))
  {
    Request(SearchPath, map["query" := query], EffectiveTimeout(timeout, default))
  }

  /** What `search_jokes` makes of the outcome: the decoded body with its
      "result" list cut down client-side, or the transport's exception. */
  function SearchJokes(o: Outcome, limit: int): (r: Result<Json, ApiFailure>)
    ensures r.Ok? <==> o.Decoded?
    ensures r.Ok? ==> r.value == TrimResult(o.body, limit)
    ensures r.Err? ==> !r.error.APIError? && r.error.Text() == o.detail
  {
    if o.Decoded? then Ok(TrimResult(o.body, limit)) else Err(Raw(o))
  }

  /** `s[:limit]`: the first `limit` items, or for a negative limit all
      but the last `-limit` items. */
  function SliceTo<T>(s: seq<T>, limit: int): (r: seq<T>)
    ensures |r| <= |s| && r == s[..|r|]
    ensures limit >= 0 ==> |r| == if limit < |s| then limit else |s|
    ensures limit < 0 ==> |r| == if |s| + limit > 0 then |s| + limit else 0
  {
    if limit >= 0 then (if limit < |s| then s[..limit] else s)
    else if |s| + limit > 0 then s[..|s| + limit]
    else []
  }

  /** `d[key] = v` on a dict that holds `key`: the member keeps its place. */
  function SetMember(d: seq<Member>, key: string, v: Json): (r: seq<Member>)
    requires HasKey(d, key)
    ensures Keys(r) == Keys(d)
    ensures Lookup(r, key) == Some(v)
    ensures forall k :: k != key ==> Lookup(r, k) == Lookup(d, k)
  {
    if d[0].key == key then
      var r := [Member(key, v)] + d[1..];
      assert Keys(r) == [key] + Keys(d[1..]) && Keys(d) == [key] + Keys(d[1..]);
      r
    else
      var r := [d[0]] + SetMember(d[1..], key, v);
      assert r[1..] == SetMember(d[1..], key, v);
      assert Keys(r) == [d[0].key] + Keys(r[1..]);
      assert Keys(d) == [d[0].key] + Keys(d[1..]);
      r
  }

  /** The "result" list of a dict response, when there is one. */
  function ResultList(data: Json): Option<seq<Json>>
  {
    if data.JObj? then
      match Lookup(data.members, "result")
      case Some(JArr(items)) => Some(items)
      case _ => None
    else None
  }

  /** The client-side cut of the search response: when `data` is a dict
      whose "result" is a list, that list is replaced by its first `limit`
      items. Only "result" changes; the keys, their order and every other
      member, "total" included, stay. */
  function TrimResult(data: Json, limit: int): (r: Json)
    ensures ResultList(data).None? ==> r == data
    ensures ResultList(data).Some? ==>
      && r.JObj?
      && Keys(r.members) == Keys(data.members)
      && Lookup(r.members, "result") == Some(JArr(SliceTo(ResultList(data).value, limit)))
      && forall k :: k != "result" ==> Lookup(r.members, k) == Lookup(data.members, k)
  {
    match ResultList(data)
    case Some(items) => JObj(SetMember(data.members, "result", JArr(SliceTo(items, limit))))
    case None => data
  }

  /** A decoded dict as the Python object the search call holds and
      updates in place. */
  class Dict {
    var members: seq<Member>

    constructor (members: seq<Member>)
      ensures this.members == members
    {
      this.members := members;
    }
  }

  /** The cut done in place on a dict response: the dict ends up holding
      what `TrimResult` describes. */
  method TrimResultInPlace(data: Dict, limit: int)
    modifies data
    ensures JObj(data.members) == TrimResult(JObj(old(data.members)), limit)
  {
    match Lookup(data.members, "result")
    case Some(JArr(items)) =>
      data.members := SetMember(data.members, "result", JArr(SliceTo(items, limit)));
    case _ =>
  }

  /** Writing a key twice leaves what the second write wrote. */
  lemma {:induction false} SetMemberTwice(d: seq<Member>, key: string, v: Json, w: Json)
    requires HasKey(d, key)
    ensures SetMember(SetMember(d, key, v), key, w) == SetMember(d, key, w)
  {
    if d[0].key != key {
      SetMemberTwice(d[1..], key, v, w);
      assert SetMember(d, key, v)[1..] == SetMember(d[1..], key, v);
    }
  }

  /** For a non-negative limit, trimming a second time changes nothing. */
  lemma TrimResultIdempotent(data: Json, limit: int)
    requires limit >= 0
    ensures TrimResult(TrimResult(data, limit), limit) == TrimResult(data, limit)
  {
    if ResultList(data).Some? {
      var items := ResultList(data).value;
      var once := TrimResult(data, limit);
      assert ResultList(once) == Some(SliceTo(items, limit));
      assert SliceTo(SliceTo(items, limit), limit) == SliceTo(items, limit);
      SetMemberTwice(data.members, "result", JArr(SliceTo(items, limit)), JArr(SliceTo(items, limit)));
    }
  }

  /** For a negative limit the cut is not idempotent: each pass drops
      another `-limit` items from the end. */
  lemma NegativeLimitShrinksAgain(items: seq<Json>, limit: int)
    requires limit < 0 && |items| + 2 * limit >= 0
    ensures |SliceTo(SliceTo(items, limit), limit)| == |items| + 2 * limit
    ensures SliceTo(SliceTo(items, limit), limit) == items[..|items| + 2 * limit]
  {
  }

  /** A search never shows more than `limit` jokes for a non-negative limit,
      whatever the service returned, and the reported "total" is the
      service's own. */
  lemma SearchRespectsLimit(o: Outcome, limit: int)
    requires limit >= 0
    ensures SearchJokes(o, limit).Ok? && SearchJokes(o, limit).value.JObj? ==>
      var data := SearchJokes(o, limit).value;
      && Lookup(data.members, "total") == Lookup(o.body.members, "total")
      && match Lookup(data.members, "result")
         case Some(JArr(items)) => |items| <= limit
         case _ => true
  {
  }
}
