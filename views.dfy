/**
 * The three APOD endpoints: read-through caching of one record (`apod_today`,
 * `apod_by_date`) and the best-effort batch over the last `days` days
 * (`apod_recent`). The shared cache and the upstream provider are objects the
 * views act on; the clock is the `now` argument and `date.today()` the `today`
 * argument.
 */
module Views {
  import opened Wrappers
  import opened Json
  import opened Decimal
  import opened Calendar
  import opened Serializers
  import opened Cache
  import opened NasaClient

  /** The namespace of every cache key the views use. */
  const CachePrefix: string := "apod"

  const MissingDateMessage: string := "Missing date parameter"
  const DaysMessage: string := "days must be integer between 1 and 100"

  /** A cached or freshly built payload. */
  type Payload = Object

  /** What a view returns: an HTTP status and its JSON body. */
  datatype HttpResponse = HttpResponse(status: int, body: Json)

  /** The body `{"error": msg}`. */
  function ErrorBody(msg: string): Json {
    JObj(map["error" := JStr(msg)])
  }

  /** `cache_key_for_date`: "today" for a missing or empty date, the date text otherwise. */
  function CacheKeyForDate(date: Option<string>): (k: string)
    ensures date.None? || date.value == "" ==> k == "today"
    ensures date.Some? && date.value != "" ==> k == date.value
  {
    if date.None? || date.value == "" then "today" else date.value
  }

  /** The by-date view asked for the literal date "today" shares the today view's cache entry. */
  lemma CacheKeyTodayCollides()
    ensures CacheKeyForDate(Some("today")) == CacheKeyForDate(None)
  {
  }

  /** For the dates `apod_recent` walks, the key is the ISO text itself, never the "today" sentinel. */
  lemma CacheKeyForIsoDate(d: Date)
    ensures CacheKeyForDate(Some(IsoFormat(d))) == IsoFormat(d)
    ensures CacheKeyForDate(Some(IsoFormat(d))) != CacheKeyForDate(None)
  {
  }

  /** `if cached:` — a hit is a stored payload that is a non-empty dict. */
  predicate IsHit(cached: Option<Payload>) {
    cached.Some? && Truthy(JObj(cached.value))
  }

  /** What `fetch_apod(date)` returns when the provider answers as `respond` does. */
  function Fetched(respond: Request -> HttpOutcome, apiKey: string, date: Option<string>): Result<Object, FetchError> {
    Classify(respond(FetchRequest(apiKey, date, DefaultTimeout)))
  }

  /**
   * The read-through flow of the two single-record views for cache key `key`
   * and query date `date`: a hit returns the cached payload and neither writes
   * the cache nor calls the provider; a miss makes exactly one call; a failure
   * returns 503 with the failure's message and leaves the cache as it was; a
   * success stores the payload under the key and returns it.
   */
  ghost predicate ReadThrough(
    before: Store<Payload>, after: Store<Payload>, logBefore: seq<Request>, logAfter: seq<Request>,
    respond: Request -> HttpOutcome, apiKey: string, key: string, date: Option<string>,
    now: int, ttl: int, cap: nat, resp: HttpResponse)
  {
    var cached := Lookup(before, MakeKey(CachePrefix, key), now, ttl);
    if IsHit(cached) then
      resp == HttpResponse(200, JObj(cached.value)) && after == before && logAfter == logBefore
    else
      && logAfter == logBefore + [FetchRequest(apiKey, date, DefaultTimeout)]
      && match Fetched(respond, apiKey, date)
         case Failure(e) =>
           resp == HttpResponse(503, ErrorBody(e.Message())) && after == before
         case Success(raw) =>
           && resp == HttpResponse(200, JObj(ToRepresentation(raw)))
           && IsInsert(before, after, MakeKey(CachePrefix, key), ToRepresentation(raw), now, ttl, cap)
  }

  /** The shared flow of `apod_today` and `apod_by_date` once the key and the date are known. */
  method ServeCached(c: ExpiringCache<Payload>, up: Upstream, apiKey: string, key: string, date: Option<string>, now: int)
    returns (resp: HttpResponse)
    requires c.Valid()
    modifies c, up
    ensures c.Valid()
    ensures ReadThrough(old(c.entries), c.entries, old(up.requests), up.requests,
                        up.respond, apiKey, key, date, now, c.ttl, c.capacity, resp)
  {
    var cached := c.Get(CachePrefix, key, now);
    if IsHit(cached) {
      return HttpResponse(200, JObj(cached.value));
    }
    var r := FetchApod(up, apiKey, date, DefaultTimeout);
    match r {
      case Failure(e) =>
        resp := HttpResponse(503, ErrorBody(e.Message()));
      case Success(raw) =>
        var payload := ToRepresentation(raw);
        c.Set(CachePrefix, key, payload, now);
        resp := HttpResponse(200, JObj(payload));
    }
  }

  /** `apod_today`: the read-through flow for key "today", fetching with no date. */
  method ApodToday(c: ExpiringCache<Payload>, up: Upstream, apiKey: string, now: int)
    returns (resp: HttpResponse)
    requires c.Valid()
    modifies c, up
    ensures c.Valid()
    ensures ReadThrough(old(c.entries), c.entries, old(up.requests), up.requests,
                        up.respond, apiKey, "today", None, now, c.ttl, c.capacity, resp)
  {
    var key := CacheKeyForDate(None);
    resp := ServeCached(c, up, apiKey, key, None, now);
  }

  /**
   * `apod_by_date`: a missing or empty `date` is a 400 before the cache or the
   * provider is touched; any other text is used as the key and sent as the date.
   */
  method ApodByDate(c: ExpiringCache<Payload>, up: Upstream, apiKey: string, date: Option<string>, now: int)
    returns (resp: HttpResponse)
    requires c.Valid()
    modifies c, up
    ensures c.Valid()
    ensures date.None? || date.value == "" ==>
      && resp == HttpResponse(400, ErrorBody(MissingDateMessage))
      && c.entries == old(c.entries) && up.requests == old(up.requests)
    ensures date.Some? && date.value != "" ==>
      ReadThrough(old(c.entries), c.entries, old(up.requests), up.requests,
                  up.respond, apiKey, date.value, date, now, c.ttl, c.capacity, resp)
  {
    if date.None? || date.value == "" {
      return HttpResponse(400, ErrorBody(MissingDateMessage));
    }
    var key := CacheKeyForDate(date);
    resp := ServeCached(c, up, apiKey, key, date, now);
  }

  /**
   * After a miss that fetched successfully, the same request again before the
   * TTL elapses is a hit: same response, no further call, cache unchanged.
   */
  lemma RepeatAfterSuccessHits(
    s0: Store<Payload>, s1: Store<Payload>, s2: Store<Payload>,
    log0: seq<Request>, log1: seq<Request>, log2: seq<Request>,
    respond: Request -> HttpOutcome, apiKey: string, key: string, date: Option<string>,
    now: int, later: int, ttl: int, cap: nat, r1: HttpResponse, r2: HttpResponse)
    requires ReadThrough(s0, s1, log0, log1, respond, apiKey, key, date, now, ttl, cap, r1)
    requires !IsHit(Lookup(s0, MakeKey(CachePrefix, key), now, ttl)) && Fetched(respond, apiKey, date).Success?
    requires ReadThrough(s1, s2, log1, log2, respond, apiKey, key, date, later, ttl, cap, r2)
    requires later < now + ttl
    ensures r2 == r1 && r1.status == 200 && log2 == log1 && s2 == s1
  {
    var raw := Fetched(respond, apiKey, date).value;
    LookupAfterInsert(s0, s1, MakeKey(CachePrefix, key), ToRepresentation(raw), now, ttl, cap, later);
    RepresentationIsTruthy(raw);
  }

  /**
   * A failed fetch caches nothing, so the next request (not earlier than the
   * first) calls the provider again, and its outcome is whatever the provider
   * answers then (`respond2`, which may differ from the first answer, as a 429
   * does once the rate limit resets): a success is stored and served with 200,
   * a failure is a 503 that again stores nothing. If the provider answers as
   * before, the retry fails in the same way.
   */
  lemma RetryAfterFailureFetchesAgain(
    s0: Store<Payload>, s1: Store<Payload>, s2: Store<Payload>,
    log0: seq<Request>, log1: seq<Request>, log2: seq<Request>,
    respond: Request -> HttpOutcome, respond2: Request -> HttpOutcome, apiKey: string, key: string, date: Option<string>,
    now: int, later: int, ttl: int, cap: nat, r1: HttpResponse, r2: HttpResponse)
    requires ReadThrough(s0, s1, log0, log1, respond, apiKey, key, date, now, ttl, cap, r1)
    requires r1.status == 503
    requires ReadThrough(s1, s2, log1, log2, respond2, apiKey, key, date, later, ttl, cap, r2)
    requires now <= later
    ensures s1 == s0
    ensures log1 == log0 + [FetchRequest(apiKey, date, DefaultTimeout)]
    ensures log2 == log1 + [FetchRequest(apiKey, date, DefaultTimeout)]
    ensures Fetched(respond2, apiKey, date).Success? ==>
      && r2 == HttpResponse(200, JObj(ToRepresentation(Fetched(respond2, apiKey, date).value)))
      && IsInsert(s1, s2, MakeKey(CachePrefix, key), ToRepresentation(Fetched(respond2, apiKey, date).value), later, ttl, cap)
    ensures Fetched(respond2, apiKey, date).Failure? ==> r2.status == 503 && s2 == s1
    ensures respond2 == respond ==> r2 == r1 && s2 == s1
  {
    var k := MakeKey(CachePrefix, key);
    assert !IsHit(Lookup(s0, k, now, ttl));
    assert !IsHit(Lookup(s1, k, later, ttl));
  }

  /**
   * `int(request.query_params.get("days", "10"))` followed by the range check:
   * the number of days when the parameter is an integer in [1, 100], None (a
   * 400) otherwise.
   */
  function ParseDays(days: Option<string>): (r: Option<int>)
    ensures r.Some? ==> 1 <= r.value <= 100
  {
    var text := if days.Some? then days.value else "10";
    match ParseInt(text)
    case None => None
    case Some(n) => if n < 1 || n > 100 then None else Some(n)
  }

  /** A decimal `days` is accepted exactly when it lies in [1, 100], and then read as its value. */
  lemma ParseDaysDecimal(n: int)
    ensures ParseDays(Some(Str(n))) == if 1 <= n <= 100 then Some(n) else None
  {
    ParseStr(n);
    if 1 <= n <= 100 {
      DigitsLength(n);
    }
  }

  /** An absent `days` means 10. */
  lemma ParseDaysDefault()
    ensures ParseDays(None) == Some(10)
  {
    ParseDaysDecimal(10);
    SmallStr();
  }

  /** The lower bound is accepted. */
  lemma ParseDaysAcceptsOne()
    ensures ParseDays(Some("1")) == Some(1)
  {
    ParseDaysDecimal(1);
    SmallStr();
  }

  /** The upper bound is accepted. */
  lemma ParseDaysAcceptsHundred()
    ensures ParseDays(Some("100")) == Some(100)
  {
    ParseDaysDecimal(100);
    SmallStr();
  }

  /** Just below the lower bound is rejected. */
  lemma ParseDaysRejectsZero()
    ensures ParseDays(Some("0")) == None
  {
    ParseDaysDecimal(0);
    SmallStr();
  }

  /** Just above the upper bound is rejected. */
  lemma ParseDaysRejectsAboveHundred()
    ensures ParseDays(Some("101")) == None
  {
    ParseDaysDecimal(101);
    SmallStr();
  }

  /** Text that is not an integer is rejected, the empty text included. */
  lemma ParseDaysRejectsText()
    ensures ParseDays(Some("")) == None && ParseDays(Some("ten")) == None
  {
    ParseIntRejects();
    assert ParseInt("ten") == None;
  }

  /** `(today - timedelta(days=i)).isoformat()`, or "" when that date is out of range. */
  function DateIso(today: Date, i: nat): string {
    match DaysBefore(today, i)
    case Some(d) => IsoFormat(d)
    case None => ""
  }

  /** The cache key of the `i`-th date of the batch. */
  function BatchKey(today: Date, i: nat): string {
    MakeKey(CachePrefix, CacheKeyForDate(Some(DateIso(today, i))))
  }

  /** The dates of one batch have pairwise distinct cache keys. */
  lemma BatchKeysDistinct(today: Date, i: nat, j: nat)
    requires i != j && DaysBefore(today, i).Some? && DaysBefore(today, j).Some?
    ensures BatchKey(today, i) != BatchKey(today, j)
  {
    DaysBeforeIsoDistinct(today, i, j);
    var a, b := DateIso(today, i), DateIso(today, j);
    assert CacheKeyForDate(Some(a)) == a && CacheKeyForDate(Some(b)) == b;
    if BatchKey(today, i) == BatchKey(today, j) {
      MakeKeyInjective(CachePrefix, a, b);
    }
  }

  /** The placeholder `{"date": iso, "error": msg}` the batch shows for a date that failed. */
  function Placeholder(iso: string, msg: string): Json {
    JObj(map["date" := JStr(iso), "error" := JStr(msg)])
  }

  /** The batch entry for date text `iso` on a miss: the fresh payload, or the placeholder. */
  function FreshEntry(respond: Request -> HttpOutcome, apiKey: string, iso: string): Json {
    match Fetched(respond, apiKey, Some(iso))
    case Success(raw) => JObj(ToRepresentation(raw))
    case Failure(e) => Placeholder(iso, e.Message())
  }

  /** The requests a batch sends: one per missed date, in the order of the dates. */
  function MissRequests(apiKey: string, today: Date, hits: seq<bool>): (qs: seq<Request>)
    ensures |qs| <= |hits|
  {
    if hits == [] then []
    else
      var i := |hits| - 1;
      MissRequests(apiKey, today, hits[..i])
        + (if hits[i] then [] else [FetchRequest(apiKey, Some(DateIso(today, i)), DefaultTimeout)])
  }

  /** Today and the `m - 1` days before it are all on or after `date.min`. */
  predicate InRange(today: Date, m: nat) {
    m == 0 || DaysBefore(today, m - 1).Some?
  }

  /** Every one of those dates is in range. */
  lemma InRangeAll(today: Date, m: nat)
    requires InRange(today, m)
    ensures forall j :: 0 <= j < m ==> DaysBefore(today, j).Some?
  {
    forall j | 0 <= j < m
      ensures DaysBefore(today, j).Some?
    {
      DaysBeforeDefined(today, j, m - 1);
    }
  }

  /**
   * One date of the batch, taking the store `s` the loop found to the store
   * `s'` it left: the `i`-th date is served from the cache (`hit`) exactly when
   * `s` holds a live, non-empty payload for it, and then that payload is the
   * entry and nothing changes; on a miss the entry is the fresh payload or the
   * placeholder, and the store changes only by writing the payload of a
   * successful fetch.
   */
  ghost predicate BatchStep(
    s: Store<Payload>, s': Store<Payload>, respond: Request -> HttpOutcome, apiKey: string, today: Date,
    now: int, ttl: int, cap: nat, i: nat, item: Json, hit: bool)
  {
    var cached := Lookup(s, BatchKey(today, i), now, ttl);
    && (hit <==> IsHit(cached))
    && (hit ==> item == JObj(cached.value) && s' == s)
    && (!hit ==> item == FreshEntry(respond, apiKey, DateIso(today, i)))
    && (!hit ==> match Fetched(respond, apiKey, Some(DateIso(today, i)))
          case Failure(_) => s' == s
          case Success(raw) => IsInsert(s, s', BatchKey(today, i), ToRepresentation(raw), now, ttl, cap))
  }

  /**
   * The first `|hits|` dates of a batch, one step per date: `stores[i]` is the
   * store the loop found at the `i`-th date and `stores[i + 1]` the one it left.
   */
  ghost predicate BatchTrace(
    stores: seq<Store<Payload>>, respond: Request -> HttpOutcome, apiKey: string, today: Date,
    now: int, ttl: int, cap: nat, hits: seq<bool>, items: seq<Json>)
  {
    && |stores| == |hits| + 1 && |items| == |hits|
    && forall i :: 0 <= i < |hits| ==>
         BatchStep(stores[i], stores[i + 1], respond, apiKey, today, now, ttl, cap, i, items[i], hits[i])
  }

  /**
   * What a batch that has handled its first `|hits|` dates has done: each of
   * those dates was in range, the stores run from the one the request found to
   * the current one, date by date as `BatchTrace` says, and the provider was
   * called once per missed date, in date order.
   */
  ghost predicate BatchRun(
    before: Store<Payload>, after: Store<Payload>, logBefore: seq<Request>, logAfter: seq<Request>,
    respond: Request -> HttpOutcome, apiKey: string, today: Date, now: int, ttl: int, cap: nat,
    stores: seq<Store<Payload>>, hits: seq<bool>, items: seq<Json>)
  {
    && InRange(today, |hits|)
    && |stores| == |hits| + 1 && stores[0] == before && stores[|hits|] == after
    && logAfter == logBefore + MissRequests(apiKey, today, hits)
    && BatchTrace(stores, respond, apiKey, today, now, ttl, cap, hits, items)
  }

  /**
   * The answer of a batch over the `n` newest dates: a 500 when one of them
   * falls below `date.min` (the batch then stops at the first such date), or
   * a 200 whose list is the entries of all `n` dates, newest first.
   */
  predicate BatchOutcome(today: Date, n: nat, resp: HttpResponse, hits: seq<bool>, items: seq<Json>) {
    && |hits| <= n
    && (!InRange(today, n) ==> resp == HttpResponse(500, JNull) && |hits| < n && DaysBefore(today, |hits|).None?)
    && (InRange(today, n) ==> resp == HttpResponse(200, JArr(items)) && |hits| == n)
  }

  /**
   * `apod_recent`: validates `days`, then walks today, today-1, ... newest
   * first. Each date is served from the cache, or fetched; a fetched payload is
   * stored and appended, a failure appends a placeholder and the loop goes on.
   * A date below `date.min` raises OverflowError, which no handler catches (500).
   * The ghost `stores`, `hits` and `items` are the store at each date, which
   * dates were served from the cache, and the entries built.
   */
  method ApodRecent(c: ExpiringCache<Payload>, up: Upstream, apiKey: string, days: Option<string>, today: Date, now: int)
    returns (resp: HttpResponse, ghost stores: seq<Store<Payload>>, ghost hits: seq<bool>, ghost items: seq<Json>)
    requires c.Valid()
    modifies c, up
    ensures c.Valid()
    ensures ParseDays(days).None? ==>
      && resp == HttpResponse(400, ErrorBody(DaysMessage))
      && c.entries == old(c.entries) && up.requests == old(up.requests)
    ensures ParseDays(days).Some? ==>
      && BatchRun(old(c.entries), c.entries, old(up.requests), up.requests, up.respond, apiKey, today, now,
                  c.ttl, c.capacity, stores, hits, items)
      && BatchOutcome(today, ParseDays(days).value, resp, hits, items)
  {
    var parsed := ParseDays(days);
    if parsed.None? {
      return HttpResponse(400, ErrorBody(DaysMessage)), [c.entries], [], [];
    }
    resp, stores, hits, items := RecentBatch(c, up, apiKey, today, now, parsed.value);
  }

  /** The loop of `apod_recent` over the `n` newest dates. */
  method RecentBatch(c: ExpiringCache<Payload>, up: Upstream, apiKey: string, today: Date, now: int, n: nat)
    returns (resp: HttpResponse, ghost stores: seq<Store<Payload>>, ghost hits: seq<bool>, ghost items: seq<Json>)
    requires c.Valid()
    modifies c, up
    ensures c.Valid()
    ensures BatchRun(old(c.entries), c.entries, old(up.requests), up.requests, up.respond, apiKey, today, now,
                     c.ttl, c.capacity, stores, hits, items)
    ensures BatchOutcome(today, n, resp, hits, items)
  {
    var results: seq<Json> := [];
    stores, hits := [c.entries], [];
    var i := 0;
    while i < n
      invariant 0 <= i <= n && |hits| == i
      invariant c.Valid()
      invariant BatchRun(old(c.entries), c.entries, old(up.requests), up.requests, up.respond, apiKey, today, now,
                         c.ttl, c.capacity, stores, hits, results)
    {
      var dt := DaysBefore(today, i);
      if dt.None? {
        resp, items := HttpResponse(500, JNull), results;
        OverflowOutcome(today, n, hits, items);
        return;
      }
      results, stores, hits := RecentStep(c, up, apiKey, today, now, i, old(c.entries), old(up.requests), stores, hits, results);
      i := i + 1;
    }
    resp, items := HttpResponse(200, JArr(results)), results;
  }

  /** A batch stopped by a date below the calendar's range answers 500. */
  lemma OverflowOutcome(today: Date, n: nat, hits: seq<bool>, items: seq<Json>)
    requires |hits| < n && DaysBefore(today, |hits|).None?
    ensures BatchOutcome(today, n, HttpResponse(500, JNull), hits, items)
  {
    DaysBeforeUndefined(today, |hits|, n - 1);
  }

  /**
   * One turn of `apod_recent`'s loop, for the date `i` days before today:
   * a cache hit appends the cached payload; a miss fetches, stores and appends
   * the payload, or appends the placeholder when the fetch fails.
   */
  method RecentStep(
    c: ExpiringCache<Payload>, up: Upstream, apiKey: string, today: Date, now: int, i: nat,
    ghost before: Store<Payload>, ghost logBefore: seq<Request>,
    ghost stores: seq<Store<Payload>>, ghost hits: seq<bool>, results: seq<Json>)
    returns (results': seq<Json>, ghost stores': seq<Store<Payload>>, ghost hits': seq<bool>)
    requires c.Valid() && |hits| == i && DaysBefore(today, i).Some?
    requires BatchRun(before, c.entries, logBefore, up.requests, up.respond, apiKey, today, now,
                      c.ttl, c.capacity, stores, hits, results)
    modifies c, up
    ensures c.Valid() && |hits'| == |hits| + 1
    ensures BatchRun(before, c.entries, logBefore, up.requests, up.respond, apiKey, today, now,
                     c.ttl, c.capacity, stores', hits', results')
    ensures |results'| == i + 1 && stores' == stores + [c.entries]
    ensures hits' == hits + [hits'[i]] && results' == results + [results'[i]]
    ensures stores'[i] == old(c.entries)
    ensures BatchStep(old(c.entries), c.entries, up.respond, apiKey, today, now, c.ttl, c.capacity, i, results'[i], hits'[i])
  {
    var iso := IsoFormat(DaysBefore(today, i).value);
    var key := CacheKeyForDate(Some(iso));
    assert iso == DateIso(today, i) && MakeKey(CachePrefix, key) == BatchKey(today, i);
    ghost var current, logNow := c.entries, up.requests;
    var cached := c.Get(CachePrefix, key, now);
    var item: Json;
    ghost var hit: bool;
    if IsHit(cached) {
      item, hit := JObj(cached.value), true;
      HitStep(current, up.respond, apiKey, today, now, c.ttl, c.capacity, i);
    } else {
      item := MissFetch(c, up, apiKey, today, now, i, iso, key);
      hit := false;
    }
    RunExtend(before, current, c.entries, logBefore, logNow, up.requests, up.respond, apiKey, today, now,
              c.ttl, c.capacity, stores, hits, results, hit, item);
    results', stores', hits' := results + [item], stores + [c.entries], hits + [hit];
  }

  /** The miss branch of one turn: fetch the date, store the payload on success, return the entry. */
  method MissFetch(c: ExpiringCache<Payload>, up: Upstream, apiKey: string, today: Date, now: int, i: nat, iso: string, key: string)
    returns (item: Json)
    requires c.Valid()
    requires iso == DateIso(today, i) && MakeKey(CachePrefix, key) == BatchKey(today, i)
    requires !IsHit(Lookup(c.entries, BatchKey(today, i), now, c.ttl))
    modifies c, up
    ensures c.Valid()
    ensures up.requests == old(up.requests) + [FetchRequest(apiKey, Some(DateIso(today, i)), DefaultTimeout)]
    ensures BatchStep(old(c.entries), c.entries, up.respond, apiKey, today, now, c.ttl, c.capacity, i, item, false)
  {
    var r := FetchApod(up, apiKey, Some(iso), DefaultTimeout);
    match r {
      case Success(raw) =>
        var payload := ToRepresentation(raw);
        c.Set(CachePrefix, key, payload, now);
        item := JObj(payload);
      case Failure(e) =>
        item := Placeholder(iso, e.Message());
    }
  }

  /** A date whose cached payload is live and non-empty is a hit that changes nothing. */
  lemma HitStep(s: Store<Payload>, respond: Request -> HttpOutcome, apiKey: string, today: Date, now: int, ttl: int, cap: nat, i: nat)
    requires IsHit(Lookup(s, BatchKey(today, i), now, ttl))
    ensures BatchStep(s, s, respond, apiKey, today, now, ttl, cap, i, JObj(Lookup(s, BatchKey(today, i), now, ttl).value), true)
  {
  }

  /** One more in-range date extends the run by its step, its store and, on a miss, its request. */
  lemma RunExtend(
    before: Store<Payload>, current: Store<Payload>, next: Store<Payload>,
    logBefore: seq<Request>, logNow: seq<Request>, logNext: seq<Request>,
    respond: Request -> HttpOutcome, apiKey: string, today: Date, now: int, ttl: int, cap: nat,
    stores: seq<Store<Payload>>, hits: seq<bool>, items: seq<Json>, hit: bool, item: Json)
    requires BatchRun(before, current, logBefore, logNow, respond, apiKey, today, now, ttl, cap, stores, hits, items)
    requires DaysBefore(today, |hits|).Some?
    requires BatchStep(current, next, respond, apiKey, today, now, ttl, cap, |hits|, item, hit)
    requires logNext == logNow + (if hit then [] else [FetchRequest(apiKey, Some(DateIso(today, |hits|)), DefaultTimeout)])
    ensures BatchRun(before, next, logBefore, logNext, respond, apiKey, today, now, ttl, cap,
                     stores + [next], hits + [hit], items + [item])
  {
    MissRequestsSnoc(apiKey, today, hits, hit);
    TraceExtend(stores, respond, apiKey, today, now, ttl, cap, hits, items, next, hit, item);
  }

  lemma MissRequestsSnoc(apiKey: string, today: Date, hits: seq<bool>, hit: bool)
    ensures MissRequests(apiKey, today, hits + [hit]) == MissRequests(apiKey, today, hits)
      + (if hit then [] else [FetchRequest(apiKey, Some(DateIso(today, |hits|)), DefaultTimeout)])
  {
    assert (hits + [hit])[..|hits|] == hits;
  }

  lemma TraceExtend(
    stores: seq<Store<Payload>>, respond: Request -> HttpOutcome, apiKey: string, today: Date,
    now: int, ttl: int, cap: nat, hits: seq<bool>, items: seq<Json>, next: Store<Payload>, hit: bool, item: Json)
    requires BatchTrace(stores, respond, apiKey, today, now, ttl, cap, hits, items)
    requires BatchStep(stores[|hits|], next, respond, apiKey, today, now, ttl, cap, |hits|, item, hit)
    ensures BatchTrace(stores + [next], respond, apiKey, today, now, ttl, cap, hits + [hit], items + [item])
  {
    var ss, hs, its := stores + [next], hits + [hit], items + [item];
    forall i | 0 <= i < |hs|
      ensures BatchStep(ss[i], ss[i + 1], respond, apiKey, today, now, ttl, cap, i, its[i], hs[i])
    {
      if i < |hits| {
        TraceAt(stores, respond, apiKey, today, now, ttl, cap, hits, items, i);
        StepCopied(stores[i], stores[i + 1], respond, apiKey, today, now, ttl, cap, i, items[i], hits[i],
                   ss[i], ss[i + 1], i, its[i], hs[i]);
      } else {
        StepCopied(stores[|hits|], next, respond, apiKey, today, now, ttl, cap, |hits|, item, hit,
                   ss[i], ss[i + 1], i, its[i], hs[i]);
      }
    }
  }

  /**
   * `BatchStep` under equal arguments. Stated as a lemma so that the proofs
   * about traces match their goal term by term instead of unfolding the step.
   */
  lemma StepCopied(
    s: Store<Payload>, s': Store<Payload>, respond: Request -> HttpOutcome, apiKey: string, today: Date,
    now: int, ttl: int, cap: nat, i: nat, item: Json, hit: bool,
    t: Store<Payload>, t': Store<Payload>, j: nat, item': Json, hit': bool)
    requires BatchStep(s, s', respond, apiKey, today, now, ttl, cap, i, item, hit)
    requires t == s && t' == s' && j == i && item' == item && hit' == hit
    ensures BatchStep(t, t', respond, apiKey, today, now, ttl, cap, j, item', hit')
  {
  }

  /** The step of the `j`-th date of a trace. */
  lemma TraceAt(
    stores: seq<Store<Payload>>, respond: Request -> HttpOutcome, apiKey: string, today: Date,
    now: int, ttl: int, cap: nat, hits: seq<bool>, items: seq<Json>, j: nat)
    requires BatchTrace(stores, respond, apiKey, today, now, ttl, cap, hits, items)
    requires j < |hits|
    ensures BatchStep(stores[j], stores[j + 1], respond, apiKey, today, now, ttl, cap, j, items[j], hits[j])
  {
  }

  /** The first `m` dates of a trace are a trace. */
  lemma TracePrefix(
    stores: seq<Store<Payload>>, respond: Request -> HttpOutcome, apiKey: string, today: Date,
    now: int, ttl: int, cap: nat, hits: seq<bool>, items: seq<Json>, m: nat)
    requires BatchTrace(stores, respond, apiKey, today, now, ttl, cap, hits, items)
    requires m <= |hits|
    ensures BatchTrace(stores[..m + 1], respond, apiKey, today, now, ttl, cap, hits[..m], items[..m])
  {
    var ss, hs, its := stores[..m + 1], hits[..m], items[..m];
    forall i | 0 <= i < m
      ensures BatchStep(ss[i], ss[i + 1], respond, apiKey, today, now, ttl, cap, i, its[i], hs[i])
    {
      TraceAt(stores, respond, apiKey, today, now, ttl, cap, hits, items, i);
      StepCopied(stores[i], stores[i + 1], respond, apiKey, today, now, ttl, cap, i, items[i], hits[i],
                 ss[i], ss[i + 1], i, its[i], hs[i]);
    }
  }

  /**
   * Entry `j` of a batch, spelled out: the date was served from the cache
   * exactly when the store the loop found held a live, non-empty payload for
   * it, and the entry is then that payload; otherwise it is the fresh payload
   * when the fetch succeeded, or `{"date": iso, "error": msg}` when it failed.
   */
  lemma RecentEntryAt(
    before: Store<Payload>, after: Store<Payload>, logBefore: seq<Request>, logAfter: seq<Request>,
    respond: Request -> HttpOutcome, apiKey: string, today: Date, now: int, ttl: int, cap: nat,
    stores: seq<Store<Payload>>, hits: seq<bool>, items: seq<Json>, j: nat)
    requires BatchRun(before, after, logBefore, logAfter, respond, apiKey, today, now, ttl, cap, stores, hits, items)
    requires j < |hits|
    ensures hits[j] <==> IsHit(Lookup(stores[j], BatchKey(today, j), now, ttl))
    ensures hits[j] ==> items[j] == JObj(Lookup(stores[j], BatchKey(today, j), now, ttl).value)
    ensures !hits[j] && Fetched(respond, apiKey, Some(DateIso(today, j))).Failure? ==>
      items[j] == Placeholder(DateIso(today, j), Fetched(respond, apiKey, Some(DateIso(today, j))).error.Message())
    ensures !hits[j] && Fetched(respond, apiKey, Some(DateIso(today, j))).Success? ==>
      items[j] == JObj(ToRepresentation(Fetched(respond, apiKey, Some(DateIso(today, j))).value))
  {
    TraceAt(stores, respond, apiKey, today, now, ttl, cap, hits, items, j);
  }

  /** Entry `e` under key `k` was written by the batch: a missed date whose fetch succeeded. */
  ghost predicate WrittenInBatch(
    k: string, e: Entry<Payload>, respond: Request -> HttpOutcome, apiKey: string, today: Date,
    now: int, hits: seq<bool>)
  {
    exists j :: 0 <= j < |hits| && !hits[j] && k == BatchKey(today, j) && WrittenFor(e, respond, apiKey, today, now, j)
  }

  /** `e` is what a successful fetch for the `j`-th date stores. */
  ghost predicate WrittenFor(e: Entry<Payload>, respond: Request -> HttpOutcome, apiKey: string, today: Date, now: int, j: nat) {
    var r := Fetched(respond, apiKey, Some(DateIso(today, j)));
    r.Success? && e == Entry(ToRepresentation(r.value), now)
  }

  /** Every entry is an untouched entry from before the batch or one the batch wrote. */
  ghost predicate Provenance(
    before: Store<Payload>, after: Store<Payload>, respond: Request -> HttpOutcome, apiKey: string, today: Date,
    now: int, hits: seq<bool>)
  {
    forall k :: k in after ==>
      (k in before && after[k] == before[k]) || WrittenInBatch(k, after[k], respond, apiKey, today, now, hits)
  }

  /** Every entry a trace leaves is one it found untouched, or one it wrote for a missed date. */
  lemma {:induction false} TraceProvenance(
    stores: seq<Store<Payload>>, respond: Request -> HttpOutcome, apiKey: string, today: Date,
    now: int, ttl: int, cap: nat, hits: seq<bool>, items: seq<Json>)
    requires BatchTrace(stores, respond, apiKey, today, now, ttl, cap, hits, items)
    ensures Provenance(stores[0], stores[|hits|], respond, apiKey, today, now, hits)
    decreases |hits|
  {
    if |hits| > 0 {
      var i := |hits| - 1;
      var ss, hs, its := stores[..i + 1], hits[..i], items[..i];
      TraceProvenance(ss, respond, apiKey, today, now, ttl, cap, hs, its);
      assert ss[0] == stores[0] && ss[i] == stores[i] && hs + [hits[i]] == hits;
      TraceAt(stores, respond, apiKey, today, now, ttl, cap, hits, items, i);
      if hits[i] || Fetched(respond, apiKey, Some(DateIso(today, i))).Failure? {
        ProvenanceExtend(stores[0], stores[i], respond, apiKey, today, now, hs, hits[i]);
      } else {
        ProvenanceAfterWrite(stores[0], stores[i], stores[i + 1], respond, apiKey, today, now, hs, ttl, cap);
      }
    }
  }

  /**
   * A date served from the cache is served what the cache held for it when the
   * request began: the batch never serves a payload it wrote itself.
   */
  lemma HitWasCachedBefore(
    before: Store<Payload>, after: Store<Payload>, logBefore: seq<Request>, logAfter: seq<Request>,
    respond: Request -> HttpOutcome, apiKey: string, today: Date, now: int, ttl: int, cap: nat,
    stores: seq<Store<Payload>>, hits: seq<bool>, items: seq<Json>, j: nat)
    requires BatchRun(before, after, logBefore, logAfter, respond, apiKey, today, now, ttl, cap, stores, hits, items)
    requires j < |hits| && hits[j]
    ensures IsHit(Lookup(before, BatchKey(today, j), now, ttl))
    ensures items[j] == JObj(Lookup(before, BatchKey(today, j), now, ttl).value)
  {
    HitInStore(before, after, logBefore, logAfter, respond, apiKey, today, now, ttl, cap, stores, hits, items, j);
    PrefixProvenance(before, after, logBefore, logAfter, respond, apiKey, today, now, ttl, cap, stores, hits, items, j);
    RunInRange(before, after, logBefore, logAfter, respond, apiKey, today, now, ttl, cap, stores, hits, items, j);
    SameAsBefore(before, stores[j], respond, apiKey, today, now, hits[..j], j);
  }

  /** Every date a batch has handled is on or after `date.min`. */
  lemma RunInRange(
    before: Store<Payload>, after: Store<Payload>, logBefore: seq<Request>, logAfter: seq<Request>,
    respond: Request -> HttpOutcome, apiKey: string, today: Date, now: int, ttl: int, cap: nat,
    stores: seq<Store<Payload>>, hits: seq<bool>, items: seq<Json>, j: nat)
    requires BatchRun(before, after, logBefore, logAfter, respond, apiKey, today, now, ttl, cap, stores, hits, items)
    requires j < |hits|
    ensures DaysBefore(today, j).Some?
  {
    DaysBeforeDefined(today, j, |hits| - 1);
  }

  /** A hit at the `j`-th date is the live payload of the store the loop found there. */
  lemma HitInStore(
    before: Store<Payload>, after: Store<Payload>, logBefore: seq<Request>, logAfter: seq<Request>,
    respond: Request -> HttpOutcome, apiKey: string, today: Date, now: int, ttl: int, cap: nat,
    stores: seq<Store<Payload>>, hits: seq<bool>, items: seq<Json>, j: nat)
    requires BatchRun(before, after, logBefore, logAfter, respond, apiKey, today, now, ttl, cap, stores, hits, items)
    requires j < |hits| && hits[j]
    ensures IsHit(Lookup(stores[j], BatchKey(today, j), now, ttl))
    ensures items[j] == JObj(Lookup(stores[j], BatchKey(today, j), now, ttl).value)
  {
    TraceAt(stores, respond, apiKey, today, now, ttl, cap, hits, items, j);
  }

  /** When the loop reaches the `j`-th date, every entry is one it found untouched or wrote for an earlier date. */
  lemma PrefixProvenance(
    before: Store<Payload>, after: Store<Payload>, logBefore: seq<Request>, logAfter: seq<Request>,
    respond: Request -> HttpOutcome, apiKey: string, today: Date, now: int, ttl: int, cap: nat,
    stores: seq<Store<Payload>>, hits: seq<bool>, items: seq<Json>, j: nat)
    requires BatchRun(before, after, logBefore, logAfter, respond, apiKey, today, now, ttl, cap, stores, hits, items)
    requires j <= |hits|
    ensures Provenance(before, stores[j], respond, apiKey, today, now, hits[..j])
  {
    TracePrefix(stores, respond, apiKey, today, now, ttl, cap, hits, items, j);
    TraceProvenance(stores[..j + 1], respond, apiKey, today, now, ttl, cap, hits[..j], items[..j]);
    assert stores[..j + 1][0] == before && stores[..j + 1][|hits[..j]|] == stores[j];
  }

  /** A batch leaves every cache entry as it found it or as written for one of its missed dates. */
  lemma BatchProvenance(
    before: Store<Payload>, after: Store<Payload>, logBefore: seq<Request>, logAfter: seq<Request>,
    respond: Request -> HttpOutcome, apiKey: string, today: Date, now: int, ttl: int, cap: nat,
    stores: seq<Store<Payload>>, hits: seq<bool>, items: seq<Json>)
    requires BatchRun(before, after, logBefore, logAfter, respond, apiKey, today, now, ttl, cap, stores, hits, items)
    ensures Provenance(before, after, respond, apiKey, today, now, hits)
  {
    TraceProvenance(stores, respond, apiKey, today, now, ttl, cap, hits, items);
  }

  /** A date whose fetch failed has nothing stored for it by the batch. */
  lemma FailedDateNotWritten(
    respond: Request -> HttpOutcome, apiKey: string, today: Date, now: int, hits: seq<bool>, i: nat, e: Entry<Payload>)
    requires forall j :: 0 <= j < |hits| ==> DaysBefore(today, j).Some?
    requires i < |hits| && Fetched(respond, apiKey, Some(DateIso(today, i))).Failure?
    ensures !WrittenInBatch(BatchKey(today, i), e, respond, apiKey, today, now, hits)
  {
    if WrittenInBatch(BatchKey(today, i), e, respond, apiKey, today, now, hits) {
      var j :| 0 <= j < |hits| && !hits[j] && BatchKey(today, i) == BatchKey(today, j)
               && WrittenFor(e, respond, apiKey, today, now, j);
      if j != i {
        BatchKeysDistinct(today, i, j);
      }
      assert false;
    }
  }

  /**
   * A date whose fetch failed leaves its cache key as the batch found it:
   * the batch stores nothing for it.
   */
  lemma FailedDateKeepsCache(
    before: Store<Payload>, after: Store<Payload>, logBefore: seq<Request>, logAfter: seq<Request>,
    respond: Request -> HttpOutcome, apiKey: string, today: Date, now: int, ttl: int, cap: nat,
    stores: seq<Store<Payload>>, hits: seq<bool>, items: seq<Json>, i: nat)
    requires BatchRun(before, after, logBefore, logAfter, respond, apiKey, today, now, ttl, cap, stores, hits, items)
    requires i < |hits| && Fetched(respond, apiKey, Some(DateIso(today, i))).Failure?
    ensures BatchKey(today, i) in after ==>
      BatchKey(today, i) in before && after[BatchKey(today, i)] == before[BatchKey(today, i)]
  {
    var k := BatchKey(today, i);
    BatchProvenance(before, after, logBefore, logAfter, respond, apiKey, today, now, ttl, cap, stores, hits, items);
    InRangeAll(today, |hits|);
    if k in after {
      FailedDateNotWritten(respond, apiKey, today, now, hits, i, after[k]);
    }
  }

  /** Inside the batch, the `i`-th key still reads as it did when the request began, or as absent. */
  lemma SameAsBefore(
    before: Store<Payload>, current: Store<Payload>, respond: Request -> HttpOutcome, apiKey: string, today: Date,
    now: int, hits: seq<bool>, i: nat)
    requires |hits| == i && DaysBefore(today, i).Some?
    requires Provenance(before, current, respond, apiKey, today, now, hits)
    ensures BatchKey(today, i) in current ==>
      BatchKey(today, i) in before && current[BatchKey(today, i)] == before[BatchKey(today, i)]
  {
    var k := BatchKey(today, i);
    if k in current && WrittenInBatch(k, current[k], respond, apiKey, today, now, hits) {
      var j :| 0 <= j < |hits| && !hits[j] && k == BatchKey(today, j) && WrittenFor(current[k], respond, apiKey, today, now, j);
      DaysBeforeDefined(today, j, i);
      BatchKeysDistinct(today, i, j);
    }
  }

  /** Recording one more date in `hits` keeps every earlier write attributed. */
  lemma ProvenanceExtend(
    before: Store<Payload>, after: Store<Payload>, respond: Request -> HttpOutcome, apiKey: string, today: Date,
    now: int, hits: seq<bool>, hit: bool)
    requires Provenance(before, after, respond, apiKey, today, now, hits)
    ensures Provenance(before, after, respond, apiKey, today, now, hits + [hit])
  {
    forall k | k in after && !(k in before && after[k] == before[k])
      ensures WrittenInBatch(k, after[k], respond, apiKey, today, now, hits + [hit])
    {
      WrittenInPrefix(k, after[k], respond, apiKey, today, now, hits, hit);
    }
  }

  lemma WrittenInPrefix(
    k: string, e: Entry<Payload>, respond: Request -> HttpOutcome, apiKey: string, today: Date,
    now: int, hits: seq<bool>, hit: bool)
    requires WrittenInBatch(k, e, respond, apiKey, today, now, hits)
    ensures WrittenInBatch(k, e, respond, apiKey, today, now, hits + [hit])
  {
    var j :| 0 <= j < |hits| && !hits[j] && k == BatchKey(today, j) && WrittenFor(e, respond, apiKey, today, now, j);
    assert (hits + [hit])[j] == hits[j];
  }

  /** Storing the fresh payload of the `i`-th date keeps every entry attributed. */
  lemma ProvenanceAfterWrite(
    before: Store<Payload>, mid: Store<Payload>, after: Store<Payload>, respond: Request -> HttpOutcome,
    apiKey: string, today: Date, now: int, hits: seq<bool>, ttl: int, cap: nat)
    requires Provenance(before, mid, respond, apiKey, today, now, hits)
    requires Fetched(respond, apiKey, Some(DateIso(today, |hits|))).Success?
    requires IsInsert(mid, after, BatchKey(today, |hits|),
                      ToRepresentation(Fetched(respond, apiKey, Some(DateIso(today, |hits|))).value), now, ttl, cap)
    ensures Provenance(before, after, respond, apiKey, today, now, hits + [false])
  {
    var i := |hits|;
    var hits' := hits + [false];
    var k0 := BatchKey(today, i);
    var payload := ToRepresentation(Fetched(respond, apiKey, Some(DateIso(today, i))).value);
    LookupAfterInsert(mid, after, k0, payload, now, ttl, cap, now);
    forall k | k in after
      ensures (k in before && after[k] == before[k]) || WrittenInBatch(k, after[k], respond, apiKey, today, now, hits')
    {
      if k == k0 {
        assert WrittenFor(after[k], respond, apiKey, today, now, i);
        assert hits'[i] == false;
      } else {
        InsertKeepsOthers(mid, after, k0, payload, now, ttl, cap, k);
        if !(k in before && after[k] == before[k]) {
          var j :| 0 <= j < |hits| && !hits[j] && k == BatchKey(today, j) && WrittenFor(mid[k], respond, apiKey, today, now, j);
          assert hits'[j] == hits[j];
        }
      }
    }
  }

  /** A trace adds at most one live entry per date. */
  lemma {:induction false} TraceLiveGrowth(
    stores: seq<Store<Payload>>, respond: Request -> HttpOutcome, apiKey: string, today: Date,
    now: int, ttl: int, cap: nat, hits: seq<bool>, items: seq<Json>)
    requires BatchTrace(stores, respond, apiKey, today, now, ttl, cap, hits, items)
    ensures |Purge(stores[|hits|], now, ttl)| <= |Purge(stores[0], now, ttl)| + |hits|
    decreases |hits|
  {
    if |hits| > 0 {
      var i := |hits| - 1;
      TraceLiveGrowth(stores[..i + 1], respond, apiKey, today, now, ttl, cap, hits[..i], items[..i]);
      assert stores[..i + 1][0] == stores[0] && stores[..i + 1][i] == stores[i];
      TraceAt(stores, respond, apiKey, today, now, ttl, cap, hits, items, i);
      var r := Fetched(respond, apiKey, Some(DateIso(today, i)));
      if !hits[i] && r.Success? {
        InsertLiveKeys(stores[i], stores[i + 1], BatchKey(today, i), ToRepresentation(r.value), now, ttl, cap);
      }
    }
  }

  /**
   * While the store has room for every date of the batch, nothing is evicted:
   * a key that is none of the batch's keys reads, from `now` on, as it did when
   * the request began.
   */
  lemma {:induction false} TraceFrame(
    stores: seq<Store<Payload>>, respond: Request -> HttpOutcome, apiKey: string, today: Date,
    now: int, ttl: int, cap: nat, hits: seq<bool>, items: seq<Json>, k: string, t: int)
    requires BatchTrace(stores, respond, apiKey, today, now, ttl, cap, hits, items)
    requires |Purge(stores[0], now, ttl)| + |hits| <= cap && t >= now
    requires forall j :: 0 <= j < |hits| ==> BatchKey(today, j) != k
    ensures Lookup(stores[|hits|], k, t, ttl) == Lookup(stores[0], k, t, ttl)
    decreases |hits|
  {
    if |hits| > 0 {
      var i := |hits| - 1;
      var ss, hs, its := stores[..i + 1], hits[..i], items[..i];
      assert ss[0] == stores[0] && ss[i] == stores[i];
      TraceFrame(ss, respond, apiKey, today, now, ttl, cap, hs, its, k, t);
      TraceLiveGrowth(ss, respond, apiKey, today, now, ttl, cap, hs, its);
      TraceAt(stores, respond, apiKey, today, now, ttl, cap, hits, items, i);
      var r := Fetched(respond, apiKey, Some(DateIso(today, i)));
      if !hits[i] && r.Success? {
        assert BatchKey(today, i) != k;
        InsertWithRoomKeepsReads(stores[i], stores[i + 1], BatchKey(today, i), ToRepresentation(r.value), now, ttl, cap, k, t);
      }
    }
  }

  /** While the store has room for every date of the batch, every entry live at `now` stays live. */
  lemma {:induction false} TraceKeepsLive(
    stores: seq<Store<Payload>>, respond: Request -> HttpOutcome, apiKey: string, today: Date,
    now: int, ttl: int, cap: nat, hits: seq<bool>, items: seq<Json>)
    requires BatchTrace(stores, respond, apiKey, today, now, ttl, cap, hits, items)
    requires |Purge(stores[0], now, ttl)| + |hits| <= cap && ttl > 0
    ensures Purge(stores[0], now, ttl).Keys <= Purge(stores[|hits|], now, ttl).Keys
    decreases |hits|
  {
    if |hits| > 0 {
      var i := |hits| - 1;
      var ss, hs, its := stores[..i + 1], hits[..i], items[..i];
      assert ss[0] == stores[0] && ss[i] == stores[i];
      TraceKeepsLive(ss, respond, apiKey, today, now, ttl, cap, hs, its);
      TraceLiveGrowth(ss, respond, apiKey, today, now, ttl, cap, hs, its);
      TraceAt(stores, respond, apiKey, today, now, ttl, cap, hits, items, i);
      var r := Fetched(respond, apiKey, Some(DateIso(today, i)));
      if !hits[i] && r.Success? {
        InsertWithRoomKeepsLive(stores[i], stores[i + 1], BatchKey(today, i), ToRepresentation(r.value), now, ttl, cap);
      }
    }
  }

  /**
   * With room in the store for every date of the batch, the `i`-th date is
   * served from the cache exactly when the cache held a live, non-empty
   * payload for it when the request began.
   */
  lemma HitIffCachedWithRoom(
    before: Store<Payload>, after: Store<Payload>, logBefore: seq<Request>, logAfter: seq<Request>,
    respond: Request -> HttpOutcome, apiKey: string, today: Date, now: int, ttl: int, cap: nat,
    stores: seq<Store<Payload>>, hits: seq<bool>, items: seq<Json>, i: nat)
    requires BatchRun(before, after, logBefore, logAfter, respond, apiKey, today, now, ttl, cap, stores, hits, items)
    requires |Purge(before, now, ttl)| + |hits| <= cap && i < |hits|
    ensures hits[i] <==> IsHit(Lookup(before, BatchKey(today, i), now, ttl))
  {
    var k := BatchKey(today, i);
    forall j | 0 <= j < i
      ensures BatchKey(today, j) != k
    {
      RunInRange(before, after, logBefore, logAfter, respond, apiKey, today, now, ttl, cap, stores, hits, items, i);
      RunInRange(before, after, logBefore, logAfter, respond, apiKey, today, now, ttl, cap, stores, hits, items, j);
      BatchKeysDistinct(today, i, j);
    }
    TracePrefix(stores, respond, apiKey, today, now, ttl, cap, hits, items, i);
    var ss := stores[..i + 1];
    assert ss[0] == before && ss[i] == stores[i] && |hits[..i]| == i;
    TraceFrame(ss, respond, apiKey, today, now, ttl, cap, hits[..i], items[..i], k, now);
    TraceAt(stores, respond, apiKey, today, now, ttl, cap, hits, items, i);
  }

  /**
   * With room in the store for every date of the batch (and a positive TTL),
   * every entry live when the request began is still live at its end.
   */
  lemma BatchKeepsLiveWithRoom(
    before: Store<Payload>, after: Store<Payload>, logBefore: seq<Request>, logAfter: seq<Request>,
    respond: Request -> HttpOutcome, apiKey: string, today: Date, now: int, ttl: int, cap: nat,
    stores: seq<Store<Payload>>, hits: seq<bool>, items: seq<Json>, k: string)
    requires BatchRun(before, after, logBefore, logAfter, respond, apiKey, today, now, ttl, cap, stores, hits, items)
    requires |Purge(before, now, ttl)| + |hits| <= cap && ttl > 0
    ensures Lookup(before, k, now, ttl).Some? ==> Lookup(after, k, now, ttl).Some?
  {
    TraceKeepsLive(stores, respond, apiKey, today, now, ttl, cap, hits, items);
  }
}
