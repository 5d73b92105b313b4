# APOD service backend, modelled in Dafny

This project models the backend of a small Django service that serves NASA's
Astronomy Picture of the Day (APOD). It has four parts:

- **Record transformer.** `APODSerializer.to_representation` takes the untyped record
  NASA returns and produces a six-field payload. Its one rule picks the media URL by
  media kind.
- **Shared response cache.** Keys are namespaced as `"apod:" + key`. A TTLCache
  holds them with a fixed time-to-live and a maximum entry count.
- **Upstream client.** `fetch_apod` builds the query and makes one call. It maps
  what comes back to either the record or one of four exact error messages.
- **Views.** `apod_today` and `apod_by_date` are read-through views: a hit is served
  from the cache, and only a successful fetch is written back. `apod_recent` is a
  best-effort batch over the last `days` dates, newest first. A date that fails
  becomes a `{"date", "error"}` placeholder instead of aborting the batch.

The modules follow the source files:

- `serializers.dfy`: serializers.py.
- `cache.dfy`: cache.py.
- `nasa_client.dfy`: nasa_client.py.
- `views.dfy`: views.py.

The Python runtime semantics they rely on are small modules of their own:

- `json.dfy`: JSON values, `dict.get`, truthiness and `or`.
- `decimal.dfy`: `int()` on text, `str()` of an integer, zero padding.
- `calendar.dfy`: `datetime.date`, the one-day step behind `today - timedelta(days=i)`, and `isoformat()`.
- `wrappers.dfy`: Option and Result.

The environment enters as parameters:

- The clock: every cache read and write, and every view, takes `now`.
- `date.today()`: the `today` argument of `ApodRecent`.
- `NASA_API_KEY`: the `apiKey` argument.
- `CACHE_TTL_SECONDS` and `CACHE_MAX_ENTRIES`: arguments of the `ExpiringCache` constructor.
- The provider: an `Upstream` object. Its constant `respond` says how the provider
  answers each request, and its `requests` field records every request sent.
  "Fetch is not called" is therefore stated as "`requests` is unchanged".

Other modelling choices:

- **Expiry.** This follows cachetools' TTLCache. An entry written at `t` is live
  while `now < t + ttl`, so it reads as absent from `t + ttl` onwards.
- **`set`.** It first drops expired entries. If the key is new and the store is
  full, it evicts one live entry. The model does not fix which entry is evicted.
- **JSON decoding.** This follows requests 2.27 or later, where a body that does not
  decode as JSON raises a RequestException. That failure therefore becomes the
  network-error message.
- **Dates out of range.** `today - timedelta(days=i)` below `date.min` raises
  OverflowError. No handler catches it, so `apod_recent` then answers 500.

## Model

| member | source | states |
|---|---|---|
| Serializers.MediaUrl | apod_service/apod/serializers.py:15-23 | An image with a truthy `hdurl` gets `hdurl`. An image whose `hdurl` is absent or empty gets `url`, because Python's `or` treats "" as falsy. A video, any other media type or a missing one gets `url`. |
| Serializers.ToRepresentation | apod_service/apod/serializers.py:13-33 | The function is total: no precondition on the record. The payload has exactly the keys date, title, explanation, media_type, media_url and copyright, so the raw `url` and `hdurl` are not among them. Five fields are the input's values, or null when missing. `media_url` follows the media-URL rule. |
| Serializers.RepresentationIsTruthy | apod_service/apod/serializers.py:25-32 | Every payload is a non-empty dict, so any stored payload counts as a hit under `if cached:`. |
| Serializers.VideoIgnoresHdurl | apod_service/apod/serializers.py:20-21 | For a video, changing `hdurl` to anything leaves `media_url` equal to `url`. |
| Serializers.RepresentationIgnoresOtherFields | apod_service/apod/serializers.py:13-33 | The payload depends only on the seven fields it reads. Adding or changing any other field changes nothing. |
| Serializers.ImageExamples | apod_service/apod/serializers.py:15-19 | Worked cases: an image with both URLs shows `hdurl`; an image with an empty `hdurl` shows `url`. |
| Serializers.OtherExamples | apod_service/apod/serializers.py:20-33 | Worked cases: a video with both URLs shows `url`; an empty record yields the six keys, all null. |
| Cache.MakeKey | apod_service/apod/cache.py:10-11 | The key is the prefix, then ':', then the key, read back by position. |
| Cache.MakeKeyInjective | apod_service/apod/cache.py:10-11 | Under one prefix, equal namespaced keys come from equal keys. |
| Cache.MakeKeyCollidesAcrossPrefixes | apod_service/apod/cache.py:10-11 | Across prefixes that contain ':' it is not injective: ("a:b", "c") and ("a", "b:c") collide. |
| Cache.Lookup | apod_service/apod/cache.py:13-16 | A read yields a value exactly when the key is present and fewer than `ttl` seconds have passed since it was written, and then the stored value. A missing or expired key reads as None. |
| Cache.Purge | apod_service/apod/cache.py:18-21 | Dropping expired entries keeps exactly the live entries, unchanged. |
| Cache.LookupAfterInsert | apod_service/apod/cache.py:13-21 | After `set(k, v)` at `now`, `k` holds `v` written at `now`, overwriting any earlier value. A read at `t` yields `v` while `t < now + ttl` and None afterwards. |
| Cache.InsertKeepsOthers | apod_service/apod/cache.py:18-21 | Every other key that survives a `set` is unchanged and was live and present before it. Only expiry and eviction remove keys. |
| Cache.InsertOtherReads | apod_service/apod/cache.py:18-21 | After a `set`, any other key reads as before or as None. It never reads a different value. |
| Cache.InsertWithRoomKeepsReads | apod_service/apod/cache.py:18-21 | When the key is already live, or the live entries number fewer than the capacity, nothing is evicted. Every other key then reads the same at `now` and later. |
| Cache.InsertLiveKeys | apod_service/apod/cache.py:18-21 | A `set` makes at most one key newly live at `now`, the key written, so the live entries grow by at most one. |
| Cache.InsertWithRoomKeepsLive | apod_service/apod/cache.py:18-21 | With room for the write and a positive TTL, the keys live at `now` after a `set` are exactly those live before, plus the key written. |
| Cache.InsertWithinCapacity | apod_service/apod/cache.py:18-21 | A `set` on a store within capacity leaves it within capacity: both its stored entries and its live entries at any later time. |
| Cache.ExpiringCache.constructor | apod_service/apod/cache.py:8 | TTL and capacity are fixed when the store is built, and the store starts empty. |
| Cache.ExpiringCache.Get | apod_service/apod/cache.py:13-16 | `get_cache(p, k)` yields a value exactly when "p:k" is stored and younger than the TTL, and then the stored value. |
| Cache.ExpiringCache.Set | apod_service/apod/cache.py:18-21 | `set_cache(p, k, v)` performs a TTLCache insert of "p:k" at `now`: purge expired entries, evict one entry only when the key is new and the store is full, then write. The store stays within capacity. |
| Cache.ExpiringCache.Clear | apod_service/apod/cache.py:23-25 | After `clear_cache()` the store is empty, and every key reads as None at every time. |
| NasaClient.RequestParams | apod_service/apod/nasa_client.py:17-19 | The query always carries `api_key`. It carries `date` exactly when the date is present and non-empty, and then carries it unchanged. It has no other keys. |
| NasaClient.Classify | apod_service/apod/nasa_client.py:21-37 | A transport failure gives the network error. 401 and 403 give Unauthorized, and 429 gives RateLimited. Any other 4xx or 5xx gives the network error. A body that is not JSON gives the network error. JSON that is not an object gives MalformedResponse, whose message the `except` does not rewrite. Success happens exactly when the status is below 400 or at least 600 and the body is a JSON object, and it returns that object unchanged. |
| NasaClient.UnauthorizedBeforeBody | apod_service/apod/nasa_client.py:24-26 | 401 and 403 are decided before the body is looked at: two such responses classify alike whatever their bodies. |
| NasaClient.MessageInjective | apod_service/apod/nasa_client.py:26-37 | The four error messages are pairwise distinct, so a message identifies its failure. |
| NasaClient.FetchApod | apod_service/apod/nasa_client.py:12-37 | Exactly one request is sent, with no retry: to the APOD URL, with the query above and the given timeout. The result is the classification of the provider's answer to that request. |
| Views.CacheKeyForDate | apod_service/apod/views.py:21-22 | The key is "today" for a missing or empty date, and the date text itself otherwise. |
| Views.CacheKeyTodayCollides | apod_service/apod/views.py:21-22 | A by-date request for the literal text "today" shares the today view's cache entry. |
| Views.CacheKeyForIsoDate | apod_service/apod/views.py:88-89 | For the dates `apod_recent` walks, the key is the ISO text, never the "today" sentinel. |
| Views.ServeCached | apod_service/apod/views.py:29-44 | The shared read-through flow. On a hit, the cached payload comes back with 200, and neither the store nor the request log changes. On a miss, exactly one request is sent. A failure then gives 503 `{"error": msg}` with the store unchanged. A success gives 200 with the transformed record, which is also inserted into the cache under the key. |
| Views.ApodToday | apod_service/apod/views.py:24-44 | The read-through flow for key "today", with no date in the query. |
| Views.ApodByDate | apod_service/apod/views.py:46-68 | A missing or empty `date` gives 400 "Missing date parameter" before the cache or the provider is touched. Otherwise the read-through flow runs with the date as key and query date. |
| Views.RepeatAfterSuccessHits | apod_service/apod/views.py:40-44 | After a miss whose fetch succeeded, a repeat request before the TTL ends gets the same 200 response. It sends no request and leaves the cache unchanged. |
| Views.RetryAfterFailureFetchesAgain | apod_service/apod/views.py:34-44 | A failed fetch caches nothing and sends exactly one request. The next request, made no earlier, sends exactly one more request, and its outcome follows the provider's answer at that time, which may differ from the first answer. A success is served with 200 and written to the cache. A failure is a 503 that again leaves the store as it was. If the provider answers as before, the second response equals the first. |
| Views.ParseDays | apod_service/apod/views.py:77-82 | A number of days is accepted only within [1, 100]. |
| Views.ParseDaysDecimal | apod_service/apod/views.py:77-82 | The decimal text of any integer is accepted exactly when that integer lies in [1, 100], and is then read as it. |
| Views.ParseDaysDefault | apod_service/apod/views.py:78 | An absent `days` means 10. |
| Views.ParseDaysAcceptsOne | apod_service/apod/views.py:79 | "1", the lower bound, is accepted as 1. |
| Views.ParseDaysAcceptsHundred | apod_service/apod/views.py:79 | "100", the upper bound, is accepted as 100. |
| Views.ParseDaysRejectsZero | apod_service/apod/views.py:79-82 | "0" is rejected. |
| Views.ParseDaysRejectsAboveHundred | apod_service/apod/views.py:79-82 | "101" is rejected. |
| Views.ParseDaysRejectsText | apod_service/apod/views.py:78-82 | "" and "ten" are rejected, because `int()` raises ValueError. |
| Views.BatchKeysDistinct | apod_service/apod/views.py:87-90 | The in-range dates of one batch have pairwise distinct cache keys. |
| Views.ApodRecent | apod_service/apod/views.py:70-105 | An invalid `days` gives 400 with nothing touched. Otherwise, for the n accepted days, the result is a run of the batch with these properties. There is one store per date the loop handled; each date is a hit exactly when the store the loop found held a live, non-empty payload for it. A hit changes nothing. A miss sends one request and writes the payload when the fetch succeeds, and changes nothing when it fails. The provider got exactly one request per missed date, in date order. If today − (n−1) is below `date.min`, the answer is 500, and the loop stopped at the first such date. Otherwise the answer is 200 with exactly n entries, newest first. |
| Views.RecentBatch | apod_service/apod/views.py:84-105 | The loop over the n newest dates. It is proved against the same run and outcome as `ApodRecent`, with the run as its loop invariant. |
| Views.RecentStep | apod_service/apod/views.py:88-103 | One turn of the loop, for date i. The run it returns is the run it was given with one more date appended: the earlier stores, hit flags and entries are kept, and the new last store is the cache after the turn. The appended step starts from the cache as the turn found it. It is a hit exactly when that cache held a live, non-empty payload for the date. A hit changes nothing; a miss writes the fresh payload on success and leaves the cache alone on failure. |
| Views.MissFetch | apod_service/apod/views.py:95-103 | The miss branch of one turn sends exactly one request, for the date's ISO text. On success it writes the fresh payload under the date's key and returns it. On failure it leaves the store as it is and returns the placeholder. |
| Views.RecentEntryAt | apod_service/apod/views.py:90-103 | Entry i is determined by whether date i was served from the cache. It was a hit exactly when the store the loop found held a live, non-empty payload for it, and the entry is then that payload. A miss whose fetch succeeded gives the fresh payload. A miss whose fetch failed gives `{"date": iso, "error": msg}`. |
| Views.HitWasCachedBefore | apod_service/apod/views.py:90-93 | A date served from the cache is served the payload the cache held for it when the request began. The batch never serves a payload it wrote itself. |
| Views.HitIffCachedWithRoom | apod_service/apod/views.py:87-93 | While the store has room for every date of the batch, date i is a hit exactly when the cache held a live, non-empty payload for it when the request began. |
| Views.BatchKeepsLiveWithRoom | apod_service/apod/views.py:87-99 | While the store has room for every date of the batch and the TTL is positive, every entry that was live when the request began is still live at its end. |
| Views.BatchProvenance | apod_service/apod/views.py:87-99 | After the batch, every cache entry is either an entry from before the request, untouched, or the fresh payload of a missed date whose fetch succeeded, written under that date's key at `now`. |
| Views.TraceProvenance | apod_service/apod/views.py:87-99 | The same property for any prefix of the loop: each step keeps every entry attributed. |
| Views.FailedDateKeepsCache | apod_service/apod/views.py:95-103 | A date whose fetch failed leaves its cache key as the batch found it. |
| Views.FailedDateNotWritten | apod_service/apod/views.py:95-103 | No entry the batch wrote sits under the key of a date whose fetch failed. |
| Views.MissRequests | apod_service/apod/views.py:87-96 | The batch sends at most one request per date. |
| Decimal.ParseStr | apod_service/apod/views.py:78 | `int(str(n)) == n` for every integer n of at most 4300 digits. Longer integers are refused, as CPython 3.11 and later refuse digit runs beyond `sys.get_int_max_str_digits()`, whose default is 4300. |
| Decimal.ParseInt | apod_service/apod/views.py:78 | `int()` on text yields a number only for text that, once trimmed of whitespace, starts with a digit or a sign and ends with a digit. |
| Decimal.ParseIntRejectsLongText | apod_service/apod/views.py:78 | A run of 4301 digits is refused even though its value is 5: leading zeros count towards the limit. |
| Decimal.ParseIntIgnoresSpaces | apod_service/apod/views.py:78 | Surrounding whitespace does not change what `int()` returns: `int(" " + str(n) + "\n")` is `int(str(n))`. |
| Decimal.ParseIntRejects | apod_service/apod/views.py:78 | "", "abc" and "- 5" are not integers. |
| Decimal.ParseIntRejectsUnderscores | apod_service/apod/views.py:78 | "1_" and "1__0" are not integers: an underscore must sit between two digits. |
| Calendar.PrevDay | apod_service/apod/views.py:88 | The day before a date exists exactly when the date is not `date.min`, and it is strictly earlier. |
| Calendar.PrevNextInverse | apod_service/apod/views.py:88 | Stepping back one day and stepping forward one day are inverse. |
| Calendar.PrevDayImmediate | apod_service/apod/views.py:88 | The day before a date is the one immediately before it: any date earlier than `d` is that day or earlier still. |
| Calendar.DaysBefore | apod_service/apod/views.py:88 | `today - timedelta(days=n)` is `today` itself for no days and strictly earlier for any positive number. It is None when it would fall below `date.min`. |
| Calendar.DaysBeforeStep | apod_service/apod/views.py:87-88 | If today − j is in range (j > 0), so is today − (j−1), and it is strictly later. |
| Calendar.DaysBeforeDefined | apod_service/apod/views.py:87-88 | If today − j is in range, so is today − i for every i ≤ j. |
| Calendar.DaysBeforeDecreasing | apod_service/apod/views.py:87-88 | The dates today, today − 1, … strictly decrease, so the batch is newest first. |
| Calendar.IsoFormat | apod_service/apod/views.py:89 | The ISO text has the shape "YYYY-MM-DD": four, two and two digits separated by dashes. |
| Calendar.IsoFormatInjective | apod_service/apod/views.py:89 | Distinct dates have distinct ISO texts. |
| Decimal.PadValue | apod_service/apod/views.py:89 | Zero padding to width w preserves the value of any number below 10^w. |

## Left out

- The `threading.Lock` in cache.py: it only provides mutual exclusion, and the model is sequential.
- cachetools' eviction order: when the store is full, `Set` evicts some live entry, but the model does not say which. cachetools evicts the least recently used entry. As a result, the model does not say which earlier batch entry a full cache loses.
- Cache.InsertOtherReads: it allows another key to read as None after a `set`, not only as before, because a full store evicts a live entry and the model does not say which.
- The setting `CACHE_MAX_ENTRIES = 0`: the constructor requires a capacity of at least 1. With capacity 0, cachetools raises on every `set`, and that error path is not modelled.
- The HTTP call itself, the JSON decoding of the body, logging, DRF `Response` rendering and `date.today()`. These are the `Upstream` object, the `Body` datatype and the `now` and `today` parameters.
- Older versions of requests, where a body that is not JSON raises a ValueError that the `except` does not catch. The model follows requests 2.27 and later.
- JSON floats: JSON numbers are modelled as integers. The payload fields the transformer reads are strings.
- Unicode in `int()`: the parser strips and accepts ASCII only. It strips space, tab, newline, carriage return, vertical tab and form feed, and accepts the digits 0-9. Unicode whitespace and Unicode digits are left out.
- `APODSerializer(data=raw).is_valid(raise_exception=False)`: it is DRF field validation, and its result is ignored.
- The body of the 500 response Django renders for the uncaught OverflowError: it is modelled as null.
- The `health` view, `settings.py`, `urls.py` and the React front end: none of them is backend logic. `App.jsx` is not part of this model.
- ServeCached, RecentBatch and ApodRecent: each request runs its cache reads, its fetches and its writes at the one `now` it is given. Time passing during a request is not modelled: an entry expiring in the middle of a batch, or a write stamped later than the read before it.
- Upstream: the provider's answer to a given request is modelled as a function fixed in the object (`respond`). A provider whose answer changes between two calls of one request is not modelled, except in RetryAfterFailureFetchesAgain, which takes the second answer as a separate function.
- ParseInt: it models the 4300-digit default of CPython 3.11 and later. A limit set otherwise (`sys.set_int_max_str_digits`, `PYTHONINTMAXSTRDIGITS`) and older Pythons, which have no limit, are not modelled.
- HitIffCachedWithRoom and BatchKeepsLiveWithRoom: they hold only while the store has room for every date of the batch. In a full store, `Set` may evict an entry the batch would later have read, and the model leaves the victim open (see cachetools' eviction order above).
