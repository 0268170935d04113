# logzio-api-events core, modelled in Dafny

logzio-api-events polls security-event APIs on a schedule and ships what it
finds to Logz.io. This project models three parts of it and proves
properties about them:

- **`AuthApi`** (src/auth_api.py) is the generic paginating fetcher.
  - It builds the request URL from a base URL and an ordered filter list.
  - It follows `next_url` links until a page has none, or until 2500 events have been gathered.
  - It yields each event as serialized text.
  - It remembers the latest event date. It turns that date, plus one second, into the start-date ("cursor") filter of the next cycle.
- **`ApisManager`** (src/apis_manager.py) is the orchestrator.
  - It reads the configuration: the Logz.io url and token, the polling interval, and the auth APIs with their filters.
  - It appends the accepted APIs to its list.
  - It classifies the outcome of one poll-and-ship cycle. The outcome either terminates the process or advances the cursor.
- **`DockerHub`** (src/apis/dockerhub/Dockerhub.py) is a source with a cached JWT session token.
  - The token is refreshed by a login when it is missing or expired.
  - The paging query is appended to its URL with `?` or `&`.
  - The `Authorization: Bearer …` header is set before each request.

Files:

| file | module | contents |
|---|---|---|
| `wrappers.dfy` | `Wrappers` | `Option`, `Result` |
| `percent_encoding.dfy` | `PercentEncoding` | `urllib.parse.quote` with `safe='/'`, and its inverse on ASCII text |
| `fetcher.dfy` | `Fetcher` | request classification, the pagination walk, dates, filters, class `AuthApi` |
| `manager.dfy` | `Manager` | YAML values with Python's indexing rules, the config readers, the cycle decision, class `ApisManager` |
| `dockerhub.dfy` | `DockerHubApi` | the query string, the JWT cache step, class `DockerHub` |

How the outside world appears in the model:

- **Upstream API.** One cycle's upstream is a finite sequence of `Response`s. Response `i` answers the `i`-th request of the cycle.
  - Each response is either a status with a body or a transport failure (`InvalidURL`, `InvalidSchema`, other).
  - JSON-path lookups are already applied. A body holds what the `next_url` and `data` paths matched. An event holds what its `data_date` path matched: no match, an unparsable date, or a date in whole seconds marked naive or aware (with or without a UTC offset).
- **Dates.**
  - `str(datetime)` is a parameter `render: int -> string`.
  - `parser.parse` of that text is taken to give the same instant back.
  - `urllib.parse.quote` is modelled concretely: UTF-8 bytes, each written `%XX` in upper-case hex.
- **Sink.** The Logz.io sink's flush is a parameter: its outcome, or the failure it raised.
- **Configuration.** It is the value `yaml.safe_load` returns, as a `Yaml` datatype. The datatype covers null, booleans, integers, strings, lists and mappings with string keys; the other values `safe_load` can build are listed under "## Left out".
  - `d[k]` raises `KeyError` on a mapping without `k` and `TypeError` on anything else. A key repeated in a mapping keeps its last value.
  - `k in v` is a key test on a mapping, a substring test on a string, and an element test on a list.
  - Iteration gives list items, string characters, or mapping keys. A repeated key is iterated once, at the place of its first entry, as a Python dict holds it.
  - `* 60` multiplies numbers and repeats strings and lists.
  - A `TypeError` that no handler catches ends the program. The model returns it as `Err(TypeError)`.
- **DockerHub.** Clock readings are whole seconds counted from 0001-01-01T00:00:00 UTC, the earliest `datetime`, so the range check of `datetime + timedelta` can be written out. The login POST is a parameter holding its outcome.

## Behaviour as written

The model follows the code. Where the code's behaviour is easy to misread, it is:

- `_build_api_url` (src/auth_api.py:94-105) adds no `?` between the base URL and the first filter, so the configured URL must already end in `?` or `&`.
- In `__send_data_to_logzio` (src/apis_manager.py:259-270), an `HTTPError` other than 401 is only logged. `is_data_sent_successfully` stays true, so the cursor still advances when events were seen. `Manager.Decide` states this.
- `InvalidURL` or `InvalidSchema` raised by the source API's own request also terminates the process, not only when the sink raises it. The handler at src/apis_manager.py:251-258 wraps both the fetch and the flush.
  - A source HTTP 400 or 401 becomes `ApiError` (src/auth_api.py:136-137), so it never terminates.
  - `Manager.SourceFailureKeepsCursor` states this.
- An auth API of type `general` passes its key checks and then falls through to the invalid-type error, so it yields `None` (src/apis_manager.py:139-146). See `Manager.GetAuthApi`.
- A failed DockerHub login returns `None`, not the still-cached token. The cache is left as it was (src/apis/dockerhub/Dockerhub.py:67-68). See `DockerHubApi.GetJwtStep`.
- DockerHub stores the new token (src/apis/dockerhub/Dockerhub.py:64) before it computes the expiry (line 65). When `refresh_token_interval` minutes take the expiry out of `datetime`'s range, `OverflowError` escapes with the new token stored and the old expiry kept; it is not a `RequestException`, so the handler at line 67 does not catch it. After such a first login with a non-empty token, that token has no expiry, and every later call raises `TypeError` at the cache test (line 51) without logging in again. See `DockerHubApi.OverflowedFirstLoginBreaksCache`.
- A batch that mixes naive and aware event dates raises `TypeError` at the first comparison between them (src/auth_api.py:164). `fetch_data` has already yielded every item, so the events reach the sink, but the generic handler at src/apis_manager.py:266-268 keeps the cursor where it was. See `Fetcher.FirstDateFailure` and `Manager.CycleDecision`.
- A `time_interval` given as a string or a list passes the zero test, because `"5" * 60 != 0` (src/apis_manager.py:103, 78). A mapping or `null` raises the caught `TypeError` and gives 0, and so would a YAML timestamp, which the model does not represent.
- A page that overshoots the 2500-event cap is kept whole (src/auth_api.py:84-88). The total therefore exceeds the cap by less than one page. See `Fetcher.WalkGathersPages`.

## Model

| member | source | states |
|---|---|---|
| PercentEncoding.Escape | src/auth_api.py:180 | a byte becomes `%` and two upper-case hex digits whose value is that byte |
| PercentEncoding.Utf8 | src/auth_api.py:180 | the UTF-8 encoding of a code point: the code point itself below 0x80; otherwise the shortest form, 2, 3 or 4 bytes by range, a lead byte announcing that length and continuation bytes `10xxxxxx` |
| PercentEncoding.Utf8RoundTrip | src/auth_api.py:180 | reading the bytes back (lead-byte payload, then 6 bits per continuation byte) gives the code point |
| PercentEncoding.Quote | src/auth_api.py:180 | the quoted text consists only of safe characters, `%` and hex digits, and is never shorter than the input |
| PercentEncoding.UnquoteQuote | src/auth_api.py:180 | decoding the quoted form of ASCII text gives the text back |
| PercentEncoding.QuoteKeepsSafeText | src/auth_api.py:180 | text made only of safe characters is left unchanged by quoting |
| Fetcher.GetResponseFromApi | src/auth_api.py:128-144 | a response succeeds exactly when it is a reply with a status below 400 or at least 600, and then gives its body; 400 and 401 become `ApiError`; every other error status is re-raised as an `HTTPError` with that status; transport errors are re-raised as they are |
| Fetcher.GetDataFromApi | src/auth_api.py:107-126 | a page succeeds exactly when the request succeeded and the body is JSON whose data path matched; it then holds the next link, the events and their count; a data path matching nothing raises `ApiError`; request errors pass through |
| Fetcher.WalkFrom | src/auth_api.py:73-92 | the walk from any response on requests at least one page and never runs past the end of the upstream |
| Fetcher.Walk | src/auth_api.py:73-92 | the walk requests at least one page and never more pages than the upstream answers |
| Fetcher.WalkContinuesBeforeLast | src/auth_api.py:87-90 | every page before the last requested one had a next link and left the running count below 2500 |
| Fetcher.WalkStopsAtLast | src/auth_api.py:87-88 | the last requested page had no next link or brought the running count to 2500 |
| Fetcher.WalkStopsAtFirstStop | src/auth_api.py:87-90 | every page before the last requested one had a next link and left the running count below 2500; the last one did not |
| Fetcher.WalkGathersPages | src/auth_api.py:73-92 | a successful walk returns the events of exactly the requested pages, in page order and each page whole, and their number exceeds the cap by less than the last page |
| Fetcher.WalkFailsOnLastPage | src/auth_api.py:79-82 | a failed walk raises exactly what its last requested page raised |
| Fetcher.WalkAdvances | src/auth_api.py:84-92 | after a page that asks for another, the rest of the walk is the walk from the next response, with that page's events gathered |
| Fetcher.FirstDateFailure | src/auth_api.py:149-156 | there is no failure exactly when every event has a date and all dates are naive or all aware; otherwise the failure is that of the first event whose date is missing, unparsable or not comparable with the first event's (`ApiError` for a path that matched nothing, another exception otherwise) |
| Fetcher.ReplaceSpaces | src/auth_api.py:179 | same length, and every space becomes `T` while every other character stays |
| Fetcher.NewStartDate | src/auth_api.py:177-182 | the new start date holds only safe characters, `%` and hex digits, and no space |
| Fetcher.NewStartDateDecodes | src/auth_api.py:177-182 | the new start date decodes to the rendering of last date + 1 second with spaces turned into `T` |
| Fetcher.JoinFilters | src/auth_api.py:96-105 | the joined filters are empty exactly when there is no filter |
| Fetcher.JoinFiltersStep | src/auth_api.py:98-103 | one turn of the URL loop appends `key=value` to the joined prefix, preceded by `&` unless it is the first filter |
| Fetcher.JoinFiltersSnoc | src/auth_api.py:98-103 | adding a filter at the end adds `&key=value`, or only `key=value` to an empty list: one `&` between neighbours and none trailing |
| Fetcher.FirstKeyIndex | src/auth_api.py:52-57 | the first position whose filter has the key: it has the key, no earlier filter does, and there is none exactly when no filter has the key |
| Fetcher.StartDate | src/auth_api.py:61-68 | `get_last_start_date` gives the value of the first filter with the cursor key, and `None` exactly when no filter has that key |
| Fetcher.WithStartDate | src/auth_api.py:49-59 | the update overwrites only the first filter with the cursor key and keeps the length; with no such filter it appends one and keeps the rest |
| Fetcher.StartDateAfterUpdate | src/auth_api.py:49-68 | after the update `get_last_start_date` gives the new start date |
| Fetcher.WithStartDateIdempotent | src/auth_api.py:49-59 | updating twice with the same value leaves the same filters as updating once |
| Fetcher.Texts | src/auth_api.py:41-42 | one serialized item per event, in event order |
| Fetcher.FetchOutcome | src/auth_api.py:32-47 | after a successful walk one item per event, in order; no item after a failed or empty walk, a failed walk raising its failure; once items are yielded, an exception exactly when some event date cannot be read or ordered |
| Fetcher.Fetched | src/auth_api.py:32-47 | against an upstream: a failed walk yields nothing and raises its failure; otherwise one item per gathered event, no exception for an empty walk, and for a non-empty one an exception exactly when some event date cannot be read or ordered |
| Fetcher.FetchedYieldsEveryEvent | src/auth_api.py:32-47 | `fetch_data` yields one item for each gathered event, in page order; it yields nothing exactly when the walk failed or found no event; once it yields, it raises only when some event date cannot be read or ordered |
| Fetcher.AuthApi.constructor | src/auth_api.py:22-30 | the fields take the given values and no last date is known |
| Fetcher.AuthApi.GetLastStartDate | src/auth_api.py:61-68 | the value of the first filter with the cursor key, and `None` exactly when no filter has that key |
| Fetcher.AuthApi.BuildApiUrl | src/auth_api.py:94-105 | the URL is the base followed by `key=value` for each filter in list order, joined by single `&`; with no filters it is the base URL |
| Fetcher.AuthApi.GetTotalDataFromApi | src/auth_api.py:73-92 | the loop computes the walk: the same events or failure and as many requests; the count is the number of events; the first request goes to the built URL and each later one to the previous page's next link |
| Fetcher.AuthApi.GetLastDateInData | src/auth_api.py:146-167 | succeeds exactly when every event has a date and no naive date meets an aware one; the result is then at least every event's date and equal to one of them; for no events it is `None`, where the source returns the text `str(None)`, but `fetch_data` returns before calling it on an empty batch (src/auth_api.py:35-37); otherwise it raises the failure of the first event whose date is missing, unparsable or not comparable |
| Fetcher.AuthApi.FetchData | src/auth_api.py:32-47 | the items yielded and the exception raised are those of `Fetched`; the filters stay; the last date changes only when events were yielded and all had dates, and it becomes their latest date |
| Fetcher.AuthApi.UpdateStartDateFilter | src/auth_api.py:49-59 | the filters become the update of the old ones with the new start date, and `get_last_start_date` afterwards gives it |
| Manager.Lookup | src/apis_manager.py:91-92 | a key is absent exactly when no entry has it; otherwise the value is that of its last entry |
| Manager.Index | src/apis_manager.py:91-92 | indexing raises `TypeError` exactly on a non-mapping and `KeyError` exactly on a mapping without the key |
| Manager.Contains | src/apis_manager.py:186-188 | `in` raises exactly on values that are not a mapping, string or list; on a mapping it is true exactly when indexing succeeds |
| Manager.Keys | src/apis_manager.py:187 | the keys of a mapping, each once: exactly those under which a lookup finds a value |
| Manager.Iterate | src/apis_manager.py:187 | iteration raises `TypeError` exactly on values that are not a mapping, string or list; a list gives its items, a string its characters, a mapping each of its keys once and nothing else |
| Manager.TimesSixty | src/apis_manager.py:103 | an integer is multiplied by 60; exactly `null` and mappings raise `TypeError` |
| Manager.LookupPair | src/apis_manager.py:90-93 | two lookups under `except KeyError`: the first value when present, the second only when both are present, `None` otherwise; they raise exactly on a non-mapping |
| Manager.LookupTriple | src/apis_manager.py:173-177 | three lookups under `except KeyError`: each value when it and every earlier key are present, `None` otherwise; they raise exactly on a non-mapping |
| Manager.GetLogzioData | src/apis_manager.py:86-97 | a missing `logzio` gives no url and no token; both present give both values, and when none is `None` they are the configured ones; a non-mapping raises |
| Manager.GetTimeInterval | src/apis_manager.py:99-111 | the interval is 60 times the configured minutes; it is 0 exactly when the key cannot be read (`settings` or `time_interval` missing, or `settings` not a mapping), or the value is 0, false, null or a mapping |
| Manager.GetApiData | src/apis_manager.py:168-181 | a missing `type` gives three `None`; all three present give their values; when none is `None` they are the configured ones; a non-mapping entry raises |
| Manager.GetGeneralTypeAuthApiData | src/apis_manager.py:195-209 | a missing `url` gives three `None`; `url`, `next_url_json_path` and `data_json_path` all present give their values; when none is `None` they are the configured ones; a non-mapping entry raises |
| Manager.HasKeyAndValue | src/apis_manager.py:188 | the test on one filter raises `TypeError` exactly on a value that is not a mapping, string or list; on a mapping it passes exactly when both `key` and `value` are present |
| Manager.CheckFilters | src/apis_manager.py:187-191 | given each filter's test: all filters in order exactly when every test passed; otherwise the verdict on the first test that did not: `None`, or the exception it raised |
| Manager.CheckFiltersStopsAtFirstFailed | src/apis_manager.py:187-189 | the first failed test decides the verdict |
| Manager.CheckFiltersRefuses | src/apis_manager.py:188-189 | a list is refused only at a test that gave false, every earlier test having passed |
| Manager.FiltersOf | src/apis_manager.py:183-193 | without `filters`, or with an empty list, the filters are empty; only a `TypeError` escapes |
| Manager.FiltersOfList | src/apis_manager.py:186-193 | listed filters come back whole and in order when accepted, and are refused only at a filter lacking `key` or `value` whose predecessors all had both |
| Manager.GetAuthApi | src/apis_manager.py:125-146 | an API results exactly when the type is `cisco_secure_x`, `id` and `key` are present and the filters are valid, and it carries them; it raises only on a non-mapping entry or filters that raised; type `general` never yields one |
| Manager.BuildApis | src/apis_manager.py:115-121 | given each entry's outcome: the built APIs are those of the leading accepted entries, in order; the result is true exactly when every entry is accepted, else false or the exception of the first rejected entry |
| Manager.BuildApisStopsAt | src/apis_manager.py:115-121 | when every entry before a rejected one was accepted, their APIs are exactly the built ones and the rejected entry decides the result |
| Manager.AuthApisOf | src/apis_manager.py:113-123 | without `auth_apis` nothing is built and the result is true |
| Manager.AuthApisOfList | src/apis_manager.py:113-123 | with `auth_apis` listed, the built APIs are those of the leading entries in configuration order; the result is true when every entry is accepted, and otherwise the first rejected entry's false or exception |
| Manager.Decide | src/apis_manager.py:245-270 | the process terminates exactly on `InvalidURL`, `InvalidSchema` or HTTP 401; the cursor advances exactly when an event was seen and nothing, or an `HTTPError` other than 401, was raised; never both |
| Manager.SourceFailureKeepsCursor | src/apis_manager.py:245-270 | a failed source walk never advances the cursor, and terminates exactly when its last request hit an invalid URL or schema |
| Manager.CycleDecision | src/apis_manager.py:239-272 | the cursor advances exactly when the walk succeeded with events, all dated, and the flush raised nothing or a non-401 `HTTPError`; the process terminates exactly on a fatal failure of the fetch, or of the flush after a fetch that raised nothing; never both |
| Manager.ApisManager.constructor | src/apis_manager.py:43-46 | no APIs, no shipper, interval 0 |
| Manager.ApisManager.Run | src/apis_manager.py:53-58 | one worker per configured API, in order, and none when there is no API |
| Manager.ApisManager.GetApiFilters | src/apis_manager.py:183-193 | the method returns the entry's filters: empty without the key, the exception of an index or iteration that raised, otherwise what the filter loop returns |
| Manager.ApisManager.CheckListedFilters | src/apis_manager.py:187-193 | the loop returns the filter-loop verdict on the listed filters |
| Manager.ApisManager.AddAuthApis | src/apis_manager.py:113-123 | the built APIs are appended to `apis`, and the result is the verdict; the shipper and interval stay |
| Manager.ApisManager.AddEntries | src/apis_manager.py:115-121 | the loop appends each accepted entry's API in order and stops at the first rejected entry |
| Manager.ApisManager.ReadDataFromConfig | src/apis_manager.py:66-84 | false with nothing changed when the url or token is missing; with both, the shipper and interval are stored; then false when the interval is 0, else the APIs are added and their verdict returned |
| Manager.ApisManager.QueueItems | src/apis_manager.py:246-248 | every fetched item is queued, in order, and data is noted exactly when there was an item |
| Manager.ApisManager.SendDataToLogzio | src/apis_manager.py:239-272 | every yielded item is queued in order; the sink is flushed exactly when the fetch raised nothing; termination is the cycle's decision; the last date is the batch's latest date after a fetch that yielded and raised nothing, and is unchanged otherwise; the cursor filter is updated to the new start date exactly when the decision advances it, and otherwise left alone |
| DockerHubApi.Params | src/apis/dockerhub/Dockerhub.py:37-40 | `page_size=100` comes first; `from` is added second exactly when `days_back_fetch > 0` |
| DockerHubApi.QueryString | src/apis/dockerhub/Dockerhub.py:37-41 | `page_size=100`, followed by `&from=<date>` exactly when `days_back_fetch > 0` |
| DockerHubApi.AppendQuery | src/apis/dockerhub/Dockerhub.py:42-45 | the URL, then `&` if it already holds a `?` and `?` otherwise, then the query; the result always holds a `?` |
| DockerHubApi.AppendQueryKeepsOneQuestionMark | src/apis/dockerhub/Dockerhub.py:42-45 | a query without `?` makes a URL without one hold exactly one, and adds none to a URL that has one |
| DockerHubApi.QueryStringHasNoQuestionMark | src/apis/dockerhub/Dockerhub.py:37-41 | the paging query holds no `?` when the date holds none |
| DockerHubApi.GetJwtStep | src/apis/dockerhub/Dockerhub.py:50-68 | a fresh non-empty cached token is returned with no login and no change; a non-empty token without expiry raises `TypeError` with no login; a login is attempted exactly when the token is missing, empty or expired; success stores and returns its token, expiring `refresh_token_interval` minutes after the login; an expiry out of range raises `OverflowError` with the new token stored and the old expiry kept; failure returns `None` and changes nothing; a state whose non-empty token has an expiry never raises `TypeError` and stays so unless a first expiry overflows |
| DockerHubApi.RunJwt | src/apis/dockerhub/Dockerhub.py:50-68 | over a run of calls, once an expiry is stored it is never cleared, and a cache whose non-empty token has an expiry keeps that property |
| DockerHubApi.ExpiredCallLogsIn | src/apis/dockerhub/Dockerhub.py:51-68 | when every call before call `k` is served from the cache and call `k` finds the token missing, empty or expired, call `k` is the only one of the run up to it that logs in |
| DockerHubApi.OverflowedFirstLoginBreaksCache | src/apis/dockerhub/Dockerhub.py:51-65 | a first login whose expiry overflows raises `OverflowError` and leaves a non-empty token with no expiry; every later call then raises `TypeError` without logging in |
| DockerHubApi.CachedRun | src/apis/dockerhub/Dockerhub.py:51-52 | calls made while the cached token is fresh never log in, never raise and change nothing |
| DockerHubApi.LoginServesUntilExpiry | src/apis/dockerhub/Dockerhub.py:51-66 | after a successful login with a non-empty token and an expiry in range, no call before the expiry logs in again or raises, and the cache stays as the login left it |
| DockerHubApi.LoginRenewsAtExpiry | src/apis/dockerhub/Dockerhub.py:51-66 | after a successful login with a non-empty token and an expiry in range, the first later call at or after the expiry logs in, and it is the only login of the run up to it |
| DockerHubApi.DockerHub.constructor | src/apis/dockerhub/Dockerhub.py:27-48 | JSON content type, no token, and the paging query appended to the URL, or the URL as given when computing the `from` date raised |
| DockerHubApi.DockerHub.InitializeParams | src/apis/dockerhub/Dockerhub.py:35-48 | the URL gets `?` or `&` and the paging query; when computing the `from` date raised, the exception is caught and the URL stays as it was; nothing else changes |
| DockerHubApi.DockerHub.GetJwtToken | src/apis/dockerhub/Dockerhub.py:50-68 | the result, the exception, the login attempt and the new cache are those of one cache step; a cache whose non-empty token has an expiry keeps that property unless a first expiry overflowed; the URL and headers are unchanged |
| DockerHubApi.DockerHub.SendRequest | src/apis/dockerhub/Dockerhub.py:70-73 | `Authorization` is set to `Bearer ` followed by the token the cache step returned, or `None` when there is none; when the step raised, the headers stay as they were; the cache is that step's, and stays consistent unless a first expiry overflowed |

## Left out

- Threads, `threading.Event`, `signal.sigwait`, `os.kill` and joins (`__run_scheduled_tasks`, the signal half of `run`, `__exit_gracefully`) are concurrency and process signalling. Termination is returned as a flag, and `run` is modelled up to the list of workers it would start.
- HTTP transport (`requests.get`, `requests.post`) and the `LogzioShipper` transport are network I/O. They are parameters: the upstream responses, the flush outcome, and the login outcome.
- Reading `config.yaml` is file I/O. The model starts from the parsed value.
- The configuration values are not all modelled. `yaml.safe_load` can also return floats, timestamps (`datetime.date` and `datetime.datetime`), `!!binary` bytes, `!!set` sets, and mappings whose keys are not strings (`1:`, `true:`, `null:`). `Manager.Yaml` has none of these. The if-and-only-if contracts of `Manager` (`Contains`, `TimesSixty`, `GetTimeInterval`, `HasKeyAndValue`, `FiltersOf`, `GetAuthApi`) hold over the modelled values only. Some cases that are missing:
  - `filters: {1: a}` iterates the integer `1`, and `'key' in 1` raises an uncaught `TypeError` (src/apis_manager.py:187-188).
  - `time_interval: 2024-01-01` raises the caught `TypeError` and gives 0 (src/apis_manager.py:103).
  - `in` on a `!!set` is an element test rather than a `TypeError`.
- `jsonpath_ng` matching, `dateutil.parser`, `json.dumps` and `timedelta` are foreign libraries.
  - JSON paths arrive already matched.
  - An event carries its serialized text.
  - Dates are whole seconds. `str(datetime)` is the `render` parameter.
  - `render` sees only the date's seconds. The UTC offset that `str` prints for an aware date is left to the parameter. When aware events share the latest instant with different offsets, the running maximum keeps the first one's offset; that choice is not modelled.
  - The model does not prove that `parser.parse(str(d))` gives `d` back; parsing is taken as that inverse.
- Reading the clock (`datetime.now(UTC)`) is a parameter. The formatted date for DockerHub's `from` filter is a parameter as well: `None` stands for the `OverflowError` that `datetime.now(UTC) - timedelta(days=days_back_fetch)` raises when the date would fall before year 1 (about 739,000 days back) or the day count is beyond `timedelta`'s range (999,999,999 days). Which counts raise depends on the clock, so the caller supplies it.
- `Manager.ApisManager.SendDataToLogzio`:
  - The sink's `add_log_to_send` is taken never to fail. Its queue is the returned sequence.
  - Logging is left out everywhere.
- `__get_oauth_api` and `__get_general_type_oauth_api_data` are never called by the modelled code.
- `CiscoSecureX`, `OAuthApi` and the `ApiFetcher` base class are not part of this model.
  - An accepted API is represented by its `id`, `key` and filters.
  - `DockerHub.send_request` is modelled up to the call into the base class.
- `get_api_name` only returns the name, which is the `name` field of `Fetcher.AuthApi`.
- `Fetcher.AuthApi.GetTotalDataFromApi` requires that the upstream sequence lets the walk end (`Settles`). The same holds for `FetchData` and `Manager.ApisManager.SendDataToLogzio`. The Python loop never ends when the API keeps sending next links with too few events to reach the cap. That case is not modelled.
- `Fetcher.AuthApi.UpdateStartDateFilter` requires a known last date. The source crashes without one. It is only called after a cycle that set the date, which `SendDataToLogzio` shows.
- `Fetcher.AuthApi.UpdateStartDateFilter` replaces the filter value in a sequence. The Python code mutates the shared `ApiFilter` object, so other references to that object also see the change. That aliasing is not modelled.
- `Manager.Iterate` and `Manager.Keys` compute a mapping's keys in the order of their first entries, as a dict holds them. Their contracts state only that each key appears once and that exactly the present keys appear. The order is not stated.
- Logging in the `except Exception` path of `_initialize_params` is left out. The path itself is modelled: the URL stays as given.
- `DockerHubApi.LoginOutcome` stands for a login response body that is a JSON object. Without one, `.get` would raise `AttributeError`.
- `Fetcher.NewStartDate`: adding one second to 9999-12-31T23:59:59 raises `OverflowError` outside any handler in `update_start_date_filter`. Integer dates have no upper bound, so that crash is not modelled.
- `Manager.ApisManager.constructor` sets the initial fields only. `__init__` then calls `__read_data_from_config` and exits with `sys.exit(1)` when it returns false (src/apis_manager.py:50-51). That exit is represented by the result of `Manager.ApisManager.ReadDataFromConfig`; process exit is not modelled.
