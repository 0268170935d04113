/**
 * The generic paginating fetcher `AuthApi` (src/auth_api.py): it builds a
 * request URL from a base URL and an ordered filter list, walks `next_url`
 * links until a page has none or 2500 events have been gathered, yields the
 * events as serialized text, remembers the latest event date and turns it
 * into the start-date ("cursor") filter for the next cycle.
 *
 * The upstream API is a finite script of responses: response `i` answers the
 * `i`-th request of a cycle. JSON-path lookups are already applied (a
 * `Payload` holds what the `next_url` and `data` paths matched, an `Event` what
 * its `data_date` path matched), and dates are whole seconds, each noted as
 * carrying a UTC offset (aware) or not (naive).
 */
module Fetcher {
  import opened Wrappers
  import PercentEncoding

  /** The safety cap on gathered events, checked after each page. */
  const EventCap: nat := 2500

  /** One `key=value` query filter. The value is the text `str(value)` gives. */
  datatype Filter = Filter(key: string, value: string)

  /**
   * What the `data_date` JSON path gave for one event, once parsed: no match,
   * text `parser.parse` rejects, or a date. `seconds` is the key dates are
   * ordered by (the UTC instant of an aware date, the wall-clock reading of a
   * naive one); `aware` says whether the text carried a UTC offset.
   */
  datatype EventDate = NoMatch | Unparsable | Instant(seconds: int, aware: bool)

  /** An upstream event: its `json.dumps` text and its date. */
  datatype Event = Event(text: string, date: EventDate)

  /** A decoded response body: the `next_url` match and the `data` match. */
  datatype Payload = Json(nextUrl: Option<string>, data: Option<seq<Event>>) | NotJson

  /** The exceptions `requests.get` raises without a response. */
  datatype NetworkError = InvalidUrlError | InvalidSchemaError | OtherNetworkError

  /** The answer to one GET: a status with a body, or a transport failure. */
  datatype Response = Reply(status: int, payload: Payload) | TransportFailed(error: NetworkError)

  /**
   * The exceptions that leave `fetch_data` (and the sink): `Api.ApiError`,
   * `requests.HTTPError` with its status, `InvalidURL`, `InvalidSchema`, and
   * any other exception.
   */
  datatype Failure = ApiError | HttpError(status: int) | InvalidUrl | InvalidSchema | Other

  /** One page as `_get_data_from_api` returns it. */
  datatype Page = Page(nextUrl: Option<string>, events: seq<Event>, count: nat)

  // ---------------------------------------------------------------------------
  // One request
  // ---------------------------------------------------------------------------

  /** `raise_for_status` raises for client (4xx) and server (5xx) errors. */
  predicate IsErrorStatus(status: int) {
    400 <= status < 600
  }

  /**
   * `_get_response_from_api`: HTTP 400 and 401 become `ApiError`, any other
   * error status is re-raised as the `HTTPError` it is, and transport errors
   * are re-raised unchanged.
   */
  function GetResponseFromApi(r: Response): (p: Result<Payload, Failure>)
    ensures p.Ok? <==> r.Reply? && !IsErrorStatus(r.status)
    ensures p.Ok? ==> p.value == r.payload
    ensures p == Err(ApiError) <==> r.Reply? && (r.status == 400 || r.status == 401)
    ensures p.Err? && p.error.HttpError? <==>
              r.Reply? && IsErrorStatus(r.status) && r.status != 400 && r.status != 401
    ensures p.Err? && p.error.HttpError? ==> p.error.status == r.status
    ensures r.TransportFailed? ==> p == Err(match r.error
                                           case InvalidUrlError => InvalidUrl
                                           case InvalidSchemaError => InvalidSchema
                                           case OtherNetworkError => Other)
  {
    match r
    case TransportFailed(InvalidUrlError) => Err(InvalidUrl)
    case TransportFailed(InvalidSchemaError) => Err(InvalidSchema)
    case TransportFailed(OtherNetworkError) => Err(Other)
    case Reply(status, payload) =>
      if IsErrorStatus(status) then
        if status == 400 || status == 401 then Err(ApiError) else Err(HttpError(status))
      else Ok(payload)
  }

  /**
   * `_get_data_from_api`: a body that is not JSON raises (a `ValueError`), a
   * `data` path that matches nothing raises `ApiError`, a failed request
   * raises what it raised, and otherwise the page holds the next link, the
   * events and their count.
   */
  function GetDataFromApi(r: Response): (p: Result<Page, Failure>)
    ensures p.Ok? <==> GetResponseFromApi(r).Ok? && r.payload.Json? && r.payload.data.Some?
    ensures p.Ok? ==> p.value == Page(r.payload.nextUrl, r.payload.data.value, |r.payload.data.value|)
    ensures GetResponseFromApi(r).Err? ==> p == Err(GetResponseFromApi(r).error)
    ensures GetResponseFromApi(r).Ok? && r.payload.Json? && r.payload.data.None? ==> p == Err(ApiError)
  {
    match GetResponseFromApi(r)
    case Err(f) => Err(f)
    case Ok(NotJson) => Err(Other)
    case Ok(Json(next, None)) => Err(ApiError)
    case Ok(Json(next, Some(events))) => Ok(Page(next, events, |events|))
  }

  /** The next link of a page that was read, none for a request that failed. */
  function NextLink(p: Result<Page, Failure>): Option<string> {
    if p.Ok? then p.value.nextUrl else None
  }

  // ---------------------------------------------------------------------------
  // The pagination walk (`_get_total_data_from_api`)
  // ---------------------------------------------------------------------------

  /** What reading one response gave: a page, or the failure it raised. */
  type PageRead = Result<Page, Failure>

  /** `_get_data_from_api` of each response of an upstream script, in order. */
  function Reads(upstream: seq<Response>): (r: seq<PageRead>)
    ensures |r| == |upstream|
    ensures forall i {:trigger GetDataFromApi(upstream[i])} :: 0 <= i < |upstream| ==> r[i] == GetDataFromApi(upstream[i])
    ensures forall i :: 0 <= i < |r| && r[i].Ok? ==> r[i].value.count == |r[i].value.events|
  {
    seq(|upstream|, i requires 0 <= i < |upstream| => GetDataFromApi(upstream[i]))
  }

  /** After `before` events, `p` is a page that asks for another. */
  predicate Continues(p: PageRead, before: nat) {
    p.Ok? && p.value.nextUrl.Some? && before + |p.value.events| < EventCap
  }

  /** The events a response contributes (none when it fails). */
  function PageEvents(p: PageRead): seq<Event> {
    if p.Ok? then p.value.events else []
  }

  /** The walk started at response `k` after `before` events ends within the script. */
  predicate SettlesFrom(script: seq<PageRead>, k: nat, before: nat)
    decreases |script| - k
  {
    k < |script| &&
    (Continues(script[k], before) ==> SettlesFrom(script, k + 1, before + |PageEvents(script[k])|))
  }

  /** The walk started at the first response after `before` events ends within the script. */
  predicate Settles(script: seq<PageRead>, before: nat) {
    SettlesFrom(script, 0, before)
  }

  /** A walk: how many responses it consumed and what it gathered or raised. */
  datatype Walked = Walked(pages: nat, result: Result<seq<Event>, Failure>)

  /** Prepends the pages already gathered to the rest of a walk. */
  function Resume(gathered: seq<Event>, pages: nat, rest: Walked): Walked {
    Walked(pages + rest.pages, if rest.result.Ok? then Ok(gathered + rest.result.value) else rest.result)
  }

  /** The walk `_get_total_data_from_api` does from response `k` on, after `before` events. */
  function WalkFrom(script: seq<PageRead>, k: nat, before: nat): (w: Walked)
    requires SettlesFrom(script, k, before)
    ensures 1 <= w.pages <= |script| - k
    decreases |script| - k
  {
    match script[k]
    case Err(f) => Walked(1, Err(f))
    case Ok(page) =>
      if page.nextUrl.None? || before + |page.events| >= EventCap then Walked(1, Ok(page.events))
      else Resume(page.events, 1, WalkFrom(script, k + 1, before + |page.events|))
  }

  /** The walk from the first response. */
  function Walk(script: seq<PageRead>, before: nat): (w: Walked)
    requires Settles(script, before)
    ensures 1 <= w.pages <= |script|
  {
    WalkFrom(script, 0, before)
  }

  /** The events of responses `k` up to `n`, in response order. */
  function Gathered(script: seq<PageRead>, k: nat, n: nat): seq<Event>
    requires k <= n <= |script|
    decreases n - k
  {
    if k == n then [] else PageEvents(script[k]) + Gathered(script, k + 1, n)
  }

  lemma ResumeResume(a: seq<Event>, i: nat, b: seq<Event>, j: nat, w: Walked)
    ensures Resume(a, i, Resume(b, j, w)) == Resume(a + b, i + j, w)
  {
    if w.result.Ok? {
      assert a + (b + w.result.value) == (a + b) + w.result.value;
    }
  }

  lemma ResumeNothing(w: Walked)
    ensures Resume([], 0, w) == w
  {
    if w.result.Ok? {
      assert [] + w.result.value == w.result.value;
    }
  }

  /** Every page before the last requested one asked for another. */
  lemma {:induction false} WalkContinuesBeforeLast(script: seq<PageRead>, k: nat, before: nat)
    requires SettlesFrom(script, k, before)
    ensures var w := WalkFrom(script, k, before);
      forall i :: k <= i < k + w.pages - 1 ==> Continues(script[i], before + |Gathered(script, k, i)|)
    decreases |script| - k
  {
    var w := WalkFrom(script, k, before);
    if Continues(script[k], before) {
      var n := |PageEvents(script[k])|;
      WalkContinuesBeforeLast(script, k + 1, before + n);
      forall i | k <= i < k + w.pages - 1
        ensures Continues(script[i], before + |Gathered(script, k, i)|)
      {
        if i > k {
          assert Gathered(script, k, i) == PageEvents(script[k]) + Gathered(script, k + 1, i);
        }
      }
    }
  }

  /** The last requested page did not ask for another. */
  lemma {:induction false} WalkStopsAtLast(script: seq<PageRead>, k: nat, before: nat)
    requires SettlesFrom(script, k, before)
    ensures var w := WalkFrom(script, k, before);
      !Continues(script[k + w.pages - 1], before + |Gathered(script, k, k + w.pages - 1)|)
    decreases |script| - k
  {
    var w := WalkFrom(script, k, before);
    if Continues(script[k], before) {
      var n := |PageEvents(script[k])|;
      WalkStopsAtLast(script, k + 1, before + n);
      var wr := WalkFrom(script, k + 1, before + n);
      var last := k + w.pages - 1;
      assert last == (k + 1) + wr.pages - 1;
      assert Gathered(script, k, last) == PageEvents(script[k]) + Gathered(script, k + 1, last);
    } else {
      assert w.pages == 1 && Gathered(script, k, k) == [];
    }
  }

  /**
   * Pagination stops at the first page that has no next link or brings the
   * count to the cap: every earlier page asked for another one, and no page
   * after the stopping one is requested.
   */
  lemma WalkStopsAtFirstStop(script: seq<PageRead>, before: nat)
    requires Settles(script, before)
    ensures var w := Walk(script, before);
      && (forall i :: 0 <= i < w.pages - 1 ==> Continues(script[i], before + |Gathered(script, 0, i)|))
      && !Continues(script[w.pages - 1], before + |Gathered(script, 0, w.pages - 1)|)
  {
    WalkContinuesBeforeLast(script, 0, before);
    WalkStopsAtLast(script, 0, before);
  }

  /**
   * A successful walk gathers exactly the events of the pages it requested,
   * in page order and each page whole; their number exceeds the cap by less
   * than one page.
   */
  lemma {:induction false} WalkGathersPages(script: seq<PageRead>, k: nat, before: nat)
    requires SettlesFrom(script, k, before)
    requires before < EventCap
    ensures var w := WalkFrom(script, k, before);
      w.result.Ok? ==>
        && w.result.value == Gathered(script, k, k + w.pages)
        && before + |w.result.value| < EventCap + |PageEvents(script[k + w.pages - 1])|
    decreases |script| - k
  {
    var w := WalkFrom(script, k, before);
    if Continues(script[k], before) {
      var n := |PageEvents(script[k])|;
      WalkGathersPages(script, k + 1, before + n);
    } else {
      assert Gathered(script, k + 1, k + 1) == [];
    }
  }

  /** A failed walk raises exactly what its last requested page raised. */
  lemma {:induction false} WalkFailsOnLastPage(script: seq<PageRead>, k: nat, before: nat)
    requires SettlesFrom(script, k, before)
    ensures var w := WalkFrom(script, k, before);
      w.result.Err? ==> script[k + w.pages - 1] == Err(w.result.error)
    decreases |script| - k
  {
    if Continues(script[k], before) {
      WalkFailsOnLastPage(script, k + 1, before + |PageEvents(script[k])|);
    }
  }

  /** A page that asks for another moves the walk on by one response. */
  lemma WalkAdvances(script: seq<PageRead>, i: nat, before: nat, gathered: seq<Event>, w: Walked,
                     after: nat, events: seq<Event>)
    requires SettlesFrom(script, i, before)
    requires Continues(script[i], before)
    requires w == Resume(gathered, i, WalkFrom(script, i, before))
    requires events == gathered + script[i].value.events && after == before + |script[i].value.events|
    ensures SettlesFrom(script, i + 1, after)
    ensures w == Resume(events, i + 1, WalkFrom(script, i + 1, after))
  {
    ResumeResume(gathered, i, script[i].value.events, 1, WalkFrom(script, i + 1, after));
  }

  // ---------------------------------------------------------------------------
  // Dates and the cursor value
  // ---------------------------------------------------------------------------

  /**
   * Event `i`'s date was read and can be ordered against the first event's:
   * Python raises `TypeError` when it compares a naive date with an aware one.
   */
  predicate Dated(events: seq<Event>, i: int)
    requires 0 <= i < |events|
  {
    events[i].date.Instant? && events[0].date.Instant? && events[i].date.aware == events[0].date.aware
  }

  /** Every event's date was read, and all are naive or all are aware. */
  predicate AllDated(events: seq<Event>) {
    forall i :: 0 <= i < |events| ==> Dated(events, i)
  }

  /** `m` is the latest date of the events: no event is later, one has it. */
  predicate IsLatest(events: seq<Event>, m: int) {
    && (forall i :: 0 <= i < |events| ==> events[i].date.Instant? && events[i].date.seconds <= m)
    && (exists i :: 0 <= i < |events| && events[i].date.Instant? && events[i].date.seconds == m)
  }

  /** Event `j` is the first one whose date cannot be read or ordered. */
  predicate FirstUndated(events: seq<Event>, j: int) {
    && 0 <= j < |events|
    && !Dated(events, j)
    && forall i :: 0 <= i < j ==> Dated(events, i)
  }

  /**
   * A missing date match raises `ApiError`; a date `parser.parse` rejects, or
   * one that cannot be compared with the dates before it, raises another error.
   */
  function DateFailure(d: EventDate): Failure {
    if d.NoMatch? then ApiError else Other
  }

  /** The exception `_get_last_date_in_data` raises, if any. */
  function FirstDateFailure(events: seq<Event>): (r: Option<Failure>)
    ensures r.None? <==> AllDated(events)
    ensures r.Some? ==> exists j :: FirstUndated(events, j) && r.value == DateFailure(events[j].date)
  {
    DateFailureFrom(events, 0)
  }

  /** `FirstDateFailure` once the first `k` events are known to be dated. */
  function DateFailureFrom(events: seq<Event>, k: nat): (r: Option<Failure>)
    requires k <= |events|
    requires forall i :: 0 <= i < k ==> Dated(events, i)
    ensures r.None? <==> AllDated(events)
    ensures r.Some? ==> exists j :: FirstUndated(events, j) && r.value == DateFailure(events[j].date)
    decreases |events| - k
  {
    if k == |events| then None
    else if !Dated(events, k) then
      assert FirstUndated(events, k);
      Some(DateFailure(events[k].date))
    else
      DateFailureFrom(events, k + 1)
  }

  /** `str.replace(' ', 'T')`. */
  function ReplaceSpaces(s: string): (r: string)
    ensures |r| == |s|
    ensures forall i :: 0 <= i < |s| ==> r[i] == (if s[i] == ' ' then 'T' else s[i])
  {
    if s == [] then [] else [if s[0] == ' ' then 'T' else s[0]] + ReplaceSpaces(s[1..])
  }

  /**
   * `_get_new_start_date`: one second past the last date, rendered as
   * `str(datetime)` does (`render`), with spaces turned into `T`, and quoted.
   */
  function NewStartDate(render: int -> string, lastDate: int): (r: string)
    ensures forall i :: 0 <= i < |r| ==> PercentEncoding.IsSafe(r[i]) || r[i] == '%' || PercentEncoding.IsHexDigit(r[i])
    ensures ' ' !in r
  {
    PercentEncoding.Quote(ReplaceSpaces(render(lastDate + 1)))
  }

  /** The cursor value decodes to the rendering of `lastDate + 1` with `T` in place of every space. */
  lemma NewStartDateDecodes(render: int -> string, lastDate: int)
    requires PercentEncoding.IsAscii(render(lastDate + 1))
    ensures PercentEncoding.Unquote(NewStartDate(render, lastDate)) == ReplaceSpaces(render(lastDate + 1))
  {
    var t := ReplaceSpaces(render(lastDate + 1));
    assert PercentEncoding.IsAscii(t) by {
      forall i | 0 <= i < |t| ensures t[i] as int < 128 {
        assert 'T' as int < 128;
      }
    }
    PercentEncoding.UnquoteQuote(t);
  }

  // ---------------------------------------------------------------------------
  // Filters
  // ---------------------------------------------------------------------------

  /** `key=value` for each filter, in list order, joined by single `&`. */
  function JoinFilters(filters: seq<Filter>): (r: string)
    ensures r == "" <==> filters == []
  {
    if filters == [] then ""
    else if |filters| == 1 then filters[0].key + "=" + filters[0].value
    else filters[0].key + "=" + filters[0].value + "&" + JoinFilters(filters[1..])
  }

  /**
   * Adding a filter at the end adds `&key=value`, or just `key=value` to an
   * empty list: one `&` between neighbours and none at the end.
   */
  lemma {:induction false} JoinFiltersSnoc(filters: seq<Filter>, f: Filter)
    ensures JoinFilters(filters + [f]) ==
              JoinFilters(filters) + (if filters == [] then "" else "&") + f.key + "=" + f.value
    decreases |filters|
  {
    if |filters| == 1 {
      assert (filters + [f])[1..] == [f];
    } else if |filters| > 1 {
      JoinFiltersSnoc(filters[1..], f);
      assert (filters + [f])[1..] == filters[1..] + [f];
    }
  }

  /** Writing filter `i` after the first `i` filters and their separator. */
  lemma JoinFiltersStep(url: string, filters: seq<Filter>, i: nat)
    requires i < |filters|
    ensures url + JoinFilters(filters[..i]) + (if 0 < i then "&" else "") + filters[i].key + "=" + filters[i].value ==
            url + JoinFilters(filters[..i + 1])
  {
    var f := filters[i];
    JoinFiltersSnoc(filters[..i], f);
    assert filters[..i + 1] == filters[..i] + [f];
  }

  /** The position of the first filter whose key is `key`. */
  function FirstKeyIndex(filters: seq<Filter>, key: string): (r: Option<nat>)
    ensures r.None? <==> forall i :: 0 <= i < |filters| ==> filters[i].key != key
    ensures r.Some? ==> r.value < |filters| && filters[r.value].key == key
    ensures r.Some? ==> forall i :: 0 <= i < r.value ==> filters[i].key != key
  {
    if filters == [] then None
    else if filters[0].key == key then Some(0)
    else
      var r := FirstKeyIndex(filters[1..], key);
      assert forall i :: 1 <= i < |filters| ==> filters[1..][i - 1] == filters[i];
      if r.Some? then Some(r.value + 1) else None
  }

  /** A filter keyed `key` with no such filter before it is the first one. */
  lemma FirstKeyIndexIs(filters: seq<Filter>, key: string, k: nat)
    requires k < |filters| && filters[k].key == key
    requires forall i :: 0 <= i < k ==> filters[i].key != key
    ensures FirstKeyIndex(filters, key) == Some(k)
  {
  }

  /**
   * `get_last_start_date`: the value of the first filter keyed `key`, or
   * `None` when no filter has that key.
   */
  function StartDate(filters: seq<Filter>, key: string): (r: Option<string>)
    ensures r.None? <==> forall i :: 0 <= i < |filters| ==> filters[i].key != key
    ensures r.Some? ==> exists i :: 0 <= i < |filters| && filters[i] == Filter(key, r.value) &&
                                    forall j :: 0 <= j < i ==> filters[j].key != key
  {
    match FirstKeyIndex(filters, key)
    case None => None
    case Some(i) => assert filters[i] == Filter(key, filters[i].value); Some(filters[i].value)
  }

  /**
   * The filter list `update_start_date_filter` leaves behind: only the first
   * filter keyed `key` gets the new value and the length stays; with no such
   * filter one filter is appended and the others stay.
   */
  function WithStartDate(filters: seq<Filter>, key: string, value: string): (r: seq<Filter>)
    ensures FirstKeyIndex(filters, key).Some? ==>
              var k := FirstKeyIndex(filters, key).value;
              |r| == |filters| && r[k] == Filter(key, value) &&
              forall i :: 0 <= i < |filters| && i != k ==> r[i] == filters[i]
    ensures FirstKeyIndex(filters, key).None? ==>
              |r| == |filters| + 1 && r[..|filters|] == filters && r[|filters|] == Filter(key, value)
  {
    match FirstKeyIndex(filters, key)
    case Some(i) => filters[i := Filter(key, value)]
    case None => filters + [Filter(key, value)]
  }

  /** After the update, `get_last_start_date` gives the new value. */
  lemma {:induction false} StartDateAfterUpdate(filters: seq<Filter>, key: string, value: string)
    ensures StartDate(WithStartDate(filters, key, value), key) == Some(value)
  {
    var r := WithStartDate(filters, key, value);
    match FirstKeyIndex(filters, key)
    case Some(k) =>
      assert forall i :: 0 <= i < k ==> r[i].key != key;
      FirstKeyIndexIs(r, key, k);
    case None =>
      assert forall i :: 0 <= i < |filters| ==> r[i].key != key;
      FirstKeyIndexIs(r, key, |filters|);
  }

  /** Updating twice with the same value is the same as updating once. */
  lemma {:induction false} WithStartDateIdempotent(filters: seq<Filter>, key: string, value: string)
    ensures WithStartDate(WithStartDate(filters, key, value), key, value) == WithStartDate(filters, key, value)
  {
    var r := WithStartDate(filters, key, value);
    match FirstKeyIndex(filters, key)
    case Some(k) =>
      assert forall i :: 0 <= i < k ==> r[i].key != key;
      FirstKeyIndexIs(r, key, k);
    case None =>
      assert forall i :: 0 <= i < |filters| ==> r[i].key != key;
      FirstKeyIndexIs(r, key, |filters|);
  }

  // ---------------------------------------------------------------------------
  // What one cycle of `fetch_data` yields
  // ---------------------------------------------------------------------------

  /** `json.dumps` of each event, in order. */
  function Texts(events: seq<Event>): (r: seq<string>)
    ensures |r| == |events|
    ensures forall i :: 0 <= i < |events| ==> r[i] == events[i].text
  {
    if events == [] then [] else [events[0].text] + Texts(events[1..])
  }

  /** The items `fetch_data` yields and the exception it ends with, if any. */
  datatype FetchResult = FetchResult(items: seq<string>, raised: Option<Failure>)

  /**
   * What `fetch_data` yields and raises once the walk has given `result`: one
   * item per event, in order, after a successful walk; nothing after a
   * failed or empty one, a failed walk raising its failure; and once items
   * are yielded, an exception exactly when some event's date cannot be read
   * or ordered.
   */
  function FetchOutcome(result: Result<seq<Event>, Failure>): (f: FetchResult)
    ensures result.Ok? ==> f.items == Texts(result.value)
    ensures f.items == [] <==> result.Err? || result.value == []
    ensures result.Err? ==> f.raised == Some(result.error)
    ensures f.items != [] ==> (f.raised.Some? <==> !AllDated(result.value))
  {
    match result
    case Err(f) => FetchResult([], Some(f))
    case Ok(events) =>
      if events == [] then FetchResult([], None)
      else
        assert |Texts(events)| == |events|;
        FetchResult(Texts(events), FirstDateFailure(events))
  }

  /**
   * The observable outcome of `fetch_data` against an upstream script: the
   * walk's failure, raised before anything is yielded, or the walk's events
   * as items, followed by an exception exactly when a date cannot be read or ordered.
   */
  function Fetched(upstream: seq<Response>): (f: FetchResult)
    requires Settles(Reads(upstream), 0)
    ensures var w := Walk(Reads(upstream), 0).result;
      && (w.Err? ==> f == FetchResult([], Some(w.error)))
      && (w.Ok? ==> f.items == Texts(w.value))
      && (w.Ok? && w.value == [] ==> f.raised.None?)
      && (w.Ok? && w.value != [] ==> (f.raised.Some? <==> !AllDated(w.value)))
  {
    FetchOutcome(Walk(Reads(upstream), 0).result)
  }

  /**
   * `fetch_data` yields one item per gathered event, in page order; it yields
   * nothing when the walk fails or finds no event, and once it yields it only
   * fails when an event's date cannot be read or ordered.
   */
  lemma FetchedYieldsEveryEvent(upstream: seq<Response>)
    requires Settles(Reads(upstream), 0)
    ensures var w := Walk(Reads(upstream), 0);
      && (w.result.Ok? ==> Fetched(upstream).items == Texts(Gathered(Reads(upstream), 0, w.pages)))
      && (Fetched(upstream).items == [] <==> w.result.Err? || w.result.value == [])
      && (Fetched(upstream).items != [] ==>
            (Fetched(upstream).raised.Some? <==> !AllDated(w.result.value)))
  {
    var w := Walk(Reads(upstream), 0);
    WalkGathersPages(Reads(upstream), 0, 0);
  }

  // ---------------------------------------------------------------------------
  // The fetcher object
  // ---------------------------------------------------------------------------

  class AuthApi {
    const name: string
    const credentialsId: string
    const credentialsKey: string
    const startDateName: string
    const url: string
    var filters: seq<Filter>
    var currentDataLastDate: Option<int>

    constructor(name: string, credentialsId: string, credentialsKey: string, filters: seq<Filter>,
                url: string, startDateName: string)
      ensures this.name == name && this.credentialsId == credentialsId && this.credentialsKey == credentialsKey
      ensures this.filters == filters && this.url == url && this.startDateName == startDateName
      ensures currentDataLastDate == None
    {
      this.name := name;
      this.credentialsId := credentialsId;
      this.credentialsKey := credentialsKey;
      this.startDateName := startDateName;
      this.filters := filters;
      this.url := url;
      currentDataLastDate := None;
    }

    /** The URL the first request of a cycle goes to. */
    function RequestUrl(): string
      reads this
    {
      url + JoinFilters(filters)
    }

    /**
     * `get_last_start_date`: the value of the first filter keyed
     * `startDateName`, `None` when no filter has that key.
     */
    function GetLastStartDate(): (r: Option<string>)
      reads this
      ensures r.None? <==> forall i :: 0 <= i < |filters| ==> filters[i].key != startDateName
      ensures r.Some? ==> exists i :: 0 <= i < |filters| && filters[i] == Filter(startDateName, r.value) &&
                                      forall j :: 0 <= j < i ==> filters[j].key != startDateName
    {
      StartDate(filters, startDateName)
    }

    /**
     * `_build_api_url`: the base URL followed by every filter as `key=value`,
     * with `&` written after each filter but the last; no `?` is inserted.
     */
    method BuildApiUrl() returns (apiUrl: string)
      ensures apiUrl == RequestUrl()
      ensures filters == [] ==> apiUrl == url
    {
      apiUrl := url;
      var remaining := |filters|;
      var i := 0;
      while i < |filters|
        invariant 0 <= i <= |filters|
        invariant remaining == |filters| - i
        invariant apiUrl == url + JoinFilters(filters[..i]) + (if 0 < i < |filters| then "&" else "")
      {
        var f := filters[i];
        JoinFiltersStep(url, filters, i);
        apiUrl := apiUrl + f.key + "=" + f.value;
        remaining := remaining - 1;
        if remaining > 0 {
          apiUrl := apiUrl + "&";
        }
        i := i + 1;
      }
      assert filters[..i] == filters;
    }

    /**
     * `_get_total_data_from_api`: requests the built URL, then each next link
     * in turn, and stops after the first page with no next link or that brings
     * the count to the cap, or at the first failure, which it raises.
     */
    method GetTotalDataFromApi(upstream: seq<Response>)
      returns (result: Result<seq<Event>, Failure>, count: nat, requested: seq<string>)
      requires Settles(Reads(upstream), 0)
      ensures result == Walk(Reads(upstream), 0).result
      ensures result.Ok? ==> count == |result.value|
      ensures |requested| == Walk(Reads(upstream), 0).pages
      ensures requested[0] == RequestUrl()
      ensures forall i :: 0 <= i < |requested| - 1 ==> NextLink(GetDataFromApi(upstream[i])) == Some(requested[i + 1])
    {
      var events: seq<Event> := [];
      count := 0;
      var apiUrl := BuildApiUrl();
      requested := [];
      var i := 0;
      ghost var script := Reads(upstream);
      ghost var w := Walk(script, 0);
      ghost var first := apiUrl;
      ResumeNothing(w);
      while true
        invariant |script| == |upstream|
        invariant SettlesFrom(script, i, count)
        invariant count == |events|
        invariant w == Resume(events, i, WalkFrom(script, i, count))
        invariant |requested| == i
        invariant i == 0 ==> apiUrl == first
        invariant 0 < i ==> requested[0] == first && NextLink(script[i - 1]) == Some(apiUrl)
        invariant forall j :: 0 <= j < i - 1 ==> NextLink(script[j]) == Some(requested[j + 1])
        decreases |upstream| - i
      {
        requested := requested + [apiUrl];
        var page := GetDataFromApi(upstream[i]);
        assert page == script[i];
        if page.Err? {
          result := Err(page.error);
          return;
        }
        var p := page.value;
        ghost var before := count;
        ghost var gathered := events;
        events := events + p.events;
        count := count + p.count;
        if p.nextUrl.None? || count >= EventCap {
          result := Ok(events);
          return;
        }
        assert script[i].value == p;
        WalkAdvances(script, i, before, gathered, w, count, events);
        apiUrl := p.nextUrl.value;
        i := i + 1;
      }
    }

    /**
     * `_get_last_date_in_data`: the latest event date, by a running maximum;
     * the first event whose date cannot be read, or cannot be
     * compared with the first one (naive against aware), raises instead, and an empty
     * batch gives no date.
     */
    method GetLastDateInData(data: seq<Event>) returns (r: Result<Option<int>, Failure>)
      ensures r.Ok? <==> AllDated(data)
      ensures r.Ok? && data == [] ==> r.value == None
      ensures r.Ok? && data != [] ==> r.value.Some? && IsLatest(data, r.value.value)
      ensures r.Err? ==> Some(r.error) == FirstDateFailure(data)
    {
      var lastDate: Option<int> := None;
      for i := 0 to |data|
        invariant forall k :: 0 <= k < i ==> Dated(data, k)
        invariant i == 0 <==> lastDate.None?
        invariant lastDate.Some? ==> IsLatest(data[..i], lastDate.value)
      {
        var d := data[i].date;
        if !d.Instant? || (i > 0 && d.aware != data[0].date.aware) {
          assert FirstUndated(data, i);
          ghost var f := FirstDateFailure(data);
          ghost var j :| FirstUndated(data, j) && f.value == DateFailure(data[j].date);
          assert j == i;
          return Err(DateFailure(d));
        }
        assert data[..i + 1] == data[..i] + [data[i]];
        if lastDate.None? || lastDate.value < d.seconds {
          lastDate := Some(d.seconds);
        }
        assert IsLatest(data[..i + 1], lastDate.value) by {
          var prefix := data[..i + 1];
          assert forall k :: 0 <= k < i ==> prefix[k] == data[..i][k];
        }
      }
      assert data[..|data|] == data;
      r := Ok(lastDate);
    }

    /**
     * `fetch_data`: yields every gathered event as text, then records the
     * latest event date. With no events it yields nothing and keeps the old
     * date; a failure of the walk raises before anything is yielded; a date
     * that cannot be read or ordered raises after the last item, keeping the old date.
     */
    method FetchData(upstream: seq<Response>) returns (yielded: seq<string>, raised: Option<Failure>)
      requires Settles(Reads(upstream), 0)
      modifies this
      ensures FetchResult(yielded, raised) == Fetched(upstream)
      ensures filters == old(filters)
      ensures raised.Some? || yielded == [] ==> currentDataLastDate == old(currentDataLastDate)
      ensures raised.None? && yielded != [] ==>
                currentDataLastDate.Some? && IsLatest(Walk(Reads(upstream), 0).result.value, currentDataLastDate.value)
    {
      var total, count, requested := GetTotalDataFromApi(upstream);
      if total.Err? {
        return [], Some(total.error);
      }
      var events := total.value;
      if events == [] {
        return [], None;
      }
      yielded := [];
      for i := 0 to |events|
        invariant yielded == Texts(events[..i])
      {
        assert events[..i + 1] == events[..i] + [events[i]];
        yielded := yielded + [events[i].text];
      }
      assert events[..|events|] == events;
      var last := GetLastDateInData(events);
      if last.Err? {
        return yielded, Some(last.error);
      }
      currentDataLastDate := last.value;
      raised := None;
    }

    /**
     * `update_start_date_filter`: the value of the first filter keyed
     * `startDateName` becomes the new start date; when no filter has that key
     * a new filter is appended.
     */
    method UpdateStartDateFilter(render: int -> string)
      requires currentDataLastDate.Some?
      modifies this
      ensures currentDataLastDate == old(currentDataLastDate)
      ensures filters == WithStartDate(old(filters), startDateName, NewStartDate(render, currentDataLastDate.value))
      ensures GetLastStartDate() == Some(NewStartDate(render, currentDataLastDate.value))
    {
      var newStartDate := NewStartDate(render, currentDataLastDate.value);
      StartDateAfterUpdate(filters, startDateName, newStartDate);
      for i := 0 to |filters|
        invariant forall j :: 0 <= j < i ==> filters[j].key != startDateName
      {
        if filters[i].key != startDateName {
          continue;
        }
        assert FirstKeyIndex(filters, startDateName) == Some(i);
        filters := filters[i := Filter(filters[i].key, newStartDate)];
        return;
      }
      filters := filters + [Filter(startDateName, newStartDate)];
    }
  }
}
