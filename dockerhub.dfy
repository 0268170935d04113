/**
 * The DockerHub audit-log source (src/apis/dockerhub/Dockerhub.py): a cached
 * JWT session token refreshed by logging in when it is missing or expired,
 * the paging query appended to the configured URL, and the Authorization
 * header set before every request.
 *
 * Clock readings are whole seconds since the earliest `datetime`; the login
 * call is a parameter holding its outcome.
 */
module DockerHubApi {
  import opened Wrappers
  import Fetcher

  // ---------------------------------------------------------------------------
  // The query string `_initialize_params` appends
  // ---------------------------------------------------------------------------

  /** The page size every request asks for. */
  const PageSize := "100"

  /** `params`: `page_size` first, then `from` only when some days back are asked for. */
  function Params(daysBackFetch: int, fromDate: string): (p: seq<Fetcher.Filter>)
    ensures |p| >= 1 && p[0] == Fetcher.Filter("page_size", PageSize)
    ensures |p| == 2 <==> daysBackFetch > 0
    ensures |p| == 2 ==> p[1] == Fetcher.Filter("from", fromDate)
  {
    [Fetcher.Filter("page_size", PageSize)] + (if daysBackFetch > 0 then [Fetcher.Filter("from", fromDate)] else [])
  }

  /** `"&".join(f"{key}={value}" ...)` over `params`, in insertion order. */
  function QueryString(daysBackFetch: int, fromDate: string): (q: string)
    ensures daysBackFetch <= 0 ==> q == "page_size=100"
    ensures daysBackFetch > 0 ==> q == "page_size=100&from=" + fromDate
  {
    var params := Params(daysBackFetch, fromDate);
    if daysBackFetch > 0 then
      Fetcher.JoinFiltersSnoc([params[0]], params[1]);
      assert params == [params[0]] + [params[1]];
      Fetcher.JoinFilters(params)
    else
      Fetcher.JoinFilters(params)
  }

  /** How many times `c` occurs in `s`. */
  function Occurrences(c: char, s: string): (n: nat)
    ensures n <= |s|
    ensures n == 0 <==> c !in s
  {
    if s == [] then 0 else (if s[0] == c then 1 else 0) + Occurrences(c, s[1..])
  }

  lemma {:induction false} OccurrencesConcat(c: char, a: string, b: string)
    ensures Occurrences(c, a + b) == Occurrences(c, a) + Occurrences(c, b)
    decreases |a|
  {
    if a == [] {
      assert a + b == b;
    } else {
      assert (a + b)[1..] == a[1..] + b;
      OccurrencesConcat(c, a[1..], b);
    }
  }

  /** The URL with the query appended: after `?` when it has none yet, after `&` otherwise. */
  function AppendQuery(url: string, query: string): (r: string)
    ensures |r| == |url| + 1 + |query|
    ensures r[..|url|] == url && r[|url| + 1..] == query
    ensures r[|url|] == (if '?' in url then '&' else '?')
    ensures '?' in r
  {
    var r := url + [if '?' in url then '&' else '?'] + query;
    assert r[|url|] in r;
    r
  }

  /**
   * Appending a query without `?` to a URL leaves exactly one `?` when the
   * URL had none, and adds none when it already had a query.
   */
  lemma {:induction false} AppendQueryKeepsOneQuestionMark(url: string, query: string)
    requires '?' !in query
    ensures Occurrences('?', AppendQuery(url, query)) == if '?' in url then Occurrences('?', url) else 1
  {
    var sep := if '?' in url then '&' else '?';
    var tail := [sep] + query;
    assert AppendQuery(url, query) == url + tail;
    OccurrencesConcat('?', url, tail);
    assert tail[1..] == query;
    assert Occurrences('?', tail) == (if sep == '?' then 1 else 0) + Occurrences('?', query);
    assert Occurrences('?', query) == 0;
  }

  /** The paging query itself never holds a `?` unless the date does. */
  lemma QueryStringHasNoQuestionMark(daysBackFetch: int, fromDate: string)
    requires '?' !in fromDate
    ensures '?' !in QueryString(daysBackFetch, fromDate)
  {
  }

  /**
   * `datetime.now(UTC) - timedelta(days=daysBackFetch)` raised: it does when the
   * date would fall before year 1 (`OverflowError`) or the day count is out of
   * `timedelta`'s range. `fromDate` is `None` exactly then; it is only
   * computed when some days back are asked for.
   */
  predicate DateRaised(daysBackFetch: int, fromDate: Option<string>) {
    daysBackFetch > 0 && fromDate.None?
  }

  /** The formatted date, or nothing when it is not needed. */
  function DateText(fromDate: Option<string>): string {
    if fromDate.Some? then fromDate.value else ""
  }

  // ---------------------------------------------------------------------------
  // The JWT cache of `_get_jwt_token`
  // ---------------------------------------------------------------------------

  /**
   * Clock readings count whole seconds from 0001-01-01T00:00:00 UTC, the
   * earliest `datetime`. This is the last second of 9999-12-31, the latest
   * one a `datetime` can hold (with any fraction of it).
   */
  const MaxInstant: int := 315537897599

  /** `timedelta` refuses more than 999,999,999 days either way. */
  const MaxTimedeltaDays: int := 999999999

  /**
   * `datetime.now(UTC) + timedelta(minutes=interval)`, read at `after`, raises
   * `OverflowError`: the `timedelta` is out of range, or the sum falls outside
   * the years 1 to 9999.
   */
  predicate ExpiryOverflows(after: int, interval: int) {
    || !(-MaxTimedeltaDays <= (60 * interval) / 86400 <= MaxTimedeltaDays)
    || !(0 <= after + 60 * interval <= MaxInstant)
  }

  /**
   * The outcome of the login POST: a `RequestException` (a network error,
   * an error status, a body that is not JSON), or the body's `token` entry,
   * `None` when it has none.
   */
  datatype LoginOutcome = LoginFailed | LoginOk(token: Option<string>)

  /** `_jwt_token` and `_token_expiry`. */
  datatype TokenState = TokenState(token: Option<string>, expiry: Option<int>)

  /** Python truthiness of the cached token: present and not empty. */
  predicate Truthy(token: Option<string>) {
    token.Some? && token.value != ""
  }

  /** A truthy token has an expiry, so the expiry comparison never sees `None`. */
  predicate ValidState(s: TokenState) {
    Truthy(s.token) ==> s.expiry.Some?
  }

  /** The cached token is returned at clock reading `now`. */
  predicate Cached(s: TokenState, now: int) {
    Truthy(s.token) && s.expiry.Some? && now < s.expiry.value
  }

  /** A call at clock reading `now` logs in: no token, or one whose expiry has passed. */
  predicate Stale(s: TokenState, now: int) {
    !Truthy(s.token) || (s.expiry.Some? && now >= s.expiry.value)
  }

  /** The exceptions that escape `_get_jwt_token`. */
  datatype JwtError =
    | TypeError      // `now < None`: a truthy token with no expiry
    | OverflowError  // the new expiry is out of `datetime`'s range

  /**
   * What one `_get_jwt_token` call returns (`None` as well when it raised),
   * the exception it raised, whether it logged in, and the new cache.
   */
  datatype JwtStep = JwtStep(result: Option<string>, raised: Option<JwtError>, attempted: bool, next: TokenState)

  /**
   * One `_get_jwt_token` call. `now` is the clock reading of the cache test;
   * `after` the one taken once the login answered; `interval` is
   * `refresh_token_interval` in minutes. The token is stored before the
   * expiry is computed, so an overflowing expiry leaves the new token
   * beside the old expiry.
   */
  function GetJwtStep(s: TokenState, now: int, after: int, interval: int, login: LoginOutcome): (j: JwtStep)
    ensures Cached(s, now) ==> j == JwtStep(s.token, None, false, s)
    ensures Truthy(s.token) && s.expiry.None? ==> j == JwtStep(None, Some(TypeError), false, s)
    ensures j.attempted <==> Stale(s, now)
    ensures Stale(s, now) && login.LoginOk? && !ExpiryOverflows(after, interval) ==>
              j == JwtStep(login.token, None, true, TokenState(login.token, Some(after + 60 * interval)))
    ensures Stale(s, now) && login.LoginOk? && ExpiryOverflows(after, interval) ==>
              j == JwtStep(None, Some(OverflowError), true, TokenState(login.token, s.expiry))
    ensures Stale(s, now) && login.LoginFailed? ==> j == JwtStep(None, None, true, s)
    ensures ValidState(s) ==> j.raised != Some(TypeError)
    ensures ValidState(s) && (s.expiry.Some? || j.raised.None?) ==> ValidState(j.next)
    ensures s.expiry.Some? ==> j.next.expiry.Some?
  {
    if Truthy(s.token) && s.expiry.None? then JwtStep(None, Some(TypeError), false, s)
    else if Truthy(s.token) && now < s.expiry.value then JwtStep(s.token, None, false, s)
    else
      match login
      case LoginOk(token) =>
        if ExpiryOverflows(after, interval) then JwtStep(None, Some(OverflowError), true, TokenState(token, s.expiry))
        else JwtStep(token, None, true, TokenState(token, Some(after + 60 * interval)))
      case LoginFailed => JwtStep(None, None, true, s)
  }

  /**
   * A first login whose expiry overflows stores its token with no expiry;
   * every later call then raises `TypeError` at the cache test, without
   * logging in, and the cache never recovers.
   */
  lemma {:induction false} OverflowedFirstLoginBreaksCache(now: int, after: int, interval: int, token: string,
                                                           nows: seq<int>, afters: seq<int>, outcomes: seq<LoginOutcome>)
    requires token != "" && ExpiryOverflows(after, interval)
    requires |afters| == |nows| && |outcomes| == |nows|
    ensures var first := GetJwtStep(TokenState(None, None), now, after, interval, LoginOk(Some(token)));
      && first == JwtStep(None, Some(OverflowError), true, TokenState(Some(token), None))
      && !ValidState(first.next)
      && RunJwt(first.next, nows, afters, interval, outcomes) == JwtRun(first.next, 0, |nows|)
  {
    var first := GetJwtStep(TokenState(None, None), now, after, interval, LoginOk(Some(token)));
    BrokenRun(first.next, nows, afters, interval, outcomes);
  }

  lemma {:induction false} BrokenRun(s: TokenState, nows: seq<int>, afters: seq<int>, interval: int, outcomes: seq<LoginOutcome>)
    requires Truthy(s.token) && s.expiry.None?
    requires |afters| == |nows| && |outcomes| == |nows|
    ensures RunJwt(s, nows, afters, interval, outcomes) == JwtRun(s, 0, |nows|)
    decreases |nows|
  {
    if nows != [] {
      BrokenRun(s, nows[1..], afters[1..], interval, outcomes[1..]);
    }
  }

  /** The state left by a run of calls, how many of them logged in, and how many raised. */
  datatype JwtRun = JwtRun(final: TokenState, logins: nat, raises: nat)

  /**
   * A run of `_get_jwt_token` calls, call `i` reading the clock at `nows[i]`
   * and `afters[i]`; an exception ends only its own call.
   */
  function RunJwt(s: TokenState, nows: seq<int>, afters: seq<int>, interval: int, outcomes: seq<LoginOutcome>): (r: JwtRun)
    requires |afters| == |nows| && |outcomes| == |nows|
    ensures s.expiry.Some? ==> r.final.expiry.Some?
    ensures ValidState(s) && s.expiry.Some? ==> ValidState(r.final)
    decreases |nows|
  {
    if nows == [] then JwtRun(s, 0, 0)
    else
      var j := GetJwtStep(s, nows[0], afters[0], interval, outcomes[0]);
      var rest := RunJwt(j.next, nows[1..], afters[1..], interval, outcomes[1..]);
      JwtRun(rest.final, rest.logins + (if j.attempted then 1 else 0), rest.raises + (if j.raised.Some? then 1 else 0))
  }

  /**
   * A successful login with a non-empty token and an expiry in range serves
   * every later call made before `interval` minutes have passed: none of
   * them logs in again, and the cache stays as the login left it.
   */
  lemma {:induction false} LoginServesUntilExpiry(s: TokenState, now: int, after: int, interval: int, token: string,
                                                  nows: seq<int>, afters: seq<int>, outcomes: seq<LoginOutcome>)
    requires Stale(s, now) && token != "" && !ExpiryOverflows(after, interval)
    requires |afters| == |nows| && |outcomes| == |nows|
    requires forall i :: 0 <= i < |nows| ==> nows[i] < after + 60 * interval
    ensures var first := GetJwtStep(s, now, after, interval, LoginOk(Some(token)));
      && first.attempted && first.result == Some(token)
      && RunJwt(first.next, nows, afters, interval, outcomes) == JwtRun(first.next, 0, 0)
  {
    var first := GetJwtStep(s, now, after, interval, LoginOk(Some(token)));
    CachedRun(first.next, nows, afters, interval, outcomes);
  }

  lemma {:induction false} CachedRun(s: TokenState, nows: seq<int>, afters: seq<int>, interval: int, outcomes: seq<LoginOutcome>)
    requires |afters| == |nows| && |outcomes| == |nows|
    requires forall i :: 0 <= i < |nows| ==> Cached(s, nows[i])
    ensures RunJwt(s, nows, afters, interval, outcomes) == JwtRun(s, 0, 0)
    decreases |nows|
  {
    if nows != [] {
      assert Cached(s, nows[0]);
      assert forall i :: 0 <= i < |nows| - 1 ==> nows[1..][i] == nows[i + 1];
      CachedRun(s, nows[1..], afters[1..], interval, outcomes[1..]);
    }
  }

  /**
   * Calls served from the cache up to call `k`, and call `k` finds the token
   * expired (or missing): exactly that call logs in.
   */
  lemma {:induction false} ExpiredCallLogsIn(s: TokenState, nows: seq<int>, afters: seq<int>, interval: int,
                                             outcomes: seq<LoginOutcome>, k: nat)
    requires |afters| == |nows| && |outcomes| == |nows| && k < |nows|
    requires forall i :: 0 <= i < k ==> Cached(s, nows[i])
    requires Stale(s, nows[k])
    ensures var j := GetJwtStep(s, nows[k], afters[k], interval, outcomes[k]);
      RunJwt(s, nows[..k + 1], afters[..k + 1], interval, outcomes[..k + 1]) ==
        JwtRun(j.next, 1, if j.raised.Some? then 1 else 0)
    decreases k
  {
    if k == 0 {
      assert nows[..1][1..] == [];
    } else {
      assert Cached(s, nows[0]);
      assert nows[..k + 1][1..] == nows[1..][..k];
      assert afters[..k + 1][1..] == afters[1..][..k];
      assert outcomes[..k + 1][1..] == outcomes[1..][..k];
      assert forall i :: 0 <= i < k - 1 ==> nows[1..][i] == nows[i + 1];
      ExpiredCallLogsIn(s, nows[1..], afters[1..], interval, outcomes[1..], k - 1);
    }
  }

  /**
   * After a successful login with a non-empty token and an expiry in range,
   * the first later call made at or after the expiry logs in again, and it
   * is the only call of the run up to it that does.
   */
  lemma LoginRenewsAtExpiry(s: TokenState, now: int, after: int, interval: int, token: string,
                            nows: seq<int>, afters: seq<int>, outcomes: seq<LoginOutcome>, k: nat)
    requires Stale(s, now) && token != "" && !ExpiryOverflows(after, interval)
    requires |afters| == |nows| && |outcomes| == |nows| && k < |nows|
    requires forall i :: 0 <= i < k ==> nows[i] < after + 60 * interval
    requires nows[k] >= after + 60 * interval
    ensures var first := GetJwtStep(s, now, after, interval, LoginOk(Some(token)));
      RunJwt(first.next, nows[..k + 1], afters[..k + 1], interval, outcomes[..k + 1]).logins == 1
  {
    var first := GetJwtStep(s, now, after, interval, LoginOk(Some(token)));
    ExpiredCallLogsIn(first.next, nows, afters, interval, outcomes, k);
  }

  /** A string rendered into an f-string: the token, or `None`. */
  function Show(token: Option<string>): string {
    if token.Some? then token.value else "None"
  }

  // ---------------------------------------------------------------------------
  // The source object
  // ---------------------------------------------------------------------------

  class DockerHub {
    var url: string
    var headers: map<string, string>
    var jwtToken: Option<string>
    var tokenExpiry: Option<int>
    const dockerhubUser: string
    const dockerhubToken: string
    const daysBackFetch: int
    const refreshTokenInterval: int

    /** The cache is consistent: a non-empty token has an expiry. */
    predicate Valid()
      reads this
    {
      ValidState(TokenState(jwtToken, tokenExpiry))
    }

    /**
     * `__init__`: JSON headers, no token, and the paging query appended to
     * the URL. `fromDate` is the formatted date `daysBackFetch` days ago, or
     * `None` when computing it raised.
     */
    constructor(url: string, dockerhubUser: string, dockerhubToken: string, daysBackFetch: int,
                refreshTokenInterval: int, fromDate: Option<string>)
      ensures DateRaised(daysBackFetch, fromDate) ==> this.url == url
      ensures !DateRaised(daysBackFetch, fromDate) ==>
                this.url == AppendQuery(url, QueryString(daysBackFetch, DateText(fromDate)))
      ensures headers == map["Content-Type" := "application/json"]
      ensures jwtToken == None && tokenExpiry == None && Valid()
      ensures this.dockerhubUser == dockerhubUser && this.dockerhubToken == dockerhubToken
      ensures this.daysBackFetch == daysBackFetch && this.refreshTokenInterval == refreshTokenInterval
    {
      this.url := url;
      headers := map["Content-Type" := "application/json"];
      jwtToken := None;
      tokenExpiry := None;
      this.dockerhubUser := dockerhubUser;
      this.dockerhubToken := dockerhubToken;
      this.daysBackFetch := daysBackFetch;
      this.refreshTokenInterval := refreshTokenInterval;
      new;
      InitializeParams(fromDate);
    }

    /**
     * `_initialize_params`: appends `?` or `&` and the paging query to the
     * URL. When the `from` date could not be computed, the exception is
     * caught and logged and the URL is left as it was.
     */
    method InitializeParams(fromDate: Option<string>)
      modifies this
      ensures DateRaised(daysBackFetch, fromDate) ==> url == old(url)
      ensures !DateRaised(daysBackFetch, fromDate) ==>
                url == AppendQuery(old(url), QueryString(daysBackFetch, DateText(fromDate)))
      ensures headers == old(headers) && jwtToken == old(jwtToken) && tokenExpiry == old(tokenExpiry)
    {
      if DateRaised(daysBackFetch, fromDate) {
        return;
      }
      var params := Params(daysBackFetch, DateText(fromDate));
      var query := Fetcher.JoinFilters(params);
      if '?' in url {
        url := url + "&" + query;
      } else {
        url := url + "?" + query;
      }
    }

    /**
     * `_get_jwt_token`: the cached token while it is fresh, else the login's
     * token; `raised` is the exception that escaped instead of a result.
     */
    method GetJwtToken(now: int, after: int, login: LoginOutcome)
      returns (token: Option<string>, raised: Option<JwtError>, attempted: bool)
      modifies this
      ensures JwtStep(token, raised, attempted, TokenState(jwtToken, tokenExpiry)) ==
              GetJwtStep(old(TokenState(jwtToken, tokenExpiry)), now, after, refreshTokenInterval, login)
      ensures old(Valid()) && (old(tokenExpiry).Some? || raised.None?) ==> Valid()
      ensures url == old(url) && headers == old(headers)
    {
      if Truthy(jwtToken) {
        if tokenExpiry.None? {
          return None, Some(TypeError), false;
        }
        if now < tokenExpiry.value {
          return jwtToken, None, false;
        }
      }
      attempted := true;
      match login
      case LoginOk(t) =>
        jwtToken := t;
        if ExpiryOverflows(after, refreshTokenInterval) {
          return None, Some(OverflowError), true;
        }
        tokenExpiry := Some(after + 60 * refreshTokenInterval);
        token, raised := jwtToken, None;
      case LoginFailed =>
        token, raised := None, None;
    }

    /**
     * `send_request`, up to the request itself: the Authorization header
     * carries `Bearer ` and the token `_get_jwt_token` returned, which reads
     * `None` when there is none; an exception from `_get_jwt_token` leaves
     * the headers as they were.
     */
    method SendRequest(now: int, after: int, login: LoginOutcome) returns (token: Option<string>, raised: Option<JwtError>)
      modifies this
      ensures var j := GetJwtStep(old(TokenState(jwtToken, tokenExpiry)), now, after, refreshTokenInterval, login);
        && token == j.result && raised == j.raised
        && TokenState(jwtToken, tokenExpiry) == j.next
      ensures raised.None? ==> headers == old(headers)["Authorization" := "Bearer " + Show(token)]
      ensures raised.Some? ==> headers == old(headers)
      ensures old(Valid()) && (old(tokenExpiry).Some? || raised.None?) ==> Valid()
      ensures url == old(url)
    {
      var attempted;
      token, raised, attempted := GetJwtToken(now, after, login);
      if raised.Some? {
        return;
      }
      headers := headers["Authorization" := "Bearer " + Show(token)];
    }
  }
}
