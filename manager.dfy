/**
 * The decision layer of the orchestrator `ApisManager` (src/apis_manager.py):
 * reading the configuration (sink endpoint, polling interval, the auth APIs
 * and their filters), and classifying the outcome of one poll-and-ship cycle
 * into "terminate the process" and "advance the cursor".
 *
 * The configuration is the value `yaml.safe_load` returns (null, booleans,
 * integers, strings, lists and string-keyed mappings), with Python's
 * indexing rules: `d[k]` raises `KeyError` on a mapping without `k` and
 * `TypeError` on anything that is not a mapping; `k in v` and iteration
 * follow the value's type. A `TypeError` no handler catches ends the
 * program and is returned as `Err(TypeError)`.
 */
module Manager {
  import opened Wrappers
  import opened Fetcher

  /**
   * A YAML value, as far as this model goes: no floats, timestamps, binary
   * or sets. Mapping keys are strings; a repeated key keeps its last value.
   */
  datatype Yaml =
    | YNull
    | YBool(b: bool)
    | YInt(i: int)
    | YStr(s: string)
    | YList(items: seq<Yaml>)
    | YMap(entries: seq<(string, Yaml)>)

  datatype PyError = KeyError | TypeError

  // ---------------------------------------------------------------------------
  // Python operations on configuration values
  // ---------------------------------------------------------------------------

  /** Entry `i` is the last one with key `k`. */
  predicate IsLastKey(entries: seq<(string, Yaml)>, k: string, i: int) {
    0 <= i < |entries| && entries[i].0 == k && forall j :: i < j < |entries| ==> entries[j].0 != k
  }

  /** The value stored under `k` in a mapping's entries: the last one wins. */
  function Lookup(entries: seq<(string, Yaml)>, k: string): (r: Option<Yaml>)
    ensures r.None? <==> forall i :: 0 <= i < |entries| ==> entries[i].0 != k
    ensures r.Some? ==> exists i :: IsLastKey(entries, k, i) && entries[i].1 == r.value
  {
    if entries == [] then None
    else
      var last := |entries| - 1;
      if entries[last].0 == k then
        assert IsLastKey(entries, k, last);
        Some(entries[last].1)
      else
        var prefix := entries[..last];
        assert forall i :: 0 <= i < last ==> prefix[i] == entries[i];
        assert forall i :: IsLastKey(prefix, k, i) ==> IsLastKey(entries, k, i);
        Lookup(prefix, k)
  }

  /** `v[k]`. */
  function Index(v: Yaml, k: string): (r: Result<Yaml, PyError>)
    ensures r == Err(TypeError) <==> !v.YMap?
    ensures r == Err(KeyError) <==> v.YMap? && Lookup(v.entries, k).None?
  {
    match v
    case YMap(entries) =>
      (match Lookup(entries, k)
       case Some(x) => Ok(x)
       case None => Err(KeyError))
    case _ => Err(TypeError)
  }

  /** `k` occurs in `s` at position `i`. */
  predicate OccursAt(k: string, s: string, i: int) {
    0 <= i <= |s| - |k| && s[i..i + |k|] == k
  }

  predicate IsSubstring(k: string, s: string) {
    exists i :: 0 <= i <= |s| && OccursAt(k, s, i)
  }

  /** `k in v`: a key test on a mapping, a substring test on a string, an element test on a list. */
  function Contains(v: Yaml, k: string): (r: Result<bool, PyError>)
    ensures r.Err? <==> !(v.YMap? || v.YStr? || v.YList?)
    ensures r.Err? ==> r.error == TypeError
    ensures v.YMap? ==> r == Ok(Index(v, k).Ok?)
  {
    match v
    case YMap(entries) => Ok(Lookup(entries, k).Some?)
    case YStr(s) => Ok(IsSubstring(k, s))
    case YList(items) => Ok(YStr(k) in items)
    case _ => Err(TypeError)
  }

  /**
   * The keys of a mapping as a dict holds them: each key once, at the place
   * of its first entry (a repeated key only replaces the value).
   */
  function Keys(entries: seq<(string, Yaml)>): (r: seq<string>)
    ensures forall k :: k in r <==> Lookup(entries, k).Some?
    ensures forall i, j :: 0 <= i < j < |r| ==> r[i] != r[j]
  {
    if entries == [] then []
    else
      var last := |entries| - 1;
      var prefix := entries[..last];
      var p := Keys(prefix);
      assert forall i :: 0 <= i < last ==> prefix[i] == entries[i];
      assert forall k :: Lookup(entries, k).Some? <==> Lookup(prefix, k).Some? || entries[last].0 == k by {
        forall k ensures Lookup(entries, k).Some? <==> Lookup(prefix, k).Some? || entries[last].0 == k {
          if Lookup(prefix, k).Some? {
            var i :| 0 <= i < last && prefix[i].0 == k;
            assert entries[i].0 == k;
          }
        }
      }
      if entries[last].0 in p then p else p + [entries[last].0]
  }

  /** `for x in v`: a list's items, a string's characters, a mapping's keys. */
  function Iterate(v: Yaml): (r: Result<seq<Yaml>, PyError>)
    ensures r.Err? <==> !(v.YMap? || v.YStr? || v.YList?)
    ensures r.Err? ==> r.error == TypeError
    ensures v.YList? ==> r == Ok(v.items)
    ensures v.YStr? ==> r.Ok? && |r.value| == |v.s| && forall i :: 0 <= i < |v.s| ==> r.value[i] == YStr([v.s[i]])
    ensures v.YMap? ==> r.Ok? && forall x :: x in r.value <==> x.YStr? && Index(v, x.s).Ok?
    ensures v.YMap? ==> forall i, j :: 0 <= i < j < |r.value| ==> r.value[i] != r.value[j]
  {
    match v
    case YList(items) => Ok(items)
    case YStr(s) => Ok(seq(|s|, i requires 0 <= i < |s| => YStr([s[i]])))
    case YMap(entries) =>
      var keys := Keys(entries);
      var r := seq(|keys|, i requires 0 <= i < |keys| => YStr(keys[i]));
      assert forall x :: x in r <==> x.YStr? && x.s in keys by {
        forall x ensures x in r <==> x.YStr? && x.s in keys {
          if x.YStr? && x.s in keys {
            var i :| 0 <= i < |keys| && keys[i] == x.s;
            assert r[i] == x;
          }
        }
      }
      Ok(r)
    case _ => Err(TypeError)
  }

  function Repeat<T>(s: seq<T>, n: nat): seq<T> {
    if n == 0 then [] else s + Repeat(s, n - 1)
  }

  /** `v * 60`: numbers are multiplied, strings and lists repeated, the rest raise `TypeError`. */
  function TimesSixty(v: Yaml): (r: Result<Yaml, PyError>)
    ensures v.YInt? ==> r == Ok(YInt(60 * v.i))
    ensures r.Err? <==> v.YNull? || v.YMap?
  {
    match v
    case YInt(i) => Ok(YInt(60 * i))
    case YBool(b) => Ok(YInt(if b then 60 else 0))
    case YStr(s) => Ok(YStr(Repeat(s, 60)))
    case YList(items) => Ok(YList(Repeat(items, 60)))
    case _ => Err(TypeError)
  }

  /** `v == 0` in Python (`False == 0` holds). */
  predicate IsZero(v: Yaml) {
    v == YInt(0) || v == YBool(false)
  }

  /** `v[k]` when it is there, `None` otherwise. */
  function Found(v: Yaml, k: string): Yaml {
    match Index(v, k)
    case Ok(x) => x
    case Err(_) => YNull
  }

  /**
   * `a = v[k1]; b = v[k2]` inside `try ... except KeyError`: a missing key
   * leaves it and every later name `None`; a `TypeError` is not caught.
   */
  function LookupPair(v: Yaml, k1: string, k2: string): (r: Result<(Yaml, Yaml), PyError>)
    ensures r.Err? <==> !v.YMap?
    ensures r.Err? ==> r.error == TypeError
    ensures r.Ok? ==> r.value.0 == Found(v, k1)
    ensures r.Ok? ==> r.value.1 == (if Index(v, k1).Ok? then Found(v, k2) else YNull)
  {
    match Index(v, k1)
    case Err(TypeError) => Err(TypeError)
    case Err(KeyError) => Ok((YNull, YNull))
    case Ok(a) =>
      match Index(v, k2)
      case Err(TypeError) => Err(TypeError)
      case Err(KeyError) => Ok((a, YNull))
      case Ok(b) => Ok((a, b))
  }

  /** `a = v[k1]; b = v[k2]; c = v[k3]` inside `try ... except KeyError`. */
  function LookupTriple(v: Yaml, k1: string, k2: string, k3: string): (r: Result<(Yaml, Yaml, Yaml), PyError>)
    ensures r.Err? <==> !v.YMap?
    ensures r.Err? ==> r.error == TypeError
    ensures r.Ok? ==> r.value.0 == Found(v, k1)
    ensures r.Ok? ==> r.value.1 == (if Index(v, k1).Ok? then Found(v, k2) else YNull)
    ensures r.Ok? ==> r.value.2 == (if Index(v, k1).Ok? && Index(v, k2).Ok? then Found(v, k3) else YNull)
  {
    match LookupPair(v, k1, k2)
    case Err(e) => Err(e)
    case Ok((a, b)) =>
      if Index(v, k1).Err? || Index(v, k2).Err? then Ok((a, b, YNull))
      else
        match Index(v, k3)
        case Err(TypeError) => Err(TypeError)
        case Err(KeyError) => Ok((a, b, YNull))
        case Ok(c) => Ok((a, b, c))
  }

  // ---------------------------------------------------------------------------
  // Configuration readers
  // ---------------------------------------------------------------------------

  /** The sink the cycles ship to. */
  datatype Shipper = LogzioShipper(url: Yaml, token: Yaml)

  /** An API accepted from the configuration. */
  datatype ConfiguredApi = CiscoSecureX(id: Yaml, key: Yaml, filters: seq<Yaml>)

  /**
   * `__get_logzio_data`: `logzio.url` and `logzio.token`, `None` for what is
   * missing (and for the token too when the url is missing).
   */
  function GetLogzioData(config: Yaml): (r: Result<(Yaml, Yaml), PyError>)
    ensures Index(config, "logzio") == Err(KeyError) ==> r == Ok((YNull, YNull))
    ensures r.Err? <==> !config.YMap? || (Index(config, "logzio").Ok? && !Index(config, "logzio").value.YMap?)
    ensures r.Ok? && r.value.0 != YNull && r.value.1 != YNull ==>
              && Index(config, "logzio").Ok?
              && Index(Index(config, "logzio").value, "url") == Ok(r.value.0)
              && Index(Index(config, "logzio").value, "token") == Ok(r.value.1)
    ensures Index(config, "logzio").Ok? && Index(Index(config, "logzio").value, "url").Ok? &&
            Index(Index(config, "logzio").value, "token").Ok? ==>
              r == Ok((Index(Index(config, "logzio").value, "url").value,
                       Index(Index(config, "logzio").value, "token").value))
  {
    match Index(config, "logzio")
    case Err(KeyError) => Ok((YNull, YNull))
    case Err(TypeError) => Err(TypeError)
    case Ok(logzio) =>
      LookupPair(logzio, "url", "token")
  }

  /** `config['settings']['time_interval']`. */
  function Setting(config: Yaml): Result<Yaml, PyError> {
    match Index(config, "settings")
    case Err(e) => Err(e)
    case Ok(settings) => Index(settings, "time_interval")
  }

  /** The configured minutes the interval test rejects: 0, false, and what `* 60` refuses. */
  predicate GivesZero(minutes: Yaml) {
    minutes == YInt(0) || minutes == YBool(false) || minutes.YNull? || minutes.YMap?
  }

  /**
   * `__get_time_interval`: the configured minutes times 60; 0 when the key is
   * missing or the value cannot be multiplied (both errors are caught).
   */
  function GetTimeInterval(config: Yaml): (r: Yaml)
    ensures Setting(config).Err? ==> r == YInt(0)
    ensures Setting(config).Ok? && Setting(config).value.YInt? ==> r == YInt(60 * Setting(config).value.i)
    ensures IsZero(r) <==> Setting(config).Err? || GivesZero(Setting(config).value)
  {
    match Setting(config)
    case Err(_) => YInt(0)
    case Ok(minutes) =>
      match TimesSixty(minutes)
      case Err(_) => YInt(0)
      case Ok(seconds) => seconds
  }

  /** `__get_api_data`: `type`, `id` and `key` of an API entry. */
  function GetApiData(entry: Yaml): (r: Result<(Yaml, Yaml, Yaml), PyError>)
    ensures r.Err? <==> !entry.YMap?
    ensures Index(entry, "type") == Err(KeyError) ==> r == Ok((YNull, YNull, YNull))
    ensures r.Ok? && r.value.0 != YNull && r.value.1 != YNull && r.value.2 != YNull ==>
              && Index(entry, "type") == Ok(r.value.0)
              && Index(entry, "id") == Ok(r.value.1)
              && Index(entry, "key") == Ok(r.value.2)
    ensures Index(entry, "type").Ok? && Index(entry, "id").Ok? && Index(entry, "key").Ok? ==>
              r == Ok((Index(entry, "type").value, Index(entry, "id").value, Index(entry, "key").value))
  {
    LookupTriple(entry, "type", "id", "key")
  }

  /** `__get_general_type_auth_api_data`: `url`, `next_url_json_path` and `data_json_path`. */
  function GetGeneralTypeAuthApiData(entry: Yaml): (r: Result<(Yaml, Yaml, Yaml), PyError>)
    ensures r.Err? <==> !entry.YMap?
    ensures Index(entry, "url") == Err(KeyError) ==> r == Ok((YNull, YNull, YNull))
    ensures r.Ok? && r.value.0 != YNull && r.value.1 != YNull && r.value.2 != YNull ==>
              && Index(entry, "url") == Ok(r.value.0)
              && Index(entry, "next_url_json_path") == Ok(r.value.1)
              && Index(entry, "data_json_path") == Ok(r.value.2)
    ensures Index(entry, "url").Ok? && Index(entry, "next_url_json_path").Ok? && Index(entry, "data_json_path").Ok? ==>
              r == Ok((Index(entry, "url").value, Index(entry, "next_url_json_path").value,
                       Index(entry, "data_json_path").value))
  {
    LookupTriple(entry, "url", "next_url_json_path", "data_json_path")
  }

  /** `'key' not in f or 'value' not in f`, negated: the filter has both. */
  function HasKeyAndValue(f: Yaml): (r: Result<bool, PyError>)
    ensures r.Err? <==> !(f.YMap? || f.YStr? || f.YList?)
    ensures r.Err? ==> r.error == TypeError
    ensures f.YMap? ==> r == Ok(Index(f, "key").Ok? && Index(f, "value").Ok?)
  {
    match Contains(f, "key")
    case Err(e) => Err(e)
    case Ok(false) => Ok(false)
    case Ok(true) => Contains(f, "value")
  }

  /** The outcome of testing one filter. */
  type Test = Result<bool, PyError>

  /** `HasKeyAndValue` of each filter, in order. */
  function FilterTests(items: seq<Yaml>): (r: seq<Test>)
    ensures |r| == |items|
    ensures forall i :: 0 <= i < |items| ==> r[i] == HasKeyAndValue(items[i])
  {
    seq(|items|, i requires 0 <= i < |items| => HasKeyAndValue(items[i]))
  }

  /** Test `j` is the first that did not pass. */
  predicate FirstFailed(tests: seq<Test>, j: int) {
    && 0 <= j < |tests|
    && tests[j] != Ok(true)
    && forall i :: 0 <= i < j ==> tests[i] == Ok(true)
  }

  /** The verdict on a filter whose test did not pass: `None`, or the exception. */
  function Rejected(test: Test): Result<Option<seq<Yaml>>, PyError> {
    if test.Err? then Err(test.error) else Ok(None)
  }

  /**
   * The filter loop of `__get_api_filters`, given each filter's test: every
   * filter, in order, when all have `key` and `value`; otherwise the verdict
   * on the first that does not.
   */
  function CheckFilters(items: seq<Yaml>, tests: seq<Test>): (r: Result<Option<seq<Yaml>>, PyError>)
    requires |tests| == |items|
    ensures r == Ok(Some(items)) <==> forall i :: 0 <= i < |tests| ==> tests[i] == Ok(true)
    ensures r.Ok? && r.value.Some? ==> r.value.value == items
    ensures r != Ok(Some(items)) ==> exists j :: FirstFailed(tests, j) && r == Rejected(tests[j])
  {
    if items == [] then Ok(Some([]))
    else if tests[0] != Ok(true) then
      assert FirstFailed(tests, 0);
      Rejected(tests[0])
    else
      var rest := CheckFilters(items[1..], tests[1..]);
      assert forall i :: 1 <= i < |tests| ==> tests[1..][i - 1] == tests[i];
      match rest
      case Ok(Some(fs)) =>
        assert [items[0]] + items[1..] == items;
        Ok(Some([items[0]] + fs))
      case _ =>
        var j :| FirstFailed(tests[1..], j) && rest == Rejected(tests[1..][j]);
        assert FirstFailed(tests, j + 1);
        rest
  }

  /** The first failed test decides the verdict. */
  lemma CheckFiltersStopsAtFirstFailed(items: seq<Yaml>, tests: seq<Test>, i: int)
    requires |tests| == |items| && FirstFailed(tests, i)
    ensures CheckFilters(items, tests) == Rejected(tests[i])
  {
    var j :| FirstFailed(tests, j) && CheckFilters(items, tests) == Rejected(tests[j]);
    assert FirstFailed(tests, j);
    assert 0 <= j < |tests|;
  }

  /**
   * What `__get_api_filters` returns: `[]` without a `filters` key (or with an
   * empty list), else the checked filters; only a `TypeError` escapes.
   */
  function FiltersOf(data: Yaml): (r: Result<Option<seq<Yaml>>, PyError>)
    ensures Index(data, "filters") == Err(KeyError) ==> r == Ok(Some([]))
    ensures Index(data, "filters") == Ok(YList([])) ==> r == Ok(Some([]))
    ensures r.Err? ==> r.error == TypeError
  {
    match Contains(data, "filters")
    case Err(e) => Err(e)
    case Ok(false) => Ok(Some([]))
    case Ok(true) =>
      match Index(data, "filters")
      case Err(e) => Err(e)
      case Ok(listed) =>
        match Iterate(listed)
        case Err(e) => Err(e)
        case Ok(items) => CheckFilters(items, FilterTests(items))
  }

  /**
   * Listed filters are returned whole and in order when accepted, and they
   * are refused only at a filter that lacks `key` or `value`, every filter
   * before it having passed.
   */
  lemma FiltersOfList(data: Yaml, items: seq<Yaml>)
    requires data.YMap? && Index(data, "filters") == Ok(YList(items))
    ensures FiltersOf(data).Ok? && FiltersOf(data).value.Some? ==> FiltersOf(data).value.value == items
    ensures FiltersOf(data) == Ok(None) ==>
              exists j :: FirstFailed(FilterTests(items), j) && HasKeyAndValue(items[j]) == Ok(false)
  {
    assert Contains(data, "filters") == Ok(true);
    assert Iterate(YList(items)) == Ok(items);
    var tests := FilterTests(items);
    assert FiltersOf(data) == CheckFilters(items, tests);
    CheckFiltersRefuses(items, tests);
  }

  /** The filter loop refuses a list only at a test that gave false. */
  lemma CheckFiltersRefuses(items: seq<Yaml>, tests: seq<Test>)
    requires |tests| == |items|
    ensures CheckFilters(items, tests) == Ok(None) ==> exists j :: FirstFailed(tests, j) && tests[j] == Ok(false)
  {
    if CheckFilters(items, tests) == Ok(None) {
      var j :| FirstFailed(tests, j) && CheckFilters(items, tests) == Rejected(tests[j]);
      assert tests[j].Ok? && tests[j].value == false;
    }
  }

  /**
   * `__get_auth_api`: `None` when `type`, `id` or `key` is missing or the
   * filters are invalid; an API only for type `cisco_secure_x`. Type
   * `general` checks its keys and then falls through to the invalid-type
   * error, so it is `None` too.
   */
  function GetAuthApi(entry: Yaml): (r: Result<Option<ConfiguredApi>, PyError>)
    ensures r.Ok? && r.value.Some? <==>
              && Index(entry, "type") == Ok(YStr("cisco_secure_x"))
              && Index(entry, "id").Ok? && Index(entry, "id").value != YNull
              && Index(entry, "key").Ok? && Index(entry, "key").value != YNull
              && FiltersOf(entry).Ok? && FiltersOf(entry).value.Some?
    ensures r.Ok? && r.value.Some? ==>
              r.value.value == CiscoSecureX(Index(entry, "id").value, Index(entry, "key").value,
                                            FiltersOf(entry).value.value)
    ensures r.Err? ==> !entry.YMap? || FiltersOf(entry).Err?
    ensures Index(entry, "type") == Ok(YStr("general")) ==> !(r.Ok? && r.value.Some?)
  {
    match GetApiData(entry)
    case Err(e) => Err(e)
    case Ok((apiType, apiId, apiKey)) =>
      if apiType == YNull || apiId == YNull || apiKey == YNull then Ok(None)
      else
        match FiltersOf(entry)
        case Err(e) => Err(e)
        case Ok(None) => Ok(None)
        case Ok(Some(filters)) =>
          if apiType == YStr("cisco_secure_x") then Ok(Some(CiscoSecureX(apiId, apiKey, filters)))
          else if apiType == YStr("general") then
            match GetGeneralTypeAuthApiData(entry)
            case Err(e) => Err(e)
            case Ok(_) => Ok(None)
          else Ok(None)
  }

  /** The APIs `__add_auth_apis` appends, and what it returns. */
  datatype Built = Built(apis: seq<ConfiguredApi>, verdict: Result<bool, PyError>)

  /** What `__get_auth_api` gave for one entry. */
  type Outcome = Result<Option<ConfiguredApi>, PyError>

  /** `__get_auth_api` of each entry, in order. */
  function Outcomes(items: seq<Yaml>): (r: seq<Outcome>)
    ensures |r| == |items|
    ensures forall i :: 0 <= i < |items| ==> r[i] == GetAuthApi(items[i])
  {
    seq(|items|, i requires 0 <= i < |items| => GetAuthApi(items[i]))
  }

  /** The entry was turned into an API. */
  predicate Accepted(outcome: Outcome) {
    outcome.Ok? && outcome.value.Some?
  }

  /** What `__add_auth_apis` returns at an entry that was not accepted. */
  function Verdict(outcome: Outcome): Result<bool, PyError> {
    if outcome.Err? then Err(outcome.error) else Ok(false)
  }

  /** `apis` are the APIs of the first `|apis|` entries, in order. */
  predicate BuiltInOrder(outcomes: seq<Outcome>, apis: seq<ConfiguredApi>) {
    |apis| <= |outcomes| && forall j :: 0 <= j < |apis| ==> outcomes[j] == Ok(Some(apis[j]))
  }

  /**
   * The loop of `__add_auth_apis`, given each entry's outcome: the APIs in
   * order, stopping at the first entry that is not accepted, whose verdict is
   * false (or the exception it raised); true when every entry is accepted.
   */
  function BuildApis(outcomes: seq<Outcome>): (b: Built)
    ensures BuiltInOrder(outcomes, b.apis)
    ensures |b.apis| == |outcomes| ==> b.verdict == Ok(true)
    ensures |b.apis| < |outcomes| ==>
              !Accepted(outcomes[|b.apis|]) && b.verdict == Verdict(outcomes[|b.apis|])
  {
    if outcomes == [] then Built([], Ok(true))
    else if !Accepted(outcomes[0]) then Built([], Verdict(outcomes[0]))
    else
      var rest := BuildApis(outcomes[1..]);
      var b := Built([outcomes[0].value.value] + rest.apis, rest.verdict);
      assert forall j :: 1 <= j < |b.apis| ==> b.apis[j] == rest.apis[j - 1] && outcomes[j] == outcomes[1..][j - 1];
      b
  }

  /** Building stops exactly at the first entry that is not accepted. */
  lemma BuildApisStopsAt(outcomes: seq<Outcome>, built: seq<ConfiguredApi>)
    requires BuiltInOrder(outcomes, built)
    requires |built| < |outcomes| ==> !Accepted(outcomes[|built|])
    ensures BuildApis(outcomes).apis == built
    ensures BuildApis(outcomes).verdict == if |built| == |outcomes| then Ok(true) else Verdict(outcomes[|built|])
  {
  }

  /** What `__add_auth_apis` does with the whole configuration: nothing without `auth_apis`. */
  function AuthApisOf(config: Yaml): (b: Built)
    ensures config.YMap? && Index(config, "auth_apis") == Err(KeyError) ==> b == Built([], Ok(true))
    ensures b.verdict.Ok? ==> config.YMap? || config.YStr? || config.YList?
  {
    match Contains(config, "auth_apis")
    case Err(e) => Built([], Err(e))
    case Ok(false) => Built([], Ok(true))
    case Ok(true) =>
      match Index(config, "auth_apis")
      case Err(e) => Built([], Err(e))
      case Ok(listed) =>
        match Iterate(listed)
        case Err(e) => Built([], Err(e))
        case Ok(items) => BuildApis(Outcomes(items))
  }

  /**
   * With `auth_apis` listed, `__add_auth_apis` builds the APIs of the leading
   * accepted entries in configuration order, and stops at the first entry
   * that is not accepted with its verdict: false, or the exception raised.
   */
  lemma AuthApisOfList(config: Yaml, items: seq<Yaml>)
    requires config.YMap? && Index(config, "auth_apis") == Ok(YList(items))
    ensures var b := AuthApisOf(config);
      && |b.apis| <= |items|
      && (forall j :: 0 <= j < |b.apis| ==> GetAuthApi(items[j]) == Ok(Some(b.apis[j])))
      && (|b.apis| == |items| ==> b.verdict == Ok(true))
      && (|b.apis| < |items| ==>
            !Accepted(GetAuthApi(items[|b.apis|])) && b.verdict == Verdict(GetAuthApi(items[|b.apis|])))
  {
    assert Contains(config, "auth_apis") == Ok(true);
    assert Iterate(YList(items)) == Ok(items);
    assert AuthApisOf(config) == BuildApis(Outcomes(items));
  }

  // ---------------------------------------------------------------------------
  // One poll-and-ship cycle
  // ---------------------------------------------------------------------------

  /** What a cycle asks for: process termination, a cursor advance. */
  datatype Decision = Decision(terminate: bool, advance: bool)

  /** The failures the cycle answers with process termination. */
  predicate IsFatal(f: Failure) {
    f == InvalidUrl || f == InvalidSchema || f == HttpError(401)
  }

  /**
   * The `try`/`except` of `__send_data_to_logzio`, given whether an event was
   * seen and what was raised: `InvalidURL`, `InvalidSchema` and an HTTP 401
   * terminate without touching the cursor; another `HTTPError` is only
   * logged, so the cursor still advances; any other exception keeps it.
   */
  function Decide(seen: bool, raised: Option<Failure>): (d: Decision)
    ensures d.terminate <==> raised.Some? && IsFatal(raised.value)
    ensures d.advance <==> seen && (raised.None? || (raised.value.HttpError? && raised.value.status != 401))
    ensures !(d.terminate && d.advance)
  {
    match raised
    case None => Decision(false, seen)
    case Some(InvalidUrl) => Decision(true, false)
    case Some(InvalidSchema) => Decision(true, false)
    case Some(HttpError(status)) => if status == 401 then Decision(true, false) else Decision(false, seen)
    case Some(_) => Decision(false, false)
  }

  /** The failure the cycle ends with: the fetch's, or else the sink flush's. */
  function CycleFailure(fetched: FetchResult, flush: Option<Failure>): Option<Failure> {
    if fetched.raised.Some? then fetched.raised else flush
  }

  /**
   * The decision a cycle reaches against an upstream script and a flush
   * outcome: the cursor advances exactly when events were yielded, every
   * event date was read, and the flush raised nothing or a non-401 HTTP
   * error; the process terminates exactly on a fatal failure of the fetch,
   * or of the flush after a fetch that raised nothing.
   */
  function CycleDecision(upstream: seq<Response>, flush: Option<Failure>): (d: Decision)
    requires Settles(Reads(upstream), 0)
    ensures var w := Walk(Reads(upstream), 0);
      d.advance <==>
        && w.result.Ok? && w.result.value != [] && AllDated(w.result.value)
        && (flush.None? || (flush.value.HttpError? && flush.value.status != 401))
    ensures var raised := Fetched(upstream).raised;
      d.terminate <==> (raised.Some? && IsFatal(raised.value)) || (raised.None? && flush.Some? && IsFatal(flush.value))
    ensures !(d.terminate && d.advance)
  {
    var fetched := Fetched(upstream);
    Decide(fetched.items != [], CycleFailure(fetched, flush))
  }

  /**
   * A failure of the source API yields no event, so it never advances the
   * cursor; it terminates the process only when the request itself hit an
   * invalid URL or schema. A source HTTP 400 or 401 becomes `ApiError` and
   * only stalls this source.
   */
  lemma {:induction false} SourceFailureKeepsCursor(upstream: seq<Response>, flush: Option<Failure>)
    requires Settles(Reads(upstream), 0)
    requires Walk(Reads(upstream), 0).result.Err?
    ensures !CycleDecision(upstream, flush).advance
    ensures var last := upstream[Walk(Reads(upstream), 0).pages - 1];
      CycleDecision(upstream, flush).terminate <==>
        last.TransportFailed? && (last.error == InvalidUrlError || last.error == InvalidSchemaError)
  {
    var script := Reads(upstream);
    WalkFailsOnLastPage(script, 0, 0);
    var last := upstream[Walk(script, 0).pages - 1];
    assert script[Walk(script, 0).pages - 1] == GetDataFromApi(last);
  }

  // ---------------------------------------------------------------------------
  // The orchestrator object
  // ---------------------------------------------------------------------------

  class ApisManager {
    var apis: seq<ConfiguredApi>
    var shipper: Option<Shipper>
    var timeInterval: Yaml

    constructor()
      ensures apis == [] && shipper == None && timeInterval == YInt(0)
    {
      apis := [];
      shipper := None;
      timeInterval := YInt(0);
    }

    /**
     * `run`, up to starting its workers: one worker per configured API, in
     * order, and none at all (an immediate return) when there is no API.
     */
    method Run() returns (workers: seq<ConfiguredApi>)
      ensures |apis| == 0 ==> workers == []
      ensures workers == apis
    {
      if |apis| == 0 {
        return [];
      }
      workers := [];
      for i := 0 to |apis|
        invariant workers == apis[..i]
      {
        assert apis[..i + 1] == apis[..i] + [apis[i]];
        workers := workers + [apis[i]];
      }
      assert apis[..|apis|] == apis;
    }

    /**
     * `__get_api_filters`: no filters without the key; otherwise the listed
     * filters, walked by `CheckListedFilters`.
     */
    method GetApiFilters(data: Yaml) returns (r: Result<Option<seq<Yaml>>, PyError>)
      ensures r == FiltersOf(data)
    {
      var present := Contains(data, "filters");
      if present.Err? {
        return Err(present.error);
      }
      if !present.value {
        return Ok(Some([]));
      }
      var listed := Index(data, "filters");
      if listed.Err? {
        return Err(listed.error);
      }
      var items := Iterate(listed.value);
      if items.Err? {
        return Err(items.error);
      }
      r := CheckListedFilters(items.value);
    }

    /**
     * The filter loop of `__get_api_filters`: returns `None` at the first
     * filter without `key` or `value` and the filters in order otherwise.
     */
    method CheckListedFilters(filters: seq<Yaml>) returns (r: Result<Option<seq<Yaml>>, PyError>)
      ensures r == CheckFilters(filters, FilterTests(filters))
    {
      ghost var tests := FilterTests(filters);
      var apiFilters: seq<Yaml> := [];
      for i := 0 to |filters|
        invariant |apiFilters| == i && forall j :: 0 <= j < i ==> apiFilters[j] == filters[j]
        invariant forall j :: 0 <= j < i ==> tests[j] == Ok(true)
      {
        var test := HasKeyAndValue(filters[i]);
        assert test == tests[i];
        if test != Ok(true) {
          CheckFiltersStopsAtFirstFailed(filters, tests, i);
          return Rejected(test);
        }
        apiFilters := apiFilters + [filters[i]];
      }
      assert apiFilters == filters;
      r := Ok(Some(apiFilters));
    }

    /**
     * `__add_auth_apis`: appends each entry's API to `apis` in order and
     * returns false at the first entry that is not accepted (keeping what was
     * appended before it); true, adding nothing, without `auth_apis`.
     */
    method AddAuthApis(config: Yaml) returns (r: Result<bool, PyError>)
      modifies this
      ensures apis == old(apis) + AuthApisOf(config).apis
      ensures r == AuthApisOf(config).verdict
      ensures shipper == old(shipper) && timeInterval == old(timeInterval)
    {
      var present := Contains(config, "auth_apis");
      if present.Err? {
        return Err(present.error);
      }
      if present.value {
        var listed := Index(config, "auth_apis");
        if listed.Err? {
          return Err(listed.error);
        }
        var items := Iterate(listed.value);
        if items.Err? {
          return Err(items.error);
        }
        r := AddEntries(items.value);
        return;
      }
      r := Ok(true);
    }

    /** The loop of `__add_auth_apis` over the listed entries. */
    method AddEntries(entries: seq<Yaml>) returns (r: Result<bool, PyError>)
      modifies this
      ensures apis == old(apis) + BuildApis(Outcomes(entries)).apis
      ensures r == BuildApis(Outcomes(entries)).verdict
      ensures shipper == old(shipper) && timeInterval == old(timeInterval)
    {
      ghost var outcomes := Outcomes(entries);
      ghost var built: seq<ConfiguredApi> := [];
      for i := 0 to |entries|
        invariant |built| == i && BuiltInOrder(outcomes, built)
        invariant apis == old(apis) + built
        invariant shipper == old(shipper) && timeInterval == old(timeInterval)
      {
        var api := GetAuthApi(entries[i]);
        assert api == outcomes[i];
        if !Accepted(api) {
          BuildApisStopsAt(outcomes, built);
          return Verdict(api);
        }
        built := built + [api.value.value];
        apis := apis + [api.value.value];
      }
      BuildApisStopsAt(outcomes, built);
      r := Ok(true);
    }

    /**
     * `__read_data_from_config`: false when the sink url or token is missing
     * (before anything else is looked at), false when the interval is 0, the
     * verdict of `__add_auth_apis` otherwise. The shipper and the interval are
     * stored once the sink data is present.
     */
    method ReadDataFromConfig(config: Yaml) returns (r: Result<bool, PyError>)
      modifies this
      ensures GetLogzioData(config).Err? ==> r == Err(TypeError) && unchanged(this)
      ensures GetLogzioData(config).Ok? && (GetLogzioData(config).value.0 == YNull || GetLogzioData(config).value.1 == YNull) ==>
                r == Ok(false) && unchanged(this)
      ensures GetLogzioData(config).Ok? && GetLogzioData(config).value.0 != YNull && GetLogzioData(config).value.1 != YNull ==>
                && shipper == Some(LogzioShipper(GetLogzioData(config).value.0, GetLogzioData(config).value.1))
                && timeInterval == GetTimeInterval(config)
                && (IsZero(timeInterval) ==> r == Ok(false) && apis == old(apis))
                && (!IsZero(timeInterval) ==>
                      && apis == old(apis) + AuthApisOf(config).apis
                      && r == AuthApisOf(config).verdict)
    {
      var logzio := GetLogzioData(config);
      if logzio.Err? {
        return Err(logzio.error);
      }
      var (url, token) := logzio.value;
      if url == YNull || token == YNull {
        return Ok(false);
      }
      shipper := Some(LogzioShipper(url, token));
      timeInterval := GetTimeInterval(config);
      if IsZero(timeInterval) {
        return Ok(false);
      }
      r := AddAuthApis(config);
    }

    /**
     * The inner loop of `__send_data_to_logzio`: hands every fetched item to
     * the sink in order and notes whether there was any.
     */
    method QueueItems(items: seq<string>) returns (queued: seq<string>, isDataExist: bool)
      ensures queued == items
      ensures isDataExist <==> items != []
    {
      isDataExist := false;
      queued := [];
      for i := 0 to |items|
        invariant |queued| == i && forall j :: 0 <= j < i ==> queued[j] == items[j]
        invariant isDataExist <==> i > 0
      {
        isDataExist := true;
        queued := queued + [items[i]];
      }
      assert queued == items;
    }

    /**
     * `__send_data_to_logzio`: queues every item the fetch yields, flushes
     * the sink when the fetch raised nothing, classifies the outcome and
     * advances the API's cursor when the decision says so.
     */
    method SendDataToLogzio(api: AuthApi, upstream: seq<Response>, flush: Option<Failure>, render: int -> string)
      returns (queued: seq<string>, flushed: bool, terminate: bool)
      requires Settles(Reads(upstream), 0)
      modifies api
      ensures queued == Fetched(upstream).items
      ensures flushed <==> Fetched(upstream).raised.None?
      ensures terminate == CycleDecision(upstream, flush).terminate
      ensures CycleDecision(upstream, flush).advance ==>
                && api.currentDataLastDate.Some?
                && IsLatest(Walk(Reads(upstream), 0).result.value, api.currentDataLastDate.value)
                && api.filters == WithStartDate(old(api.filters), api.startDateName,
                                                NewStartDate(render, api.currentDataLastDate.value))
      ensures !CycleDecision(upstream, flush).advance ==> api.filters == old(api.filters)
      ensures Fetched(upstream).raised.Some? || Fetched(upstream).items == [] ==>
                api.currentDataLastDate == old(api.currentDataLastDate)
      ensures Fetched(upstream).raised.None? && Fetched(upstream).items != [] ==>
                && api.currentDataLastDate.Some?
                && IsLatest(Walk(Reads(upstream), 0).result.value, api.currentDataLastDate.value)
    {
      var yielded, raised := api.FetchData(upstream);
      var isDataExist;
      queued, isDataExist := QueueItems(yielded);
      var failure := raised;
      flushed := false;
      if raised.None? {
        flushed := true;
        failure := flush;
      }
      var decision := Decide(isDataExist, failure);
      assert decision == CycleDecision(upstream, flush);
      terminate := decision.terminate;
      if decision.advance {
        api.UpdateStartDateFilter(render);
      }
    }
  }
}
