/**
 * The frontend's API client: the API key it holds and persists in the
 * browser's local storage, the headers it sends, how it turns responses
 * into values or errors, the fallbacks of the calls that must not fail,
 * the Prometheus text reader and the health probe.
 *
 * The network is a parameter: each call takes what `fetch` produced (and,
 * where a body is decoded as JSON, what decoding produced).
 */
module Client {
  import opened Wrappers
  import opened Text
  import opened FrontendTypes

  /** The local-storage entry that keeps the API key. */
  const ApiKeyEntry := "SERVICE_API_KEY"

  /** The browser's `localStorage`: string entries by key. */
  class LocalStorage {
    var entries: map<string, string>

    constructor (entries: map<string, string>)
      ensures this.entries == entries
    {
      this.entries := entries;
    }

    function GetItem(key: string): (r: Option<string>)
      reads this
      ensures r.Some? <==> key in entries
      ensures r.Some? ==> r.value == entries[key]
    {
      if key in entries then Some(entries[key]) else None
    }

    method SetItem(key: string, value: string)
      modifies this
      ensures entries == old(entries)[key := value]
    {
      entries := entries[key := value];
    }

    method RemoveItem(key: string)
      modifies this
      ensures entries == old(entries) - {key}
    {
      entries := entries - {key};
    }
  }

  /** JavaScript truthiness of a `string | null`: present and not empty. */
  predicate Truthy(s: Option<string>) {
    s.Some? && s.value != ""
  }

  class ApiClient {
    var apiKey: Option<string>
    const storage: LocalStorage

    /** A new client starts from whatever key local storage holds. */
    constructor (storage: LocalStorage)
      ensures this.storage == storage
      ensures apiKey == storage.GetItem(ApiKeyEntry)
    {
      this.storage := storage;
      apiKey := storage.GetItem(ApiKeyEntry);
    }

    /** Holds `key` and persists it, so that a later client loads it. */
    method SetApiKey(key: string)
      modifies this, storage
      ensures apiKey == Some(key)
      ensures storage.entries == old(storage.entries)[ApiKeyEntry := key]
      ensures storage.GetItem(ApiKeyEntry) == apiKey
    {
      apiKey := Some(key);
      storage.SetItem(ApiKeyEntry, key);
    }

    function GetApiKey(): Option<string>
      reads this
    {
      apiKey
    }

    /** Forgets the key, here and in local storage. */
    method ClearApiKey()
      modifies this, storage
      ensures apiKey == None
      ensures storage.entries == old(storage.entries) - {ApiKeyEntry}
      ensures storage.GetItem(ApiKeyEntry) == apiKey
    {
      apiKey := None;
      storage.RemoveItem(ApiKeyEntry);
    }
  }

  /**
   * The key's life cycle through `getApiKey`: a key set on one client is
   * what it returns, and what a client created later over the same storage
   * returns; once cleared, neither reports a key.
   */
  method KeyLifeCycle(storage: LocalStorage, key: string)
    returns (held: Option<string>, reloaded: Option<string>, cleared: Option<string>, reloadedAfterClear: Option<string>)
    modifies storage
    ensures held == Some(key) && reloaded == Some(key)
    ensures cleared == None && reloadedAfterClear == None
  {
    var client := new ApiClient(storage);
    client.SetApiKey(key);
    held := client.GetApiKey();
    var later := new ApiClient(storage);
    reloaded := later.GetApiKey();
    later.ClearApiKey();
    cleared := later.GetApiKey();
    var last := new ApiClient(storage);
    reloadedAfterClear := last.GetApiKey();
  }

  // ---------------------------------------------------------------------
  // Requests
  // ---------------------------------------------------------------------

  type Headers = map<string, string>

  /**
   * The headers of a request: JSON content type unless the caller gives
   * one, the caller's headers, and `X-API-Key` set to the held key exactly
   * when that key is truthy, replacing any value the caller gave.
   */
  function RequestHeaders(apiKey: Option<string>, caller: Headers): (h: Headers)
    ensures forall name :: name in h <==> name in caller || name == "Content-Type" || (name == "X-API-Key" && Truthy(apiKey))
    ensures Truthy(apiKey) ==> h["X-API-Key"] == apiKey.value
    ensures forall name :: name in caller && !(name == "X-API-Key" && Truthy(apiKey)) ==> h[name] == caller[name]
    ensures "Content-Type" !in caller ==> h["Content-Type"] == "application/json"
  {
    var base := map["Content-Type" := "application/json"] + caller;
    if Truthy(apiKey) then base["X-API-Key" := apiKey.value] else base
  }

  /** What `fetch` produced: it threw, or a response with its status and body text. */
  datatype Fetched = FetchThrew(message: string) | Response(status: int, text: string) {
    /** `response.ok`. */
    predicate IsOk() {
      Response? && 200 <= status <= 299
    }
  }

  /**
   * The message of the error a failed response throws: the status, which
   * reads back as a number, then the response text.
   */
  function ApiErrorMessage(status: int, text: string): (r: string)
    ensures StartsWith(r, "API Error: ") && EndsWith(r, " - " + text)
    ensures status >= 0 ==> ParseInt(r[|"API Error: "|..]) == Some(status)
  {
    var r := "API Error: " + IntToString(status) + " - " + text;
    assert r[|"API Error: "|..] == IntToString(status) + (" - " + text);
    assert r[|r| - |" - " + text|..] == " - " + text;
    assert status >= 0 ==> ParseInt(r[|"API Error: "|..]) == Some(status) by {
      if status >= 0 {
        assert IntToString(status) + (" - " + text) == "" + NatToString(status) + (" - " + text);
        ParseIntOfNatToString("", status, " - " + text);
      }
    }
    r
  }

  /**
   * `request`: the decoded body of a successful response; otherwise the
   * message of the error it throws (the fetch error, the status error, or
   * the decoding error).
   */
  function Request<T>(f: Fetched, json: Result<T, string>): (r: Result<T, string>)
    ensures r.Ok? <==> f.IsOk() && json.Ok?
    ensures r.Ok? ==> r.value == json.value
    ensures f.FetchThrew? ==> r == Err(f.message)
    ensures f.Response? && !f.IsOk() ==> r == Err(ApiErrorMessage(f.status, f.text))
  {
    match f
    case FetchThrew(m) => Err(m)
    case Response(status, text) =>
      if !f.IsOk() then Err(ApiErrorMessage(status, text))
      else json
  }

  /** `listReviews`: the decoded list, or no reviews whenever the request fails. */
  function ListReviews(f: Fetched, json: Result<seq<ReviewRequest>, string>): (r: seq<ReviewRequest>)
    ensures Request(f, json).Ok? ==> r == json.value
    ensures Request(f, json).Err? ==> r == []
  {
    match Request(f, json)
    case Ok(reviews) => reviews
    case Err(_) => []
  }

  const DefaultConfig := PipelineConfig("parallel", "openai", "gpt-4", false, true, 1048576, true)

  /** `getConfig`: the decoded configuration, or the built-in default whenever the request fails. */
  function GetConfig(f: Fetched, json: Result<PipelineConfig, string>): (r: PipelineConfig)
    ensures Request(f, json).Ok? ==> r == json.value
    ensures Request(f, json).Err? ==> r == DefaultConfig
  {
    match Request(f, json)
    case Ok(config) => config
    case Err(_) => DefaultConfig
  }

  /** A failed request never reaches the caller as an error: both fallbacks are total. */
  lemma FallbacksAbsorbFailures(f: Fetched, reviews: Result<seq<ReviewRequest>, string>, config: Result<PipelineConfig, string>)
    requires !f.IsOk()
    ensures ListReviews(f, reviews) == [] && GetConfig(f, config) == DefaultConfig
  {
  }

  // ---------------------------------------------------------------------
  // Metrics
  // ---------------------------------------------------------------------

  const ZeroMetrics := MetricsData(Zero, Zero, Zero, Zero, Zero, StatusCounts(Zero, Zero, Zero, Zero))

  const RequestsMetric := "llm_requests_total"

  predicate IsNumberChar(c: char) {
    IsDigit(c) || c == '.'
  }

  /** Length of the whitespace run (`\s*`) at the start of `s`. */
  function SpaceRun(s: string): (k: nat)
    ensures k <= |s|
    ensures forall i :: 0 <= i < k ==> IsSpace(JavaScript, s[i])
    ensures k < |s| ==> !IsSpace(JavaScript, s[k])
    decreases |s|
  {
    if s != [] && IsSpace(JavaScript, s[0]) then SpaceRun(s[1..]) + 1 else 0
  }

  /** Length of the `[\d.]*` run at the start of `s`. */
  function NumberRun(s: string): (k: nat)
    ensures k <= |s|
    ensures forall i :: 0 <= i < k ==> IsNumberChar(s[i])
    ensures k < |s| ==> !IsNumberChar(s[k])
    decreases |s|
  {
    if s != [] && IsNumberChar(s[0]) then NumberRun(s[1..]) + 1 else 0
  }

  /**
   * The capture of `/llm_requests_total\s+([\d.]+)/` tried at position
   * `i` of `line`. Whitespace and number characters are disjoint, so the
   * greedy `\s+` never gives characters back and the capture is the whole
   * run of number characters after the whitespace.
   */
  function MatchAt(line: string, i: nat): Option<string>
    requires i <= |line|
  {
    var rest := line[i..];
    if !StartsWith(rest, RequestsMetric) then None
    else
      var after := rest[|RequestsMetric|..];
      var sp := SpaceRun(after);
      var num := NumberRun(after[sp..]);
      if sp == 0 || num == 0 then None else Some(after[sp..][..num])
  }

  /** The leftmost match at position `i` or later. */
  function MatchFrom(line: string, i: nat): Option<string>
    requires i <= |line|
    decreases |line| - i
  {
    if MatchAt(line, i).Some? then MatchAt(line, i)
    else if i == |line| then None
    else MatchFrom(line, i + 1)
  }

  /** The reading a line contributes: only lines starting with the metric name are searched. */
  function LineReading(line: string): Option<string> {
    if StartsWith(line, RequestsMetric) then MatchFrom(line, 0) else None
  }

  /** The reading of each line. */
  function Readings(lines: seq<string>): (rs: seq<Option<string>>)
  {
    seq(|lines|, i requires 0 <= i < |lines| => LineReading(lines[i]))
  }

  /** The last present value. */
  function LastSome<T>(rs: seq<Option<T>>): Option<T>
    decreases |rs|
  {
    if rs == [] then None
    else if rs[|rs| - 1].Some? then rs[|rs| - 1]
    else LastSome(rs[..|rs| - 1])
  }

  /** The reading of the last line that has one. */
  function LastReading(lines: seq<string>): Option<string> {
    LastSome(Readings(lines))
  }

  function AsNumber(reading: Option<string>): Number {
    if reading.Some? then Parsed(reading.value) else Zero
  }

  /**
   * `parsePrometheusMetrics`: every field stays 0 except the request
   * total, which is read from each matching line in turn.
   */
  method ParsePrometheusMetrics(text: string) returns (metrics: MetricsData)
    ensures metrics.(llmRequestsTotal := Zero) == ZeroMetrics
    ensures metrics.llmRequestsTotal == AsNumber(LastReading(Split(text, '\n')))
  {
    var lines := Split(text, '\n');
    metrics := ZeroMetrics;
    for i := 0 to |lines|
      invariant metrics.(llmRequestsTotal := Zero) == ZeroMetrics
      invariant metrics.llmRequestsTotal == AsNumber(LastReading(lines[..i]))
    {
      var line := lines[i];
      assert Readings(lines[..i + 1])[..i] == Readings(lines[..i]);
      if StartsWith(line, RequestsMetric) {
        var reading := MatchFrom(line, 0);
        if reading.Some? {
          metrics := metrics.(llmRequestsTotal := Parsed(reading.value));
        }
      }
    }
    assert lines[..|lines|] == lines;
  }

  /**
   * There is a value exactly when some entry has one, and then it is the
   * value of an entry after which every entry is empty.
   */
  lemma {:induction false} LastSomeWins<T>(rs: seq<Option<T>>)
    ensures LastSome(rs).Some? <==> exists k :: 0 <= k < |rs| && rs[k].Some?
    ensures LastSome(rs).Some? ==>
      exists k :: 0 <= k < |rs| && rs[k] == LastSome(rs) && forall l :: k < l < |rs| ==> rs[l].None?
    decreases |rs|
  {
    if rs != [] {
      var n := |rs| - 1;
      var init := rs[..n];
      LastSomeWins(init);
      if rs[n].None? {
        if LastSome(rs).Some? {
          var k :| 0 <= k < |init| && init[k] == LastSome(init) && forall l :: k < l < |init| ==> init[l].None?;
          assert rs[k] == LastSome(rs);
        }
        if exists k :: 0 <= k < |rs| && rs[k].Some? {
          var k :| 0 <= k < |rs| && rs[k].Some?;
          assert init[k].Some?;
        }
      }
    }
  }

  /**
   * There is a reading exactly when some line has one, and then it is the
   * reading of a line after which no line has one: the last match wins.
   */
  lemma LastReadingWins(lines: seq<string>)
    ensures LastReading(lines).Some? <==> exists k :: 0 <= k < |lines| && LineReading(lines[k]).Some?
    ensures LastReading(lines).Some? ==>
      exists k :: 0 <= k < |lines| && LineReading(lines[k]) == LastReading(lines)
        && forall l :: k < l < |lines| ==> LineReading(lines[l]).None?
  {
    var rs := Readings(lines);
    assert |rs| == |lines| && forall i :: 0 <= i < |lines| ==> rs[i] == LineReading(lines[i]);
    LastSomeWins(rs);
    if LastReading(lines).Some? {
      var k :| 0 <= k < |rs| && rs[k] == LastSome(rs) && forall l :: k < l < |rs| ==> rs[l].None?;
      assert LineReading(lines[k]) == LastReading(lines);
    }
  }

  /** A well-formed sample line `llm_requests_total <spaces><number>` reads as its number. */
  lemma SampleLineReading(spaces: string, number: string, rest: string)
    requires spaces != [] && IsBlank(JavaScript, spaces)
    requires number != [] && forall i :: 0 <= i < |number| ==> IsNumberChar(number[i])
    requires rest == [] || !IsNumberChar(rest[0])
    ensures LineReading(RequestsMetric + spaces + number + rest) == Some(number)
  {
    var line := RequestsMetric + spaces + number + rest;
    SampleLineMatch(spaces, number, rest);
    assert line[..|RequestsMetric|] == RequestsMetric;
  }

  lemma SampleLineMatch(spaces: string, number: string, rest: string)
    requires spaces != [] && IsBlank(JavaScript, spaces)
    requires number != [] && forall i :: 0 <= i < |number| ==> IsNumberChar(number[i])
    requires rest == [] || !IsNumberChar(rest[0])
    ensures MatchAt(RequestsMetric + spaces + number + rest, 0) == Some(number)
  {
    var line := RequestsMetric + spaces + number + rest;
    var after := line[|RequestsMetric|..];
    assert line[0..] == line;
    assert line[..|RequestsMetric|] == RequestsMetric;
    assert after == spaces + (number + rest);
    assert !IsSpace(JavaScript, number[0]);
    SpaceRunOf(spaces, number + rest);
    assert after[|spaces|..] == number + rest;
    NumberRunOf(number, rest);
    assert (number + rest)[..|number|] == number;
  }

  lemma {:induction false} SpaceRunOf(spaces: string, rest: string)
    requires IsBlank(JavaScript, spaces)
    requires rest == [] || !IsSpace(JavaScript, rest[0])
    ensures SpaceRun(spaces + rest) == |spaces|
    decreases |spaces|
  {
    if spaces != [] {
      assert (spaces + rest)[1..] == spaces[1..] + rest;
      SpaceRunOf(spaces[1..], rest);
    } else {
      assert spaces + rest == rest;
    }
  }

  lemma {:induction false} NumberRunOf(number: string, rest: string)
    requires forall i :: 0 <= i < |number| ==> IsNumberChar(number[i])
    requires rest == [] || !IsNumberChar(rest[0])
    ensures NumberRun(number + rest) == |number|
    decreases |number|
  {
    if number != [] {
      assert (number + rest)[1..] == number[1..] + rest;
      NumberRunOf(number[1..], rest);
    } else {
      assert number + rest == rest;
    }
  }

  /**
   * `getMetrics`: `body` is the response text, or `None` when fetching or
   * reading it threw. The text is read whatever the status code.
   */
  method GetMetrics(body: Option<string>) returns (metrics: MetricsData)
    ensures body.None? ==> metrics == ZeroMetrics
    ensures body.Some? ==> metrics.(llmRequestsTotal := Zero) == ZeroMetrics
    ensures body.Some? ==> metrics.llmRequestsTotal == AsNumber(LastReading(Split(body.value, '\n')))
  {
    if body.None? {
      return ZeroMetrics;
    }
    metrics := ParsePrometheusMetrics(body.value);
  }

  // ---------------------------------------------------------------------
  // Health
  // ---------------------------------------------------------------------

  datatype Health = Healthy | Unhealthy | Unreachable {
    function Status(): string {
      match this
      case Healthy => "healthy"
      case Unhealthy => "unhealthy"
      case Unreachable => "unreachable"
    }
  }

  /** `healthCheck`: the three outcomes are the three ways the probe can end. */
  function HealthCheck(f: Fetched): (h: Health)
    ensures h == Unreachable <==> f.FetchThrew?
    ensures h == Healthy <==> f.IsOk()
    ensures h == Unhealthy <==> f.Response? && !f.IsOk()
  {
    if f.FetchThrew? then Unreachable
    else if f.IsOk() then Healthy
    else Unhealthy
  }
}
