/**
 * The request guards of the backend API: the service API-key check, the
 * diff-size bound, and the fixed-window rate limiter over a key-value
 * counter store with Redis's INCR, EXPIRE and TTL semantics.
 */
module Dependencies {
  import opened Wrappers
  import opened Text

  /** An `HTTPException`: status code and detail text. */
  datatype HttpError = HttpError(status: int, detail: string)

  // ---------------------------------------------------------------------
  // API key
  // ---------------------------------------------------------------------

  /** `not settings.service_api_key`: missing or empty. */
  predicate Unconfigured(serviceKey: Option<string>) {
    serviceKey.None? || serviceKey.value == ""
  }

  /**
   * `require_service_api_key`: 503 when the service key is not configured
   * (whatever the header), 401 when the header differs from it, otherwise
   * the header unchanged.
   */
  function RequireServiceApiKey(serviceKey: Option<string>, header: string): (r: Result<string, HttpError>)
    ensures Unconfigured(serviceKey) ==> r == Err(HttpError(503, "Service API key not configured"))
    ensures !Unconfigured(serviceKey) && header != serviceKey.value ==> r == Err(HttpError(401, "Invalid API key"))
    ensures r.Ok? <==> !Unconfigured(serviceKey) && header == serviceKey.value
    ensures r.Ok? ==> r.value == header
  {
    if Unconfigured(serviceKey) then Err(HttpError(503, "Service API key not configured"))
    else if header != serviceKey.value then Err(HttpError(401, "Invalid API key"))
    else Ok(header)
  }

  // ---------------------------------------------------------------------
  // Diff size
  // ---------------------------------------------------------------------

  /**
   * `validate_diff_size`: a missing diff passes; a diff passes exactly when
   * its length is at most the bound (so a diff of exactly the bound passes),
   * otherwise 413 naming the bound.
   */
  function ValidateDiffSize(diff: Option<string>, maxDiffChars: int): (r: Result<(), HttpError>)
    ensures diff.None? ==> r.Ok?
    ensures diff.Some? ==> (r.Ok? <==> |diff.value| <= maxDiffChars)
    ensures r.Err? ==> r.error == HttpError(413, "Diff exceeds maximum allowed size of " + IntToString(maxDiffChars) + " characters")
  {
    if diff.None? then Ok(())
    else if |diff.value| > maxDiffChars then
      Err(HttpError(413, "Diff exceeds maximum allowed size of " + IntToString(maxDiffChars) + " characters"))
    else Ok(())
  }

  // ---------------------------------------------------------------------
  // Counter store
  // ---------------------------------------------------------------------

  /**
   * The store's contents: integer counters, the expiry (in seconds) of the
   * keys that have one, and the outcomes of the coming operations (`true`
   * for an operation that raises a store error; an exhausted script means
   * every operation succeeds).
   */
  datatype StoreState = StoreState(counts: map<string, int>, expiries: map<string, int>, faults: seq<bool>)

  /** Whether the next operation raises. */
  predicate NextFails(st: StoreState) {
    st.faults != [] && st.faults[0]
  }

  /** The fault script after one operation. */
  function Consumed(st: StoreState): seq<bool> {
    if st.faults == [] then [] else st.faults[1..]
  }

  /** A counter's value, 0 for a missing key. */
  function CountOf(st: StoreState, key: string): int {
    if key in st.counts then st.counts[key] else 0
  }

  datatype StoreError = StoreError

  /** INCR: a missing key counts from 0; an existing expiry is kept. */
  function IncrOn(st: StoreState, key: string): (Result<int, StoreError>, StoreState) {
    if NextFails(st) then (Err(StoreError), st.(faults := Consumed(st)))
    else
      var n := CountOf(st, key) + 1;
      (Ok(n), StoreState(st.counts[key := n], st.expiries, Consumed(st)))
  }

  /** EXPIRE: sets the expiry of an existing key; a non-positive one deletes the key. */
  function ExpireOn(st: StoreState, key: string, seconds: int): (Result<bool, StoreError>, StoreState) {
    if NextFails(st) then (Err(StoreError), st.(faults := Consumed(st)))
    else if key !in st.counts then (Ok(false), st.(faults := Consumed(st)))
    else if seconds <= 0 then (Ok(true), StoreState(st.counts - {key}, st.expiries - {key}, Consumed(st)))
    else (Ok(true), StoreState(st.counts, st.expiries[key := seconds], Consumed(st)))
  }

  /** TTL: -2 for a missing key, -1 for a key without expiry, else the seconds left. */
  function TtlOn(st: StoreState, key: string): (Result<int, StoreError>, StoreState) {
    var rest := st.(faults := Consumed(st));
    if NextFails(st) then (Err(StoreError), rest)
    else if key !in st.counts then (Ok(-2), rest)
    else if key !in st.expiries then (Ok(-1), rest)
    else (Ok(st.expiries[key]), rest)
  }

  /** A counter store the rate limiter talks to (a Redis client). */
  class CounterStore {
    var counts: map<string, int>
    var expiries: map<string, int>
    var faults: seq<bool>

    ghost function State(): StoreState
      reads this
    {
      StoreState(counts, expiries, faults)
    }

    constructor (faults: seq<bool>)
      ensures State() == StoreState(map[], map[], faults)
    {
      counts := map[];
      expiries := map[];
      this.faults := faults;
    }

    method Incr(key: string) returns (r: Result<int, StoreError>)
      modifies this
      ensures (r, State()) == IncrOn(old(State()), key)
    {
      var failing := faults != [] && faults[0];
      faults := if faults == [] then [] else faults[1..];
      if failing {
        return Err(StoreError);
      }
      var n := (if key in counts then counts[key] else 0) + 1;
      counts := counts[key := n];
      r := Ok(n);
    }

    method Expire(key: string, seconds: int) returns (r: Result<bool, StoreError>)
      modifies this
      ensures (r, State()) == ExpireOn(old(State()), key, seconds)
    {
      var failing := faults != [] && faults[0];
      faults := if faults == [] then [] else faults[1..];
      if failing {
        return Err(StoreError);
      }
      if key !in counts {
        return Ok(false);
      }
      if seconds <= 0 {
        counts := counts - {key};
        expiries := expiries - {key};
      } else {
        expiries := expiries[key := seconds];
      }
      r := Ok(true);
    }

    method Ttl(key: string) returns (r: Result<int, StoreError>)
      modifies this
      ensures (r, State()) == TtlOn(old(State()), key)
    {
      var failing := faults != [] && faults[0];
      faults := if faults == [] then [] else faults[1..];
      if failing {
        r := Err(StoreError);
      } else if key !in counts {
        r := Ok(-2);
      } else if key !in expiries {
        r := Ok(-1);
      } else {
        r := Ok(expiries[key]);
      }
    }
  }

  // ---------------------------------------------------------------------
  // Rate limit
  // ---------------------------------------------------------------------

  /** `request.client.host if request.client else "unknown"`. */
  function ClientHost(client: Option<string>): string {
    if client.Some? then client.value else "unknown"
  }

  /** `f"rl:{api_key}:{client_host}"`. */
  function RateKey(apiKey: string, client: Option<string>): (key: string)
    ensures StartsWith(key, "rl:" + apiKey + ":")
  {
    "rl:" + apiKey + ":" + ClientHost(client)
  }

  /** For one API key, distinct clients get distinct counters. */
  lemma RateKeySeparatesClients(apiKey: string, a: Option<string>, b: Option<string>)
    requires ClientHost(a) != ClientHost(b)
    ensures RateKey(apiKey, a) != RateKey(apiKey, b)
  {
    var p := "rl:" + apiKey + ":";
    assert RateKey(apiKey, a)[|p|..] == ClientHost(a);
    assert RateKey(apiKey, b)[|p|..] == ClientHost(b);
  }

  /** `ttl if ttl and ttl > 0 else window`. */
  function RetryAfter(ttl: int, window: int): (r: int)
    ensures ttl > 0 ==> r == ttl
    ensures ttl <= 0 ==> r == window
  {
    if ttl != 0 && ttl > 0 then ttl else window
  }

  function TooManyRequests(retryAfter: int): HttpError {
    HttpError(429, "Rate limit exceeded. Try again in " + IntToString(retryAfter) + " seconds.")
  }

  /** `enforce_rate_limit` as a value: its outcome and the store afterwards. */
  function Enforce(st: StoreState, apiKey: string, client: Option<string>, window: int, maxRequests: int)
    : (Result<(), HttpError>, StoreState)
  {
    var key := RateKey(apiKey, client);
    var (incr, st1) := IncrOn(st, key);
    if incr.Err? then (Ok(()), st1)
    else Counted(st1, key, incr.value, window, maxRequests)
  }

  /** What follows a successful INCR to `current`: start the window on the first request, reject past the maximum. */
  function Counted(st1: StoreState, key: string, current: int, window: int, maxRequests: int)
    : (Result<(), HttpError>, StoreState)
  {
    var (exp, st2) := if current == 1 then ExpireOn(st1, key, window) else (Ok(true), st1);
    if exp.Err? then (Ok(()), st2)
    else if current <= maxRequests then (Ok(()), st2)
    else
      var (ttl, st3) := TtlOn(st2, key);
      if ttl.Err? then (Ok(()), st3)
      else (Err(TooManyRequests(RetryAfter(ttl.value, window))), st3)
  }

  /**
   * `enforce_rate_limit`: count the request under its key, start the window
   * on the first one, and reject once the count is past the maximum; a
   * store error lets the request through.
   */
  method EnforceRateLimit(store: CounterStore, apiKey: string, client: Option<string>, window: int, maxRequests: int)
    returns (r: Result<(), HttpError>)
    modifies store
    ensures (r, store.State()) == Enforce(old(store.State()), apiKey, client, window, maxRequests)
  {
    var key := RateKey(apiKey, client);
    var current := store.Incr(key);
    if current.Err? {
      return Ok(());
    }
    r := AfterCount(store, key, current.value, window, maxRequests);
  }

  /** The rest of `enforce_rate_limit` once the request is counted. */
  method AfterCount(store: CounterStore, key: string, current: int, window: int, maxRequests: int)
    returns (r: Result<(), HttpError>)
    modifies store
    ensures (r, store.State()) == Counted(old(store.State()), key, current, window, maxRequests)
  {
    if current == 1 {
      var expired := store.Expire(key, window);
      if expired.Err? {
        return Ok(());
      }
    }
    if current > maxRequests {
      var ttl := store.Ttl(key);
      if ttl.Err? {
        return Ok(());
      }
      return Err(TooManyRequests(RetryAfter(ttl.value, window)));
    }
    r := Ok(());
  }

  // ---------------------------------------------------------------------
  // What the rate limiter promises
  // ---------------------------------------------------------------------

  /**
   * With a healthy store, the request's counter grows by one; the expiry is
   * set (to the window) exactly when that count is 1; the request is
   * rejected with 429 exactly when the count exceeds the maximum, and then
   * `retry_after` is the key's remaining time if positive, else the window.
   */
  lemma HealthyStoreDecision(st: StoreState, apiKey: string, client: Option<string>, window: int, maxRequests: int)
    requires forall k :: 0 <= k < |st.faults| ==> !st.faults[k]
    requires window > 0
    ensures var key := RateKey(apiKey, client);
      var count := CountOf(st, key) + 1;
      var (r, st') := Enforce(st, apiKey, client, window, maxRequests);
      && st'.counts == st.counts[key := count]
      && st'.expiries == (if count == 1 then st.expiries[key := window] else st.expiries)
      && (r.Err? <==> count > maxRequests)
      && (r.Err? ==> r.error == TooManyRequests(RetryAfter(if key in st'.expiries then st'.expiries[key] else -1, window)))
  {
    var key := RateKey(apiKey, client);
    var st1 := IncrOn(st, key).1;
    assert forall k :: 0 <= k < |st1.faults| ==> !st1.faults[k] by {
      assert forall k :: 0 <= k < |st1.faults| ==> st1.faults[k] == st.faults[k + 1];
    }
    HealthyCounted(st1, key, CountOf(st, key) + 1, st.counts, st.expiries, window, maxRequests);
  }

  /** `HealthyStoreDecision` once the request is counted. */
  lemma HealthyCounted(st1: StoreState, key: string, count: int, counts: map<string, int>, expiries: map<string, int>,
                       window: int, maxRequests: int)
    requires forall k :: 0 <= k < |st1.faults| ==> !st1.faults[k]
    requires window > 0
    requires st1.counts == counts[key := count] && st1.expiries == expiries
    ensures var (r, st') := Counted(st1, key, count, window, maxRequests);
      && st'.counts == st1.counts
      && st'.expiries == (if count == 1 then expiries[key := window] else expiries)
      && (r.Err? <==> count > maxRequests)
      && (r.Err? ==> r.error == TooManyRequests(RetryAfter(if key in st'.expiries then st'.expiries[key] else -1, window)))
  {
  }

  /** The counter's first request fixes the window: the expiry is then set and never touched again by a later request. */
  lemma ExpiryOnlyOnFirst(st: StoreState, apiKey: string, client: Option<string>, window: int, maxRequests: int)
    requires CountOf(st, RateKey(apiKey, client)) != 0
    ensures Enforce(st, apiKey, client, window, maxRequests).1.expiries == st.expiries
  {
  }

  /** When the store fails on the first call, the request passes and nothing is counted. */
  lemma StoreErrorAllows(st: StoreState, apiKey: string, client: Option<string>, window: int, maxRequests: int)
    requires NextFails(st)
    ensures var (r, st') := Enforce(st, apiKey, client, window, maxRequests);
      r.Ok? && st'.counts == st.counts && st'.expiries == st.expiries
  {
  }

  /** Whether the store call numbered `k` (from 0) of a request succeeds under the fault script. */
  predicate CallSucceeds(st: StoreState, k: nat) {
    !(k < |st.faults| && st.faults[k])
  }

  /**
   * Any store error along the way lets the request through: a rejection
   * needs the INCR, the EXPIRE of a first request and the TTL read all to
   * succeed, and a count past the maximum.
   */
  lemma RejectionNeedsHealthyStore(st: StoreState, apiKey: string, client: Option<string>, window: int, maxRequests: int)
    requires Enforce(st, apiKey, client, window, maxRequests).0.Err?
    ensures !NextFails(st) && CallSucceeds(st, 0)
    ensures CountOf(st, RateKey(apiKey, client)) == 0 ==> CallSucceeds(st, 1) && CallSucceeds(st, 2)
    ensures CountOf(st, RateKey(apiKey, client)) != 0 ==> CallSucceeds(st, 1)
    ensures CountOf(st, RateKey(apiKey, client)) + 1 > maxRequests
  {
    var key := RateKey(apiKey, client);
    var st1 := IncrOn(st, key).1;
    assert st1.faults == Consumed(st);
    if CountOf(st, key) == 0 {
      var st2 := ExpireOn(st1, key, window).1;
      assert st2.faults == Consumed(st1);
      assert !NextFails(st1) && !NextFails(st2);
    } else {
      assert !NextFails(st1);
    }
  }

  /** The outcomes of `n` successive requests from the same client. */
  function Requests(st: StoreState, apiKey: string, client: Option<string>, window: int, maxRequests: int, n: nat)
    : seq<Result<(), HttpError>>
    decreases n
  {
    if n == 0 then []
    else
      var (r, st') := Enforce(st, apiKey, client, window, maxRequests);
      [r] + Requests(st', apiKey, client, window, maxRequests, n - 1)
  }

  /**
   * Within one window (no expiry passing), a fresh client's first
   * `maxRequests` requests are admitted and every later one is rejected
   * with 429 and a `retry_after` of the full window.
   */
  lemma FixedWindow(st: StoreState, apiKey: string, client: Option<string>, window: int, maxRequests: int, n: nat)
    requires st.faults == [] && window > 0
    requires RateKey(apiKey, client) !in st.counts
    ensures var rs := Requests(st, apiKey, client, window, maxRequests, n);
      && |rs| == n
      && forall i :: 0 <= i < n ==>
           (rs[i].Ok? <==> i < maxRequests) && (rs[i].Err? ==> rs[i].error == TooManyRequests(window))
  {
    var key := RateKey(apiKey, client);
    if n > 0 {
      var st1 := Enforce(st, apiKey, client, window, maxRequests).1;
      assert st1 == StoreState(st.counts[key := 1], st.expiries[key := window], []);
      WindowContinues(st1, apiKey, client, window, maxRequests, n - 1, 1);
    }
  }

  /** The tail of `FixedWindow`: after `c` counted requests with the expiry set to the window. */
  lemma {:induction false} WindowContinues(st: StoreState, apiKey: string, client: Option<string>, window: int,
                                           maxRequests: int, n: nat, c: nat)
    requires st.faults == [] && window > 0 && c >= 1
    requires var key := RateKey(apiKey, client);
      key in st.counts && st.counts[key] == c && key in st.expiries && st.expiries[key] == window
    ensures var rs := Requests(st, apiKey, client, window, maxRequests, n);
      && |rs| == n
      && forall i :: 0 <= i < n ==>
           (rs[i].Ok? <==> c + i < maxRequests) && (rs[i].Err? ==> rs[i].error == TooManyRequests(window))
    decreases n
  {
    var key := RateKey(apiKey, client);
    if n > 0 {
      var (r, st1) := Enforce(st, apiKey, client, window, maxRequests);
      assert st1 == StoreState(st.counts[key := c + 1], st.expiries, []);
      WindowContinues(st1, apiKey, client, window, maxRequests, n - 1, c + 1);
      var rs := Requests(st, apiKey, client, window, maxRequests, n);
      assert rs == [r] + Requests(st1, apiKey, client, window, maxRequests, n - 1);
    }
  }
}
