/**
 * The application's shared HTTP client: an axios instance with a request interceptor and a
 * response interceptor. The request interceptor adds the stored token as an `Authorization`
 * header, builds a key from the method, url, serialised params and serialised body, and
 * either hands a caller the shared promise of an identical request already in flight or
 * registers a new shared promise under the key. The response interceptor resolves the
 * shared promise on success, removes the key whenever a request settles, and retries
 * transient failures (timeouts, no response) up to three times, waiting 1000 ms times the
 * attempt number before each retry.
 *
 * The network, the token storage and the wait are inputs: the token is a parameter, the
 * outcome of each attempt is given, and the wait is returned as a delay.
 */
module RequestClient {
  import opened JsValues

  /** `axiosClient.defaults.retry`: the number of retries after the first attempt. */
  const MaxRetries: nat := 3

  /** `axiosClient.defaults.retryDelay`: the back-off unit in milliseconds. */
  const RetryDelayMs: nat := 1000

  /** The identity of a promise created by the request interceptor. */
  type PromiseId = nat

  /** A request config as the interceptors see it. */
  datatype Config = Config(
    verb: string,                 // config.method
    url: string,
    params: string,               // JSON.stringify(config.params), kept opaque
    data: string,                 // JSON.stringify(config.data), kept opaque
    headers: map<string, string>,
    requestKey: Option<string>,   // config.__requestKey
    resolver: Option<PromiseId>,  // config.__resolve, which resolves the promise with this identity
    retry: Option<nat>)           // config._retry

  /** A successful response, with the config it answers. */
  datatype Response = Response(config: Config, body: string)

  /** A response the server sent with an error status. */
  datatype HttpResponse = HttpResponse(status: int, body: string)

  /** An axios error: its code, the response if one was received, and its config. */
  datatype NetError = NetError(code: Option<string>, response: Option<HttpResponse>, config: Option<Config>)

  /** What reaches the response interceptor's error handler. */
  datatype Rejection =
    | CancelledDuplicate(promise: PromiseId)  // `{ __CANCEL__: true, promise }` from the request interceptor
    | Failure(error: NetError)

  /** What the request interceptor does with a config. */
  datatype RequestStep =
    | Dispatch(config: Config)     // the config goes on to the network
    | Cancelled(promise: PromiseId) // rejected as a duplicate, carrying the shared promise

  /** What the response interceptor's error handler does. */
  datatype FailureStep =
    | JoinShared(promise: PromiseId)          // returns the shared promise of the request in flight
    | Reject(error: NetError)                // rejects with the error
    | RetryAfter(config: Config, delayMs: nat) // waits, then re-issues the config
    | TypeErrorThrown                        // reads `_retry` of an error that has no config

  /** The request key: `${method}:${url}:${params}:${data}`, the four parts in order with a colon between each two. */
  function RequestKey(verb: string, url: string, params: string, data: string): (key: string)
    ensures |key| == |verb| + |url| + |params| + |data| + 3
    ensures verb + [':'] <= key
    ensures key[|verb| + 1..][..|url| + 1] == url + [':']
    ensures key[|verb| + |url| + 2..] == params + [':'] + data
  {
    var key := verb + ":" + url + ":" + params + ":" + data;
    assert key == verb + ":" + (url + ":" + (params + ":" + data));
    key
  }

  function KeyOf(c: Config): string {
    RequestKey(c.verb, c.url, c.params, c.data)
  }

  /** The config after the token header step: `Token <token>` is set exactly when a non-empty token is stored. */
  function WithAuth(config: Config, token: Option<string>): (c: Config)
    ensures c == config.(headers := c.headers)
    ensures Truthy(token) ==> "Authorization" in c.headers && c.headers["Authorization"] == "Token " + token.value
    ensures !Truthy(token) ==> c.headers == config.headers
    ensures forall h :: h != "Authorization" ==>
      (h in c.headers <==> h in config.headers) && (h in c.headers ==> c.headers[h] == config.headers[h])
  {
    if Truthy(token) then config.(headers := config.headers["Authorization" := "Token " + token.value])
    else config
  }

  /** In `p + ":" + s` with a colon-free `p`, the first colon is the one at index `|p|`. */
  lemma ColonOnlyAfter(p: string, s: string, i: nat)
    requires ':' !in p && i < |p|
    ensures (p + ":" + s)[i] != ':' && (p + ":" + s)[|p|] == ':'
  {
    assert (p + ":" + s)[i] == p[i];
  }

  lemma {:induction false} ColonFreePrefix(a: string, b: string, x: string, y: string)
    requires ':' !in a && ':' !in b
    requires a + ":" + x == b + ":" + y
    ensures a == b && x == y
  {
    var l, r := a + ":" + x, b + ":" + y;
    if |a| < |b| {
      ColonOnlyAfter(b, y, |a|);
      assert false;
    } else if |b| < |a| {
      ColonOnlyAfter(a, x, |b|);
      assert false;
    }
    assert a == l[..|a|] == r[..|b|] == b;
    assert x == l[|a| + 1..] == r[|b| + 1..] == y;
  }

  /**
   * Equal components give equal keys (the key is a function of them), and when neither the
   * method nor the url contains a colon, equal keys mean equal method, equal url and equal
   * `params:data` text. The serialised params and body are not separable in general.
   */
  lemma KeyDeterminesMethodAndUrl(m1: string, u1: string, p1: string, d1: string,
                                  m2: string, u2: string, p2: string, d2: string)
    requires ':' !in m1 && ':' !in m2 && ':' !in u1 && ':' !in u2
    requires RequestKey(m1, u1, p1, d1) == RequestKey(m2, u2, p2, d2)
    ensures m1 == m2 && u1 == u2 && p1 + ":" + d1 == p2 + ":" + d2
  {
    assert RequestKey(m1, u1, p1, d1) == m1 + ":" + (u1 + ":" + (p1 + ":" + d1));
    assert RequestKey(m2, u2, p2, d2) == m2 + ":" + (u2 + ":" + (p2 + ":" + d2));
    ColonFreePrefix(m1, m2, u1 + ":" + (p1 + ":" + d1), u2 + ":" + (p2 + ":" + d2));
    ColonFreePrefix(u1, u2, p1 + ":" + d1, p2 + ":" + d2);
  }

  /**
   * `axiosClient.defaults.shouldRetry`: a timeout code, or no response received at all; an
   * error that carries a response (a 4xx or 5xx status) is retried only for a timeout code.
   */
  function ShouldRetry(e: NetError): (r: bool)
    ensures e.response.None? ==> r
    ensures e.code == Some("ECONNABORTED") || e.code == Some("ETIMEDOUT") ==> r
    ensures e.response.Some? && e.code != Some("ECONNABORTED") && e.code != Some("ETIMEDOUT") ==> !r
  {
    e.code == Some("ECONNABORTED") || e.code == Some("ETIMEDOUT") || e.response.None?
  }

  /** `_retry || 0`. */
  function RetryCount(r: Option<nat>): nat {
    if r.Some? then r.value else 0
  }

  /** The response interceptor's decision for a failed request (after the key has been removed). */
  function DecideFailure(e: NetError): (step: FailureStep)
    ensures !ShouldRetry(e) ==> step == Reject(e)
    ensures step.RetryAfter? <==> ShouldRetry(e) && e.config.Some? && RetryCount(e.config.value.retry) < MaxRetries
    ensures step.RetryAfter? ==>
      var n := RetryCount(e.config.value.retry) + 1;
      && 1 <= n <= MaxRetries
      && step.config == e.config.value.(retry := Some(n))
      && step.delayMs == RetryDelayMs * n
    ensures step.TypeErrorThrown? <==> ShouldRetry(e) && e.config.None?
    ensures step.Reject? ==> step.error == e
    ensures !step.JoinShared?
  {
    if !ShouldRetry(e) then Reject(e)
    else if e.config.None? then TypeErrorThrown
    else
      var c := e.config.value;
      if c.retry.Some? && c.retry.value >= MaxRetries then Reject(e)
      else
        var n := RetryCount(c.retry) + 1;
        RetryAfter(c.(retry := Some(n)), RetryDelayMs * n)
  }

  /** Resolving a promise: the first value sticks, resolving a settled promise again does nothing. */
  function Resolve(settled: map<PromiseId, Response>, resolver: Option<PromiseId>, value: Response): map<PromiseId, Response> {
    if resolver.Some? && resolver.value !in settled then settled[resolver.value := value] else settled
  }

  /** The key an error's config was registered under, if any. */
  function RegisteredKey(e: NetError): set<string> {
    if e.config.Some? && e.config.value.requestKey.Some? then {e.config.value.requestKey.value} else {}
  }

  /** The outcome of one attempt on the network. */
  datatype NetOutcome = Delivered(body: string) | Errored(code: Option<string>, response: Option<HttpResponse>)

  predicate Transient(o: NetOutcome) {
    o.Errored? && ShouldRetry(NetError(o.code, o.response, None))
  }

  /** How a logical request ends. */
  datatype SendResult =
    | Resolved(response: Response)
    | Joined(promise: PromiseId)
    | RejectedWith(error: NetError)

  /** What one attempt leads to: the request has settled, or it is re-issued after a wait. */
  datatype AttemptStep = Finished(result: SendResult) | Again(config: Config, delayMs: nat)

  /** The module-level state of the interceptors. */
  class Client {
    /** `pendingRequests`: request key to the shared promise of the request in flight. */
    var pending: map<string, PromiseId>
    /** The shared promises that have been resolved, with their value. */
    var settled: map<PromiseId, Response>
    /** The identity the next shared promise receives. */
    var nextPromise: PromiseId

    /** Every identity in use was handed out, and no two keys share a promise. */
    ghost predicate Valid()
      reads this
    {
      && (forall k :: k in pending ==> pending[k] < nextPromise)
      && (forall p :: p in settled ==> p < nextPromise)
      && (forall k1, k2 :: k1 in pending && k2 in pending && k1 != k2 ==> pending[k1] != pending[k2])
    }

    /** A config this client produced: its resolver names a promise already created. */
    predicate Issued(c: Config)
      reads this
    {
      c.resolver.Some? ==> c.resolver.value < nextPromise
    }

    constructor ()
      ensures Valid()
      ensures pending == map[] && settled == map[]
    {
      pending := map[];
      settled := map[];
      nextPromise := 0;
    }

    /**
     * The request interceptor. A key already pending leaves the registry as it is and hands
     * the caller the existing shared promise; otherwise exactly one entry, holding a fresh
     * unresolved promise, is added for the key.
     */
    method OnRequest(config: Config, token: Option<string>) returns (step: RequestStep)
      requires Valid()
      modifies this
      ensures Valid() && settled == old(settled)
      ensures var key := KeyOf(config);
        if key in old(pending) then
          && step == Cancelled(old(pending)[key])
          && pending == old(pending)
          && nextPromise == old(nextPromise)
        else
          && step == Dispatch(WithAuth(config, token).(requestKey := Some(key), resolver := Some(old(nextPromise))))
          && pending == old(pending)[key := old(nextPromise)]
          && nextPromise == old(nextPromise) + 1
          && old(nextPromise) !in settled
    {
      var c := WithAuth(config, token);
      var key := KeyOf(c);
      if key in pending {
        return Cancelled(pending[key]);
      }
      var p := nextPromise;
      nextPromise := nextPromise + 1;
      c := c.(resolver := Some(p));
      pending := pending[key := p];
      c := c.(requestKey := Some(key));
      return Dispatch(c);
    }

    /** The response interceptor's success handler: resolve the shared promise with the response, then remove the key. */
    method OnSuccess(response: Response) returns (r: Response)
      requires Valid() && Issued(response.config)
      modifies this
      ensures Valid() && r == response && nextPromise == old(nextPromise)
      ensures response.config.requestKey.None? ==> pending == old(pending) && settled == old(settled)
      ensures response.config.requestKey.Some? ==>
        && pending == old(pending) - {response.config.requestKey.value}
        && settled == Resolve(old(settled), response.config.resolver, response)
    {
      if response.config.requestKey.Some? {
        settled := Resolve(settled, response.config.resolver, response);
        pending := pending - {response.config.requestKey.value};
      }
      return response;
    }

    /**
     * The response interceptor's error handler: a cancelled duplicate gets the shared promise;
     * any other failure removes its key, retry or not, leaves every promise as it was, and
     * is then retried or rejected as `DecideFailure` says.
     */
    method OnFailure(rejection: Rejection) returns (step: FailureStep)
      requires Valid()
      modifies this
      ensures Valid() && settled == old(settled) && nextPromise == old(nextPromise)
      ensures rejection.CancelledDuplicate? ==> step == JoinShared(rejection.promise) && pending == old(pending)
      ensures rejection.Failure? ==>
        step == DecideFailure(rejection.error) && pending == old(pending) - RegisteredKey(rejection.error)
    {
      if rejection.CancelledDuplicate? {
        return JoinShared(rejection.promise);
      }
      var e := rejection.error;
      if e.config.Some? && e.config.value.requestKey.Some? {
        pending := pending - {e.config.value.requestKey.value};
      }
      return DecideFailure(e);
    }

    /**
     * One attempt: the config passes the request interceptor, meets `outcome` on the network
     * and passes the response interceptor. The registry is as before afterwards; a pending
     * key joins the shared promise; a delivery resolves the attempt's own fresh promise; a
     * retryable failure under the limit asks for a retry with the counter one higher; any
     * other failure rejects with the network's error.
     */
    method Attempt(cfg: Config, token: Option<string>, outcome: NetOutcome) returns (step: AttemptStep)
      requires Valid()
      modifies this
      ensures Valid() && pending == old(pending)
      ensures forall p :: p in old(settled) ==> p in settled && settled[p] == old(settled)[p]
      ensures KeyOf(cfg) in old(pending) ==> step == Finished(Joined(old(pending)[KeyOf(cfg)]))
      ensures KeyOf(cfg) !in old(pending) && outcome.Delivered? ==>
        && step.Finished? && step.result.Resolved?
        && var p := step.result.response.config.resolver;
        && p.Some? && p.value in settled && settled[p.value] == step.result.response
      ensures KeyOf(cfg) !in old(pending) && outcome.Errored? ==>
        var n := RetryCount(cfg.retry) + 1;
        if Transient(outcome) && n <= MaxRetries then
          && step.Again?
          && step.config.retry == Some(n) && KeyOf(step.config) == KeyOf(cfg)
          && step.delayMs == RetryDelayMs * n
        else
          && step.Finished? && step.result.RejectedWith?
          && step.result.error.code == outcome.code && step.result.error.response == outcome.response
    {
      var request := OnRequest(cfg, token);
      if request.Cancelled? {
        return Finished(Joined(request.promise));
      }
      var sent := request.config;
      if outcome.Delivered? {
        var r := OnSuccess(Response(sent, outcome.body));
        return Finished(Resolved(r));
      }
      var error := NetError(outcome.code, outcome.response, Some(sent));
      var next := OnFailure(Failure(error));
      if next.RetryAfter? {
        return Again(next.config, next.delayMs);
      }
      return Finished(RejectedWith(error));
    }

    /**
     * One logical request driven through the interceptors until it settles; `network(i)` is
     * the outcome of attempt `i`. The registry ends as it began, the request is issued at
     * most four times, the wait before retry n is 1000 * n ms counted from the config's
     * initial counter, a fresh request that always fails transiently is issued exactly four
     * times, and a failure that carries an ordinary error response is not retried.
     */
    method Send(config: Config, token: Option<string>, network: nat -> NetOutcome)
      returns (result: SendResult, attempts: nat, delays: seq<nat>)
      requires Valid()
      modifies this
      ensures Valid() && pending == old(pending)
      ensures forall p :: p in old(settled) ==> p in settled && settled[p] == old(settled)[p]
      ensures |delays| <= MaxRetries && attempts <= MaxRetries + 1
      ensures attempts == if result.Joined? then |delays| else |delays| + 1
      ensures forall i :: 0 <= i < |delays| ==> delays[i] == RetryDelayMs * (RetryCount(config.retry) + i + 1)
      ensures result.Resolved? ==>
        var p := result.response.config.resolver;
        p.Some? && p.value in settled && settled[p.value] == result.response
      ensures result.RejectedWith? ==>
        network(attempts - 1).Errored? &&
        result.error.code == network(attempts - 1).code && result.error.response == network(attempts - 1).response
      ensures KeyOf(config) !in old(pending) ==> !result.Joined?
      ensures KeyOf(config) !in old(pending) && config.retry.None? &&
              (forall i :: 0 <= i <= MaxRetries ==> Transient(network(i))) ==>
        result.RejectedWith? && attempts == MaxRetries + 1 && delays == [1000, 2000, 3000]
      ensures KeyOf(config) !in old(pending) && network(0).Errored? && !Transient(network(0)) ==>
        result.RejectedWith? && attempts == 1 && delays == []
    {
      var cfg := config;
      attempts, delays := 0, [];
      while true
        invariant Valid() && pending == old(pending)
        invariant forall p :: p in old(settled) ==> p in settled && settled[p] == old(settled)[p]
        invariant KeyOf(cfg) == KeyOf(config)
        invariant attempts == |delays| <= MaxRetries
        invariant RetryCount(cfg.retry) == RetryCount(config.retry) + |delays|
        invariant |delays| > 0 ==> cfg.retry.Some?
        invariant forall i :: 0 <= i < |delays| ==> delays[i] == RetryDelayMs * (RetryCount(config.retry) + i + 1)
        invariant |delays| > 0 ==> Transient(network(0)) && KeyOf(config) !in old(pending)
        decreases MaxRetries - |delays|
      {
        var step := Attempt(cfg, token, network(attempts));
        if step.Finished? {
          result := step.result;
          if !result.Joined? {
            attempts := attempts + 1;
          }
          return;
        }
        attempts := attempts + 1;
        delays := delays + [step.delayMs];
        cfg := step.config;
      }
    }
  }

  /** Two identical requests while the first is in flight: one registry entry, and the second caller gets the first one's promise. */
  method DuplicateIsHandedSharedPromise(config: Config, token: Option<string>)
    returns (first: RequestStep, second: RequestStep, entries: nat)
    ensures first.Dispatch? && first.config.resolver.Some?
    ensures second == Cancelled(first.config.resolver.value)
    ensures entries == 1
  {
    var client := new Client();
    first := client.OnRequest(config, token);
    second := client.OnRequest(config, token);
    assert client.pending.Keys == {KeyOf(config)};
    entries := |client.pending|;
  }

  /**
   * The shared promise is resolved only on the success path of the attempt that created it:
   * when that attempt times out and its retry succeeds, the retry resolves a promise of its
   * own and the caller that was handed the first promise is never answered.
   */
  method FollowerOfFailedAttemptStaysPending(config: Config, token: Option<string>, body: string)
    returns (shared: PromiseId, retried: PromiseId, sharedSettled: bool, retriedSettled: bool)
    requires config.retry.None?
    ensures !sharedSettled && retriedSettled && shared != retried
  {
    var client := new Client();
    var first := client.OnRequest(config, token);
    var second := client.OnRequest(config, token);
    shared := second.promise;
    var failed := client.OnFailure(Failure(NetError(Some("ECONNABORTED"), None, Some(first.config))));
    assert failed.RetryAfter?;
    var again := client.OnRequest(failed.config, token);
    retried := again.config.resolver.value;
    var r := client.OnSuccess(Response(again.config, body));
    sharedSettled := shared in client.settled;
    retriedSettled := retried in client.settled;
  }

  /** How a shared promise settles in the corrected client. */
  datatype Settlement = Fulfilled(response: Response) | Rejected(error: NetError)

  /**
   * The de-duplicating client as intended. A retry is the same logical request: it keeps the
   * key registered and keeps the promise, and the promise settles once, fulfilled or
   * rejected, with the outcome of the last attempt; only then is the key removed. The token
   * header, the key, the retry decision and the back-off are those of `Client`.
   */
  class SharedClient {
    /** Request key to the shared promise of the logical request in flight. */
    var pending: map<string, PromiseId>
    /** The shared promises that have settled, with their settlement. */
    var outcomes: map<PromiseId, Settlement>
    var nextPromise: PromiseId

    /** Identities were handed out, a pending promise has not settled, and no two keys share a promise. */
    ghost predicate Valid()
      reads this
    {
      && (forall k :: k in pending ==> pending[k] < nextPromise && pending[k] !in outcomes)
      && (forall p :: p in outcomes ==> p < nextPromise)
      && (forall k1, k2 :: k1 in pending && k2 in pending && k1 != k2 ==> pending[k1] != pending[k2])
    }

    constructor ()
      ensures Valid()
      ensures pending == map[] && outcomes == map[]
    {
      pending := map[];
      outcomes := map[];
      nextPromise := 0;
    }

    /** The request interceptor: a pending key hands out its promise; otherwise a fresh unsettled promise is registered. */
    method OnRequest(config: Config, token: Option<string>) returns (step: RequestStep)
      requires Valid()
      modifies this
      ensures Valid() && outcomes == old(outcomes)
      ensures var key := KeyOf(config);
        if key in old(pending) then
          && step == Cancelled(old(pending)[key])
          && pending == old(pending) && nextPromise == old(nextPromise)
        else
          && step == Dispatch(WithAuth(config, token).(requestKey := Some(key), resolver := Some(old(nextPromise))))
          && pending == old(pending)[key := old(nextPromise)]
          && nextPromise == old(nextPromise) + 1
    {
      var c := WithAuth(config, token);
      var key := KeyOf(c);
      if key in pending {
        return Cancelled(pending[key]);
      }
      var p := nextPromise;
      nextPromise := nextPromise + 1;
      pending := pending[key := p];
      return Dispatch(c.(requestKey := Some(key), resolver := Some(p)));
    }

    /**
     * A dispatched request driven to its end, attempt `i` meeting `network(i)`. A transient
     * failure under the limit waits and is re-issued under the same key and promise; the
     * last attempt's outcome settles the promise and then the key is removed.
     */
    method Run(config: Config, network: nat -> NetOutcome) returns (s: Settlement, attempts: nat, delays: seq<nat>)
      requires Valid()
      requires config.requestKey.Some? && config.resolver.Some?
      requires config.requestKey.value in pending && pending[config.requestKey.value] == config.resolver.value
      modifies this
      ensures Valid() && nextPromise == old(nextPromise)
      ensures pending == old(pending) - {config.requestKey.value}
      ensures outcomes == old(outcomes)[config.resolver.value := s]
      ensures 1 <= attempts <= MaxRetries + 1 && |delays| == attempts - 1
      ensures forall i :: 0 <= i < |delays| ==> delays[i] == RetryDelayMs * (RetryCount(config.retry) + i + 1)
      ensures forall i :: 0 <= i < attempts - 1 ==> Transient(network(i))
      ensures s.Fulfilled? ==> network(attempts - 1).Delivered? && s.response.body == network(attempts - 1).body
      ensures s.Rejected? ==>
        network(attempts - 1).Errored? &&
        s.error.code == network(attempts - 1).code && s.error.response == network(attempts - 1).response
    {
      var key, p := config.requestKey.value, config.resolver.value;
      var cfg := config;
      attempts, delays := 0, [];
      while true
        invariant Valid() && pending == old(pending) && outcomes == old(outcomes) && nextPromise == old(nextPromise)
        invariant cfg.requestKey == config.requestKey && cfg.resolver == config.resolver
        invariant attempts == |delays| <= MaxRetries
        invariant RetryCount(cfg.retry) == RetryCount(config.retry) + |delays|
        invariant forall i :: 0 <= i < |delays| ==> delays[i] == RetryDelayMs * (RetryCount(config.retry) + i + 1)
        invariant forall i :: 0 <= i < attempts ==> Transient(network(i))
        decreases MaxRetries - |delays|
      {
        var outcome := network(attempts);
        attempts := attempts + 1;
        if outcome.Delivered? {
          s := Fulfilled(Response(cfg, outcome.body));
          break;
        }
        var error := NetError(outcome.code, outcome.response, Some(cfg));
        var step := DecideFailure(error);
        if !step.RetryAfter? {
          s := Rejected(error);
          break;
        }
        delays := delays + [step.delayMs];
        cfg := step.config;
      }
      outcomes := outcomes[p := s];
      pending := pending - {key};
    }
  }

  /**
   * With the corrected client, a caller handed the shared promise while the first attempt
   * is in flight receives the final outcome of the logical request, the same as the caller
   * that issued it, however many retries it took and whether it ends fulfilled or rejected.
   */
  method FollowerReceivesFinalOutcome(config: Config, token: Option<string>, network: nat -> NetOutcome)
    returns (leader: Settlement, follower: Option<Settlement>, attempts: nat)
    ensures follower == Some(leader)
    ensures 1 <= attempts <= MaxRetries + 1
    ensures leader.Fulfilled? <==> network(attempts - 1).Delivered?
  {
    var client := new SharedClient();
    var first := client.OnRequest(config, token);
    var second := client.OnRequest(config, token);
    var delays;
    leader, attempts, delays := client.Run(first.config, network);
    follower := if second.promise in client.outcomes then Some(client.outcomes[second.promise]) else None;
  }
}
