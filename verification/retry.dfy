/**
 * The retry executor of skport/checkin.go (`doWithRetry`) and the signed
 * requests it is handed. An attempt that meets a transport error or a 5xx
 * status is retried after an exponentially growing pause, at most three
 * times; any other status settles the call with the body read. The request
 * factory is invoked once per attempt, so every attempt carries a fresh
 * timestamp and signature.
 */
module Retry {
  import opened Wrappers
  import opened Text
  import opened Http
  import opened Sign
  import opened Types

  const MaxRetries := 3
  const BaseDelayMs := 1000

  function Pow2(k: nat): (p: nat)
    ensures p >= 1
  {
    if k == 0 then 1 else 2 * Pow2(k - 1)
  }

  /** An attempt is retried on a transport error or a server error (status 500 and up). */
  predicate Retryable(a: Attempt)
  {
    a.NetErr? || a.status >= 500
  }

  /** The error a retried attempt leaves behind as `lastErr`. */
  function AttemptError(a: Attempt): string
    requires Retryable(a)
  {
    if a.NetErr? then "request failed: " + a.cause
    else "server error HTTP " + IntToString(a.status) + ": " + a.body
  }

  /** The attempts made from attempt `k` on, if attempt `k` is reached. */
  function AttemptsFrom(reply: nat -> Attempt, k: nat): (n: nat)
    requires k <= MaxRetries
    ensures k + 1 <= n <= MaxRetries + 1
    ensures forall j :: k <= j < n - 1 ==> Retryable(reply(j))
    ensures n <= MaxRetries ==> !Retryable(reply(n - 1))
    decreases MaxRetries - k
  {
    if k == MaxRetries || !Retryable(reply(k)) then k + 1 else AttemptsFrom(reply, k + 1)
  }

  /**
   * How many attempts `doWithRetry` makes: up to and including the first that
   * is not retried, and never more than the first try plus three retries.
   */
  function AttemptCount(reply: nat -> Attempt): nat
  {
    AttemptsFrom(reply, 0)
  }

  lemma AttemptCountFacts(reply: nat -> Attempt)
    ensures var n := AttemptCount(reply);
      && 1 <= n <= MaxRetries + 1
      && (forall j :: 0 <= j < n - 1 ==> Retryable(reply(j)))
      && (n <= MaxRetries ==> !Retryable(reply(n - 1)))
  {
  }

  /** The attempt count is the only one with those properties. */
  lemma AttemptCountUnique(reply: nat -> Attempt, n: nat)
    requires 1 <= n <= MaxRetries + 1
    requires forall j :: 0 <= j < n - 1 ==> Retryable(reply(j))
    requires n <= MaxRetries ==> !Retryable(reply(n - 1))
    ensures AttemptCount(reply) == n
  {
  }

  /**
   * The outcome of `doWithRetry`: the body of the first attempt that is not
   * retried, or, when all four attempts are retried, the last attempt's error.
   */
  function RetryOutcome(reply: nat -> Attempt): Result<string, string>
  {
    var last := reply(AttemptCount(reply) - 1);
    if Retryable(last) then Failure(AttemptError(last)) else Success(last.body)
  }

  /**
   * The call succeeds exactly when one of the four attempts is not retried,
   * with the body of the first such attempt (4xx included); otherwise all
   * four attempts were retried and the error is the last attempt's.
   */
  lemma RetryOutcomeFacts(reply: nat -> Attempt)
    ensures var r := RetryOutcome(reply);
      && (r.Success? <==> exists k :: 0 <= k <= MaxRetries && !Retryable(reply(k)))
      && (r.Success? ==> r.value == reply(AttemptCount(reply) - 1).body)
      && (r.Failure? ==>
            && AttemptCount(reply) == MaxRetries + 1
            && (forall k :: 0 <= k <= MaxRetries ==> Retryable(reply(k)))
            && r.error == AttemptError(reply(MaxRetries)))
  {
  }

  /** The pause before retry `k + 1`: one second, doubled for each earlier retry. */
  function Backoff(k: nat): nat
  {
    BaseDelayMs * Pow2(k)
  }

  /** The pauses grow geometrically: 1s, 2s, 4s. */
  lemma BackoffDoubles(k: nat)
    ensures Backoff(0) == 1000 && Backoff(k + 1) == 2 * Backoff(k)
  {
  }

  /**
   * `doWithRetry`: calls the factory for each attempt (`sent`), pauses
   * before each retry (`delays`, in milliseconds), and stops at the first
   * attempt that is not retried.
   */
  method DoWithRetry<R>(makeReq: nat -> R, reply: nat -> Attempt)
    returns (res: Result<string, string>, ghost sent: seq<R>, ghost delays: seq<nat>)
    ensures res == RetryOutcome(reply)
    ensures |sent| == AttemptCount(reply)
    ensures forall k :: 0 <= k < |sent| ==> sent[k] == makeReq(k)
    ensures |delays| == |sent| - 1 && forall k :: 0 <= k < |delays| ==> delays[k] == Backoff(k)
  {
    var lastErr := "";
    sent, delays := [], [];
    for attempt := 0 to MaxRetries + 1
      invariant |sent| == attempt && |delays| == if attempt == 0 then 0 else attempt - 1
      invariant forall k :: 0 <= k < attempt ==> sent[k] == makeReq(k) && Retryable(reply(k))
      invariant forall k :: 0 <= k < |delays| ==> delays[k] == Backoff(k)
      invariant attempt > 0 ==> lastErr == AttemptError(reply(attempt - 1))
    {
      if attempt > 0 {
        var delay := BaseDelayMs * Pow2(attempt - 1);
        delays := delays + [delay];
      }
      var req := makeReq(attempt);
      sent := sent + [req];
      var resp := reply(attempt);
      if resp.NetErr? {
        lastErr := "request failed: " + resp.cause;
        continue;
      }
      var body := resp.body;
      if resp.status >= 500 {
        lastErr := "server error HTTP " + IntToString(resp.status) + ": " + body;
        continue;
      }
      AttemptCountUnique(reply, attempt + 1);
      return Success(body), sent, delays;
    }
    AttemptCountUnique(reply, MaxRetries + 1);
    res := Failure(lastErr);
  }

  /**
   * The request one factory call builds: the standard headers for the current
   * timestamp, plus `Sign`.
   */
  function SignedRequest(verb: string, url: string, path: string, cred: string, gameRole: string,
                         salt: string, suite: HashSuite, unixSeconds: int): Request
  {
    var ts := Timestamp(unixSeconds);
    Request(verb, url, StandardHeaders(cred, gameRole, ts)["Sign" := ComputeSignV2(suite, path, ts, salt)])
  }

  /**
   * The signature a signed request carries is computed over the request path
   * and the very timestamp the request carries, with the session salt.
   */
  lemma SignedRequestSignature(verb: string, url: string, path: string, cred: string, gameRole: string,
                               salt: string, suite: HashSuite, unixSeconds: int)
    ensures var r := SignedRequest(verb, url, path, cred, gameRole, salt, suite, unixSeconds);
      && r.headers["Timestamp"] == Timestamp(unixSeconds)
      && r.headers["Sign"] == ComputeSignV2(suite, path, r.headers["Timestamp"], salt)
  {
    var ts := Timestamp(unixSeconds);
    var h := StandardHeaders(cred, gameRole, ts);
    SignIsExtra();
    StandardHeaderValues(cred, gameRole, ts);
    assert h["Timestamp"] == ts;
  }

  /** A signed request carries exactly the standard headers and `Sign`. */
  lemma SignedRequestKeys(verb: string, url: string, path: string, cred: string, gameRole: string,
                          salt: string, suite: HashSuite, unixSeconds: int)
    ensures var r := SignedRequest(verb, url, path, cred, gameRole, salt, suite, unixSeconds);
      && r.verb == verb && r.url == url
      && r.headers.Keys == StandardHeaders(cred, gameRole, Timestamp(unixSeconds)).Keys + {"Sign"}
  {
    var ts := Timestamp(unixSeconds);
    KeysAfterSet(StandardHeaders(cred, gameRole, ts), "Sign", ComputeSignV2(suite, path, ts, salt));
  }

  /**
   * A signed request carries the credential under `Cred`, and the role
   * header exactly when a role is given.
   */
  lemma SignedRequestIdentity(verb: string, url: string, path: string, cred: string, gameRole: string,
                              salt: string, suite: HashSuite, unixSeconds: int)
    ensures var r := SignedRequest(verb, url, path, cred, gameRole, salt, suite, unixSeconds);
      && r.headers["Cred"] == cred
      && (RoleHeader in r.headers <==> gameRole != "")
      && (RoleHeader in r.headers ==> r.headers[RoleHeader] == gameRole)
  {
    var ts := Timestamp(unixSeconds);
    var h := StandardHeaders(cred, gameRole, ts);
    var sig := ComputeSignV2(suite, path, ts, salt);
    SignIsExtra();
    StandardHeaderKeys(cred, gameRole, ts);
    StandardHeaderValues(cred, gameRole, ts);
    assert "Cred" in h && h["Cred"] == cred;
    OtherHeaderKept(h, "Sign", sig, "Cred");
    OtherHeaderKept(h, "Sign", sig, RoleHeader);
  }

  /**
   * A request signed with the session `c`: it carries the credential, the
   * role header exactly for a non-empty role, and a signature computed with
   * the session's salt over the path and the request's own timestamp.
   */
  ghost predicate SignedWith(r: Request, suite: HashSuite, c: Credentials, path: string, gameRole: string)
  {
    && "Cred" in r.headers && r.headers["Cred"] == c.cred
    && (RoleHeader in r.headers <==> gameRole != "")
    && (RoleHeader in r.headers ==> r.headers[RoleHeader] == gameRole)
    && "Timestamp" in r.headers && "Sign" in r.headers
    && r.headers["Sign"] == ComputeSignV2(suite, path, r.headers["Timestamp"], c.salt)
  }

  lemma SignedRequestWith(verb: string, url: string, path: string, c: Credentials, gameRole: string,
                          suite: HashSuite, unixSeconds: int)
    ensures SignedWith(SignedRequest(verb, url, path, c.cred, gameRole, c.salt, suite, unixSeconds), suite, c, path, gameRole)
  {
    var ts := Timestamp(unixSeconds);
    SignedRequestKeys(verb, url, path, c.cred, gameRole, c.salt, suite, unixSeconds);
    StandardHeaderKeys(c.cred, gameRole, ts);
    SignIsExtra();
    SignedRequestSignature(verb, url, path, c.cred, gameRole, c.salt, suite, unixSeconds);
    SignedRequestIdentity(verb, url, path, c.cred, gameRole, c.salt, suite, unixSeconds);
  }

  /** The requests of one retried signed call: one per attempt, each signed at that attempt's clock reading. */
  function SignedAttempts(verb: string, url: string, path: string, cred: string, gameRole: string, salt: string,
                          suite: HashSuite, clock: nat -> int, n: nat): seq<Request>
  {
    seq(n, k requires 0 <= k => SignedRequest(verb, url, path, cred, gameRole, salt, suite, clock(k)))
  }

  /** A sequence holding, at each attempt, the request signed at that attempt is the signed-attempts sequence. */
  lemma SignedAttemptsExt(sent: seq<Request>, verb: string, url: string, path: string, cred: string, gameRole: string,
                          salt: string, suite: HashSuite, clock: nat -> int, n: nat)
    requires |sent| == n
    requires forall k :: 0 <= k < n ==> sent[k] == SignedRequest(verb, url, path, cred, gameRole, salt, suite, clock(k))
    ensures sent == SignedAttempts(verb, url, path, cred, gameRole, salt, suite, clock, n)
  {
  }

  /** Every attempt of a retried call made with session `c` is signed with it. */
  lemma SignedAttemptsWith(verb: string, url: string, path: string, c: Credentials, gameRole: string,
                           suite: HashSuite, clock: nat -> int, n: nat)
    ensures var sent := SignedAttempts(verb, url, path, c.cred, gameRole, c.salt, suite, clock, n);
      forall k :: 0 <= k < n ==> SignedWith(sent[k], suite, c, path, gameRole)
  {
    var sent := SignedAttempts(verb, url, path, c.cred, gameRole, c.salt, suite, clock, n);
    forall k | 0 <= k < n
      ensures SignedWith(sent[k], suite, c, path, gameRole)
    {
      SignedRequestWith(verb, url, path, c, gameRole, suite, clock(k));
    }
  }

  lemma OtherHeaderKept(h: map<string, string>, k: string, v: string, j: string)
    requires j != k
    ensures (j in h[k := v] <==> j in h) && (j in h ==> h[k := v][j] == h[j])
  {
  }

  lemma KeysAfterSet(h: map<string, string>, k: string, v: string)
    ensures h[k := v].Keys == h.Keys + {k}
  {
  }

  /** `Sign` is none of the standard headers, so setting it overwrites nothing. */
  lemma SignIsExtra()
    ensures "Sign" !in FixedHeaderNames && "Sign" != RoleHeader
    ensures "Timestamp" in FixedHeaderNames && "Cred" in FixedHeaderNames
    ensures "Sign" != "Timestamp" && "Sign" != "Cred"
  {
  }
}
