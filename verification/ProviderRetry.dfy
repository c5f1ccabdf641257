/** How often, and for how long, a failing provider call is retried before an
    operator has to look. */
module ProviderRetry {
  import opened Wrappers

  const PROVIDER_RETRY_MAX_ATTEMPTS := 5
  const PROVIDER_RETRY_MAX_CUMULATIVE_MS := 5 * 60 * 1000
  const PROVIDER_RETRY_BASE_BACKOFF_MS := 1_000
  const PROVIDER_RETRY_MAX_EXPONENTIAL_MS := 32 * 1000

  /** A draw of the jitter. */
  type Draw = r: real | 0.0 <= r < 1.0 witness 0.0

  datatype ExhaustedReason = MaxAttempts | MaxCumulativeMs

  datatype RetryDecision =
    | AutoRetry(attempt: nat, delayMs: nat, resumeAt: nat, retryAfterMs: Option<nat>)
    | Manual
    | Exhausted(attempt: nat, reason: ExhaustedReason)

  /** The statuses that retry by themselves; no status is a network failure. */
  predicate IsAutoRetryableStatus(status: Option<nat>) {
    status == None || status.value in {408, 429, 529} || 500 <= status.value <= 504
  }

  /** One failed call: its status, and the delay the provider asked for. */
  datatype Failure = Failure(httpStatus: Option<nat>, retryAfterMs: Option<nat>, draw: Draw, now: nat)

  function ExponentialMs(attempt: nat): nat
    requires attempt >= 1
  {
    var e := PROVIDER_RETRY_BASE_BACKOFF_MS * Pow2(attempt - 1);
    if e < PROVIDER_RETRY_MAX_EXPONENTIAL_MS then e else PROVIDER_RETRY_MAX_EXPONENTIAL_MS
  }

  /** At least half the exponential and less than all of it; a provider's own
      delay is honoured exactly. */
  function ComputeBackoffMs(retryAfterMs: Option<nat>, attempt: nat, draw: Draw): (delay: nat)
    requires attempt >= 1
    ensures retryAfterMs.Some? ==> delay == retryAfterMs.value
    ensures retryAfterMs == None ==> ExponentialMs(attempt) <= 2 * delay + 1 && delay < ExponentialMs(attempt)
  {
    if retryAfterMs.Some? then retryAfterMs.value
    else
      JitterBounds(ExponentialMs(attempt), draw);
      Jittered(ExponentialMs(attempt), draw)
  }

  function Jittered(exponentialMs: nat, draw: Draw): int {
    var half := exponentialMs as real / 2.0;
    (half + draw * half).Floor
  }

  lemma JitterBounds(exponentialMs: nat, draw: Draw)
    requires exponentialMs > 0
    ensures exponentialMs <= 2 * Jittered(exponentialMs, draw) + 1 && 0 <= Jittered(exponentialMs, draw) < exponentialMs
  {
    var half := exponentialMs as real / 2.0;
    Shrinks(draw, half);
    Floors(exponentialMs, draw * half);
  }

  lemma Shrinks(draw: Draw, r: real)
    requires r > 0.0
    ensures 0.0 <= draw * r < r
  {
    var d: real := draw;
    assert d * r >= 0.0;
    assert (1.0 - d) * r > 0.0;
    assert (1.0 - d) * r == r - d * r;
  }

  lemma Floors(e: nat, jitter: real)
    requires 0.0 <= jitter < e as real / 2.0
    ensures var x := (e as real / 2.0 + jitter).Floor; e <= 2 * x + 1 && 0 <= x < e
  {
    var r := e as real / 2.0 + jitter;
    assert r.Floor as real <= r < r.Floor as real + 1.0;
    assert (2 * r.Floor + 2) as real > e as real;
    assert r.Floor as real < e as real;
  }

  function DecideProviderRetry(f: Failure, priorAttempt: nat, cumulativeMs: nat, retryAfterMaxMs: nat): RetryDecision {
    if !IsAutoRetryableStatus(f.httpStatus) then Manual
    else if f.retryAfterMs.Some? && f.retryAfterMs.value > retryAfterMaxMs then Manual
    else
      var attempt := priorAttempt + 1;
      if attempt > PROVIDER_RETRY_MAX_ATTEMPTS then Exhausted(attempt, MaxAttempts)
      else
        var delay := ComputeBackoffMs(f.retryAfterMs, attempt, f.draw);
        if cumulativeMs + delay > PROVIDER_RETRY_MAX_CUMULATIVE_MS && f.retryAfterMs == None
        then Exhausted(attempt, MaxCumulativeMs)
        else AutoRetry(attempt, delay, f.now + delay, f.retryAfterMs)
  }

  /** Which failures need an operator, whatever came before: one with a status that
      says more than overload, a time-out or a fault of the server, and one
      whose provider asks for more patience than the cap. */
  lemma ManualExactly(f: Failure, priorAttempt: nat, cumulativeMs: nat, retryAfterMaxMs: nat)
    ensures DecideProviderRetry(f, priorAttempt, cumulativeMs, retryAfterMaxMs) == Manual
            <==> || (f.httpStatus.Some? && f.httpStatus.value !in {408, 429, 500, 501, 502, 503, 504, 529})
                 || (f.retryAfterMs.Some? && f.retryAfterMs.value > retryAfterMaxMs)
  {
  }

  /** The others retry until five have: as the next attempt, at the delay's end,
      which is the provider's own or at least 0.5, 1, 2, 4 and 8 seconds and
      less than twice that. */
  lemma RetriesExactly(f: Failure, priorAttempt: nat, cumulativeMs: nat, retryAfterMaxMs: nat)
    ensures var d := DecideProviderRetry(f, priorAttempt, cumulativeMs, retryAfterMaxMs);
            match d
            case Manual => true
            case Exhausted(attempt, reason) =>
              && attempt == priorAttempt + 1 && (reason == MaxAttempts <==> priorAttempt >= 5)
              && (reason == MaxCumulativeMs ==>
                    && f.retryAfterMs == None
                    && cumulativeMs + ComputeBackoffMs(None, attempt, f.draw) > 300_000)
            case AutoRetry(attempt, delayMs, resumeAt, retryAfterMs) =>
              && priorAttempt < 5 && attempt == priorAttempt + 1 && resumeAt == f.now + delayMs
              && retryAfterMs == f.retryAfterMs
              && if retryAfterMs.Some? then delayMs == retryAfterMs.value
                 else LeastMs(priorAttempt) <= delayMs < 2 * LeastMs(priorAttempt) && cumulativeMs + delayMs <= 300_000
  {
    assert Pow2(0) == 1 && Pow2(1) == 2 && Pow2(2) == 4 && Pow2(3) == 8 && Pow2(4) == 16;
  }

  /** The least the daemon waits on its own behind so many attempts. */
  function LeastMs(priorAttempt: nat): nat {
    if priorAttempt == 0 then 500 else if priorAttempt == 1 then 1_000 else if priorAttempt == 2 then 2_000
    else if priorAttempt == 3 then 4_000 else 8_000
  }

  /** The chain as routing carries it from one failure to the next: a provider's
      own delay counts as an attempt and accrues nothing. */
  datatype Chain = Chain(attempt: nat, cumulativeMs: nat)

  const FRESH := Chain(0, 0)

  function ChainStep(c: Chain, d: RetryDecision): Chain {
    match d
    case AutoRetry(attempt, delayMs, _, retryAfter) =>
      Chain(attempt, if retryAfter == None then c.cumulativeMs + delayMs else c.cumulativeMs)
    case _ => c
  }

  function Decisions(c: Chain, failures: seq<Failure>, retryAfterMaxMs: nat): seq<RetryDecision>
    decreases |failures|
  {
    if failures == [] then []
    else
      var d := DecideProviderRetry(failures[0], c.attempt, c.cumulativeMs, retryAfterMaxMs);
      [d] + Decisions(ChainStep(c, d), failures[1..], retryAfterMaxMs)
  }

  function Retries(ds: seq<RetryDecision>): nat {
    if ds == [] then 0 else (if ds[0].AutoRetry? then 1 else 0) + Retries(ds[1..])
  }

  /** What the daemon waits of its own accord. */
  function BackoffMs(ds: seq<RetryDecision>): nat {
    if ds == [] then 0
    else (if ds[0].AutoRetry? && ds[0].retryAfterMs == None then ds[0].delayMs else 0) + BackoffMs(ds[1..])
  }

  /** The most the first attempts can have accrued. */
  function Bound(attempt: nat): nat {
    if attempt == 0 then 0 else Bound(attempt - 1) + PROVIDER_RETRY_BASE_BACKOFF_MS * Pow2(attempt - 1) - 1
  }

  lemma {:induction false} BoundMonotone(a: nat, b: nat)
    requires a <= b
    ensures Bound(a) <= Bound(b)
  {
    if a < b {
      BoundMonotone(a, b - 1);
    }
  }

  lemma BoundOfChain()
    ensures Bound(PROVIDER_RETRY_MAX_ATTEMPTS) == 30_995
  {
    assert Bound(1) == 999 && Bound(2) == 2_998 && Bound(3) == 6_997 && Bound(4) == 14_996;
  }

  lemma {:induction false} ChainFrom(c: Chain, failures: seq<Failure>, retryAfterMaxMs: nat)
    requires c.attempt <= PROVIDER_RETRY_MAX_ATTEMPTS && c.cumulativeMs <= Bound(c.attempt)
    ensures var ds := Decisions(c, failures, retryAfterMaxMs);
            && |ds| == |failures|
            && c.attempt + Retries(ds) <= PROVIDER_RETRY_MAX_ATTEMPTS
            && c.cumulativeMs + BackoffMs(ds) <= Bound(PROVIDER_RETRY_MAX_ATTEMPTS)
            && (forall d :: d in ds && d.Exhausted? ==> d.reason == MaxAttempts)
    decreases |failures|
  {
    BoundMonotone(c.attempt, PROVIDER_RETRY_MAX_ATTEMPTS);
    BoundOfChain();
    if failures != [] {
      var d := DecideProviderRetry(failures[0], c.attempt, c.cumulativeMs, retryAfterMaxMs);
      if c.attempt < PROVIDER_RETRY_MAX_ATTEMPTS {
        BoundMonotone(c.attempt + 1, PROVIDER_RETRY_MAX_ATTEMPTS);
      }
      ChainFrom(ChainStep(c, d), failures[1..], retryAfterMaxMs);
    }
  }

  /** From a fresh chain, over any failures in any order, at most five calls are
      retried, the daemon's own waits come to less than thirty-one seconds,
      and the cumulative cap is never what ends the chain, Retry-Afters or not. */
  lemma FreshChainBounded(failures: seq<Failure>, retryAfterMaxMs: nat)
    ensures var ds := Decisions(FRESH, failures, retryAfterMaxMs);
            && Retries(ds) <= PROVIDER_RETRY_MAX_ATTEMPTS
            && BackoffMs(ds) < 31_000
            && (forall d :: d in ds && d.Exhausted? ==> d.reason == MaxAttempts)
  {
    BoundOfChain();
    ChainFrom(FRESH, failures, retryAfterMaxMs);
  }

  /** A chain in which every failure may be retried retries exactly the first
      five and then gives up on every one. */
  lemma {:induction false} PersistentFailure(c: Chain, failures: seq<Failure>, retryAfterMaxMs: nat, i: nat)
    requires c.attempt <= PROVIDER_RETRY_MAX_ATTEMPTS && c.cumulativeMs <= Bound(c.attempt)
    requires forall f :: f in failures ==>
               IsAutoRetryableStatus(f.httpStatus) && (f.retryAfterMs.Some? ==> f.retryAfterMs.value <= retryAfterMaxMs)
    requires i < |failures|
    ensures var ds := Decisions(c, failures, retryAfterMaxMs);
            && i < |ds|
            && if c.attempt + i < PROVIDER_RETRY_MAX_ATTEMPTS
               then ds[i].AutoRetry? && ds[i].attempt == c.attempt + i + 1
               else ds[i] == Exhausted(PROVIDER_RETRY_MAX_ATTEMPTS + 1, MaxAttempts)
    decreases |failures|
  {
    var d := DecideProviderRetry(failures[0], c.attempt, c.cumulativeMs, retryAfterMaxMs);
    assert failures[0] in failures;
    BoundMonotone(c.attempt, PROVIDER_RETRY_MAX_ATTEMPTS);
    BoundOfChain();
    if c.attempt < PROVIDER_RETRY_MAX_ATTEMPTS {
      BoundMonotone(c.attempt + 1, PROVIDER_RETRY_MAX_ATTEMPTS);
    }
    if i > 0 {
      PersistentFailure(ChainStep(c, d), failures[1..], retryAfterMaxMs, i - 1);
    }
  }
}
