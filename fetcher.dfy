/**
 * The kline fetcher: one GET per attempt against the market-data endpoint,
 * retried on rate limiting and on generic failures, up to a fixed budget.
 *
 * The network is an oracle `network: nat -> Outcome`: `network(i)` is what
 * the attempt made when the retry counter stands at `i` yields. Sleeping is
 * recorded, not performed: the fetcher returns a ghost trace of its requests
 * and sleeps.
 */
module KlineFetching {
  import opened Wrappers
  import opened JsonValues

  /** The HTTP status that marks a rate-limited request. */
  const TooManyRequests := 429

  /** What one attempt comes to, up to and including decoding the body. */
  datatype Outcome =
      /** The GET returned, `raise_for_status` passed and the body decoded as JSON. */
    | Delivered(body: Json)
      /** `raise_for_status` raised an HTTP error with this status code. */
    | HttpFailure(status: int)
      /** Any other exception before the body was decoded: a network error, a body that is not JSON. */
    | OtherException

  /** An exception that escapes `fetch_klines`. */
  datatype FetchError =
      /** A non-429 HTTP error, re-raised as it is. */
    | HttpStatus(status: int)
      /** `time.sleep` refused a negative delay inside the 429 handler. */
    | InvalidSleep(seconds: int)

  /** The value `fetch_klines` returns, or what it raises. */
  datatype FetchResult =
      /** `data["result"]` of the first delivered body that has one, as it is. */
    | Fetched(payload: Json)
      /** The `None` returned once the retry budget is spent. */
    | Exhausted
    | Raised(error: FetchError)

  /** One observable action of the fetcher. */
  datatype Event = Request(attempt: nat) | Sleep(seconds: int)

  /** How the loop proceeds after one attempt. */
  datatype Step = Retry(slept: bool) | Stop(result: FetchResult)

  /** True when this outcome makes the loop sleep `delay` seconds before the next attempt. */
  predicate SleepsOn(o: Outcome, delay: int) {
    o.HttpFailure? && o.status == TooManyRequests && delay >= 0
  }

  /** The handlers of one attempt: return, re-raise, or count a failed attempt (after sleeping, for a 429). */
  function Classify(o: Outcome, delay: int): (s: Step)
    ensures s.Retry? && s.slept <==> SleepsOn(o, delay)
    ensures o.Delivered? && Member(o.body, "result").Some? ==> s == Stop(Fetched(Member(o.body, "result").value))
    ensures o.HttpFailure? && o.status != TooManyRequests ==> s == Stop(Raised(HttpStatus(o.status)))
    ensures o.HttpFailure? && o.status == TooManyRequests && delay < 0 ==> s == Stop(Raised(InvalidSleep(delay)))
    ensures s.Stop? ==> s.result != Exhausted
    ensures (o.Delivered? && Member(o.body, "result").None?) || o.OtherException? ==> s == Retry(false)
  {
    match o
    case Delivered(body) =>
      (match Member(body, "result")
       case Some(result) => Stop(Fetched(result))
       case None => Retry(false))
    case HttpFailure(status) =>
      if status != TooManyRequests then Stop(Raised(HttpStatus(status)))
      else if delay < 0 then Stop(Raised(InvalidSleep(delay)))
      else Retry(true)
    case OtherException => Retry(false)
  }

  /** What the loop does from retry counter `retries` on: its result and the trace of its actions. */
  function Attempts(maxRetries: int, delay: int, network: nat -> Outcome, retries: nat): (run: (FetchResult, seq<Event>))
    ensures run.1 == [] <==> retries >= maxRetries
    ensures run.1 != [] ==> run.1[0] == Request(retries)
    ensures retries >= maxRetries ==> run.0 == Exhausted
    decreases maxRetries - retries
  {
    if retries >= maxRetries then (Exhausted, [])
    else match Classify(network(retries), delay)
      case Stop(result) => (result, [Request(retries)])
      case Retry(slept) =>
        var (result, rest) := Attempts(maxRetries, delay, network, retries + 1);
        (result, [Request(retries)] + (if slept then [Sleep(delay)] else []) + rest)
  }

  /** The attempt numbers of the requests in a trace, in order. */
  function Requested(trace: seq<Event>): seq<nat> {
    if trace == [] then []
    else (if trace[0].Request? then [trace[0].attempt] else []) + Requested(trace[1..])
  }

  /** The delays of the sleeps in a trace, in order. */
  function Slept(trace: seq<Event>): seq<int> {
    if trace == [] then []
    else (if trace[0].Sleep? then [trace[0].seconds] else []) + Slept(trace[1..])
  }

  /** The integers lo, lo + 1, ..., hi - 1. */
  function Range(lo: int, hi: int): (r: seq<int>)
    ensures |r| == Max(0, hi - lo)
    ensures forall i :: 0 <= i < |r| ==> r[i] == lo + i
    decreases hi - lo
  {
    if lo >= hi then [] else [lo] + Range(lo + 1, hi)
  }

  /** The number of attempts in [lo, hi) whose outcome makes the loop sleep. */
  function SleepingAttempts(network: nat -> Outcome, delay: int, lo: nat, hi: int): nat
    decreases hi - lo
  {
    if lo >= hi then 0
    else (if SleepsOn(network(lo), delay) then 1 else 0) + SleepingAttempts(network, delay, lo + 1, hi)
  }

  function Max(a: int, b: int): int {
    if a >= b then a else b
  }

  /** One retrying attempt, then the rest of the run. */
  lemma UnfoldRetry(maxRetries: int, delay: int, network: nat -> Outcome, retries: nat, slept: bool)
    requires retries < maxRetries
    requires Classify(network(retries), delay) == Retry(slept)
    ensures Attempts(maxRetries, delay, network, retries).0 == Attempts(maxRetries, delay, network, retries + 1).0
    ensures Attempts(maxRetries, delay, network, retries).1
      == (if slept then [Request(retries), Sleep(delay)] else [Request(retries)]) + Attempts(maxRetries, delay, network, retries + 1).1
  {
  }

  /** An attempt that ends the run. */
  lemma UnfoldStop(maxRetries: int, delay: int, network: nat -> Outcome, retries: nat, result: FetchResult)
    requires retries < maxRetries
    requires Classify(network(retries), delay) == Stop(result)
    ensures Attempts(maxRetries, delay, network, retries) == (result, [Request(retries)])
  {
  }

  lemma AppendStep(done: seq<Event>, step: seq<Event>, rest: seq<Event>)
    ensures done + (step + rest) == (done + step) + rest
  {
  }

  /**
   * A payload returned by the fetch is the `"result"` entry of a body delivered
   * by some attempt within the budget, as it is.
   */
  lemma {:induction false} FetchedComesFromDelivery(maxRetries: int, delay: int, network: nat -> Outcome, retries: nat, payload: Json)
    requires Attempts(maxRetries, delay, network, retries).0 == Fetched(payload)
    ensures exists k: nat ::
      retries <= k < maxRetries && network(k).Delivered? && Member(network(k).body, "result") == Some(payload)
    decreases maxRetries - retries
  {
    if Classify(network(retries), delay).Retry? {
      FetchedComesFromDelivery(maxRetries, delay, network, retries + 1, payload);
    } else {
      assert network(retries).Delivered? && Member(network(retries).body, "result") == Some(payload);
    }
  }

  /** The trace of an attempt that asks for a retry, followed by the rest of the run. */
  lemma RetryTrace(attempt: nat, slept: bool, delay: int, rest: seq<Event>)
    ensures var trace := (if slept then [Request(attempt), Sleep(delay)] else [Request(attempt)]) + rest;
      && Requested(trace) == [attempt] + Requested(rest)
      && Slept(trace) == (if slept then [delay] else []) + Slept(rest)
  {
    var trace := (if slept then [Request(attempt), Sleep(delay)] else [Request(attempt)]) + rest;
    assert trace[1..] == (if slept then [Sleep(delay)] else []) + rest;
    if slept {
      assert trace[1..][1..] == rest;
    }
  }

  /**
   * The requests are the attempts retries, retries + 1, ... in order, one per
   * attempt, and there are never more of them than the budget leaves.
   */
  lemma {:induction false} AttemptsAreConsecutive(maxRetries: int, delay: int, network: nat -> Outcome, retries: nat)
    ensures var trace := Attempts(maxRetries, delay, network, retries).1;
      && Requested(trace) == Range(retries, retries + |Requested(trace)|)
      && retries + |Requested(trace)| <= Max(retries, maxRetries)
    decreases maxRetries - retries
  {
    if retries < maxRetries {
      match Classify(network(retries), delay)
      case Stop(result) =>
        assert Requested([Request(retries)]) == [retries];
      case Retry(slept) =>
        AttemptsAreConsecutive(maxRetries, delay, network, retries + 1);
        RetryTrace(retries, slept, delay, Attempts(maxRetries, delay, network, retries + 1).1);
    }
  }

  /**
   * The budget runs out exactly when every attempt within it asks for a retry;
   * then every attempt in the budget was made.
   */
  lemma {:induction false} ExhaustedIffEveryAttemptRetries(maxRetries: int, delay: int, network: nat -> Outcome, retries: nat)
    ensures var (result, trace) := Attempts(maxRetries, delay, network, retries);
      && (result == Exhausted <==> forall j: nat :: retries <= j < maxRetries ==> Classify(network(j), delay).Retry?)
      && (result == Exhausted ==> Requested(trace) == Range(retries, maxRetries))
    decreases maxRetries - retries
  {
    AttemptsAreConsecutive(maxRetries, delay, network, retries);
    if retries < maxRetries {
      match Classify(network(retries), delay)
      case Stop(result) =>
      case Retry(slept) =>
        ExhaustedIffEveryAttemptRetries(maxRetries, delay, network, retries + 1);
        AttemptsAreConsecutive(maxRetries, delay, network, retries + 1);
    }
  }

  /**
   * When attempt k is the first within the budget that does not ask for a retry,
   * its handler decides the result (the payload as it is, or the exception), and
   * the run ends with that request: no sleep after it and no later attempt.
   */
  lemma {:induction false} StopsAtFirstDecisive(maxRetries: int, delay: int, network: nat -> Outcome, retries: nat, k: nat)
    requires retries <= k < maxRetries
    requires Classify(network(k), delay).Stop?
    requires forall j: nat :: retries <= j < k ==> Classify(network(j), delay).Retry?
    ensures var (result, trace) := Attempts(maxRetries, delay, network, retries);
      && result == Classify(network(k), delay).result
      && Requested(trace) == Range(retries, k + 1)
      && trace[|trace| - 1] == Request(k)
    decreases k - retries
  {
    if retries < k {
      StopsAtFirstDecisive(maxRetries, delay, network, retries + 1, k);
      match Classify(network(retries), delay)
      case Retry(slept) =>
        RetryTrace(retries, slept, delay, Attempts(maxRetries, delay, network, retries + 1).1);
    } else {
      assert Requested([Request(k)]) == [k];
    }
  }

  /**
   * Every sleep lasts `delay` seconds and comes right after the request whose
   * outcome was a 429; every such request is followed by its sleep.
   */
  lemma {:induction false} SleepsFollowRateLimits(maxRetries: int, delay: int, network: nat -> Outcome, retries: nat)
    ensures var trace := Attempts(maxRetries, delay, network, retries).1;
      && (trace != [] ==> trace[0] == Request(retries))
      && (forall p :: 0 <= p < |trace| && trace[p].Sleep? ==>
            && trace[p].seconds == delay
            && 0 < p && trace[p - 1].Request? && SleepsOn(network(trace[p - 1].attempt), delay))
      && (forall p :: 0 <= p < |trace| && trace[p].Request? && SleepsOn(network(trace[p].attempt), delay) ==>
            p + 1 < |trace| && trace[p + 1] == Sleep(delay))
    decreases maxRetries - retries
  {
    if retries < maxRetries {
      match Classify(network(retries), delay)
      case Stop(result) =>
      case Retry(slept) =>
        SleepsFollowRateLimits(maxRetries, delay, network, retries + 1);
        var rest := Attempts(maxRetries, delay, network, retries + 1).1;
        var head := [Request(retries)] + (if slept then [Sleep(delay)] else []);
        var trace := head + rest;
        forall p | 0 <= p < |trace| && trace[p].Sleep?
          ensures trace[p].seconds == delay
          ensures 0 < p && trace[p - 1].Request? && SleepsOn(network(trace[p - 1].attempt), delay)
        {
          if p >= |head| {
            assert trace[p] == rest[p - |head|];
            assert p - |head| > 0;
            assert trace[p - 1] == rest[p - 1 - |head|];
          }
        }
        forall p | 0 <= p < |trace| && trace[p].Request? && SleepsOn(network(trace[p].attempt), delay)
          ensures p + 1 < |trace| && trace[p + 1] == Sleep(delay)
        {
          if p >= |head| {
            assert trace[p] == rest[p - |head|];
            assert trace[p + 1] == rest[p + 1 - |head|];
          }
        }
    }
  }

  /** Exactly one sleep per 429 among the attempts made. */
  lemma {:induction false} OneSleepPerRateLimit(maxRetries: int, delay: int, network: nat -> Outcome, retries: nat)
    ensures var trace := Attempts(maxRetries, delay, network, retries).1;
      && |Slept(trace)| == SleepingAttempts(network, delay, retries, retries + |Requested(trace)|)
      && forall i :: 0 <= i < |Slept(trace)| ==> Slept(trace)[i] == delay
    decreases maxRetries - retries
  {
    if retries < maxRetries {
      match Classify(network(retries), delay)
      case Stop(result) =>
        assert Requested([Request(retries)]) == [retries];
        assert Slept([Request(retries)]) == [];
      case Retry(slept) =>
        OneSleepPerRateLimit(maxRetries, delay, network, retries + 1);
        var rest := Attempts(maxRetries, delay, network, retries + 1).1;
        UnfoldRetry(maxRetries, delay, network, retries, slept);
        RetryTrace(retries, slept, delay, rest);
        var trace := Attempts(maxRetries, delay, network, retries).1;
        assert |Requested(trace)| == 1 + |Requested(rest)|;
        assert Slept(trace) == (if slept then [delay] else []) + Slept(rest);
        assert SleepingAttempts(network, delay, retries, retries + |Requested(trace)|)
          == (if slept then 1 else 0) + SleepingAttempts(network, delay, retries + 1, retries + 1 + |Requested(rest)|);
    }
  }

  lemma {:induction false} AllAttemptsSleep(network: nat -> Outcome, delay: int, lo: nat, hi: int)
    requires forall j: nat :: lo <= j < hi ==> SleepsOn(network(j), delay)
    ensures SleepingAttempts(network, delay, lo, hi) == Max(0, hi - lo)
    decreases hi - lo
  {
    if lo < hi {
      AllAttemptsSleep(network, delay, lo + 1, hi);
    }
  }

  /**
   * Against an endpoint that always answers 429, the fetcher makes every attempt
   * of its budget, sleeps `delay` seconds after each, and returns None.
   */
  lemma AlwaysRateLimited(maxRetries: int, delay: nat, network: nat -> Outcome)
    requires forall j: nat :: network(j) == HttpFailure(TooManyRequests)
    ensures var (result, trace) := Attempts(maxRetries, delay, network, 0);
      && result == Exhausted
      && Requested(trace) == Range(0, maxRetries)
      && Slept(trace) == seq(Max(0, maxRetries), _ => delay)
  {
    var trace := Attempts(maxRetries, delay, network, 0).1;
    ExhaustedIffEveryAttemptRetries(maxRetries, delay, network, 0);
    AttemptsAreConsecutive(maxRetries, delay, network, 0);
    OneSleepPerRateLimit(maxRetries, delay, network, 0);
    AllAttemptsSleep(network, delay, 0, |Requested(trace)|);
    assert |Requested(trace)| == Max(0, maxRetries);
    assert Slept(trace) == seq(Max(0, maxRetries), _ => delay);
  }

  /** The fetcher of bot.py: fixed symbol, interval and retry policy. */
  class KlineFetcher {
    const symbol: string
    const interval: string
    const maxRetries: int
    const retryAfterSeconds: int

    constructor (symbol: string := "SOLUSDT", interval: string := "60", maxRetries: int := 3, retryAfterSeconds: int := 60)
      ensures this.symbol == symbol && this.interval == interval
      ensures this.maxRetries == maxRetries && this.retryAfterSeconds == retryAfterSeconds
    {
      this.symbol := symbol;
      this.interval := interval;
      this.maxRetries := maxRetries;
      this.retryAfterSeconds := retryAfterSeconds;
    }

    /** What `FetchKlines` returns and does against this network. */
    function Run(network: nat -> Outcome): (FetchResult, seq<Event>) {
      Attempts(maxRetries, retryAfterSeconds, network, 0)
    }

    /**
     * Tries the request until an attempt decides the result or `maxRetries`
     * attempts have failed; `trace` records every request and every sleep.
     */
    method FetchKlines(network: nat -> Outcome) returns (result: FetchResult, ghost trace: seq<Event>)
      ensures result == Attempts(maxRetries, retryAfterSeconds, network, 0).0
      ensures trace == Attempts(maxRetries, retryAfterSeconds, network, 0).1
      ensures maxRetries <= 0 ==> result == Exhausted && trace == []
    {
      var retries: nat := 0;
      trace := [];
      ghost var delay := retryAfterSeconds;
      while retries < maxRetries
        invariant Attempts(maxRetries, delay, network, 0).0 == Attempts(maxRetries, delay, network, retries).0
        invariant Attempts(maxRetries, delay, network, 0).1 == trace + Attempts(maxRetries, delay, network, retries).1
        decreases maxRetries - retries
      {
        ghost var before := trace;
        trace := trace + [Request(retries)];
        match network(retries)
        case Delivered(body) =>
          match Member(body, "result") {
            case Some(payload) =>
              UnfoldStop(maxRetries, delay, network, retries, Fetched(payload));
              return Fetched(payload), trace;
            case None =>
              UnfoldRetry(maxRetries, delay, network, retries, false);
              AppendStep(before, [Request(retries)], Attempts(maxRetries, delay, network, retries + 1).1);
              retries := retries + 1;
          }
        case HttpFailure(status) =>
          if status == TooManyRequests {
            if retryAfterSeconds < 0 {
              UnfoldStop(maxRetries, delay, network, retries, Raised(InvalidSleep(retryAfterSeconds)));
              return Raised(InvalidSleep(retryAfterSeconds)), trace;
            }
            UnfoldRetry(maxRetries, delay, network, retries, true);
            AppendStep(before, [Request(retries), Sleep(delay)], Attempts(maxRetries, delay, network, retries + 1).1);
            trace := trace + [Sleep(retryAfterSeconds)];
            assert trace == before + [Request(retries), Sleep(delay)];
            retries := retries + 1;
          } else {
            UnfoldStop(maxRetries, delay, network, retries, Raised(HttpStatus(status)));
            return Raised(HttpStatus(status)), trace;
          }
        case OtherException =>
          UnfoldRetry(maxRetries, delay, network, retries, false);
          AppendStep(before, [Request(retries)], Attempts(maxRetries, delay, network, retries + 1).1);
          retries := retries + 1;
      }
      assert trace + Attempts(maxRetries, delay, network, retries).1 == trace;
      return Exhausted, trace;
    }
  }
}
