/** retryThrottled: capped exponential backoff with jitter around one API call. */
module Retry {
  /** What a call fails with: an error the server sent, or any other. */
  datatype Error = ServerError(code: string, httpStatus: int) | OtherError

  /** What one attempt returns. */
  datatype Outcome = Success | Failure(error: Error)

  predicate Contains(s: string, sub: string) {
    sub <= s || (s != "" && Contains(s[1..], sub))
  }

  predicate Throttling(e: Error) {
    e.ServerError? &&
    (|| Contains(e.code, "Throttling")
     || e.code in {"ServiceUnavailable", "RequestThrottled", "RequestLimitExceeded"}
     || e.httpStatus == 429 || e.httpStatus == 503)
  }

  predicate Throttled(o: Outcome) { o.Failure? && Throttling(o.error) }

  /** The text occurs somewhere in the string. */
  predicate Within(text: string, s: string) { exists i :: 0 <= i <= |s| && text <= s[i..] }

  lemma {:induction false} ContainsIsWithin(s: string, sub: string)
    ensures Contains(s, sub) <==> Within(sub, s)
  {
    if sub <= s {
      assert sub <= s[0..];
    } else if s != "" {
      ContainsIsWithin(s[1..], sub);
      if Within(sub, s[1..]) {
        var i :| 0 <= i <= |s| - 1 && sub <= s[1..][i..];
        assert s[i + 1..] == s[1..][i..];
      }
      forall i | 0 < i <= |s| && sub <= s[i..] ensures Within(sub, s[1..]) {
        assert s[1..][i - 1..] == s[i..];
      }
      assert s[0..] == s;
    } else {
      assert forall i :: 0 <= i <= |s| ==> s[i..] == s;
    }
  }

  /** What is retried: only what the server sent, for a code naming throttling anywhere or one of
      three others, or for the two HTTP statuses; never success, never another error. */
  lemma RetriesExactly(o: Outcome)
    ensures Throttled(o) <==>
              o.Failure? && o.error.ServerError? &&
              (|| Within("Throttling", o.error.code)
               || o.error.code == "ServiceUnavailable" || o.error.code == "RequestThrottled"
               || o.error.code == "RequestLimitExceeded"
               || o.error.httpStatus == 429 || o.error.httpStatus == 503)
  {
    hide Contains, Within;
    if o.Failure? && o.error.ServerError? {
      ContainsIsWithin(o.error.code, "Throttling");
    }
  }

  function Min(a: int, b: int): int { if a <= b then a else b }

  function Pow2(k: nat): nat { if k == 0 then 1 else 2 * Pow2(k - 1) }

  function Sum(xs: seq<int>): int { if xs == [] then 0 else Sum(xs[..|xs| - 1]) + xs[|xs| - 1] }

  /** The backoff before jitter ahead of retry k. */
  function Backoff(base: nat, max: nat, k: nat): nat { Min(base * Pow2(k), max) }

  /** Doubling the capped delay and capping again is doubling first. */
  lemma BackoffDoubles(base: nat, max: nat, k: nat)
    ensures Min(2 * Backoff(base, max, k), max) == Backoff(base, max, k + 1)
  {
    assert base * Pow2(k + 1) == 2 * (base * Pow2(k));
  }

  lemma {:induction false} SumBound(xs: seq<int>, bound: nat)
    requires forall k :: 0 <= k < |xs| ==> xs[k] <= bound
    ensures Sum(xs) <= |xs| * bound
  {
    if xs != [] {
      SumBound(xs[..|xs| - 1], bound);
      assert |xs| * bound == (|xs| - 1) * bound + bound;
    }
  }

  /** The delay ahead of retry k: the base at first, then the capped backoff. */
  function Delay(base: nat, max: nat, k: nat): nat { if k == 0 then base else Backoff(base, max, k) }

  /** A delay with its jitter, up to half of it more, capped. */
  function Sleep(delay: nat, max: nat, random: nat): int { Min(delay + random % (delay / 2 + 1), max) }

  lemma SleepBounds(base: nat, max: nat, k: nat, random: nat)
    ensures var sleep := Sleep(Delay(base, max, k), max, random);
            Backoff(base, max, k) <= sleep <= max && 2 * sleep <= 3 * Backoff(base, max, k)
  {
    assert Pow2(0) == 1;
    assert random % (Delay(base, max, k) / 2 + 1) <= Delay(base, max, k) / 2;
  }

  lemma NextDelay(base: nat, max: nat, k: nat)
    ensures Min(2 * Delay(base, max, k), max) == Delay(base, max, k + 1)
  {
    assert Pow2(0) == 1 && Pow2(1) == 2;
    BackoffDoubles(base, max, k);
  }

  /** `fn(k)` is what attempt k returns, `random(k)` the raw random draw ahead of retry k. The
      result is that of the first attempt that is not throttled, or of attempt maxRetries. */
  method RetryThrottled(maxRetries: nat, base: nat, max: nat, fn: nat -> Outcome, random: nat -> nat)
    returns (err: Outcome, calls: nat, sleeps: seq<int>, retryMetrics: nat, observations: seq<Outcome>)
    ensures 1 <= calls <= maxRetries + 1
    ensures err == fn(calls - 1)
    ensures forall k :: 0 <= k < calls - 1 ==> Throttled(fn(k))
    ensures Throttled(err) ==> calls == maxRetries + 1
    ensures |sleeps| == retryMetrics == calls - 1
    ensures forall k :: 0 <= k < |sleeps| ==> sleeps[k] == Sleep(Delay(base, max, k), max, random(k))
    ensures forall k :: 0 <= k < |sleeps| ==>
              Backoff(base, max, k) <= sleeps[k] <= max && 2 * sleeps[k] <= 3 * Backoff(base, max, k)
    ensures Sum(sleeps) <= maxRetries * max
    ensures observations == [err]
  {
    hide Throttled, Backoff;
    var delay := base;
    var attempt := 0;
    sleeps, retryMetrics, observations := [], 0, [];
    while true
      invariant attempt <= maxRetries
      invariant |sleeps| == retryMetrics == attempt && observations == []
      invariant delay == Delay(base, max, attempt)
      invariant forall k :: 0 <= k < attempt ==> Throttled(fn(k))
      invariant forall k :: 0 <= k < attempt ==> sleeps[k] == Sleep(Delay(base, max, k), max, random(k))
      decreases maxRetries - attempt
    {
      err := fn(attempt);
      if !Throttled(err) || attempt >= maxRetries {
        observations := observations + [err];
        calls := attempt + 1;
        break;
      }
      retryMetrics := retryMetrics + 1;
      var jitter := random(attempt) % (delay / 2 + 1);
      var sleep := delay + jitter;
      if sleep > max {
        sleep := max;
      }
      sleeps := sleeps + [sleep];
      NextDelay(base, max, attempt);
      delay := delay * 2;
      if delay > max {
        delay := max;
      }
      attempt := attempt + 1;
    }
    forall k | 0 <= k < |sleeps|
      ensures Backoff(base, max, k) <= sleeps[k] <= max && 2 * sleeps[k] <= 3 * Backoff(base, max, k)
    {
      SleepBounds(base, max, k, random(k));
    }
    SumBound(sleeps, max);
    Monotone(|sleeps|, maxRetries, max);
  }

  lemma Monotone(a: nat, b: nat, bound: nat)
    requires a <= b
    ensures a * bound <= b * bound
  {
  }
}
