/** What the retry loop's contract means for a caller: when it succeeds, and how long it waits. */
module RetryLaws {
  import opened Prelude
  import opened Client

  /** Reply `k` is the first one that is not retried. */
  ghost predicate FirstFinal(replies: nat -> Reply, k: nat) {
    !Retryable(replies(k)) && forall j: nat | j < k :: Retryable(replies(j))
  }

  /** The replies in a journal are the first of those that a loop's own requests would get. */
  ghost predicate Answers(replies: nat -> Reply, trace: seq<Reply>) {
    forall i | 0 <= i < |trace| :: trace[i] == replies(i)
  }

  /**
   Unless token, limiter or context interrupts it, the loop succeeds exactly when the first
   final reply to its requests comes within maxRetries + 1 of them and is a readable 2xx body
   within the limit; it is exhausted exactly when there is no final reply among them; and it
   sleeps between requests only.
   */
  lemma RetryLaw(replies: nat -> Reply, r: Result<Body, Failure>, trace: seq<Reply>, sleeps: nat, maxRetries: nat)
    requires Explains(r, trace, sleeps, maxRetries) && (r.Err? ==> !Interrupted(r.error)) && Answers(replies, trace)
    ensures r.Ok? <==> exists k: nat :: k <= maxRetries && FirstFinal(replies, k) && Good(replies(k))
    ensures r.Ok? ==> r.value == replies(|trace| - 1).body
    ensures (r.Err? && r.error.Exhausted?) <==> forall k: nat | k <= maxRetries :: Retryable(replies(k))
    ensures sleeps + 1 == |trace|
    ensures forall k: nat | k <= maxRetries && FirstFinal(replies, k) :: |trace| == k + 1
  {
    var last := |trace| - 1;
    assert trace[last] == replies(last);
    forall j: nat | j < last ensures Retryable(replies(j)) { assert trace[j] == replies(j); }
    if !Retryable(trace[last]) {
      assert FirstFinal(replies, last);
      forall k: nat | FirstFinal(replies, k) ensures k == last {}
    } else {
      forall k: nat | k <= maxRetries ensures Retryable(replies(k)) {}
    }
  }

  /** The replies of a script from turn `from` on. */
  function RepliesFrom(script: nat -> Exchange, from: nat): nat -> Reply { (i: nat) => script(from + i).reply }

  /**
   For an unauthenticated loop, what `DoWithRetry` promises decides the result by the script
   alone: if in the turns the loop took the limiter admitted it and no sleep was interrupted,
   it succeeds exactly when the script's first final reply comes in range and is good.
   */
  lemma ScriptDecides(script: nat -> Exchange, from: nat, upto: nat, base: int,
                      r: Result<Body, Failure>, j: Journal, maxRetries: nat)
    requires Finished(r, j, base, false, script, from, upto, maxRetries)
    requires from < upto && forall i | from <= i < upto :: script(i).limiter.None? && script(i).wake.None?
    ensures var replies := RepliesFrom(script, from);
            && (r.Ok? <==> exists k: nat :: k <= maxRetries && FirstFinal(replies, k) && Good(replies(k)))
            && (r.Ok? ==> r.value == replies(|j.trace| - 1).body)
            && (r.Err? && r.error.Exhausted? <==> forall k: nat | k <= maxRetries :: Retryable(replies(k)))
  {
    assert r.Err? ==> !Interrupted(r.error);
    RetryLaw(RepliesFrom(script, from), r, j.trace, |j.slept|, maxRetries);
  }

  function Pow2(n: nat): (p: nat)
    ensures p >= 1
  {
    if n == 0 then 1 else 2 * Pow2(n - 1)
  }

  function Sum(xs: seq<int>): int {
    if xs == [] then 0 else Sum(xs[..|xs| - 1]) + xs[|xs| - 1]
  }

  function Min(a: int, b: int): int { if a <= b then a else b }

  /** Durations are int64 nanoseconds; this is the room they have. */
  const ROOM: int := 0x8000_0000_0000_0000

  lemma {:induction false} BackoffDoubles(base: int, i: nat)
    requires 0 < base && base * Pow2(i) < ROOM
    ensures Backoff(base, i) == base * Pow2(i)
  {
    if i > 0 {
      assert base * Pow2(i) == 2 * (base * Pow2(i - 1));
      BackoffDoubles(base, i - 1);
    }
  }

  /** Doubling, as linear arithmetic over the products that occur. */
  lemma Doubling(base: int, n: nat)
    requires 0 < base
    ensures base * Pow2(n + 1) == 2 * (base * Pow2(n)) && base * Pow2(n) > 0
    ensures (Pow2(n) - 1) * base == base * Pow2(n) - base
  {
    assert base * Pow2(n) >= base * 1;
  }

  /** The arithmetic of one sleep, free of products. */
  lemma SleepWithin(b: int, d: int)
    requires 0 < b && 2 * b < ROOM && SleepFits(b, d)
    ensures b <= d <= 2 * b && d <= b + SECOND
  {
    var draw: nat :| d == Wrap64(b + Jitter(b, draw));
    assert 0 <= b + Jitter(b, draw) < ROOM;
  }

  lemma OneSleep(base: int, slept: seq<int>, i: nat)
    requires 0 < base && SleepsFit(base, slept) && i < |slept| && base * Pow2(i + 1) < ROOM
    ensures base * Pow2(i) <= slept[i] <= 2 * (base * Pow2(i))
    ensures slept[i] <= base * Pow2(i) + SECOND
  {
    Doubling(base, i);
    BackoffDoubles(base, i);
    assert SleepFits(Backoff(base, i), slept[i]);
    SleepWithin(base * Pow2(i), slept[i]);
  }

  /** With n sleeps from base b: between b2^n - b and twice that, and within n seconds of it. */
  lemma {:induction false} SumOfSleeps(base: int, slept: seq<int>)
    requires 0 < base && SleepsFit(base, slept) && base * Pow2(|slept|) < ROOM
    ensures base * Pow2(|slept|) - base <= Sum(slept) <= 2 * (base * Pow2(|slept|) - base)
    ensures Sum(slept) <= base * Pow2(|slept|) - base + |slept| * SECOND
    decreases |slept|
  {
    if slept != [] {
      var n, front := |slept| - 1, slept[..|slept| - 1];
      forall i | 0 <= i < |front| ensures SleepFits(Backoff(base, i), front[i]) { assert front[i] == slept[i]; }
      Doubling(base, n);
      SumOfSleeps(base, front);
      OneSleep(base, slept, n);
    }
  }

  /**
   With n sleeps from base b the total is between (2^n - 1)b and that plus the smaller of
   itself and n seconds, as long as the doubled backoff fits a duration.
   */
  lemma TotalSleep(base: int, slept: seq<int>)
    requires 0 < base && SleepsFit(base, slept) && base * Pow2(|slept|) < ROOM
    ensures var least := (Pow2(|slept|) - 1) * base;
            least <= Sum(slept) <= least + Min(least, |slept| * 1_000_000_000)
  {
    Doubling(base, |slept|);
    SumOfSleeps(base, slept);
  }
}
