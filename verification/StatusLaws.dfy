/**
 The client's constants in figures: which statuses are retried, which bodies are accepted,
 how long it sleeps, and what it makes of an expiry. Nothing here relies on the names that
 the client gives to these conditions.
 */
module StatusLaws {
  import opened Prelude
  import opened TokenCache
  import opened Client
  import opened RetryLaws
  import AT = AccessToken

  /** A reply that ends the loop. */
  predicate EndsLoop(r: Reply) { r.Response? && r.status != 403 && r.status != 429 && r.status < 500 }

  /** A body that the caller gets: status 2xx, readable, at most 10 MiB. */
  predicate Delivers(r: Reply) {
    r.Response? && 200 <= r.status <= 299 && r.body.readable && r.body.size <= 10 * 1024 * 1024
  }

  /** The failure that a reply other than those leads to. */
  function FailureOf(r: Reply): Failure
    requires EndsLoop(r)
  {
    if r.status < 200 || r.status >= 300 then BadStatus(r.status)
    else if !r.body.readable then ReadFailed
    else TooLarge
  }

  /**
   Any loop, authenticated or not, by its own requests: each reply but the last is a network
   error or has status 403, 429 or at least 500; an uninterrupted loop ends at the first
   other reply, with its body exactly if that is a readable 2xx body of at most 10 MiB, and
   otherwise with the failure that it shows; without such a reply all attempts are used up.
   */
  lemma RepliesDecide(r: Result<Body, Failure>, trace: seq<Reply>, sleeps: nat, maxRetries: nat)
    requires Explains(r, trace, sleeps, maxRetries)
    ensures forall i | 0 <= i < |trace| - 1 :: !EndsLoop(trace[i])
    ensures r.Ok? || !Interrupted(r.error) ==>
              && 0 < |trace| <= maxRetries + 1 && sleeps == |trace| - 1
              && var last := trace[|trace| - 1];
                 && (EndsLoop(last) ==> r == if Delivers(last) then Ok(last.body) else Err(FailureOf(last)))
                 && (!EndsLoop(last) ==> |trace| == maxRetries + 1 && r == Err(Exhausted(last)))
  {
    if trace != [] {
      var last := trace[|trace| - 1];
      assert Retryable(last) <==> !EndsLoop(last);
    }
  }

  /** Reply `k` is the first that ends the loop. */
  ghost predicate FirstEnd(replies: nat -> Reply, k: nat) {
    EndsLoop(replies(k)) && forall j: nat | j < k :: !EndsLoop(replies(j))
  }

  /**
   An unauthenticated loop that limiter and context leave alone, by the script: it makes
   exactly k + 1 requests if reply k is the first that ends it and k is at most maxRetries, and
   maxRetries + 1 requests if there is none; and it succeeds exactly if reply k delivers.
   */
  lemma ScriptDecidesByStatus(script: nat -> Exchange, from: nat, upto: nat, base: int,
                              r: Result<Body, Failure>, j: Journal, maxRetries: nat)
    requires Finished(r, j, base, false, script, from, upto, maxRetries)
    requires from < upto && forall i | from <= i < upto :: script(i).limiter.None? && script(i).wake.None?
    ensures var replies := RepliesFrom(script, from);
            && (forall k: nat | k <= maxRetries && FirstEnd(replies, k) ::
                  && |j.trace| == k + 1
                  && r == if Delivers(replies(k)) then Ok(replies(k).body) else Err(FailureOf(replies(k))))
            && ((forall k: nat | k <= maxRetries :: !EndsLoop(replies(k))) ==>
                  |j.trace| == maxRetries + 1 && r == Err(Exhausted(replies(maxRetries))))
  {
    var replies := RepliesFrom(script, from);
    assert r.Err? ==> !Interrupted(r.error);
    RepliesDecide(r, j.trace, |j.slept|, maxRetries);
    forall i | 0 <= i < |j.trace| ensures j.trace[i] == replies(i) {}
    var n := |j.trace| - 1;
    forall k: nat | k <= maxRetries && FirstEnd(replies, k) ensures k == n && EndsLoop(j.trace[n]) {}
  }

  /** The first reply ends an uninterrupted loop exactly if the loop makes one request, given it may retry. */
  lemma FirstReplyDecides(r: Result<Body, Failure>, trace: seq<Reply>, sleeps: nat, maxRetries: nat)
    requires Explains(r, trace, sleeps, maxRetries) && (r.Err? ==> !Interrupted(r.error)) && maxRetries >= 1
    ensures trace != [] && (|trace| == 1 <==> EndsLoop(trace[0])) && (|trace| == 1 ==> (r.Ok? <==> Delivers(trace[0])))
  {
    RepliesDecide(r, trace, sleeps, maxRetries);
  }

  /** One request is enough exactly if the first reply is a response other than 403, 429 and 5xx or above. */
  lemma OneRequestIff(script: nat -> Exchange, from: nat, upto: nat, base: int,
                      r: Result<Body, Failure>, j: Journal, maxRetries: nat)
    requires Finished(r, j, base, false, script, from, upto, maxRetries) && maxRetries >= 1
    requires from < upto && forall i | from <= i < upto :: script(i).limiter.None? && script(i).wake.None?
    ensures var first := script(from).reply;
            && (|j.trace| == 1 <==>
                  first.Response? && first.status != 403 && first.status != 429 && first.status < 500)
            && (|j.trace| == 1 ==>
                  (r.Ok? <==> 200 <= first.status <= 299 && first.body.readable && first.body.size <= 10 * 1024 * 1024))
  {
    assert r.Err? ==> !Interrupted(r.error);
    FirstReplyDecides(r, j.trace, |j.slept|, maxRetries);
    assert j.trace[0] == script(from + 0).reply;
  }

  // ---- Sleeping --------------------------------------------------------------------------

  lemma SmallModulus(j: nat, m: nat)
    requires j < m
    ensures j % m == j
  {
  }

  /** Every jitter from nothing to the smaller of the backoff and one second can be drawn, and no other. */
  lemma JitterRange(backoff: int, j: int)
    ensures (exists draw: nat :: Jitter(backoff, draw) == j) <==>
              if backoff <= 0 then j == 0 else 0 <= j <= backoff && j <= 1_000_000_000
  {
    if backoff <= 0 {
      assert Jitter(backoff, 0) == 0;
    } else if 0 <= j <= JitterCap(backoff) {
      SmallModulus(j, JitterCap(backoff) + 1);
      assert Jitter(backoff, j) == j;
    }
  }

  /** The first sleep: from ten milliseconds if no backoff is configured, and at most doubled. */
  lemma FirstSleep(initial: int, slept: seq<int>)
    requires SleepsFit(BaseBackoff(initial), slept) && slept != [] && 2 * initial < ROOM
    ensures initial <= 0 ==> 10_000_000 <= slept[0] <= 20_000_000
    ensures initial > 0 ==> initial <= slept[0] <= 2 * initial && slept[0] <= initial + 1_000_000_000
  {
    assert SleepFits(Backoff(BaseBackoff(initial), 0), slept[0]);
    SleepWithin(BaseBackoff(initial), slept[0]);
  }

  /** The sleeps of a finished loop: in all between (2^n - 1)b and that plus the smaller of itself and n seconds. */
  lemma JournalSleep(r: Result<Body, Failure>, j: Journal, base: int, requireAuth: bool,
                     script: nat -> Exchange, from: nat, upto: nat, maxRetries: nat)
    requires Finished(r, j, base, requireAuth, script, from, upto, maxRetries)
    requires 0 < base && base * Pow2(|j.slept|) < ROOM
    ensures var least := (Pow2(|j.slept|) - 1) * base;
            least <= Sum(j.slept) <= least + Min(least, |j.slept| * 1_000_000_000)
  {
    DrawnSleepsFit(j, base, script);
    TotalSleep(base, j.slept);
  }

  // ---- Token fetches ---------------------------------------------------------------------

  /**
   A decoded token expires when the response says, if that is still to come, and otherwise
   exactly one hour from now.
   */
  lemma FetchedExpiry(body: Body, lib: AT.Library)
    requires body.json.Some? && AT.Parse(body.json.value, lib).Some?
    ensures var (token, given) := AT.Parse(body.json.value, lib).value;
            var f := FetchedFrom(Ok(body), lib);
            && f.Got? && f.token == token
            && (given.Some? && given.value > lib.now && given.value != ZERO_TIME ==> f.expiry == given.value)
            && (given.None? || given.value <= lib.now ==> f.expiry == lib.now + 3600 * 1_000_000_000)
  {
  }

  /** A failed fetch keeps the error of the context, the limiter or the network; other failures have none of those. */
  lemma FetchErrors(failure: Failure, lib: AT.Library)
    ensures var f := FetchedFrom(Err(failure), lib);
            && f.Failed?
            && (failure.LimiterFailed? || failure.SleepFailed? ==> f.error == failure.error)
            && (failure.AuthFailed? ==> f.error == failure.cause)
            && (failure.Exhausted? && failure.last.NetworkError? ==> f.error == failure.last.error)
            && (failure.Exhausted? && failure.last.Response? ==> f.error.Upstream?)
            && (failure.BadStatus? || failure.ReadFailed? || failure.TooLarge? ==> f.error.Upstream?)
            && (failure.EmptyToken? ==> f.error.Upstream?)
  {
  }

  /** A body that is no JSON, or holds no token, is a failed fetch, and not a transient one. */
  lemma UndecodableBodies(body: Body, lib: AT.Library)
    requires body.json.None? || AT.Parse(body.json.value, lib).None?
    ensures FetchedFrom(Ok(body), lib).Failed? && FetchedFrom(Ok(body), lib).error.Upstream?
  {
  }
}
