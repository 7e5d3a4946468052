/**
 The API client as one caller drives it: the lock-protected blocks of the token
 cache, `getAccessToken`, `fetchAccessToken` and the retry loop, which call one
 another. The network, the rate limiter, the random jitter, the clock and the
 explicit invalidations of other callers come from a script.
 */
module Client {
  import opened Prelude
  import opened TokenCache
  import AT = AccessToken

  /** Errors that come from outside the token cache. */
  type External = e: Error | !e.Invalidated? && !e.Panicked? witness Canceled

  /** A response body as the size-limited reader sees it. */
  datatype Body = Body(readable: bool, size: nat, json: Option<AT.Json>)

  datatype Reply = NetworkError(error: External) | Response(status: int, body: Body)

  /**
   What one turn of the retry loop meets: the limiter's verdict, the reply, the random
   draw for the jitter, how the sleep ended, and what happened elsewhere meanwhile:
   explicit invalidations, and perhaps another caller starting to fetch a token.
   */
  datatype Exchange = Exchange(limiter: Option<External>, reply: Reply, draw: nat, wake: Option<External>,
                               invalidations: nat, leads: bool, elapsed: nat, ctx: Option<External>)

  /** What another caller's fetch can come back with. */
  type Foreign = f: Fetched | if f.Got? then f.token != "" else !f.error.Invalidated? && !f.error.Panicked?
    witness Failed(Canceled)

  type ContextEnd = e: Error | ContextError(e) witness Canceled

  /** How waiting for another caller's fetch ends; `Outlasts` if the own context ends first. */
  datatype Landing = Lands(fetched: Foreign) | Panics | Outlasts(why: ContextEnd)

  /** The landing, and what happens elsewhere before it. */
  datatype Flight = Flight(landing: Landing, invalidations: nat, elapsed: nat, ctx: Option<External>)

  datatype Failure =
    | AuthFailed(cause: Error)
    | EmptyToken
    | LimiterFailed(error: External)
    | SleepFailed(error: External)
    | BadStatus(status: int)
    | ReadFailed
    | TooLarge
    | Exhausted(last: Reply)

  const MAX_BODY: nat := 10_485_760
  const MILLISECOND: int := 1_000_000
  const SECOND: int := 1_000_000_000
  const HOUR: int := 3_600_000_000_000

  predicate Success(status: int) { 200 <= status < 300 }

  predicate Refused(r: Reply) { r.Response? && r.status == 403 }

  predicate Retryable(r: Reply) {
    r.NetworkError? || r.status == 403 || r.status == 429 || r.status >= 500
  }

  /** A readable 2xx body within the limit. */
  predicate Good(r: Reply) {
    r.Response? && Success(r.status) && r.body.readable && r.body.size <= MAX_BODY
  }

  /** Failures caused by the token, the limiter or the context, not by the replies. */
  predicate Interrupted(f: Failure) { f.AuthFailed? || f.EmptyToken? || f.LimiterFailed? || f.SleepFailed? }

  /** `errors.Is` looks through the wrapping. */
  function Unwrap(f: Failure): (e: Error)
    ensures !(f.AuthFailed?) ==> !e.Invalidated? && !e.Panicked?
  {
    match f
    case AuthFailed(e) => e
    case LimiterFailed(e) => e
    case SleepFailed(e) => e
    case Exhausted(NetworkError(e)) => e
    case _ => Error.Upstream(0)
  }

  // ---- Backoff ---------------------------------------------------------------------------

  /** `time.Duration` is an int64. */
  function Wrap64(x: int): int {
    (x + 0x8000_0000_0000_0000) % 0x1_0000_0000_0000_0000 - 0x8000_0000_0000_0000
  }

  function JitterCap(backoff: int): int { if backoff > SECOND then SECOND else backoff }

  /** `computeJitter`, the random source being `draw`. */
  function Jitter(backoff: int, draw: nat): (j: int)
    ensures backoff <= 0 ==> j == 0
    ensures backoff > 0 ==> 0 <= j <= JitterCap(backoff)
  {
    if backoff <= 0 then 0 else draw % (JitterCap(backoff) + 1)
  }

  function Backoff(base: int, i: nat): int {
    if i == 0 then base else Wrap64(2 * Backoff(base, i - 1))
  }

  function BaseBackoff(initial: int): (b: int)
    ensures b > 0
  {
    if initial <= 0 then 10 * MILLISECOND else initial
  }

  /** A sleep of the given backoff plus an admissible jitter. */
  ghost predicate SleepFits(backoff: int, d: int) {
    exists draw: nat :: d == Wrap64(backoff + Jitter(backoff, draw))
  }

  ghost predicate SleepsFit(base: int, slept: seq<int>) {
    forall i | 0 <= i < |slept| :: SleepFits(Backoff(base, i), slept[i])
  }

  // ---- What a finished retry loop looks like ----------------------------------------------

  ghost predicate AllRetryable(trace: seq<Reply>) { forall i | 0 <= i < |trace| :: Retryable(trace[i]) }

  /** One non-empty token per request, if requests are authenticated. */
  ghost predicate TokensSent(used: seq<string>, requireAuth: bool, requests: nat) {
    |used| == (if requireAuth then requests else 0) && forall i | 0 <= i < |used| :: used[i] != ""
  }

  /** The replies are those of the script from turn `from` on. */
  ghost predicate FromScript(trace: seq<Reply>, script: nat -> Exchange, from: nat) {
    forall i | 0 <= i < |trace| :: trace[i] == script(from + i).reply
  }

  /** The replies seen, and the sleeps made, are exactly those that lead to `r`. */
  ghost predicate Explains(r: Result<Body, Failure>, trace: seq<Reply>, sleeps: nat, maxRetries: nat) {
    && |trace| <= maxRetries + 1
    && (forall i | 0 <= i < |trace| - 1 :: Retryable(trace[i]))
    && (r.Ok? || !Interrupted(r.error) ==> trace != [] && sleeps == |trace| - 1)
    && match r
       case Ok(body) => Good(trace[|trace| - 1]) && body == trace[|trace| - 1].body
       case Err(Exhausted(last)) =>
         |trace| == maxRetries + 1 && Retryable(last) && last == trace[|trace| - 1]
       case Err(BadStatus(status)) =>
         var last := trace[|trace| - 1];
         last.Response? && !Retryable(last) && !Success(last.status) && last.status == status
       case Err(ReadFailed) =>
         var last := trace[|trace| - 1];
         last.Response? && Success(last.status) && !last.body.readable
       case Err(TooLarge) =>
         var last := trace[|trace| - 1];
         last.Response? && Success(last.status) && last.body.readable && last.body.size > MAX_BODY
       case Err(_) =>
         |trace| <= maxRetries && sleeps == |trace| && AllRetryable(trace)
  }

  /** How the loop ends on a reply, or None when it retries; in its last turn it cannot retry. */
  function Verdict(reply: Reply, last: bool): Option<Result<Body, Failure>> {
    if Retryable(reply) then if last then Some(Err(Exhausted(reply))) else None
    else if !Success(reply.status) then Some(Err(BadStatus(reply.status)))
    else if !reply.body.readable then Some(Err(ReadFailed))
    else if reply.body.size > MAX_BODY then Some(Err(TooLarge))
    else Some(Ok(reply.body))
  }

  lemma FinalExplains(trace: seq<Reply>, reply: Reply, sleeps: nat, maxRetries: nat)
    requires |trace| == sleeps <= maxRetries && AllRetryable(trace) && Verdict(reply, sleeps == maxRetries).Some?
    ensures Explains(Verdict(reply, sleeps == maxRetries).value, trace + [reply], sleeps, maxRetries)
  {
  }

  lemma InterruptionExplains(trace: seq<Reply>, f: Failure, sleeps: nat, maxRetries: nat)
    requires |trace| == sleeps <= maxRetries && AllRetryable(trace) && Interrupted(f)
    ensures Explains(Err(f), trace, sleeps, maxRetries)
  {
  }

  /** What one retry loop did: replies to its own requests, in which turns, sleeps, tokens sent. */
  datatype Journal = Journal(trace: seq<Reply>, turns: seq<nat>, slept: seq<int>, used: seq<string>)

  /** The sleep after the last request, if any, was not interrupted. */
  predicate Rested(turns: seq<nat>, script: nat -> Exchange) {
    turns == [] || script(turns[|turns| - 1]).wake.None?
  }

  /**
   Each reply was upstream's, in a turn of its own between `from` and `upto` that the limiter
   admitted; the sleeps between requests were not interrupted.
   */
  ghost predicate TurnsTaken(j: Journal, script: nat -> Exchange, from: nat, upto: nat) {
    && |j.turns| == |j.trace|
    && (forall i | 0 <= i < |j.turns| :: from <= j.turns[i] < upto && j.trace[i] == script(j.turns[i]).reply)
    && (forall i | 0 <= i < |j.turns| ::
        script(j.turns[i]).limiter.None? && (i < |j.turns| - 1 ==> script(j.turns[i]).wake.None?))
    && (forall h, i | 0 <= h < i < |j.turns| :: j.turns[h] < j.turns[i])
  }

  /** Sleep number `i` is the i-th backoff with the jitter drawn in the turn of request number `i`. */
  predicate SleepDrawn(j: Journal, base: int, script: nat -> Exchange, i: nat)
    requires i < |j.slept| <= |j.turns|
  {
    j.slept[i] == Wrap64(Backoff(base, i) + Jitter(Backoff(base, i), script(j.turns[i]).draw))
  }

  ghost predicate SleepsDrawn(j: Journal, base: int, script: nat -> Exchange) {
    |j.slept| <= |j.turns| && forall i | 0 <= i < |j.slept| :: SleepDrawn(j, base, script, i)
  }

  /** A journal that goes on keeps its sleeps. */
  lemma SleepsStayDrawn(j: Journal, k: Journal, base: int, script: nat -> Exchange)
    requires SleepsDrawn(j, base, script) && j.slept <= k.slept && j.turns <= k.turns && |k.slept| <= |k.turns|
    ensures forall i | 0 <= i < |j.slept| :: SleepDrawn(k, base, script, i)
  {
    forall i | 0 <= i < |j.slept| ensures SleepDrawn(k, base, script, i) { assert SleepDrawn(j, base, script, i); }
  }

  lemma DrawnSleepsFit(j: Journal, base: int, script: nat -> Exchange)
    requires SleepsDrawn(j, base, script)
    ensures SleepsFit(base, j.slept)
  {
    forall i | 0 <= i < |j.slept| ensures SleepFits(Backoff(base, i), j.slept[i]) {
      assert SleepDrawn(j, base, script, i);
    }
  }

  ghost predicate Faithful(j: Journal, base: int, requireAuth: bool, script: nat -> Exchange, from: nat, upto: nat) {
    && SleepsDrawn(j, base, script)
    && TokensSent(j.used, requireAuth, |j.trace|)
    && TurnsTaken(j, script, from, upto)
    && (!requireAuth ==> FromScript(j.trace, script, from))
  }

  /** A loop that has slept after each of its requests and is about to make another. */
  ghost predicate Ongoing(j: Journal, base: int, requireAuth: bool, script: nat -> Exchange, from: nat, upto: nat) {
    && |j.trace| == |j.slept| && AllRetryable(j.trace) && Rested(j.turns, script)
    && Faithful(j, base, requireAuth, script, from, upto)
    && from <= upto && (!requireAuth ==> upto == from + |j.trace|)
  }

  function Requested(j: Journal, reply: Reply, turn: nat, requireAuth: bool, token: string): Journal {
    j.(trace := j.trace + [reply], turns := j.turns + [turn], used := if requireAuth then j.used + [token] else j.used)
  }

  lemma TurnIsTaken(j: Journal, script: nat -> Exchange, from: nat, upto: nat, turn: nat,
                    requireAuth: bool, token: string)
    requires TurnsTaken(j, script, from, upto) && from <= upto <= turn
    requires Rested(j.turns, script) && script(turn).limiter.None?
    ensures TurnsTaken(Requested(j, script(turn).reply, turn, requireAuth, token), script, from, turn + 1)
  {
  }

  lemma RequestIsFaithful(j: Journal, base: int, requireAuth: bool, script: nat -> Exchange, from: nat, upto: nat,
                          turn: nat, token: string)
    requires Faithful(j, base, requireAuth, script, from, upto) && (token != "" <==> requireAuth)
    requires from <= upto <= turn && (!requireAuth ==> turn == from + |j.trace|)
    requires Rested(j.turns, script) && script(turn).limiter.None?
    ensures Faithful(Requested(j, script(turn).reply, turn, requireAuth, token), base, requireAuth, script,
                     from, turn + 1)
  {
    SleepsStayDrawn(j, Requested(j, script(turn).reply, turn, requireAuth, token), base, script);
    TurnIsTaken(j, script, from, upto, turn, requireAuth, token);
  }

  /** An interruption is upstream's doing: the limiter of the last turn, or the sleep after the last request. */
  predicate Caused(f: Failure, script: nat -> Exchange, upto: nat, turns: seq<nat>) {
    && (f.LimiterFailed? ==> upto > 0 && script(upto - 1).limiter == Some(f.error))
    && (f.SleepFailed? ==> turns != [] && script(turns[|turns| - 1]).wake == Some(f.error))
    && !f.EmptyToken?
  }

  /** A loop that has ended with a result. */
  ghost predicate Finished(r: Result<Body, Failure>, j: Journal, base: int, requireAuth: bool,
                           script: nat -> Exchange, from: nat, upto: nat, maxRetries: nat) {
    && Faithful(j, base, requireAuth, script, from, upto)
    && Explains(r, j.trace, |j.slept|, maxRetries)
    && (r.Err? ==> Caused(r.error, script, upto, j.turns) && (r.error.AuthFailed? ==> requireAuth))
  }

  /** A turn that stops before its request leaves the journal as it is. */
  lemma StoppedIsExplained(j: Journal, base: int, requireAuth: bool, script: nat -> Exchange, from: nat, upto: nat,
                           later: nat, f: Failure, maxRetries: nat)
    requires Ongoing(j, base, requireAuth, script, from, upto) && |j.slept| <= maxRetries && upto <= later
    requires Interrupted(f) && !f.SleepFailed? && Caused(f, script, later, []) && (f.AuthFailed? ==> requireAuth)
    ensures Finished(Err(f), j, base, requireAuth, script, from, later, maxRetries)
  {
  }

  function Slept(j: Journal, backoff: int, draw: nat): Journal {
    j.(slept := j.slept + [Wrap64(backoff + Jitter(backoff, draw))])
  }

  lemma OneMoreRetryable(trace: seq<Reply>, reply: Reply)
    requires AllRetryable(trace) && Retryable(reply)
    ensures AllRetryable(trace + [reply])
  {
  }

  lemma SleepIsFaithful(j: Journal, base: int, requireAuth: bool, script: nat -> Exchange, from: nat, upto: nat)
    requires Faithful(j, base, requireAuth, script, from, upto) && |j.turns| == |j.slept| + 1
    ensures var draw := script(j.turns[|j.slept|]).draw;
            Faithful(Slept(j, Backoff(base, |j.slept|), draw), base, requireAuth, script, from, upto)
  {
    SleepsStayDrawn(j, Slept(j, Backoff(base, |j.slept|), script(j.turns[|j.slept|]).draw), base, script);
  }

  // ---- What a token fetch makes of a response --------------------------------------------

  /** An expiry that is missing, zero or past is replaced by one hour from now. */
  function Fallback(expiry: Option<int>, now: int): (e: int)
    ensures now < e
  {
    if expiry.Some? && expiry.value != ZERO_TIME && now < expiry.value then expiry.value else now + HOUR
  }

  function FetchedFrom(r: Result<Body, Failure>, lib: AT.Library): (f: Fetched)
    ensures f.Got? ==> f.token != "" && lib.now < f.expiry
  {
    if r.Err? then Failed(Unwrap(r.error))
    else if r.value.json.None? then Failed(Error.Upstream(0))
    else
      match AT.Parse(r.value.json.value, lib)
      case None => Failed(Error.Upstream(0))
      case Some((token, expiry)) => Got(token, Fallback(expiry, lib.now))
  }

  // ---- The world outside -----------------------------------------------------------------

  class Upstream {
    const script: nat -> Exchange
    const flights: nat -> Flight
    var turn: nat
    var waits: nat
    var requests: nat
    var invalidationsLeft: nat
    var now: int
    var ctx: Option<External>

    constructor (script: nat -> Exchange, flights: nat -> Flight, invalidations: nat, now: int)
      ensures this.script == script && this.flights == flights && turn == 0 && waits == 0 && requests == 0
      ensures invalidationsLeft == invalidations && this.now == now && ctx == None
    {
      this.script, this.flights := script, flights;
      turn, waits, requests, invalidationsLeft := 0, 0, 0, invalidations;
      this.now, ctx := now, None;
    }

    /** The turn at hand; `k` other callers invalidate the token explicitly while it lasts. */
    method Exchange() returns (x: Exchange, k: nat)
      modifies this`turn, this`requests, this`invalidationsLeft, this`now, this`ctx
      ensures x == script(old(turn)) && turn == old(turn) + 1
      ensures requests == if x.limiter.None? then old(requests) + 1 else old(requests)
      ensures now == old(now) + x.elapsed
      ensures k <= old(invalidationsLeft) && invalidationsLeft == old(invalidationsLeft) - k
    {
      x := script(turn);
      k := if x.invalidations <= invalidationsLeft then x.invalidations else invalidationsLeft;
      turn, invalidationsLeft := turn + 1, invalidationsLeft - k;
      if x.limiter.None? { requests := requests + 1; }
      now := now + x.elapsed;
      if ctx.None? { ctx := x.ctx; }
    }

    /** The end of a wait for another caller's fetch. */
    method Await() returns (x: Flight, k: nat)
      modifies this`waits, this`invalidationsLeft, this`now, this`ctx
      ensures x == flights(old(waits)) && waits == old(waits) + 1
      ensures now == old(now) + x.elapsed && (x.landing.Outlasts? ==> ctx.Some?)
      ensures k <= old(invalidationsLeft) && invalidationsLeft == old(invalidationsLeft) - k
    {
      x := flights(waits);
      k := if x.invalidations <= invalidationsLeft then x.invalidations else invalidationsLeft;
      waits, invalidationsLeft, now := waits + 1, invalidationsLeft - k, now + x.elapsed;
      if ctx.None? { ctx := if x.landing.Outlasts? then Some(x.landing.why) else x.ctx; }
    }
  }

  // ---- The client ------------------------------------------------------------------------

  /** `epoch` is the leader's local variable of that name. */
  class TokenCall {
    const id: nat
    const epoch: nat
    var done: bool
    var tok: string
    var exp: int
    var err: Option<Error>

    constructor (id: nat, epoch: nat)
      ensures this.id == id && this.epoch == epoch && !done && err == None
    {
      this.id, this.epoch := id, epoch;
      done, tok, exp, err := false, "", ZERO_TIME, None;
    }
  }

  /** A cache apart from what is in flight. */
  function Grounded(c: Cache): Cache { c.(inFlight := None) }

  datatype Decision =
    | Refuse(error: Error)
    | UseCached(tok: string)
    | Join(call: TokenCall)
    | LeadWith(call: TokenCall, epoch: nat)

  /** How one round of `getAccessToken` ended: as a leader, as a follower, or giving up the wait. */
  datatype Try = Led(fetched: Fetched) | Joined(tok: string, err: Option<Error>) | GaveUp

  /** A follower sees what the other caller's fetch came back with, unless it was discarded. */
  predicate Follows(t: Try, x: Flight) {
    match x.landing
    case Lands(Got(tok, _)) => t == Joined(tok, None) || (t.Joined? && t.err == Some(Invalidated))
    case Lands(Failed(e)) => t.Joined? && t.err == Some(e)
    case Panics => t.Joined? && t.err == Some(Panicked)
    case Outlasts(_) => t == GaveUp
  }

  /** The round that decides a result: the last one, or the context that had ended by then. */
  ghost predicate Decides(t: Try, r: Result<string, Error>, c: Cache, now: int, ctx: Option<Error>) {
    match r
    case Ok(tok) => t == Joined(tok, None) || (t == Led(Got(tok, c.expiry)) && c.token == tok && Usable(c, now))
    case Err(e) =>
      || t == Led(Failed(e)) || (t.Joined? && t.err == Some(e) && !Transient(e))
      || (ctx.Some? && (e == ctx.value || (e.Invalidated? && t.Led?)))
  }

  /** How one turn ended: before any request, or with a reply. */
  datatype Turn = Stopped(failure: Failure) | Replied(x: Exchange, used: string)

  /** A turn ends without a request because the limiter, or the token, failed. */
  predicate StopFits(f: Failure, script: nat -> Exchange, now: nat, requireAuth: bool) {
    (f.LimiterFailed? || (requireAuth && f.AuthFailed?)) && Caused(f, script, now, [])
  }

  /** A turn that made a request got the script's answer, and sent a token exactly if it had to. */
  predicate ReplyFits(t: Turn, script: nat -> Exchange, now: nat, requireAuth: bool)
    requires t.Replied?
  {
    && (t.used != "" <==> requireAuth)
    && now > 0 && t.x == script(now - 1) && t.x.limiter.None?
  }

  /** At most five requests a turn, and four for each explicit invalidation met. */
  predicate WithinBudget(before: nat, after: nat, turns: nat, invalidations: int) {
    before <= after <= before + 5 * turns + 4 * invalidations
  }

  class TokenClient {
    const initialBackoff: int
    const library: AT.Library
    var token: string
    var tokenExpiry: int
    var tokenEpoch: nat
    var inFlightCall: TokenCall?
    var nextId: nat

    /** The call in flight has not been closed. */
    ghost predicate Valid()
      reads this, inFlightCall
    {
      inFlightCall != null ==> !inFlightCall.done && inFlightCall.err == None
    }

    constructor (initialBackoff: int, library: AT.Library, token: string, expiry: int)
      ensures Valid() && View() == Cache(token, expiry, 0, None)
    {
      this.initialBackoff, this.library := initialBackoff, library;
      this.token, tokenExpiry, tokenEpoch, inFlightCall, nextId := token, expiry, 0, null, 0;
    }

    /** The cache as the protocol sees it. */
    function View(): Cache
      reads this
    {
      Cache(token, tokenExpiry, tokenEpoch, if inFlightCall == null then None else Some(inFlightCall.id))
    }

    // -- The lock-protected blocks --

    method InvalidateToken(bad: string)
      modifies this`token, this`tokenExpiry, this`tokenEpoch
      ensures View() == Cleared(old(View()), bad)
    {
      if bad == "" || token == bad {
        token, tokenExpiry := "", ZERO_TIME;
        if bad == "" { tokenEpoch := (tokenEpoch + 1) % EPOCHS; }
      }
    }

    method ReadCached(now: int) returns (tok: Option<string>)
      ensures tok == if token != "" && now < tokenExpiry then Some(token) else None
    {
      if token != "" && now < tokenExpiry { return Some(token); }
      return None;
    }

    method Decide(now: int, ctx: Option<Error>) returns (d: Decision)
      modifies this`inFlightCall, this`nextId
      ensures d.Refuse? <==> ctx.Some?
      ensures d.Refuse? ==> d.error == ctx.value
      ensures d.UseCached? <==> ctx.None? && token != "" && now < tokenExpiry
      ensures d.UseCached? ==> d.tok == token
      ensures d.Join? <==> ctx.None? && (token == "" || tokenExpiry <= now) && old(inFlightCall) != null
      ensures d.Join? ==> d.call == inFlightCall
      ensures !d.LeadWith? ==> inFlightCall == old(inFlightCall)
      ensures d.LeadWith? ==> fresh(d.call) && !d.call.done && d.call.err.None? && inFlightCall == d.call
      ensures d.LeadWith? ==> d.epoch == tokenEpoch == d.call.epoch
      ensures d.LeadWith? ==> View() == old(View()).(inFlight := Some(d.call.id)) && d.call.id == old(nextId)
      ensures !d.LeadWith? ==> View() == old(View())
    {
      if ctx.Some? { return Refuse(ctx.value); }
      if token != "" && now < tokenExpiry { return UseCached(token); }
      if inFlightCall != null { return Join(inFlightCall); }
      var call := new TokenCall(nextId, tokenEpoch);
      nextId := nextId + 1;
      inFlightCall := call;
      return LeadWith(call, tokenEpoch);
    }

    /** The leader's closing block; `err` is what it and its followers see. */
    method Publish(call: TokenCall, epoch: nat, f: Fetched) returns (err: Option<Error>)
      requires !call.done && call.err == None
      modifies this`token, this`tokenExpiry, this`inFlightCall, call
      ensures View() == PublishedCache(old(View()), epoch, f)
      ensures err == PublishedError(old(View()), epoch, f) == call.err
      ensures call.done && (err.None? ==> call.tok == f.token && call.exp == f.expiry)
    {
      inFlightCall := null;
      err := if f.Failed? then Some(f.error) else None;
      if err.None? {
        if tokenEpoch == epoch {
          token, tokenExpiry := f.token, f.expiry;
          call.tok, call.exp := f.token, f.expiry;
        } else {
          err := Some(Invalidated);
        }
      }
      call.err := err;
      call.done := true;
    }

    /** The recover block of a fetch that panicked. */
    method PublishPanic(call: TokenCall)
      requires !call.done
      modifies this`inFlightCall, call
      ensures View() == old(View()).(inFlight := None)
      ensures call.done && call.err == Some(Panicked)
    {
      inFlightCall := null;
      call.err := Some(Panicked);
      call.done := true;
    }

    /** `k` explicit invalidations by other callers. */
    method Interfere(k: nat)
      modifies this`token, this`tokenExpiry, this`tokenEpoch
      ensures View() == if k == 0 then old(View())
                else Cache("", ZERO_TIME, (old(tokenEpoch) + k) % EPOCHS, old(View()).inFlight)
    {
      for i := 0 to k
        invariant View() == if i == 0 then old(View())
                    else Cache("", ZERO_TIME, (old(tokenEpoch) + i) % EPOCHS, old(View()).inFlight)
      {
        InvalidateToken("");
      }
    }

    /** Another caller starts to fetch a token, if it finds the cache unusable and nothing in flight. */
    method OtherLeads(now: int)
      requires Valid()
      modifies this`inFlightCall, this`nextId
      ensures Valid() && Grounded(View()) == Grounded(old(View()))
      ensures if old(inFlightCall) == null && !Usable(old(View()), now) then fresh(inFlightCall)
              else inFlightCall == old(inFlightCall)
    {
      var d := Decide(now, None);
    }

    // -- The three functions that call one another --

    /**
     `getAccessToken`. It refuses a dead context, returns a usable cached token as it is, and
     otherwise joins the fetch in flight, if there is one, or leads fetches, again as long as
     the outcome was transient; the last round decides. Every fetch led beyond the first is
     paid for by an explicit invalidation.
     */
    method GetAccessToken(env: Upstream)
      returns (r: Result<string, Error>, ghost joined: Option<Try>, ghost fetches: seq<Fetched>, ghost began: nat)
      requires Valid()
      modifies this, env, inFlightCall
      ensures Valid() && old(env.turn) <= env.turn
      ensures inFlightCall == null || inFlightCall == old(inFlightCall)
      ensures joined.None? && fetches == [] <==>
                old(env.ctx).Some? || (old(token) != "" && old(env.now) < old(tokenExpiry))
      ensures joined.None? && fetches == [] ==>
                && r == (if old(env.ctx).Some? then Err(old(env.ctx).value) else Ok(old(token)))
                && View() == old(View()) && env.now == old(env.now)
                && env.turn == old(env.turn) && env.invalidationsLeft == old(env.invalidationsLeft)
      ensures joined.Some? ==> old(inFlightCall) != null && Follows(joined.value, env.flights(old(env.waits)))
      ensures joined.None? && fetches != [] ==> old(inFlightCall) == null
      ensures joined.Some? && fetches == [] ==> Decides(joined.value, r, View(), env.now, env.ctx)
      ensures fetches != [] ==> Decides(Led(fetches[|fetches| - 1]), r, View(), env.now, env.ctx)
      ensures joined.Some? && fetches != [] ==>
                && joined.value.Joined?
                && joined.value.err in {Some(Canceled), Some(DeadlineExceeded), Some(Invalidated)}
      ensures joined.None? && |fetches| == 1 ==> began == old(tokenEpoch)
      ensures fetches != [] && r.Err? && env.ctx.None? ==>
                r.error == Canceled || r.error == DeadlineExceeded || tokenEpoch == began
      ensures r.Ok? ==> r.value != ""
      ensures r.Err? && r.error.Invalidated? ==> env.ctx.Some?
      ensures env.invalidationsLeft <= old(env.invalidationsLeft)
      ensures |fetches| <= 1 + old(env.invalidationsLeft) - env.invalidationsLeft
      ensures old(env.requests) <= env.requests <= old(env.requests) + 4 * |fetches|
      decreases 3, 2
    {
      joined, fetches, began := None, [], tokenEpoch;
      while true
        invariant Valid() && old(env.turn) <= env.turn
        invariant inFlightCall == if joined.None? && fetches == [] then old(inFlightCall) else null
        invariant env.invalidationsLeft <= old(env.invalidationsLeft)
        invariant |fetches| <= old(env.invalidationsLeft) - env.invalidationsLeft
        invariant old(env.requests) <= env.requests <= old(env.requests) + 4 * |fetches|
        invariant joined.None? && fetches == [] ==>
                    && View() == old(View()) && env.now == old(env.now) && env.ctx == old(env.ctx)
                    && env.waits == old(env.waits) && env.turn == old(env.turn)
                    && env.invalidationsLeft == old(env.invalidationsLeft)
        invariant joined.Some? || fetches != [] ==>
                    && old(env.ctx).None? && !Usable(old(View()), old(env.now))
                    && env.ctx.None? && !Usable(View(), env.now)
        invariant joined.Some? ==> old(inFlightCall) != null && Follows(joined.value, env.flights(old(env.waits)))
        invariant joined.None? && fetches != [] ==> old(inFlightCall) == null
        invariant joined.Some? ==>
                    && joined.value.Joined?
                    && joined.value.err in {Some(Canceled), Some(DeadlineExceeded), Some(Invalidated)}
        invariant joined.None? && fetches == [] ==> tokenEpoch == old(tokenEpoch)
        decreases env.invalidationsLeft, if inFlightCall == null then 0 else 1
      {
        if env.ctx.Some? { return Err(env.ctx.value), joined, fetches, began; }
        var cached := ReadCached(env.now);
        if cached.Some? { return Ok(cached.value), joined, fetches, began; }
        var d := Decide(env.now, env.ctx);
        match d
        case Refuse(e) => return Err(e), joined, fetches, began;
        case UseCached(tok) => return Ok(tok), joined, fetches, began;
        case Join(call) =>
          var t := Follow(env, call);
          joined := Some(t);
          if t.GaveUp? { return Err(env.ctx.value), joined, fetches, began; }
          if t.err.None? { return Ok(t.tok), joined, fetches, began; }
          if env.ctx.Some? { return Err(env.ctx.value), joined, fetches, began; }
          if !Transient(t.err.value) { return Err(t.err.value), joined, fetches, began; }
        case LeadWith(call, epoch) =>
          began := epoch;
          var f, err, again := Lead(env, call, epoch);
          fetches := fetches + [f];
          if err.None? { return Ok(f.token), joined, fetches, began; }
          if !again { return Err(err.value), joined, fetches, began; }
      }
    }

    /** Fetching as the leader: what is published, and whether to start over for want of a lasting epoch. */
    method Lead(env: Upstream, call: TokenCall, epoch: nat) returns (f: Fetched, err: Option<Error>, again: bool)
      requires Valid() && inFlightCall == call && epoch == tokenEpoch
      modifies this, env, call
      ensures inFlightCall == null && old(env.turn) <= env.turn
      ensures err.None? ==> f == Got(token, tokenExpiry) && Usable(View(), env.now)
      ensures err.Some? ==> err.value == if f.Failed? then f.error else Invalidated
      ensures err.Some? && Usable(View(), env.now) ==> Usable(old(View()), old(env.now))
      ensures f.Failed? ==> !f.error.Invalidated?
      ensures again <==>
                && err.Some? && !ContextError(err.value) && env.ctx.None?
                && (err.value.Invalidated? || tokenEpoch != epoch)
      ensures again ==> env.invalidationsLeft < old(env.invalidationsLeft)
      ensures env.invalidationsLeft <= old(env.invalidationsLeft)
      ensures old(env.requests) <= env.requests <= old(env.requests) + 4
      decreases 3, 1
    {
      ghost var outcome, j;
      f, outcome, j := FetchAccessToken(env);
      var epochAfter := tokenEpoch;
      assert epochAfter != epoch ==> env.invalidationsLeft < old(env.invalidationsLeft);
      err := Publish(call, epoch, f);
      again :=
        err.Some? && !ContextError(err.value) && (epochAfter != epoch || err.value.Invalidated?) && env.ctx.None?;
    }

    /** Waiting for another caller's fetch, which lands, panics, or outlasts the own context. */
    method Follow(env: Upstream, call: TokenCall) returns (t: Try)
      requires Valid() && inFlightCall == call
      modifies this`token, this`tokenExpiry, this`tokenEpoch, this`inFlightCall, call, env
      ensures Follows(t, env.flights(old(env.waits)))
      ensures t.GaveUp? ==> env.ctx.Some? && inFlightCall == call
      ensures !t.GaveUp? ==> inFlightCall == null
      ensures Valid() && env.turn == old(env.turn) && env.requests == old(env.requests)
      ensures env.invalidationsLeft <= old(env.invalidationsLeft)
      ensures t.Joined? ==> if t.err.None? then t.tok != "" else Usable(View(), env.now) ==>
                Usable(old(View()), old(env.now))
    {
      var x, k := env.Await();
      Interfere(k);
      match x.landing
      case Outlasts(_) => return GaveUp;
      case Lands(f) =>
        var err := Publish(call, call.epoch, f);
        t := Joined(call.tok, err);
      case Panics =>
        PublishPanic(call);
        t := Joined(call.tok, call.err);
    }

    /**
     Up to four unauthenticated requests; the token, its expiry or the failure is read off the
     one that ends the loop.
     */
    method FetchAccessToken(env: Upstream) returns (f: Fetched, ghost outcome: Result<Body, Failure>, ghost j: Journal)
      requires Valid()
      modifies this, env
      ensures Valid()
      ensures old(inFlightCall) != null ==> inFlightCall == old(inFlightCall)
      ensures old(inFlightCall) == null ==> inFlightCall == null || fresh(inFlightCall)
      ensures Finished(outcome, j, BaseBackoff(initialBackoff), false, env.script, old(env.turn), env.turn, 3)
      ensures f == FetchedFrom(outcome, library.(now := env.now))
      ensures f.Failed? ==> !f.error.Invalidated? && !f.error.Panicked?
      ensures env.requests == old(env.requests) + |j.trace| && old(env.turn) <= env.turn
      ensures env.invalidationsLeft <= old(env.invalidationsLeft)
      ensures env.invalidationsLeft == old(env.invalidationsLeft) ==> Grounded(View()) == Grounded(old(View()))
      ensures Usable(View(), env.now) ==> Usable(old(View()), old(env.now))
      decreases 3, 0
    {
      var body;
      body, j := DoWithRetry(env, false, 3);
      outcome := body;
      if body.Err? { return Failed(Unwrap(body.error)), outcome, j; }
      if body.value.json.None? { return Failed(Error.Upstream(0)), outcome, j; }
      var resp := new AT.AccessTokenResponse(ZERO_TIME);
      var ok := resp.UnmarshalJSON(body.value.json.value, library.(now := env.now));
      if !ok { return Failed(Error.Upstream(0)), outcome, j; }
      var expiry := resp.expiresAt;
      if expiry == ZERO_TIME || !(env.now < expiry) { expiry := env.now + HOUR; }
      return Got(resp.token, expiry), outcome, j;
    }

    /**
     One turn of the retry loop, up to the reply: token, limiter, request, and the clearing
     of a refused token. A cached token is the one sent, and only a refusal clears it.
     */
    method Attempt(env: Upstream, requireAuth: bool) returns (t: Turn)
      requires Valid()
      modifies this, env, if requireAuth then {inFlightCall} else {}
      ensures Valid() && (inFlightCall == null || inFlightCall == old(inFlightCall) || fresh(inFlightCall))
      ensures !requireAuth && old(inFlightCall) != null ==> inFlightCall == old(inFlightCall)
      ensures old(env.turn) <= env.turn
      ensures t.Stopped? ==> StopFits(t.failure, env.script, env.turn, requireAuth)
      ensures t.Replied? ==> old(env.turn) < env.turn && ReplyFits(t, env.script, env.turn, requireAuth)
      ensures t.Replied? && requireAuth && t.x.reply.Response? && t.x.reply.status == 403 ==> token != t.used
      ensures requireAuth && old(env.ctx).None? && Usable(old(View()), old(env.now)) ==>
                && env.turn == old(env.turn) + 1
                && (t.Stopped? ==> t.failure.LimiterFailed?)
                && (t.Replied? ==> t.used == old(token))
                && (env.invalidationsLeft == old(env.invalidationsLeft) ==>
                      var refused := t.Replied? && t.x.reply.Response? && t.x.reply.status == 403;
                      Grounded(View()) == Grounded(if refused then Cleared(old(View()), old(token)) else old(View())))
      ensures !requireAuth ==>
                env.turn == old(env.turn) + 1 && env.requests == old(env.requests) + if t.Replied? then 1 else 0
      ensures !requireAuth && env.invalidationsLeft == old(env.invalidationsLeft) ==>
                Grounded(View()) == Grounded(old(View()))
      ensures !requireAuth && Usable(View(), env.now) ==> Usable(old(View()), old(env.now))
      ensures env.invalidationsLeft <= old(env.invalidationsLeft)
      ensures WithinBudget(old(env.requests), env.requests, 1, old(env.invalidationsLeft) - env.invalidationsLeft)
      decreases if requireAuth then 4 else 0
    {
      var usedToken := "";
      if requireAuth {
        var tok, _, _, _ := GetAccessToken(env);
        if tok.Err? { return Stopped(AuthFailed(tok.error)); }
        if tok.value == "" { return Stopped(EmptyToken); }
        usedToken := tok.value;
      }
      var x, k := env.Exchange();
      Interfere(k);
      if x.leads { OtherLeads(env.now); }
      if x.limiter.Some? { return Stopped(LimiterFailed(x.limiter.value)); }
      if x.reply.Response? && x.reply.status == 403 && requireAuth { InvalidateToken(usedToken); }
      return Replied(x, usedToken);
    }

    /** What a turn leads to: a final result, or a sleep and None. */
    static method Judge(t: Turn, requireAuth: bool, maxRetries: nat, backoff: int, j: Journal,
                        ghost base: int, ghost script: nat -> Exchange, ghost from: nat, ghost upto: nat, now: nat)
      returns (r: Option<Result<Body, Failure>>, k: Journal)
      requires Ongoing(j, base, requireAuth, script, from, upto) && upto <= now
      requires |j.slept| <= maxRetries && backoff == Backoff(base, |j.slept|)
      requires t.Stopped? ==> StopFits(t.failure, script, now, requireAuth)
      requires t.Replied? ==> upto < now && ReplyFits(t, script, now, requireAuth)
      requires !requireAuth ==> now == upto + 1
      ensures t.Stopped? ==> r == Some(Err(t.failure)) && k == j
      ensures t.Replied? ==>
                && k.trace == j.trace + [t.x.reply] && k.turns == j.turns + [now - 1]
                && k.used == if requireAuth then j.used + [t.used] else j.used
      ensures r.Some? ==> Finished(r.value, k, base, requireAuth, script, from, now, maxRetries)
      ensures r.Some? && r.value.Err? && r.value.error.Exhausted? ==> t.Replied? && r.value.error.last == t.x.reply
      ensures r.None? ==> Ongoing(k, base, requireAuth, script, from, now)
      ensures r.None? ==> |k.slept| == |j.slept| + 1 <= maxRetries
    {
      match t
      case Stopped(failure) =>
        StoppedIsExplained(j, base, requireAuth, script, from, upto, now, failure, maxRetries);
        r, k := Some(Err(failure)), j;
      case Replied(x, used) =>
        r, k := JudgeReply(x, used, now - 1, requireAuth, maxRetries, backoff, j, base, script, from, upto);
    }

    static method JudgeReply(x: Exchange, used: string, turn: nat, requireAuth: bool, maxRetries: nat,
                             backoff: int, j: Journal,
                             ghost base: int, ghost script: nat -> Exchange, ghost from: nat, ghost upto: nat)
      returns (r: Option<Result<Body, Failure>>, k: Journal)
      requires Ongoing(j, base, requireAuth, script, from, upto)
      requires |j.slept| <= maxRetries && backoff == Backoff(base, |j.slept|)
      requires upto <= turn && (!requireAuth ==> turn == upto) && (used != "" <==> requireAuth)
      requires x == script(turn) && x.limiter.None?
      ensures k.trace == j.trace + [x.reply] && k.turns == j.turns + [turn]
      ensures k.used == if requireAuth then j.used + [used] else j.used
      ensures r.Some? ==> Finished(r.value, k, base, requireAuth, script, from, turn + 1, maxRetries)
      ensures r.Some? && r.value.Err? && r.value.error.Exhausted? ==> r.value.error.last == x.reply
      ensures r.None? ==> Ongoing(k, base, requireAuth, script, from, turn + 1)
      ensures r.None? ==> |k.slept| == |j.slept| + 1 <= maxRetries
    {
      k := Requested(j, x.reply, turn, requireAuth, used);
      r := Verdict(x.reply, |j.slept| == maxRetries);
      RequestIsFaithful(j, base, requireAuth, script, from, upto, turn, used);
      if r.Some? {
        FinalExplains(j.trace, x.reply, |j.slept|, maxRetries);
      } else {
        SleepIsFaithful(k, base, requireAuth, script, from, turn + 1);
        k := Slept(k, backoff, x.draw);
        OneMoreRetryable(j.trace, x.reply);
        if x.wake.Some? {
          r := Some(Err(SleepFailed(x.wake.value)));
          InterruptionExplains(k.trace, SleepFailed(x.wake.value), |k.slept|, maxRetries);
        }
      }
    }

    /** One pass through the loop body: a final result, or None when the loop goes on after a sleep. */
    method RunTurn(env: Upstream, requireAuth: bool, maxRetries: nat, backoff: int, j: Journal, ghost from: nat)
      returns (r: Option<Result<Body, Failure>>, k: Journal)
      requires Valid()
      requires Ongoing(j, BaseBackoff(initialBackoff), requireAuth, env.script, from, env.turn)
      requires |j.slept| <= maxRetries && backoff == Backoff(BaseBackoff(initialBackoff), |j.slept|)
      modifies this, env, if requireAuth then {inFlightCall} else {}
      ensures Valid() && (inFlightCall == null || inFlightCall == old(inFlightCall) || fresh(inFlightCall))
      ensures !requireAuth && old(inFlightCall) != null ==> inFlightCall == old(inFlightCall)
      ensures old(env.turn) <= env.turn
      ensures r.Some? ==>
                Finished(r.value, k, BaseBackoff(initialBackoff), requireAuth, env.script, from, env.turn, maxRetries)
      ensures requireAuth && r.Some? && r.value.Err? && r.value.error.Exhausted? && Refused(r.value.error.last) ==>
                k.used != [] && token != k.used[|k.used| - 1]
      ensures r.None? ==> Ongoing(k, BaseBackoff(initialBackoff), requireAuth, env.script, from, env.turn)
      ensures r.None? ==> |k.slept| == |j.slept| + 1 <= maxRetries
      ensures !requireAuth ==>
                env.turn == old(env.turn) + 1 && env.requests == old(env.requests) + |k.trace| - |j.trace|
      ensures env.invalidationsLeft <= old(env.invalidationsLeft)
      ensures !requireAuth && env.invalidationsLeft == old(env.invalidationsLeft) ==>
                Grounded(View()) == Grounded(old(View()))
      ensures !requireAuth && Usable(View(), env.now) ==> Usable(old(View()), old(env.now))
      ensures WithinBudget(old(env.requests), env.requests, 1, old(env.invalidationsLeft) - env.invalidationsLeft)
      decreases if requireAuth then 5 else 1
    {
      ghost var upto := env.turn;
      var t := Attempt(env, requireAuth);
      r, k := Judge(t, requireAuth, maxRetries, backoff, j,
                    BaseBackoff(initialBackoff), env.script, from, upto, env.turn);
    }

    /**
     The retry loop. The journal holds the replies to its own requests, the turns they came
     in, the durations it slept and the tokens it sent. Without authentication its turns are
     consecutive. With it, the request budget counts the token fetches too.
     */
    method DoWithRetry(env: Upstream, requireAuth: bool, maxRetries: nat) returns (r: Result<Body, Failure>, j: Journal)
      requires Valid()
      modifies this, env, if requireAuth then {inFlightCall} else {}
      ensures Valid() && (inFlightCall == null || inFlightCall == old(inFlightCall) || fresh(inFlightCall))
      ensures !requireAuth && old(inFlightCall) != null ==> inFlightCall == old(inFlightCall)
      ensures old(env.turn) <= env.turn
      ensures Finished(r, j, BaseBackoff(initialBackoff), requireAuth, env.script, old(env.turn), env.turn, maxRetries)
      ensures requireAuth && r.Err? && r.error.Exhausted? && Refused(r.error.last) ==>
                j.used != [] && token != j.used[|j.used| - 1]
      ensures env.invalidationsLeft <= old(env.invalidationsLeft)
      ensures !requireAuth && env.invalidationsLeft == old(env.invalidationsLeft) ==>
                Grounded(View()) == Grounded(old(View()))
      ensures !requireAuth && Usable(View(), env.now) ==> Usable(old(View()), old(env.now))
      ensures !requireAuth ==> env.requests == old(env.requests) + |j.trace| && old(env.turn) < env.turn
      ensures WithinBudget(old(env.requests), env.requests, maxRetries + 1,
                           old(env.invalidationsLeft) - env.invalidationsLeft)
      decreases if requireAuth then 6 else 2
    {
      var backoff := initialBackoff;
      if backoff <= 0 { backoff := 10 * MILLISECOND; }
      j := Journal([], [], [], []);
      var attempt := 0;
      while attempt <= maxRetries
        invariant Ongoing(j, BaseBackoff(initialBackoff), requireAuth, env.script, old(env.turn), env.turn)
        invariant attempt == |j.slept| <= maxRetries
        invariant backoff == Backoff(BaseBackoff(initialBackoff), attempt)
        invariant Valid() && (inFlightCall == null || inFlightCall == old(inFlightCall) || fresh(inFlightCall))
        invariant !requireAuth && old(inFlightCall) != null ==> inFlightCall == old(inFlightCall)
        invariant old(env.turn) <= env.turn
        invariant !requireAuth ==> env.requests == old(env.requests) + attempt
        invariant env.invalidationsLeft <= old(env.invalidationsLeft)
        invariant !requireAuth && env.invalidationsLeft == old(env.invalidationsLeft) ==>
                    Grounded(View()) == Grounded(old(View()))
        invariant !requireAuth && Usable(View(), env.now) ==> Usable(old(View()), old(env.now))
        invariant WithinBudget(old(env.requests), env.requests, attempt,
                               old(env.invalidationsLeft) - env.invalidationsLeft)
        decreases maxRetries + 1 - attempt
      {
        var final;
        final, j := RunTurn(env, requireAuth, maxRetries, backoff, j, old(env.turn));
        if final.Some? { return final.value, j; }
        backoff := Wrap64(2 * backoff);
        attempt := attempt + 1;
      }
      assert false;
    }
  }
}
