/** What the token cache guarantees in every run that starts from a fresh client. */
module TokenTheorems {
  import opened Prelude
  import opened TokenCache
  import opened TokenSafety

  lemma InitialInv(s: State)
    requires Init(s)
    ensures Inv(s)
  {
  }

  lemma ReachableInv(s0: State, es: seq<Event>, s: State)
    requires Init(s0) && Reaches(s0, es, s)
    ensures Inv(s)
  {
    InitialInv(s0);
    InvRun(s0, es, s);
  }

  // ---- Freshness -------------------------------------------------------------------------

  /**
   Whatever the interleaving, an invocation returns only a token whose fetch began
   at or after the last explicit invalidation that preceded the invocation.
   The bound is the wrap-around of the epoch counter; see `EpochWrapServesStaleToken`.
   */
  lemma ReturnedTokenIsFresh(s0: State, es: seq<Event>, s: State, p: nat)
    requires Init(s0) && Reaches(s0, es, s) && s.invals < 0x1_0000_0000_0000_0000
    requires At(s, p) && s.callers[p].pc.Done? && s.callers[p].pc.result.Ok?
    ensures BornSince(s, s.callers[p].pc.result.value, s.callers[p].pc.src, s.callers[p].joined)
  {
    ReachableInv(s0, es, s);
    assert FreshCaller(s, s.callers[p]);
  }

  /** The token in the cache was fetched entirely after the latest explicit invalidation. */
  lemma CachedTokenIsCurrent(s0: State, es: seq<Event>, s: State)
    requires Init(s0) && Reaches(s0, es, s) && s.invals < 0x1_0000_0000_0000_0000 && s.cache.token != ""
    ensures BornSince(s, s.cache.token, s.src, s.invals)
  {
    ReachableInv(s0, es, s);
  }

  lemma SameResidue(a: int, b: int)
    ensures a % EPOCHS == b % EPOCHS <==> (a - b) % EPOCHS == 0
  {
  }

  /** A fetched token is accepted exactly when a multiple of 2^64 invalidations happened meanwhile. */
  lemma PublishAcceptsIff(s0: State, es: seq<Event>, s: State, p: nat, tok: string, exp: int)
    requires Init(s0) && Reaches(s0, es, s) && Enabled(s, Publish(p, Got(tok, exp)))
    ensures var c := s.callers[p].pc.call;
            Succeeded(Published(s, p, Got(tok, exp)), c) <==>
            (s.invals - s.calls[c].born) % 0x1_0000_0000_0000_0000 == 0
  {
    ReachableInv(s0, es, s);
    var call := s.calls[s.callers[p].pc.call];
    SameResidue(s.invals, call.born);
    assert s.cache.epoch == s.invals % EPOCHS && call.epoch == call.born % EPOCHS;
  }

  lemma {:induction false} ReachesThen(s: State, es: seq<Event>, t: State, fs: seq<Event>, u: State)
    requires Reaches(s, es, t) && Reaches(t, fs, u)
    ensures Reaches(s, es + fs, u)
    decreases |es|
  {
    if es == [] {
      assert es + fs == fs;
    } else {
      ReachesThen(Apply(s, es[0]), es[1..], t, fs, u);
      assert (es + fs)[1..] == es[1..] + fs;
    }
  }

  function Invalidations(n: nat): (es: seq<Event>)
    ensures |es| == n
  {
    if n == 0 then [] else [Invalidate("")] + Invalidations(n - 1)
  }

  lemma OneMore(epoch: nat, n: nat)
    requires epoch < EPOCHS && n > 0
    ensures ((epoch + 1) % EPOCHS + (n - 1)) % EPOCHS == (epoch + n) % EPOCHS
  {
  }

  lemma {:induction false} InvalidatedTimes(s: State, n: nat) returns (t: State)
    requires s.cache.epoch < EPOCHS && s.cache.token == ""
    ensures Reaches(s, Invalidations(n), t)
    ensures t == s.(invals := s.invals + n, cache := t.cache)
    ensures t.cache.inFlight == s.cache.inFlight && t.cache.token == ""
    ensures t.cache.epoch == (s.cache.epoch + n) % EPOCHS
    decreases n
  {
    if n == 0 {
      t := s;
    } else {
      t := InvalidatedTimes(Apply(s, Invalidate("")), n - 1);
      OneMore(s.cache.epoch, n);
      assert Invalidations(n)[0] == Invalidate("") && Invalidations(n)[1..] == Invalidations(n - 1);
    }
  }

  lemma FourEvents(s: State, e0: Event, e1: Event, e2: Event, e3: Event)
    requires Enabled(s, e0)
    requires var s1 := Apply(s, e0); Enabled(s1, e1)
    requires var s2 := Apply(Apply(s, e0), e1); Enabled(s2, e2)
    requires var s3 := Apply(Apply(Apply(s, e0), e1), e2); Enabled(s3, e3)
    ensures Reaches(s, [e0, e1, e2, e3], Apply(Apply(Apply(Apply(s, e0), e1), e2), e3))
  {
    var s1 := Apply(s, e0);
    var s2 := Apply(s1, e1);
    var s3 := Apply(s2, e2);
    var s4 := Apply(s3, e3);
    assert [e0, e1, e2, e3][1..] == [e1, e2, e3];
    assert [e1, e2, e3][1..] == [e2, e3];
    assert [e2, e3][1..] == [e3];
    assert Reaches(s4, [], s4);
    assert Reaches(s3, [e3], s4);
    assert Reaches(s2, [e2, e3], s4);
    assert Reaches(s1, [e1, e2, e3], s4);
  }

  /** A first caller finds no token and starts fetching one. */
  lemma FirstCallerFetches(s0: State) returns (es: seq<Event>, s: State)
    requires Init(s0) && s0.cache.token == ""
    ensures Reaches(s0, es, s)
    ensures s == s0.(cache := s0.cache.(inFlight := Some(0)),
                     calls := [Call(0, "", ZERO_TIME, None, 0, 0, 0)],
                     callers := [Caller(Fetch(0), None, 0)])
  {
    es := [Arrive, CheckContext(0), FastRead(0), LockAndDecide(0)];
    FourEvents(s0, Arrive, CheckContext(0), FastRead(0), LockAndDecide(0));
    s := Apply(Apply(Apply(Apply(s0, Arrive), CheckContext(0)), FastRead(0)), LockAndDecide(0));
  }

  /** That fetch publishes while a second caller arrives, which then reads the cache. */
  lemma SecondCallerReads(s: State) returns (es: seq<Event>, t: State)
    requires s.calls == [Call(0, "", ZERO_TIME, None, 0, 0, 0)]
    requires s.callers == [Caller(Fetch(0), None, 0)] && s.cache.epoch == 0
    ensures Reaches(s, es, t) && t.invals == s.invals && At(t, 1)
    ensures t.callers[1] == Caller(Done(Ok("t"), ViaCache, Some(0)), None, s.invals)
    ensures |t.calls| == 1 && t.calls[0].born == 0
  {
    var f := Got("t", s.now + 1);
    es := [Arrive, Publish(0, f), CheckContext(1), FastRead(1)];
    FourEvents(s, Arrive, Publish(0, f), CheckContext(1), FastRead(1));
    t := Apply(Apply(Apply(Apply(s, Arrive), Publish(0, f)), CheckContext(1)), FastRead(1));
  }

  /**
   The bound in `ReturnedTokenIsFresh` is needed: 2^64 explicit invalidations during
   one fetch bring the epoch back, and an invocation that began after all of them is
   served the token fetched before them.
   */
  lemma EpochWrapServesStaleToken(s0: State) returns (es: seq<Event>, s: State)
    requires Init(s0) && s0.cache.token == ""
    ensures Reaches(s0, es, s) && s.invals == 0x1_0000_0000_0000_0000 && At(s, 1)
    ensures s.callers[1].pc == Done(Ok("t"), ViaCache, Some(0)) && s.callers[1].joined == s.invals
    ensures !BornSince(s, "t", Some(0), s.callers[1].joined)
  {
    var begin, a := FirstCallerFetches(s0);
    var b := InvalidatedTimes(a, EPOCHS);
    ReachesThen(s0, begin, a, Invalidations(EPOCHS), b);
    var finish;
    finish, s := SecondCallerReads(b);
    es := begin + Invalidations(EPOCHS) + finish;
    ReachesThen(s0, begin + Invalidations(EPOCHS), b, finish, s);
  }

  // ---- Expiry ----------------------------------------------------------------------------

  /** The cached expiry is the one its fetch came back with, or the configured one. */
  ghost predicate ExpiryInv(s: State, seedExpiry: int) {
    s.cache.token != "" ==>
      match s.src
      case None => s.cache.token == s.seed && s.cache.expiry == seedExpiry
      case Some(c) => Closed(s, c) && s.calls[c].tok == s.cache.token && s.calls[c].exp == s.cache.expiry
  }

  lemma ExpiryStep(s: State, e: Event, seedExpiry: int)
    requires FlightInv(s) && ExpiryInv(s, seedExpiry) && Enabled(s, e)
    ensures ExpiryInv(Apply(s, e), seedExpiry) && Apply(s, e).seed == s.seed
  {
    ClosedCallsStay(s, e);
  }

  lemma {:induction false} ExpiryRun(s: State, es: seq<Event>, t: State, seedExpiry: int)
    requires FlightInv(s) && ExpiryInv(s, seedExpiry) && Reaches(s, es, t)
    ensures ExpiryInv(t, seedExpiry) && t.seed == s.seed
    decreases |es|
  {
    if es != [] {
      FlightStep(s, es[0]);
      ExpiryStep(s, es[0], seedExpiry);
      ExpiryRun(Apply(s, es[0]), es[1..], t, seedExpiry);
    }
  }

  /** The event gives caller `p` its result, from the cache. */
  predicate AnsweredFromCache(s: State, e: Event, p: nat)
    requires Enabled(s, e)
  {
    && At(s, p) && !s.callers[p].pc.Done?
    && At(Apply(s, e), p) && Apply(s, e).callers[p].pc.Done? && Apply(s, e).callers[p].pc.via == ViaCache
  }

  /** A token from the cache is non-empty and, at the moment it is returned, before the expiry it was fetched with. */
  lemma CachedAnswersAreUnexpired(s0: State, es: seq<Event>, s: State, e: Event, p: nat)
    requires Init(s0) && Reaches(s0, es, s) && Enabled(s, e) && AnsweredFromCache(s, e, p)
    ensures var pc := Apply(s, e).callers[p].pc;
            && pc.result.Ok? && pc.result.value != ""
            && match pc.src
               case Some(c) => Closed(s, c) && s.calls[c].tok == pc.result.value && s.now < s.calls[c].exp
               case None => pc.result.value == s0.cache.token && s.now < s0.cache.expiry
  {
    InitialInv(s0);
    ReachableInv(s0, es, s);
    ExpiryRun(s0, es, s, s0.cache.expiry);
  }

  /** A read of the cache answers exactly when it holds an unexpired token. */
  lemma CacheAnswersIff(s: State, p: nat)
    requires At(s, p)
    ensures s.callers[p].pc.Fast? ==>
              (AnsweredFromCache(s, FastRead(p), p) <==> s.cache.token != "" && s.now < s.cache.expiry)
    ensures s.callers[p].pc.Lock? && s.callers[p].ctx.None? ==>
              (AnsweredFromCache(s, LockAndDecide(p), p) <==> s.cache.token != "" && s.now < s.cache.expiry)
  {
  }

  /** A fetch starts only for a live context, when there is no unexpired token and no other fetch. */
  lemma FetchesStartWhenNeeded(s: State, e: Event)
    requires Enabled(s, e)
    ensures |Apply(s, e).calls| > |s.calls| <==>
              && e.LockAndDecide? && s.callers[e.p].ctx.None? && s.cache.inFlight.None?
              && (s.cache.token == "" || s.cache.expiry <= s.now)
  {
  }

  /** A context that has ended is returned at the next check, before the lock and under it, and ends a wait. */
  lemma DeadContextsReturn(s: State, e: Event)
    requires Enabled(s, e) && (e.CheckContext? || e.LockAndDecide? || e.GiveUp?) && s.callers[e.p].ctx.Some?
    ensures Apply(s, e).callers[e.p].pc == Done(Err(s.callers[e.p].ctx.value), ViaContext, None)
  {
  }

  /**
   Who changes the cached token: a fetch that came back with one in the epoch it began in, and
   an invalidation, explicit or of the very token cached. A failed, discarded or panicked
   fetch, and every other event, leaves token, expiry and epoch as they are.
   */
  lemma CacheWriters(s: State, e: Event)
    requires Enabled(s, e)
    ensures var before, after := s.cache, Apply(s, e).cache;
            if e.Publish? && e.fetched.Got? && s.calls[s.callers[e.p].pc.call].epoch == before.epoch then
              after == Cache(e.fetched.token, e.fetched.expiry, before.epoch, None)
            else if e.Invalidate? && (e.bad == "" || e.bad == before.token) then
              && after.token == "" && after.inFlight == before.inFlight
              && after.epoch == if e.bad == "" then (before.epoch + 1) % 0x1_0000_0000_0000_0000 else before.epoch
            else after == before.(inFlight := after.inFlight)
    ensures e.Publish? || e.PanicPublish? ==> Apply(s, e).cache.inFlight.None?
  {
  }

  // ---- Retries ---------------------------------------------------------------------------

  /** A success is returned even if the context has ended meanwhile; a failure of a joined fetch only if it has not. */
  lemma SuccessIsReturned(s: State, e: Event)
    requires Enabled(s, e) && (e.Wake? || e.Settle?)
    ensures e.Wake? ==>
              var caller := s.callers[e.p];
              var call, pc := s.calls[caller.pc.call], Apply(s, e).callers[e.p].pc;
              && (call.err.None? ==> pc == Done(Ok(call.tok), ViaFollow(caller.pc.call), Some(caller.pc.call)))
              && (call.err.Some? && pc.Done? ==>
                    pc.result == Err(if caller.ctx.Some? then caller.ctx.value else call.err.value))
    ensures e.Settle? ==>
              var was, pc := s.callers[e.p].pc, Apply(s, e).callers[e.p].pc;
              && (was.err.None? ==> pc == Done(Ok(was.tok), ViaLead(was.call), Some(was.call)))
              && (was.err.Some? && pc.Done? ==> pc.result == Err(was.err.value))
  {
  }

  /** A leader takes along the epoch of its publication, which tells the invalidations so far. */
  lemma PublishRemembersEpoch(s0: State, es: seq<Event>, s: State, p: nat, f: Fetched)
    requires Init(s0) && Reaches(s0, es, s) && Enabled(s, Publish(p, f))
    ensures var pc := Published(s, p, f).callers[p].pc;
            && pc.Settling? && pc.call == s.callers[p].pc.call
            && pc.epochAfter == s.invals % 0x1_0000_0000_0000_0000
            && s.calls[pc.call].epoch == s.calls[pc.call].born % 0x1_0000_0000_0000_0000
  {
    ReachableInv(s0, es, s);
  }

  /**
   Who tries again: a follower whose leader was cancelled, timed out or overtaken by an
   explicit invalidation, and a leader whose fetch failed otherwise, or was discarded, while
   the epoch moved; both only with a live context of their own.
   */
  lemma RetriesIff(s: State, e: Event)
    requires Enabled(s, e) && (e.Wake? || e.Settle?)
    ensures e.Wake? ==>
              var call := s.calls[s.callers[e.p].pc.call];
              Apply(s, e).callers[e.p].pc.Top? <==>
                && s.callers[e.p].ctx.None?
                && (call.err == Some(Canceled) || call.err == Some(DeadlineExceeded) || call.err == Some(Invalidated))
    ensures e.Settle? ==>
              var pc := s.callers[e.p].pc;
              Apply(s, e).callers[e.p].pc.Top? <==>
                && s.callers[e.p].ctx.None? && pc.err.Some?
                && pc.err != Some(Canceled) && pc.err != Some(DeadlineExceeded)
                && (pc.err == Some(Invalidated) || pc.epochAfter != s.calls[pc.call].epoch)
    ensures !Apply(s, e).callers[e.p].pc.Top? ==> Apply(s, e).callers[e.p].pc.Done?
  {
  }

  // ---- Single flight ---------------------------------------------------------------------

  /** At most one caller fetches, and it is the one `inFlightCall` speaks of. */
  lemma SingleFlight(s0: State, es: seq<Event>, s: State)
    requires Init(s0) && Reaches(s0, es, s)
    ensures forall p: nat, q: nat | At(s, p) && At(s, q) && s.callers[p].pc.Fetch? && s.callers[q].pc.Fetch? :: p == q
    ensures s.cache.inFlight.Some? <==> exists p: nat :: At(s, p) && s.callers[p].pc.Fetch?
    ensures forall c | 0 <= c < |s.calls| :: s.calls[c].closes == 0 <==> s.cache.inFlight == Some(c)
  {
    ReachableInv(s0, es, s);
    forall p: nat, q: nat | At(s, p) && At(s, q) && s.callers[p].pc.Fetch? && s.callers[q].pc.Fetch?
      ensures p == q
    {
      assert s.calls[s.callers[p].pc.call].leader == p && s.calls[s.callers[q].pc.call].leader == q;
    }
    if s.cache.inFlight.Some? {
      assert s.callers[s.calls[s.cache.inFlight.value].leader].pc.Fetch?;
    }
  }

  /** `done` is closed at most once, so neither way of publishing ever closes a closed channel. */
  lemma ClosedOnce(s0: State, es: seq<Event>, s: State, p: nat, f: Fetched)
    requires Init(s0) && Reaches(s0, es, s)
    ensures forall c | 0 <= c < |s.calls| :: s.calls[c].closes <= 1
    ensures Enabled(s, Publish(p, f)) || Enabled(s, PanicPublish(p)) ==> s.calls[s.callers[p].pc.call].closes == 0
  {
    ReachableInv(s0, es, s);
  }

  /** The events that move caller `p` when it is next scheduled. */
  ghost predicate CanMove(s: State, p: nat) {
    || Enabled(s, CheckContext(p)) || Enabled(s, FastRead(p)) || Enabled(s, LockAndDecide(p))
    || Enabled(s, Wake(p)) || Enabled(s, Settle(p))
    || forall f :: Enabled(s, Publish(p, f))
  }

  /** Nobody is stranded: an unfinished invocation can move, or the live leader it waits for can. */
  lemma NoStrandedCaller(s0: State, es: seq<Event>, s: State, p: nat)
    requires Init(s0) && Reaches(s0, es, s)
    requires At(s, p) && !s.callers[p].pc.Done? && !s.callers[p].pc.Crashed?
    ensures CanMove(s, p) ||
            (&& s.callers[p].pc.Wait? && s.callers[p].pc.call < |s.calls|
             && var l := s.calls[s.callers[p].pc.call].leader;
                l != p && At(s, l) && s.callers[l].pc == Fetch(s.callers[p].pc.call) && CanMove(s, l))
  {
    ReachableInv(s0, es, s);
    match s.callers[p].pc
    case Wait(c) =>
      if !Closed(s, c) {
        var l := s.calls[c].leader;
        assert forall f :: Enabled(s, Publish(l, f));
      }
    case Fetch(_) => assert forall f :: Enabled(s, Publish(p, f));
    case _ =>
  }

  // ---- Outcomes --------------------------------------------------------------------------

  /**
   Every finished invocation returns its own context's error, a cached token, or exactly
   what the call it led or joined published; a follower never returns a transient error
   of its leader, and with a live context nobody returns the invalidation error.
   */
  lemma OutcomesAreAccounted(s0: State, es: seq<Event>, s: State, p: nat)
    requires Init(s0) && Reaches(s0, es, s) && At(s, p) && s.callers[p].pc.Done?
    ensures Accounted(s, s.callers[p])
    ensures s.callers[p].pc.result == Err(Invalidated) ==> s.callers[p].ctx.Some?
  {
    ReachableInv(s0, es, s);
    assert Accounted(s, s.callers[p]);
  }

  /** A published result is never rewritten by any later event. */
  lemma {:induction false} PublishedResultsStay(s: State, es: seq<Event>, t: State, c: nat)
    requires Inv(s) && Reaches(s, es, t) && Closed(s, c)
    ensures Closed(t, c) && t.calls[c] == s.calls[c]
    decreases |es|
  {
    if es != [] {
      ClosedCallsStay(s, es[0]);
      InvStep(s, es[0]);
      PublishedResultsStay(Apply(s, es[0]), es[1..], t, c);
    }
  }
}
