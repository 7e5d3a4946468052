/** Safety of the token cache over every interleaving. */
module TokenSafety {
  import opened Prelude
  import opened TokenCache

  predicate Closed(s: State, c: nat) { c < |s.calls| && s.calls[c].closes > 0 }

  /** Call `c` closed with a token. */
  predicate Succeeded(s: State, c: nat) { Closed(s, c) && s.calls[c].err.None? }

  /** Single flight: the only unclosed call is the one in flight, and its leader is fetching. */
  ghost predicate FlightInv(s: State) {
    && (s.cache.inFlight.Some? ==>
          var c := s.cache.inFlight.value;
          && c + 1 == |s.calls|
          && At(s, s.calls[c].leader) && s.callers[s.calls[c].leader].pc == Fetch(c))
    && (forall c | 0 <= c < |s.calls| ::
          s.calls[c].closes == if s.cache.inFlight == Some(c) then 0 else 1)
    && (forall p | 0 <= p < |s.callers| && s.callers[p].pc.Fetch? ::
          && s.cache.inFlight == Some(s.callers[p].pc.call)
          && s.callers[p].pc.call < |s.calls|
          && s.calls[s.callers[p].pc.call].leader == p)
    && (forall p | 0 <= p < |s.callers| && s.callers[p].pc.Wait? :: s.callers[p].pc.call < |s.calls|)
  }

  /** A settling leader remembers exactly what it published. */
  ghost predicate Remembers(s: State, k: Caller) {
    k.pc.Settling? ==>
      && Closed(s, k.pc.call)
      && s.calls[k.pc.call].err == k.pc.err
      && (k.pc.err.None? ==> s.calls[k.pc.call].tok == k.pc.tok)
  }

  ghost predicate SettleInv(s: State) { forall p | 0 <= p < |s.callers| :: Remembers(s, s.callers[p]) }

  /** Every result returned so far is accounted for. */
  ghost predicate Accounted(s: State, k: Caller) {
    k.pc.Done? ==>
      match k.pc.via
      case ViaContext => k.ctx.Some? && k.pc.result == Err(k.ctx.value) && ContextError(k.ctx.value)
      case ViaCache => k.pc.result.Ok? && k.pc.result.value != ""
      case ViaFollow(c) =>
        && Closed(s, c)
        && k.pc.result == (if s.calls[c].err.None? then Ok(s.calls[c].tok) else Err(s.calls[c].err.value))
        && (k.pc.result.Err? ==> !Transient(k.pc.result.error))
        && (k.pc.result.Ok? ==> k.pc.src == Some(c))
      case ViaLead(c) =>
        && Closed(s, c)
        && k.pc.result == (if s.calls[c].err.None? then Ok(s.calls[c].tok) else Err(s.calls[c].err.value))
        && (k.pc.result == Err(Invalidated) ==> k.ctx.Some?)
        && (k.pc.result.Ok? ==> k.pc.src == Some(c))
  }

  ghost predicate ResultInv(s: State) {
    && (forall p | 0 <= p < |s.callers| :: Accounted(s, s.callers[p]))
    && (forall p | 0 <= p < |s.callers| && s.callers[p].ctx.Some? :: ContextError(s.callers[p].ctx.value))
  }

  /** `tok` is the token fetched by `src`, a call that began no earlier than invalidation number `since`. */
  ghost predicate BornSince(s: State, tok: string, src: Option<nat>, since: nat) {
    match src
    case None => tok == s.seed && since == 0
    case Some(c) => Succeeded(s, c) && s.calls[c].tok == tok && since <= s.calls[c].born
  }

  ghost predicate EpochInv(s: State) {
    && s.cache.epoch == s.invals % EPOCHS
    && (forall c | 0 <= c < |s.calls| ::
          s.calls[c].born <= s.invals && s.calls[c].epoch == s.calls[c].born % EPOCHS)
    && (forall p | 0 <= p < |s.callers| :: s.callers[p].joined <= s.invals)
  }

  /** No stale token is handed to, or held by, caller `k`. */
  ghost predicate FreshCaller(s: State, k: Caller) {
    && (k.pc.Wait? && Succeeded(s, k.pc.call) ==> k.joined <= s.calls[k.pc.call].born)
    && (k.pc.Settling? && k.pc.err.None? ==> BornSince(s, k.pc.tok, Some(k.pc.call), k.joined))
    && (k.pc.Done? && k.pc.result.Ok? ==> BornSince(s, k.pc.result.value, k.pc.src, k.joined))
  }

  /** Nothing stale is cached, handed to a follower, or returned. */
  ghost predicate FreshInv(s: State) {
    && (s.cache.token != "" ==> BornSince(s, s.cache.token, s.src, s.invals))
    && (forall p | 0 <= p < |s.callers| :: FreshCaller(s, s.callers[p]))
  }

  ghost predicate Inv(s: State) {
    && FlightInv(s) && SettleInv(s) && ResultInv(s) && EpochInv(s)
    && (s.invals < EPOCHS ==> FreshInv(s))
  }

  /** Moving a caller between places other than fetching leaves single flight alone. */
  lemma FlightGoto(s: State, p: nat, pc: Pc)
    requires FlightInv(s) && At(s, p)
    requires !s.callers[p].pc.Fetch? && !pc.Fetch? && (pc.Wait? ==> pc.call < |s.calls|)
    ensures FlightInv(Goto(s, p, pc))
  {
  }

  lemma FlightLead(s: State, p: nat)
    requires FlightInv(s) && At(s, p) && s.callers[p].pc.Lock? && s.cache.inFlight.None?
    ensures FlightInv(Lead(s, p))
  {
  }

  lemma FlightPublish(s: State, p: nat, f: Fetched)
    requires FlightInv(s) && Enabled(s, Publish(p, f))
    ensures FlightInv(Published(s, p, f))
  {
  }

  lemma FlightPanic(s: State, p: nat)
    requires FlightInv(s) && Enabled(s, PanicPublish(p))
    ensures FlightInv(PanicPublished(s, p))
  {
  }

  lemma FlightOutside(s: State, e: Event)
    requires FlightInv(s) && Enabled(s, e) && (e.Arrive? || e.Invalidate? || e.Tick? || e.Cancel?)
    ensures FlightInv(Apply(s, e))
  {
  }

  lemma FlightStep(s: State, e: Event)
    requires FlightInv(s) && Enabled(s, e)
    ensures FlightInv(Apply(s, e))
  {
    var t := Apply(s, e);
    match e
    case CheckContext(p) => FlightGoto(s, p, t.callers[p].pc);
    case FastRead(p) => FlightGoto(s, p, t.callers[p].pc);
    case LockAndDecide(p) =>
      if t.callers[p].pc.Fetch? { FlightLead(s, p); } else { FlightGoto(s, p, t.callers[p].pc); }
    case GiveUp(p) => FlightGoto(s, p, t.callers[p].pc);
    case Wake(p) => FlightGoto(s, p, t.callers[p].pc);
    case Settle(p) => FlightGoto(s, p, t.callers[p].pc);
    case Publish(p, f) => FlightPublish(s, p, f);
    case PanicPublish(p) => FlightPanic(s, p);
    case _ => FlightOutside(s, e);
  }

  /** Write-once: a closed call keeps its result, token and birth whatever happens next. */
  lemma ClosedCallsStay(s: State, e: Event)
    requires FlightInv(s) && Enabled(s, e)
    ensures |s.calls| <= |Apply(s, e).calls|
    ensures forall c: nat | Closed(s, c) :: Closed(Apply(s, e), c) && Apply(s, e).calls[c] == s.calls[c]
  {
  }

  /** The caller an event moves, if any. */
  function Subject(e: Event): Option<nat> {
    match e
    case Arrive => None
    case Invalidate(_) => None
    case Tick(_) => None
    case _ => Some(e.p)
  }

  lemma OthersStay(s: State, e: Event, q: nat)
    requires Enabled(s, e) && At(s, q) && Subject(e) != Some(q)
    ensures At(Apply(s, e), q) && Apply(s, e).callers[q] == s.callers[q]
  {
  }

  lemma SettlePublish(s: State, p: nat, f: Fetched)
    requires FlightInv(s) && SettleInv(s) && Enabled(s, Publish(p, f))
    ensures SettleInv(Published(s, p, f))
  {
    forall q | 0 <= q < |s.callers| && q != p ensures Remembers(Published(s, p, f), s.callers[q]) {
      assert Remembers(s, s.callers[q]);
    }
  }

  lemma SettleStep(s: State, e: Event)
    requires FlightInv(s) && SettleInv(s) && Enabled(s, e)
    ensures SettleInv(Apply(s, e))
  {
    if e.Publish? {
      SettlePublish(s, e.p, e.fetched);
    } else {
      var t := Apply(s, e);
      ClosedCallsStay(s, e);
      forall q | 0 <= q < |t.callers| ensures Remembers(t, t.callers[q]) {
        if At(s, q) { assert Remembers(s, s.callers[q]); }
        if At(s, q) && Subject(e) != Some(q) { OthersStay(s, e, q); }
      }
    }
  }

  lemma AccountedStays(s: State, e: Event, k: Caller)
    requires FlightInv(s) && Enabled(s, e) && Accounted(s, k)
    ensures Accounted(Apply(s, e), k)
  {
    ClosedCallsStay(s, e);
  }

  lemma WokenAccounted(s: State, p: nat)
    requires FlightInv(s) && ResultInv(s) && Enabled(s, Wake(p))
    ensures ResultInv(Woken(s, p))
  {
    var t := Woken(s, p);
    forall q | 0 <= q < |t.callers| && q != p ensures Accounted(t, t.callers[q]) {
      assert Accounted(s, s.callers[q]);
    }
  }

  lemma SettledAccounted(s: State, p: nat)
    requires SettleInv(s) && ResultInv(s) && Enabled(s, Settle(p))
    ensures ResultInv(Settled(s, p))
  {
    var t := Settled(s, p);
    forall q | 0 <= q < |t.callers| && q != p ensures Accounted(t, t.callers[q]) {
      assert Accounted(s, s.callers[q]);
    }
  }

  lemma OtherAccounted(s: State, e: Event, q: nat)
    requires FlightInv(s) && ResultInv(s) && Enabled(s, e) && !e.Wake? && !e.Settle?
    requires At(Apply(s, e), q)
    ensures Accounted(Apply(s, e), Apply(s, e).callers[q])
  {
    if At(s, q) {
      assert Accounted(s, s.callers[q]);
      if Subject(e) != Some(q) {
        OthersStay(s, e, q);
        AccountedStays(s, e, s.callers[q]);
      }
    }
  }

  lemma ResultStep(s: State, e: Event)
    requires FlightInv(s) && SettleInv(s) && ResultInv(s) && Enabled(s, e)
    ensures ResultInv(Apply(s, e))
  {
    var t := Apply(s, e);
    match e
    case Wake(p) => WokenAccounted(s, p);
    case Settle(p) => SettledAccounted(s, p);
    case _ =>
      forall q | 0 <= q < |t.callers| ensures Accounted(t, t.callers[q]) {
        OtherAccounted(s, e, q);
      }
  }

  lemma EpochStep(s: State, e: Event)
    requires EpochInv(s) && Enabled(s, e)
    ensures EpochInv(Apply(s, e))
    ensures s.invals <= Apply(s, e).invals
  {
  }

  lemma BornStays(s: State, e: Event, tok: string, src: Option<nat>, since: nat)
    requires FlightInv(s) && Enabled(s, e) && BornSince(s, tok, src, since)
    ensures BornSince(Apply(s, e), tok, src, since)
  {
    ClosedCallsStay(s, e);
  }

  /** A token that its epoch admits to the cache began after the latest invalidation. */
  lemma FreshCachePublish(s: State, p: nat, f: Fetched)
    requires Inv(s) && Enabled(s, Publish(p, f)) && s.invals < EPOCHS
    requires PublishedError(s.cache, s.calls[s.callers[p].pc.call].epoch, f).None?
    ensures var t := Published(s, p, f); BornSince(t, t.cache.token, t.src, t.invals)
  {
  }

  lemma FreshCacheStep(s: State, e: Event)
    requires Inv(s) && FreshInv(s) && Enabled(s, e) && Apply(s, e).invals < EPOCHS
    ensures var t := Apply(s, e); t.cache.token != "" ==> BornSince(t, t.cache.token, t.src, t.invals)
  {
    if e.Publish? && PublishedError(s.cache, s.calls[s.callers[e.p].pc.call].epoch, e.fetched).None? {
      FreshCachePublish(s, e.p, e.fetched);
    } else if s.cache.token != "" {
      BornStays(s, e, s.cache.token, s.src, s.invals);
    }
  }

  lemma FreshPublish(s: State, p: nat, f: Fetched, q: nat)
    requires Inv(s) && FreshInv(s) && Enabled(s, Publish(p, f)) && s.invals < EPOCHS && At(s, q)
    ensures FreshCaller(Published(s, p, f), Published(s, p, f).callers[q])
  {
    assert FreshCaller(s, s.callers[q]);
  }

  lemma FreshBystander(s: State, e: Event, k: Caller)
    requires FlightInv(s) && Enabled(s, e) && !e.Publish? && FreshCaller(s, k)
    requires k.pc.Wait? ==> k.pc.call < |s.calls|
    ensures FreshCaller(Apply(s, e), k)
  {
    ClosedCallsStay(s, e);
    if k.pc.Wait? && !Closed(s, k.pc.call) { assert !Succeeded(Apply(s, e), k.pc.call); }
  }

  lemma FreshDecide(s: State, p: nat)
    requires Inv(s) && FreshInv(s) && Enabled(s, LockAndDecide(p))
    ensures FreshCaller(Decide(s, p), Decide(s, p).callers[p])
  {
  }

  lemma FreshWake(s: State, p: nat)
    requires Inv(s) && FreshInv(s) && Enabled(s, Wake(p))
    ensures FreshCaller(Woken(s, p), Woken(s, p).callers[p])
  {
    assert FreshCaller(s, s.callers[p]);
  }

  lemma FreshSettle(s: State, p: nat)
    requires Inv(s) && FreshInv(s) && Enabled(s, Settle(p))
    ensures FreshCaller(Settled(s, p), Settled(s, p).callers[p])
  {
    assert FreshCaller(s, s.callers[p]);
  }

  lemma FreshCancel(s: State, p: nat, why: Error)
    requires Inv(s) && FreshInv(s) && Enabled(s, Cancel(p, why))
    ensures FreshCaller(Apply(s, Cancel(p, why)), Apply(s, Cancel(p, why)).callers[p])
  {
    assert FreshCaller(s, s.callers[p]);
  }

  lemma FreshReader(s: State, e: Event)
    requires Inv(s) && FreshInv(s) && Enabled(s, e) && (e.CheckContext? || e.FastRead? || e.GiveUp? || e.PanicPublish?)
    ensures FreshCaller(Apply(s, e), Apply(s, e).callers[e.p])
  {
  }

  lemma FreshMover(s: State, e: Event)
    requires Inv(s) && FreshInv(s) && Enabled(s, e) && !e.Publish? && Subject(e).Some?
    ensures FreshCaller(Apply(s, e), Apply(s, e).callers[e.p])
  {
    match e
    case LockAndDecide(p) => FreshDecide(s, p);
    case Wake(p) => FreshWake(s, p);
    case Settle(p) => FreshSettle(s, p);
    case Cancel(p, why) => FreshCancel(s, p, why);
    case _ => FreshReader(s, e);
  }

  lemma FreshCallerStep(s: State, e: Event, q: nat)
    requires Inv(s) && FreshInv(s) && Enabled(s, e) && !e.Publish? && At(Apply(s, e), q)
    ensures FreshCaller(Apply(s, e), Apply(s, e).callers[q])
  {
    if Subject(e) == Some(q) {
      FreshMover(s, e);
    } else if At(s, q) {
      OthersStay(s, e, q);
      assert FreshCaller(s, s.callers[q]);
      FreshBystander(s, e, s.callers[q]);
    }
  }

  lemma FreshStep(s: State, e: Event)
    requires Inv(s) && FreshInv(s) && Enabled(s, e) && Apply(s, e).invals < EPOCHS
    ensures FreshInv(Apply(s, e))
  {
    var t := Apply(s, e);
    FreshCacheStep(s, e);
    forall q | 0 <= q < |t.callers| ensures FreshCaller(t, t.callers[q]) {
      if e.Publish? { FreshPublish(s, e.p, e.fetched, q); } else { FreshCallerStep(s, e, q); }
    }
  }

  lemma InvStep(s: State, e: Event)
    requires Inv(s) && Enabled(s, e)
    ensures Inv(Apply(s, e))
  {
    FlightStep(s, e);
    SettleStep(s, e);
    ResultStep(s, e);
    EpochStep(s, e);
    if Apply(s, e).invals < EPOCHS { FreshStep(s, e); }
  }

  lemma {:induction false} InvRun(s: State, es: seq<Event>, t: State)
    requires Inv(s) && Reaches(s, es, t)
    ensures Inv(t)
    decreases |es|
  {
    if es != [] {
      InvStep(s, es[0]);
      InvRun(Apply(s, es[0]), es[1..], t);
    }
  }
}
