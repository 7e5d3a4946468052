/** How many token fetches the 403s of any number of callers can cause. */
module TokenRenewal {
  import opened Prelude
  import opened TokenCache
  import opened TokenSafety
  import opened TokenTheorems

  /** No explicit invalidation, failed fetch or expiry: only 403s retire tokens. */
  predicate Calm(s: State, e: Event) {
    match e
    case Invalidate(bad) => bad != ""
    case PanicPublish(_) => false
    case Publish(_, f) => f.Got? && f.token != "" && s.now < f.expiry
    case Tick(d) => s.cache.token != "" ==> s.now + d < s.cache.expiry
    case _ => true
  }

  ghost predicate CalmRun(s: State, es: seq<Event>, t: State)
    decreases |es|
  {
    if es == [] then s == t
    else Enabled(s, es[0]) && Calm(s, es[0]) && CalmRun(Apply(s, es[0]), es[1..], t)
  }

  /** The tokens that some caller reported with a 403. */
  function Reported(es: seq<Event>): set<string> {
    if es == [] then {}
    else (if es[0].Invalidate? then {es[0].bad} else {}) + Reported(es[1..])
  }

  /** Every token ever fetched, except the one now cached, has been reported. */
  ghost predicate RenewalInv(s: State, bad: set<string>) {
    && FlightInv(s) && EpochInv(s) && s.invals == 0
    && (s.cache.token != "" ==> s.now < s.cache.expiry)
    && (s.cache.inFlight.Some? ==> s.cache.token == "")
    && (s.seed == "" || s.seed in bad || s.seed == s.cache.token)
    && forall c: nat | Closed(s, c) ::
         && s.calls[c].err.None? && s.calls[c].tok != ""
         && (s.calls[c].tok in bad || s.calls[c].tok == s.cache.token)
  }

  lemma RenewalQuiet(s: State, e: Event, bad: set<string>)
    requires RenewalInv(s, bad) && Enabled(s, e) && Calm(s, e) && !e.Publish? && !e.Invalidate?
    ensures RenewalInv(Apply(s, e), bad)
  {
    FlightStep(s, e);
    EpochStep(s, e);
    QuietCache(s, e);
    ClosedCallsStay(s, e);
    QuietCloses(s, e);
  }

  lemma QuietCache(s: State, e: Event)
    requires Enabled(s, e) && Calm(s, e) && !e.Publish? && !e.Invalidate?
    requires s.cache.token != "" ==> s.now < s.cache.expiry
    requires s.cache.inFlight.Some? ==> s.cache.token == ""
    ensures var t := Apply(s, e);
            && t.cache.token == s.cache.token && t.seed == s.seed && t.invals == s.invals
            && (t.cache.token != "" ==> t.now < t.cache.expiry)
            && (t.cache.inFlight.Some? ==> t.cache.token == "")
  {
  }

  lemma QuietCloses(s: State, e: Event)
    requires Enabled(s, e) && Calm(s, e) && !e.Publish? && !e.Invalidate?
    ensures forall c: nat | Closed(Apply(s, e), c) :: Closed(s, c)
  {
  }

  lemma RenewalPublish(s: State, p: nat, f: Fetched, bad: set<string>)
    requires RenewalInv(s, bad) && Enabled(s, Publish(p, f)) && Calm(s, Publish(p, f))
    ensures RenewalInv(Published(s, p, f), bad)
  {
    FlightStep(s, Publish(p, f));
    EpochStep(s, Publish(p, f));
    var t, c := Published(s, p, f), s.callers[p].pc.call;
    assert s.cache.inFlight == Some(c) && s.cache.epoch == s.calls[c].epoch;
    forall d: nat | Closed(t, d) && d != c
      ensures t.calls[d].err.None? && t.calls[d].tok != "" && t.calls[d].tok in bad
    {
      assert Closed(s, d);
    }
  }

  lemma RenewalReport(s: State, tok: string, bad: set<string>)
    requires RenewalInv(s, bad) && tok != ""
    ensures RenewalInv(Apply(s, Invalidate(tok)), {tok} + bad)
  {
    FlightStep(s, Invalidate(tok));
    EpochStep(s, Invalidate(tok));
  }

  lemma {:induction false} RenewalRun(s: State, es: seq<Event>, t: State, bad: set<string>)
    requires RenewalInv(s, bad) && CalmRun(s, es, t)
    ensures RenewalInv(t, bad + Reported(es))
    decreases |es|
  {
    if es == [] {
      assert bad + Reported(es) == bad;
    } else {
      var e, s' := es[0], Apply(s, es[0]);
      if e.Invalidate? {
        RenewalReport(s, e.bad, bad);
        RenewalRun(s', es[1..], t, {e.bad} + bad);
        assert {e.bad} + bad + Reported(es[1..]) == bad + Reported(es);
      } else {
        if e.Publish? { RenewalPublish(s, e.p, e.fetched, bad); } else { RenewalQuiet(s, e, bad); }
        RenewalRun(s', es[1..], t, bad);
        assert bad + Reported(es[1..]) == bad + Reported(es);
      }
    }
  }

  ghost predicate Distinct(xs: seq<string>) { forall i, j | 0 <= i < j < |xs| :: xs[i] != xs[j] }

  lemma {:induction false} DistinctFit(xs: seq<string>, pool: set<string>)
    requires Distinct(xs) && forall i | 0 <= i < |xs| :: xs[i] in pool
    ensures |xs| <= |pool|
    decreases |xs|
  {
    if xs != [] {
      DistinctFit(xs[1..], pool - {xs[0]});
    }
  }

  /** The tokens of the closed calls, oldest first. */
  function FetchedTokens(calls: seq<Call>): (toks: seq<string>)
    ensures |toks| <= |calls|
  {
    if calls == [] then []
    else if calls[|calls| - 1].closes == 0 then FetchedTokens(calls[..|calls| - 1])
    else FetchedTokens(calls[..|calls| - 1]) + [calls[|calls| - 1].tok]
  }

  lemma {:induction false} FetchedTokensAt(calls: seq<Call>)
    requires forall c | 0 <= c < |calls| :: calls[c].closes > 0
    ensures |FetchedTokens(calls)| == |calls|
    ensures forall c | 0 <= c < |calls| :: FetchedTokens(calls)[c] == calls[c].tok
    decreases |calls|
  {
    if calls != [] { FetchedTokensAt(calls[..|calls| - 1]); }
  }

  /** In an invariant state only the newest call can still be open. */
  lemma FetchedTokensOf(s: State, bad: set<string>)
    requires RenewalInv(s, bad)
    ensures var toks := FetchedTokens(s.calls);
            && |toks| == (if s.cache.inFlight.Some? then |s.calls| - 1 else |s.calls|)
            && forall i | 0 <= i < |toks| :: Closed(s, i) && toks[i] == s.calls[i].tok
  {
    if s.cache.inFlight.Some? { FetchedTokensAt(s.calls[..|s.calls| - 1]); } else { FetchedTokensAt(s.calls); }
  }

  /**
   However many callers report each bad token, and however the reports interleave
   with the fetches, at most one fetch is started per reported token, plus the
   first one; a client configured with an unreported-yet token needs no first one.
   */
  lemma FetchesBoundedByReports(s0: State, es: seq<Event>, s: State)
    requires Init(s0) && (s0.cache.token != "" ==> s0.now < s0.cache.expiry)
    requires CalmRun(s0, es, s)
    requires Distinct(FetchedTokens(s.calls))
    ensures |s.calls| <= 1 + |Reported(es)|
    ensures s.seed != "" && s.seed !in FetchedTokens(s.calls) ==> |s.calls| <= |Reported(es)|
  {
    RenewalRun(s0, es, s, {});
    var bad, toks := {} + Reported(es), FetchedTokens(s.calls);
    assert bad == Reported(es);
    FetchedTokensOf(s, bad);
    PoolBound(s.cache.token, s.cache.inFlight.Some?, s.seed, toks, bad, |s.calls|);
  }

  /** Counting: the `calls` fetches gave distinct `toks`, all of them reported but perhaps `cached`. */
  lemma PoolBound(cached: string, open: bool, seed: string, toks: seq<string>, bad: set<string>, calls: nat)
    requires Distinct(toks) && calls == (if open then |toks| + 1 else |toks|) && (open ==> cached == "")
    requires forall i | 0 <= i < |toks| :: toks[i] in bad || (cached != "" && toks[i] == cached)
    requires seed == "" || seed in bad || seed == cached
    ensures calls <= 1 + |bad|
    ensures seed != "" && seed !in toks ==> calls <= |bad|
  {
    var pool := if cached == "" then bad else bad + {cached};
    DistinctFit(toks, pool);
    if seed != "" && seed !in toks { DistinctFit([seed] + toks, pool); }
  }
}
