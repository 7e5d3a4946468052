/**
 The shared access-token cache as a protocol. Every lock-protected block of the
 client is one atomic event; any number of callers, invalidations, clock ticks
 and context cancellations interleave. Fields marked "history" exist only to
 state properties: no event's outcome depends on them.
 */
module TokenCache {
  import opened Prelude

  /** The classes of error that `errors.Is` tells apart. */
  datatype Error = Canceled | DeadlineExceeded | Invalidated | Panicked | Upstream(code: int)

  predicate ContextError(e: Error) { e.Canceled? || e.DeadlineExceeded? }

  /** Errors of a leader that make a follower try again on its own. */
  predicate Transient(e: Error) { ContextError(e) || e.Invalidated? }

  /** `tokenEpoch` is a uint64 and wraps here. */
  const EPOCHS: nat := 0x1_0000_0000_0000_0000

  /** The zero `time.Time`; any instant before every clock reading would do. */
  const ZERO_TIME: int := -62135596800_000_000_000

  /** The fields guarded by `tokenMu`. */
  datatype Cache = Cache(token: string, expiry: int, epoch: nat, inFlight: Option<nat>)

  predicate Usable(c: Cache, now: int) { c.token != "" && now < c.expiry }

  /** `invalidateToken`: compare-and-clear, or clear and bump the epoch. */
  function Cleared(c: Cache, bad: string): Cache {
    if bad == "" then
      c.(token := "", expiry := ZERO_TIME, epoch := (c.epoch + 1) % EPOCHS)
    else if c.token == bad then
      c.(token := "", expiry := ZERO_TIME)
    else c
  }

  /** What a token fetch came back with. */
  datatype Fetched = Got(token: string, expiry: int) | Failed(error: Error)

  /** The error the leader publishes: a fetch that outlived its epoch is discarded. */
  function PublishedError(c: Cache, epoch: nat, f: Fetched): Option<Error> {
    match f
    case Failed(e) => Some(e)
    case Got(_, _) => if c.epoch == epoch then None else Some(Invalidated)
  }

  function PublishedCache(c: Cache, epoch: nat, f: Fetched): Cache {
    var c' := c.(inFlight := None);
    if PublishedError(c, epoch, f).None? then c'.(token := f.token, expiry := f.expiry) else c'
  }

  /**
   One `tokenCall`. `closes` counts closings of `done`; `leader` and `born`
   (the number of explicit invalidations before the fetch began) are history.
   */
  datatype Call = Call(closes: nat, tok: string, exp: int, err: Option<Error>, epoch: nat,
                       leader: nat, born: nat)

  function ClosedCall(call: Call, c: Cache, f: Fetched): Call {
    var err := PublishedError(c, call.epoch, f);
    if err.None?
    then call.(closes := call.closes + 1, tok := f.token, exp := f.expiry, err := None)
    else call.(closes := call.closes + 1, err := err)
  }

  /** How an invocation came by its result (history). */
  datatype Via = ViaContext | ViaCache | ViaFollow(call: nat) | ViaLead(call: nat)

  /** Program counter of one `getAccessToken` invocation. */
  datatype Pc =
    | Top
    | Fast
    | Lock
    | Wait(call: nat)
    | Fetch(call: nat)
    | Settling(call: nat, tok: string, err: Option<Error>, epochAfter: nat)
    | Done(result: Result<string, Error>, via: Via, src: Option<nat>)
    | Crashed(call: nat)

  /** `joined` is the number of explicit invalidations before the invocation began (history). */
  datatype Caller = Caller(pc: Pc, ctx: Option<Error>, joined: nat)

  /**
   `invals` counts explicit invalidations, `src` is the call that fetched the
   cached token (None: it was configured at start-up as `seed`); all history.
   */
  datatype State = State(cache: Cache, calls: seq<Call>, callers: seq<Caller>, now: int,
                         invals: nat, src: Option<nat>, seed: string)

  datatype Event =
    | Arrive
    | CheckContext(p: nat)
    | FastRead(p: nat)
    | LockAndDecide(p: nat)
    | GiveUp(p: nat)
    | Wake(p: nat)
    | Publish(p: nat, fetched: Fetched)
    | PanicPublish(p: nat)
    | Settle(p: nat)
    | Invalidate(bad: string)
    | Tick(elapsed: nat)
    | Cancel(p: nat, why: Error)

  predicate Init(s: State) {
    && s.cache.epoch == 0 && s.cache.inFlight.None?
    && s.calls == [] && s.callers == [] && s.invals == 0
    && s.src.None? && s.seed == s.cache.token
  }

  predicate At(s: State, p: nat) { p < |s.callers| }

  predicate Enabled(s: State, e: Event) {
    match e
    case Arrive => true
    case CheckContext(p) => At(s, p) && s.callers[p].pc.Top?
    case FastRead(p) => At(s, p) && s.callers[p].pc.Fast?
    case LockAndDecide(p) => At(s, p) && s.callers[p].pc.Lock?
    case GiveUp(p) => At(s, p) && s.callers[p].pc.Wait? && s.callers[p].ctx.Some?
    case Wake(p) =>
      && At(s, p) && s.callers[p].pc.Wait?
      && s.callers[p].pc.call < |s.calls| && s.calls[s.callers[p].pc.call].closes > 0
    case Publish(p, _) => At(s, p) && s.callers[p].pc.Fetch? && s.callers[p].pc.call < |s.calls|
    case PanicPublish(p) => At(s, p) && s.callers[p].pc.Fetch? && s.callers[p].pc.call < |s.calls|
    case Settle(p) => At(s, p) && s.callers[p].pc.Settling? && s.callers[p].pc.call < |s.calls|
    case Invalidate(_) => true
    case Tick(_) => true
    case Cancel(p, why) => At(s, p) && s.callers[p].ctx.None? && ContextError(why)
  }

  function Goto(s: State, p: nat, pc: Pc): State
    requires At(s, p)
  {
    s.(callers := s.callers[p := s.callers[p].(pc := pc)])
  }

  function ReturnContextError(s: State, p: nat): State
    requires At(s, p) && s.callers[p].ctx.Some?
  {
    Goto(s, p, Done(Err(s.callers[p].ctx.value), ViaContext, None))
  }

  function ReturnCached(s: State, p: nat): State
    requires At(s, p)
  {
    Goto(s, p, Done(Ok(s.cache.token), ViaCache, s.src))
  }

  /** The write-locked block: re-check, join the call in flight, or become its leader. */
  function Decide(s: State, p: nat): State
    requires At(s, p)
  {
    if s.callers[p].ctx.Some? then ReturnContextError(s, p)
    else if Usable(s.cache, s.now) then ReturnCached(s, p)
    else if s.cache.inFlight.Some? then Goto(s, p, Wait(s.cache.inFlight.value))
    else Lead(s, p)
  }

  function Lead(s: State, p: nat): State
    requires At(s, p)
  {
    var c := |s.calls|;
    var call := Call(0, "", ZERO_TIME, None, s.cache.epoch, p, s.invals);
    Goto(s.(calls := s.calls + [call], cache := s.cache.(inFlight := Some(c))), p, Fetch(c))
  }

  /** A follower whose call has closed. */
  function Woken(s: State, p: nat): State
    requires Enabled(s, Wake(p))
  {
    var c := s.callers[p].pc.call;
    var call := s.calls[c];
    if call.err.None? then Goto(s, p, Done(Ok(call.tok), ViaFollow(c), Some(c)))
    else if s.callers[p].ctx.Some? then ReturnContextError(s, p)
    else if Transient(call.err.value) then Goto(s, p, Top)
    else Goto(s, p, Done(Err(call.err.value), ViaFollow(c), None))
  }

  function Published(s: State, p: nat, f: Fetched): State
    requires Enabled(s, Publish(p, f))
  {
    var c := s.callers[p].pc.call;
    var call := s.calls[c];
    var err := PublishedError(s.cache, call.epoch, f);
    var tok := if f.Got? then f.token else "";
    Goto(s.(cache := PublishedCache(s.cache, call.epoch, f),
            calls := s.calls[c := ClosedCall(call, s.cache, f)],
            src := if err.None? then Some(c) else s.src),
         p, Settling(c, tok, err, s.cache.epoch))
  }

  function PanicPublished(s: State, p: nat): State
    requires Enabled(s, PanicPublish(p))
  {
    var c := s.callers[p].pc.call;
    var call := s.calls[c];
    Goto(s.(cache := s.cache.(inFlight := None),
            calls := s.calls[c := call.(closes := call.closes + 1, err := Some(Panicked))]),
         p, Crashed(c))
  }

  /** What the leader does with its own outcome once the lock is released. */
  function Settled(s: State, p: nat): State
    requires Enabled(s, Settle(p))
  {
    var pc := s.callers[p].pc;
    if pc.err.None? then Goto(s, p, Done(Ok(pc.tok), ViaLead(pc.call), Some(pc.call)))
    else if ContextError(pc.err.value) then Goto(s, p, Done(Err(pc.err.value), ViaLead(pc.call), None))
    else if (pc.epochAfter != s.calls[pc.call].epoch || pc.err.value.Invalidated?) && s.callers[p].ctx.None?
    then Goto(s, p, Top)
    else Goto(s, p, Done(Err(pc.err.value), ViaLead(pc.call), None))
  }

  function Apply(s: State, e: Event): State
    requires Enabled(s, e)
  {
    match e
    case Arrive => s.(callers := s.callers + [Caller(Top, None, s.invals)])
    case CheckContext(p) =>
      if s.callers[p].ctx.Some? then ReturnContextError(s, p) else Goto(s, p, Fast)
    case FastRead(p) =>
      if Usable(s.cache, s.now) then ReturnCached(s, p) else Goto(s, p, Lock)
    case LockAndDecide(p) => Decide(s, p)
    case GiveUp(p) => ReturnContextError(s, p)
    case Wake(p) => Woken(s, p)
    case Publish(p, f) => Published(s, p, f)
    case PanicPublish(p) => PanicPublished(s, p)
    case Settle(p) => Settled(s, p)
    case Invalidate(bad) =>
      s.(cache := Cleared(s.cache, bad), invals := if bad == "" then s.invals + 1 else s.invals)
    case Tick(d) => s.(now := s.now + d)
    case Cancel(p, why) => s.(callers := s.callers[p := s.callers[p].(ctx := Some(why))])
  }

  /** `t` is what the events `es` make of `s`, each being enabled when its turn comes. */
  ghost predicate Reaches(s: State, es: seq<Event>, t: State)
    decreases |es|
  {
    if es == [] then s == t
    else Enabled(s, es[0]) && Reaches(Apply(s, es[0]), es[1..], t)
  }
}
