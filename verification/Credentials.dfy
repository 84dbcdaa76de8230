// The two fenced caches at work together: callbacks calling the CachedTokenSource of
// the client they were given, bridges served through such sources, and workers whose
// transport retries once after a 401. Each step is one critical section, the start or
// end of a mint, or a request event.
//
// Clients are rebuilt while an operation runs, so one bridge may meet several sources.
// The system keeps one bridge and any number of sources.
module Credentials {
  import opened Base
  import opened TokenCache
  import opened AuthBridge

  type CallerId = nat
  type SourceId = nat
  type RequestId = nat

  /** Why a call failed: the end of some caller's context, or a mint that some caller led and that brought no token, or
      one that was not usable when it was looked at. */
  datatype CallError = ContextEnded(of: CallerId) | MintFailed(of: CallerId, brought: Option<Cred>, at: int)

  /** What a leader brings back from its mint, its context looked at once more. */
  datatype MintResult = Token(cred: Cred) | NoToken(error: CallError)

  /** A call of a source's Token. `floor` is the source's stamp when the call began; a leader has no `result` while its
      mint runs. */
  datatype Caller =
    | Looping(source: SourceId, floor: nat)
    | Waiting(source: SourceId, floor: nat, channel: nat)
    | Leading(source: SourceId, floor: nat, channel: nat, lead: Lead, begun: nat, result: Option<MintResult>)
    | Got(source: SourceId, floor: nat, cred: Cred)
    | Failed(source: SourceId, floor: nat, error: CallError)

  /** A CachedTokenSource. History: the step of its last Invalidate, 0 for none, and the caller that last led. */
  datatype Source = Source(cache: Cache, stamp: nat, leader: CallerId)

  const NEW_SOURCE := Source(Cache(None, None, 0), 0, 0)

  /** The callback inside Service, which holds the servicing slot. */
  datatype Service =
    | Idle
    | Entered
    | Opened(source: SourceId, generation: nat, invalidate: bool)
    | Calling(source: SourceId, generation: nat, caller: CallerId)

  /** A worker's HTTP request going through TokenTransport with the bridge as its source. `carried` is history: whether
      the second token came through the source that carried the invalidation. */
  datatype Request =
    | Sent(first: Cred)
    | Rejected(first: Cred, at: nat)          // the 401 arrived at step `at`
    | Retrying(first: Cred, at: nat)          // Invalidate has returned
    | Resent(first: Cred, at: nat, second: Cred, carried: bool)

  datatype Sys = Sys(
    tick: nat,                                // steps taken; orders mints and invalidations
    now: int,
    sources: map<SourceId, Source>,
    channels: nat,
    callers: map<CallerId, Caller>,
    cancelled: set<CallerId>,
    bridge: Bridge, bridgeStamp: nat,         // the step of the bridge's last Invalidate, 0 for none
    carrier: SourceId,                        // history: the source last asked to carry an invalidation through
    via: SourceId,                            // history: the source the stored token came through
    service: Service,
    stores: set<int>,                         // the times at which Service stored a token
    created: int,
    requests: map<RequestId, Request>)

  datatype Step =
    | Passes(to: int)
    | Calls(c: CallerId, source: SourceId)
    | Probes(c: CallerId)
    | Wakes(c: CallerId)
    | Cancels(c: CallerId)
    | GivesUp(c: CallerId)
    | Mints(c: CallerId, text: string, expiry: int, ok: bool)
    | Closes(c: CallerId)
    | Invalidates(source: SourceId)
    | Enters
    | Opens(source: SourceId)
    | Fences
    | Delegates(c: CallerId)
    | Deposits
    | Quits
    | Revokes
    | Shuts(err: Option<string>)
    | Asks(r: RequestId)
    | Rejects(r: RequestId)
    | Revokes401(r: RequestId)

  function Initial(bridge: Bridge, now: int): Sys {
    Sys(0, now, map[], 0, map[], {}, bridge, 0, 0, 0, Idle, {}, now, map[])
  }

  predicate Starts(s: Sys) {
    s == Initial(s.bridge, s.now) && s.bridge.serviced == s.now && s.bridge.token.None? && s.bridge.closed.None? &&
    s.bridge.generation == 0 && s.bridge.sourceGeneration == 0
  }

  function SourceAt(s: Sys, a: SourceId): Source {
    if a in s.sources then s.sources[a] else NEW_SOURCE
  }

  /** The stored token came through the source that carried the bridge's last invalidation, if there was one. */
  predicate Carried(s: Sys) {
    s.bridge.generation == 0 || s.via == s.carrier
  }

  predicate Live(s: Sys, c: CallerId) {
    c in s.callers && !s.callers[c].Got? && !s.callers[c].Failed?
  }

  predicate Can(s: Sys, step: Step) {
    match step
    case Passes(to) => to >= s.now
    case Calls(c, a) => c !in s.callers
    case Probes(c) => c in s.callers && s.callers[c].Looping?
    case Wakes(c) =>
      c in s.callers && s.callers[c].Waiting? && SourceAt(s, s.callers[c].source).cache.refreshing != Some(s.callers[c].channel)
    case Cancels(c) => true
    case GivesUp(c) => c in s.callers && (s.callers[c].Looping? || s.callers[c].Waiting?) && c in s.cancelled
    case Mints(c, text, expiry, ok) => c in s.callers && s.callers[c].Leading? && s.callers[c].result.None?
    case Closes(c) => c in s.callers && s.callers[c].Leading? && s.callers[c].result.Some?
    case Invalidates(a) => true
    case Enters => s.service.Idle?
    case Opens(a) => s.service.Entered? && s.bridge.closed.None?
    case Fences => s.service.Opened? && s.service.invalidate
    case Delegates(c) => s.service.Opened? && !s.service.invalidate && c !in s.callers
    case Deposits => s.service.Calling? && s.service.caller in s.callers && s.callers[s.service.caller].Got?
    case Quits => s.service.Entered? || (s.service.Calling? && !Live(s, s.service.caller))
    case Revokes => true
    case Shuts(err) => true
    case Asks(r) => r !in s.requests || s.requests[r].Retrying?
    case Rejects(r) => r in s.requests && s.requests[r].Sent?
    case Revokes401(r) => r in s.requests && s.requests[r].Rejected?
  }

  function WithCaller(s: Sys, c: CallerId, caller: Caller): Sys {
    s.(callers := s.callers[c := caller])
  }

  function WithSource(s: Sys, a: SourceId, source: Source): Sys {
    s.(sources := s.sources[a := source])
  }

  function DoProbe(s: Sys, c: CallerId): Sys
    requires c in s.callers && s.callers[c].Looping?
  {
    var a, floor := s.callers[c].source, s.callers[c].floor;
    var src := SourceAt(s, a);
    var (cache, p) := Probe(src.cache, s.now, s.channels);
    match p
    case Serve(cred) => WithCaller(s, c, Got(a, floor, cred))
    case Wait(channel) => WithCaller(s, c, Waiting(a, floor, channel))
    case Refresh(lead) =>
      WithCaller(WithSource(s.(channels := s.channels + 1), a, src.(cache := cache, leader := c)), c,
                 Leading(a, floor, s.channels, lead, s.tick, None))
  }

  /** The leader's mint has returned, or was not begun because its context had ended. */
  function DoMint(s: Sys, c: CallerId, text: string, expiry: int, ok: bool): Sys
    requires c in s.callers && s.callers[c].Leading?
  {
    var l := s.callers[c];
    var result :=
      if c in s.cancelled then NoToken(ContextEnded(c))
      else if ok then Token(Cred(text, expiry, l.begun))
      else NoToken(MintFailed(c, None, s.now));
    WithCaller(s, c, l.(result := Some(result)))
  }

  function Minted(l: Caller): Option<Cred>
    requires l.Leading?
  {
    if l.result.Some? && l.result.value.Token? then Some(l.result.value.cred) else None
  }

  /** The leader's closing section. A context that has ended since the mint returned fails the leader alone: what it
      minted is stored all the same. */
  function DoClose(s: Sys, c: CallerId): Sys
    requires c in s.callers && s.callers[c].Leading? && s.callers[c].result.Some?
  {
    var l := s.callers[c];
    var src := SourceAt(s, l.source);
    var (cache, done) := Complete(src.cache, l.lead, s.now, Minted(l), c in s.cancelled);
    var s' := WithSource(s, l.source, src.(cache := cache));
    match done
    case Return(cred) =>
      WithCaller(s', c, if c in s.cancelled then Failed(l.source, l.floor, ContextEnded(c)) else Got(l.source, l.floor, cred))
    case Again => WithCaller(s', c, Looping(l.source, l.floor))
    case Fail =>
      WithCaller(s', c, Failed(l.source, l.floor, if l.result.value.NoToken? then l.result.value.error else MintFailed(c, Minted(l), s.now)))
  }

  /** A source's Invalidate. */
  function DoInvalidate(s: Sys, a: SourceId): Sys {
    WithSource(s, a, SourceAt(s, a).(cache := Invalidate(SourceAt(s, a).cache), stamp := s.tick))
  }

  function DoOpen(s: Sys, a: SourceId): Sys
    requires s.bridge.closed.None?
  {
    var (b, granted) := Open(s.bridge);
    s.(bridge := b, service := Opened(a, granted.value.0, granted.value.1), carrier := if granted.value.1 then a else s.carrier)
  }

  /** The request once the bridge has handed it a token. */
  function Carrying(s: Sys, r: RequestId, cred: Cred): Request {
    if r in s.requests && s.requests[r].Retrying? then Resent(s.requests[r].first, s.requests[r].at, cred, Carried(s)) else Sent(cred)
  }

  function DoAsk(s: Sys, r: RequestId): Sys {
    var (bridge, asked) := Ask(s.bridge, s.now);
    var s' := s.(bridge := bridge);
    if asked.Served? then s'.(requests := s'.requests[r := Carrying(s', r, asked.cred)]) else s'
  }

  function DoDeposit(s: Sys): Sys
    requires s.service.Calling? && s.service.caller in s.callers && s.callers[s.service.caller].Got?
  {
    var cred := s.callers[s.service.caller].cred;
    var b := Deposit(s.bridge, s.service.generation, s.now, Some(cred));
    var stored := s.bridge.closed.None? && Usable(cred, s.now) && s.service.generation == s.bridge.generation;
    s.(bridge := b, service := Idle,
       stores := if stored then s.stores + {s.now} else s.stores,
       via := if stored then s.service.source else s.via)
  }

  /** One step, taken at a tick of its own. */
  function Do(s0: Sys, step: Step): Sys
    requires Can(s0, step)
  {
    var s := s0.(tick := s0.tick + 1);
    match step
    case Passes(to) => s.(now := to)
    case Calls(c, a) => WithCaller(s, c, Looping(a, SourceAt(s, a).stamp))
    case Probes(c) => DoProbe(s, c)
    case Wakes(c) => WithCaller(s, c, Looping(s.callers[c].source, s.callers[c].floor))
    case Cancels(c) => s.(cancelled := s.cancelled + {c})
    case GivesUp(c) => WithCaller(s, c, Failed(s.callers[c].source, s.callers[c].floor, ContextEnded(c)))
    case Mints(c, text, expiry, ok) => DoMint(s, c, text, expiry, ok)
    case Closes(c) => DoClose(s, c)
    case Invalidates(a) => DoInvalidate(s, a)
    case Enters => s.(service := Entered)
    case Opens(a) => DoOpen(s, a)
    case Fences => DoInvalidate(s, s.service.source).(service := Opened(s.service.source, s.service.generation, false))
    case Delegates(c) =>
      WithCaller(s, c, Looping(s.service.source, SourceAt(s, s.service.source).stamp))
        .(service := Calling(s.service.source, s.service.generation, c))
    case Deposits => DoDeposit(s)
    case Quits => s.(service := Idle)
    case Revokes => s.(bridge := Revoke(s.bridge), bridgeStamp := s.tick)
    case Shuts(err) => s.(bridge := Shut(s.bridge, err))
    case Asks(r) => DoAsk(s, r)
    case Rejects(r) => s.(requests := s.requests[r := Rejected(s.requests[r].first, s.tick)])
    case Revokes401(r) =>
      s.(bridge := Revoke(s.bridge), bridgeStamp := s.tick,
         requests := s.requests[r := Retrying(s.requests[r].first, s.requests[r].at)])
  }

  // ---- The invariant ----

  predicate Serves(c: Cache, now: int) {
    c.current.Some? && now < c.current.value.nextCheck && now < c.current.value.cred.expiry - MARGIN
  }

  /** Usable, but for the time. */
  predicate WellFormed(cred: Cred) {
    cred.text != "" && cred.expiry != ZERO_TIME && cred.expiry < YEAR_10000
  }

  predicate SourceOk(s: Sys, a: SourceId) {
    var src := SourceAt(s, a);
    && src.stamp <= s.tick
    && (src.cache.current.Some? ==> WellFormed(src.cache.current.value.cred))
    && (src.cache.current.Some? ==> src.stamp < src.cache.current.value.cred.begun <= s.tick)
    && (src.cache.refreshing.Some? ==>
          && src.cache.refreshing.value < s.channels && src.leader in s.callers
          && s.callers[src.leader].Leading? && s.callers[src.leader].source == a
          && s.callers[src.leader].channel == src.cache.refreshing.value
          && !Serves(src.cache, s.now))
  }

  ghost predicate SourcesOk(s: Sys) {
    && s.bridgeStamp <= s.tick
    && forall a | a in s.sources :: SourceOk(s, a)
  }

  predicate ErrorOk(s: Sys, c: CallerId, error: CallError) {
    && error.of == c && (error.ContextEnded? ==> c in s.cancelled)
    && (error.MintFailed? && error.brought.Some? ==> !WellFormed(error.brought.value) || error.brought.value.expiry - MARGIN <= error.at)
  }

  predicate ResultOk(s: Sys, c: CallerId, begun: nat, result: MintResult) {
    if result.Token? then result.cred.begun == begun else ErrorOk(s, c, result.error)
  }

  predicate CallerOk(s: Sys, c: CallerId, caller: Caller) {
    var src := SourceAt(s, caller.source);
    && caller.floor <= src.stamp
    && (caller.Waiting? ==> caller.channel < s.channels)
    && (caller.Got? ==> caller.floor < caller.cred.begun <= s.tick)
    && (caller.Failed? ==> ErrorOk(s, c, caller.error))
    && (caller.Leading? ==>
          && src.cache.refreshing == Some(caller.channel) && src.leader == c && caller.floor < caller.begun <= s.tick
          && caller.lead.generation <= src.cache.generation
          && (caller.lead.generation == src.cache.generation ==>
                src.stamp < caller.begun && caller.lead.previous == src.cache.current)
          && (caller.lead.generation != src.cache.generation ==> src.cache.current.None?)
          && (caller.result.Some? ==> ResultOk(s, c, caller.begun, caller.result.value)))
  }

  ghost predicate CallersOk(s: Sys) {
    forall c | c in s.callers :: CallerOk(s, c, s.callers[c])
  }

  /** A Service of the current generation that goes through the source that carries its invalidation, if it has one. */
  predicate Faithful(s: Sys) {
    (s.service.Opened? || s.service.Calling?) && s.service.generation == s.bridge.generation
    && (s.bridge.generation == 0 || s.service.source == s.carrier)
  }

  ghost predicate FenceOk(s: Sys) {
    && s.bridge.sourceGeneration <= s.bridge.generation
    && (s.bridge.generation == 0 ==> s.bridgeStamp == 0)
    && (s.service.Opened? || s.service.Calling? ==> s.service.generation <= s.bridge.sourceGeneration)
    && (s.service.Opened? && s.service.invalidate && s.service.generation == s.bridge.generation ==>
          s.service.source == s.carrier && s.bridge.generation > 0)
    && (s.bridge.sourceGeneration == s.bridge.generation && s.bridge.generation > 0 ==>
          || s.bridgeStamp <= SourceAt(s, s.carrier).stamp
          || (s.service.Opened? && s.service.invalidate && s.service.generation == s.bridge.generation))
    && (s.service.Calling? ==> s.service.caller in s.callers && s.callers[s.service.caller].source == s.service.source)
    && (s.service.Calling? && Faithful(s) ==> s.bridgeStamp <= s.callers[s.service.caller].floor)
    && (s.bridge.token.Some? ==> s.bridge.sourceGeneration == s.bridge.generation && 0 < s.bridge.token.value.begun)
    && (s.bridge.token.Some? && Carried(s) ==> s.bridgeStamp < s.bridge.token.value.begun)
  }

  ghost predicate TimesOk(s: Sys) {
    && (forall t | t in s.stores :: s.created <= t <= s.bridge.serviced)
    && s.created <= s.bridge.serviced <= s.now
    && (s.bridge.serviced == s.created || s.bridge.serviced in s.stores)
    && (s.bridge.token.Some? ==> s.bridge.closed.None? && s.bridge.serviced in s.stores)
  }

  predicate RequestOk(s: Sys, request: Request) {
    match request
    case Sent(_) => true
    case Rejected(_, at) => at <= s.tick
    case Retrying(_, at) => at <= s.bridgeStamp && s.bridge.generation > 0
    case Resent(_, at, second, carried) => carried ==> at < second.begun
  }

  ghost predicate RequestsOk(s: Sys) {
    forall r | r in s.requests :: RequestOk(s, s.requests[r])
  }

  ghost predicate Inv(s: Sys) {
    SourcesOk(s) && CallersOk(s) && FenceOk(s) && TimesOk(s) && RequestsOk(s)
  }

  predicate ServiceStep(step: Step) {
    step.Enters? || step.Opens? || step.Delegates? || step.Deposits? || step.Quits?
  }

  predicate WorkerStep(step: Step) {
    step.Rejects? || step.Revokes401? || step.Revokes? || step.Shuts?
  }

  predicate CallerStep(step: Step) {
    step.Calls? || step.Wakes? || step.Cancels? || step.GivesUp? || step.Passes?
  }

  lemma StepKeeps(s: Sys, step: Step)
    requires Inv(s) && Can(s, step)
    ensures Inv(Do(s, step))
  {
    if CallerStep(step) {
      CallerKeeps(s, step);
    } else if ServiceStep(step) {
      ServiceKeeps(s, step);
    } else if WorkerStep(step) {
      WorkerKeeps(s, step);
    } else if step.Invalidates? || step.Fences? {
      FenceKeeps(s, step);
    } else if step.Probes? {
      ProbeKeeps(s, step);
    } else if step.Mints? {
      MintKeeps(s, step);
    } else if step.Closes? {
      CloseKeeps(s, step);
    } else {
      AskKeeps(s, step);
    }
  }

  lemma CallerKeeps(s: Sys, step: Step)
    requires Inv(s) && Can(s, step) && CallerStep(step)
    ensures Inv(Do(s, step))
  {
    if step.Passes? || step.Cancels? {
      ClockKeeps(s, step);
    } else {
      var caller := CallerEffect(s, step);
      assert step.c in s.callers ==> CallerOk(s, step.c, s.callers[step.c]);
      AnswerKeeps(s, step.c, caller);
    }
  }

  lemma ClockKeeps(s: Sys, step: Step)
    requires Inv(s) && Can(s, step) && (step.Passes? || step.Cancels?)
    ensures Inv(Do(s, step))
  {}

  lemma CallerEffect(s: Sys, step: Step) returns (caller: Caller)
    requires Can(s, step) && (step.Calls? || step.Wakes? || step.GivesUp?)
    ensures Do(s, step) == s.(tick := s.tick + 1, callers := s.callers[step.c := caller])
    ensures caller ==
      if step.Calls? then Looping(step.source, SourceAt(s, step.source).stamp)
      else if step.Wakes? then Looping(s.callers[step.c].source, s.callers[step.c].floor)
      else Failed(s.callers[step.c].source, s.callers[step.c].floor, ContextEnded(step.c))
  {
    caller := Do(s, step).callers[step.c];
  }

  lemma FenceKeeps(s: Sys, step: Step)
    requires Inv(s) && Can(s, step) && (step.Invalidates? || step.Fences?)
    ensures Inv(Do(s, step))
  {
    var a := FenceEffect(s, step);
    InvalidateKeeps(s, a);
    if step.Fences? {
      CarriedThrough(DoInvalidate(s.(tick := s.tick + 1), a));
    }
  }

  lemma FenceEffect(s: Sys, step: Step) returns (a: SourceId)
    requires Can(s, step) && (step.Invalidates? || step.Fences?)
    ensures
      var t := DoInvalidate(s.(tick := s.tick + 1), a);
      && t.service == s.service && t.bridgeStamp == s.bridgeStamp && SourceAt(t, a).stamp == s.tick + 1
      && if step.Invalidates? then a == step.source && Do(s, step) == t
         else a == s.service.source && Do(s, step) == t.(service := Opened(t.service.source, t.service.generation, false))
  {
    a := if step.Invalidates? then step.source else s.service.source;
  }

  lemma InvalidateKeeps(s: Sys, a: SourceId)
    requires Inv(s)
    ensures Inv(DoInvalidate(s.(tick := s.tick + 1), a))
  {
    InvalidatedSources(s, a);
    InvalidatedCallers(s, a);
  }

  lemma InvalidatedSources(s: Sys, a: SourceId)
    requires Inv(s)
    ensures SourcesOk(DoInvalidate(s.(tick := s.tick + 1), a))
  {}

  lemma InvalidatedCallers(s: Sys, a: SourceId)
    requires Inv(s)
    ensures CallersOk(DoInvalidate(s.(tick := s.tick + 1), a))
  {}

  /** The source of a Service that had to fence has been invalidated. */
  lemma CarriedThrough(s: Sys)
    requires Inv(s) && s.service.Opened? && s.bridgeStamp <= SourceAt(s, s.service.source).stamp
    ensures Inv(s.(service := Opened(s.service.source, s.service.generation, false)))
  {}

  lemma ServiceKeeps(s: Sys, step: Step)
    requires Inv(s) && Can(s, step) && ServiceStep(step)
    ensures Inv(Do(s, step))
  {
    if step.Opens? {
      OpenKeeps(s, step);
    } else if step.Deposits? {
      DepositKeeps(s, step);
    } else if step.Delegates? {
      DelegateKeeps(s, step);
    } else {
      SlotKeeps(s, step);
    }
  }

  lemma DelegateKeeps(s: Sys, step: Step)
    requires Inv(s) && Can(s, step) && step.Delegates?
    ensures Inv(Do(s, step))
  {}

  lemma OpenKeeps(s: Sys, step: Step)
    requires Inv(s) && Can(s, step) && step.Opens?
    ensures Inv(Do(s, step))
  {}

  lemma DepositKeeps(s: Sys, step: Step)
    requires Inv(s) && Can(s, step) && step.Deposits?
    ensures Inv(Do(s, step))
  {}

  lemma SlotKeeps(s: Sys, step: Step)
    requires Inv(s) && Can(s, step) && (step.Enters? || step.Quits?)
    ensures Inv(Do(s, step))
  {}

  lemma WorkerKeeps(s: Sys, step: Step)
    requires Inv(s) && Can(s, step) && WorkerStep(step)
    ensures Inv(Do(s, step))
  {
    if step.Rejects? || step.Shuts? {
      PlainWorkerKeeps(s, step);
    } else {
      RevokeKeeps(s, step);
    }
  }

  lemma PlainWorkerKeeps(s: Sys, step: Step)
    requires Inv(s) && Can(s, step) && (step.Rejects? || step.Shuts?)
    ensures Inv(Do(s, step))
  {}

  lemma RevokeKeeps(s: Sys, step: Step)
    requires Inv(s) && Can(s, step) && (step.Revokes? || step.Revokes401?)
    ensures Inv(Do(s, step))
  {}

  lemma ProbeKeeps(s: Sys, step: Step)
    requires Inv(s) && Can(s, step) && step.Probes?
    ensures Inv(Do(s, step))
  {
    var a := s.callers[step.c].source;
    var src := SourceAt(s, a);
    assert CallerOk(s, step.c, s.callers[step.c]);
    assert a in s.sources ==> SourceOk(s, a);
    if Serves(src.cache, s.now) || src.cache.refreshing.Some? {
      var caller := ProbeEffect(s, step);
      AnswerKeeps(s, step.c, caller);
    } else {
      LeadEffect(s, step);
      LeadKeeps(s, step.c);
    }
  }

  lemma ProbeEffect(s: Sys, step: Step) returns (caller: Caller)
    requires Can(s, step) && step.Probes?
    requires Serves(SourceAt(s, s.callers[step.c].source).cache, s.now) || SourceAt(s, s.callers[step.c].source).cache.refreshing.Some?
    ensures Do(s, step) == s.(tick := s.tick + 1, callers := s.callers[step.c := caller])
    ensures
      var l, src := s.callers[step.c], SourceAt(s, s.callers[step.c].source);
      caller == if Serves(src.cache, s.now) then Got(l.source, l.floor, src.cache.current.value.cred)
                else Waiting(l.source, l.floor, src.cache.refreshing.value)
  {
    caller := Do(s, step).callers[step.c];
  }

  /** A caller that does not lead moves on without leading, or enters. */
  lemma AnswerKeeps(s: Sys, c: CallerId, caller: Caller)
    requires Inv(s) && !caller.Leading? && CallerOk(s, c, caller)
    requires c in s.callers ==>
      !s.callers[c].Leading? && caller.source == s.callers[c].source && caller.floor == s.callers[c].floor
    ensures Inv(s.(tick := s.tick + 1, callers := s.callers[c := caller]))
  {}

  /** A caller that becomes the leader of its source's refresh. */
  function NewLead(s: Sys, c: CallerId): Sys
    requires c in s.callers && s.callers[c].Looping?
  {
    var a := s.callers[c].source;
    var src := SourceAt(s, a);
    s.(tick := s.tick + 1, channels := s.channels + 1,
       sources := s.sources[a := src.(cache := src.cache.(refreshing := Some(s.channels)), leader := c)],
       callers := s.callers[c :=
         Leading(a, s.callers[c].floor, s.channels, Lead(src.cache.generation, src.cache.current), s.tick + 1, None)])
  }

  lemma LeadEffect(s: Sys, step: Step)
    requires Can(s, step) && step.Probes?
    requires !Serves(SourceAt(s, s.callers[step.c].source).cache, s.now) && SourceAt(s, s.callers[step.c].source).cache.refreshing.None?
    ensures Do(s, step) == NewLead(s, step.c)
  {}

  lemma LeadKeeps(s: Sys, c: CallerId)
    requires Inv(s) && c in s.callers && s.callers[c].Looping?
    requires !Serves(SourceAt(s, s.callers[c].source).cache, s.now) && SourceAt(s, s.callers[c].source).cache.refreshing.None?
    ensures Inv(NewLead(s, c))
  {
    LeadKeepsSources(s, c);
    LeadKeepsCallers(s, c);
  }

  lemma LeadKeepsSources(s: Sys, c: CallerId)
    requires SourcesOk(s) && CallersOk(s) && c in s.callers && s.callers[c].Looping?
    requires !Serves(SourceAt(s, s.callers[c].source).cache, s.now) && SourceAt(s, s.callers[c].source).cache.refreshing.None?
    ensures SourcesOk(NewLead(s, c))
  {}

  lemma LeadKeepsCallers(s: Sys, c: CallerId)
    requires SourcesOk(s) && CallersOk(s) && c in s.callers && s.callers[c].Looping?
    requires SourceAt(s, s.callers[c].source).cache.refreshing.None?
    ensures CallersOk(NewLead(s, c))
  {
    assert CallerOk(s, c, s.callers[c]);
  }

  lemma MintKeeps(s: Sys, step: Step)
    requires Inv(s) && Can(s, step) && step.Mints?
    ensures Inv(Do(s, step))
  {
    assert CallerOk(s, step.c, s.callers[step.c]);
    var result := MintEffect(s, step);
    ResultKeeps(s, step.c, result);
  }

  lemma MintEffect(s: Sys, step: Step) returns (result: MintResult)
    requires Can(s, step) && step.Mints?
    ensures Do(s, step) == s.(tick := s.tick + 1, callers := s.callers[step.c := s.callers[step.c].(result := Some(result))])
    ensures ResultOk(s, step.c, s.callers[step.c].begun, result)
    ensures result ==
      if step.c in s.cancelled then NoToken(ContextEnded(step.c))
      else if step.ok then Token(Cred(step.text, step.expiry, s.callers[step.c].begun))
      else NoToken(MintFailed(step.c, None, s.now))
  {
    result := Do(s, step).callers[step.c].result.value;
  }

  lemma ResultKeeps(s: Sys, c: CallerId, result: MintResult)
    requires Inv(s) && c in s.callers && s.callers[c].Leading? && ResultOk(s, c, s.callers[c].begun, result)
    ensures Inv(s.(tick := s.tick + 1, callers := s.callers[c := s.callers[c].(result := Some(result))]))
  {}

  lemma CloseKeeps(s: Sys, step: Step)
    requires Inv(s) && Can(s, step) && step.Closes?
    ensures Inv(Do(s, step))
  {
    assert CallerOk(s, step.c, s.callers[step.c]);
    assert SourceOk(s, s.callers[step.c].source);
    var cache, caller := CloseEffect(s, step.c);
    LeadEnds(s, step.c, cache, caller);
  }

  /** What a leader's closing section does to its source and to the leader. */
  lemma CloseEffect(s: Sys, c: CallerId) returns (cache: Cache, caller: Caller)
    requires Can(s, Closes(c)) && ResultOk(s, c, s.callers[c].begun, s.callers[c].result.value)
    ensures
      var a := s.callers[c].source;
      Do(s, Closes(c)) == s.(tick := s.tick + 1, sources := s.sources[a := SourceAt(s, a).(cache := cache)],
                             callers := s.callers[c := caller])
    ensures
      var l, was := s.callers[c], SourceAt(s, s.callers[c].source).cache;
      && cache == Complete(was, l.lead, s.now, Minted(l), c in s.cancelled).0
      && cache.refreshing.None? && cache.generation == was.generation
      && !caller.Leading? && !caller.Waiting? && caller.source == l.source && caller.floor == l.floor
      && (caller.Failed? ==> ErrorOk(s, c, caller.error))
      && (|| (cache.current == was.current && !caller.Got?)
          || (&& cache.current.Some? && l.lead.generation == was.generation
              && (|| (Minted(l) == Some(cache.current.value.cred) && Usable(cache.current.value.cred, s.now))
                  || (l.lead.previous.Some? && cache.current.value.cred == l.lead.previous.value.cred
                      && s.now < cache.current.value.cred.expiry - MARGIN))
              && (caller.Got? ==> caller.cred == cache.current.value.cred)))
  {
    var t := Do(s, Closes(c));
    cache, caller := t.sources[s.callers[c].source].cache, t.callers[c];
  }

  /** A leader's refresh is over: the source is idle, with what it had or with a token begun after its last Invalidate. */
  lemma LeadEnds(s: Sys, c: CallerId, cache: Cache, caller: Caller)
    requires Inv(s) && c in s.callers && s.callers[c].Leading?
    requires
      var src := SourceAt(s, s.callers[c].source);
      && cache.refreshing.None? && cache.generation == src.cache.generation
      && (|| cache.current == src.cache.current
          || (cache.current.Some? && src.stamp < cache.current.value.cred.begun <= s.tick && WellFormed(cache.current.value.cred)))
    requires !caller.Leading? && !caller.Waiting? && caller.source == s.callers[c].source && caller.floor == s.callers[c].floor
    requires caller.Got? ==> caller.floor < caller.cred.begun <= s.tick
    requires caller.Failed? ==> ErrorOk(s, c, caller.error)
    ensures
      var a := s.callers[c].source;
      Inv(s.(tick := s.tick + 1, sources := s.sources[a := SourceAt(s, a).(cache := cache)], callers := s.callers[c := caller]))
  {}

  lemma AskKeeps(s: Sys, step: Step)
    requires Inv(s) && Can(s, step) && step.Asks?
    ensures Inv(Do(s, step))
  {
    var bridge := AskEffect(s, step);
    TickKeeps(s, bridge);
    if Ask(s.bridge, s.now).1.Served? {
      CarryKeeps(s.(tick := s.tick + 1, bridge := bridge), step.r, s.bridge.token.value);
    }
  }

  /** What asking does: at most a mark on the bridge, and a token for the request. */
  lemma AskEffect(s: Sys, step: Step) returns (bridge: Bridge)
    requires Can(s, step) && step.Asks?
    ensures bridge.(requested := s.bridge.requested) == s.bridge
    ensures
      var t := s.(tick := s.tick + 1, bridge := bridge);
      if Ask(s.bridge, s.now).1.Served? then
        s.bridge.token.Some? && bridge.token == s.bridge.token
        && Do(s, step) == t.(requests := t.requests[step.r := Carrying(t, step.r, s.bridge.token.value)])
      else Do(s, step) == t
  {
    bridge := Ask(s.bridge, s.now).0;
  }

  /** Time passes, and the bridge at most remembers that a token was asked for. */
  lemma TickKeeps(s: Sys, bridge: Bridge)
    requires Inv(s) && bridge.(requested := s.bridge.requested) == s.bridge
    ensures Inv(s.(tick := s.tick + 1, bridge := bridge))
  {}

  lemma CarryKeeps(s: Sys, r: RequestId, cred: Cred)
    requires Inv(s) && s.bridge.token == Some(cred)
    ensures Inv(s.(requests := s.requests[r := Carrying(s, r, cred)]))
  {}

  // ---- Runs ----

  predicate Feasible(s: Sys, run: seq<Step>)
    decreases |run|
  {
    run == [] || (Can(s, run[0]) && Feasible(Do(s, run[0]), run[1..]))
  }

  function After(s: Sys, run: seq<Step>): Sys
    requires Feasible(s, run)
    decreases |run|
  {
    if run == [] then s else After(Do(s, run[0]), run[1..])
  }

  ghost predicate Reachable(s: Sys) {
    exists start, run :: Starts(start) && Feasible(start, run) && After(start, run) == s
  }

  lemma {:induction false} RunKeeps(s: Sys, run: seq<Step>)
    requires Inv(s) && Feasible(s, run)
    ensures Inv(After(s, run))
    decreases |run|
  {
    if run != [] {
      StepKeeps(s, run[0]);
      RunKeeps(Do(s, run[0]), run[1..]);
    }
  }

  lemma ReachableInv(s: Sys)
    requires Reachable(s)
    ensures Inv(s)
  {
    var start, run :| Starts(start) && Feasible(start, run) && After(start, run) == s;
    RunKeeps(start, run);
  }

  lemma RunCons(s: Sys, step: Step, rest: seq<Step>)
    requires Can(s, step) && Feasible(Do(s, step), rest)
    ensures Feasible(s, [step] + rest) && After(s, [step] + rest) == After(Do(s, step), rest)
  {
    assert ([step] + rest)[1..] == rest;
  }

  lemma {:induction false} RunAppend(s: Sys, first: seq<Step>, second: seq<Step>)
    requires Feasible(s, first) && Feasible(After(s, first), second)
    ensures Feasible(s, first + second) && After(s, first + second) == After(After(s, first), second)
    decreases |first|
  {
    if first == [] {
      assert first + second == second;
    } else {
      RunAppend(Do(s, first[0]), first[1..], second);
      RunCons(s, first[0], first[1..] + second);
      assert [first[0]] + (first[1..] + second) == first + second;
    }
  }

  lemma RunSnoc(s: Sys, run: seq<Step>, step: Step)
    requires Feasible(s, run) && Can(After(s, run), step)
    ensures Feasible(s, run + [step]) && After(s, run + [step]) == Do(After(s, run), step)
  {
    RunCons(After(s, run), step, []);
    assert [step] + [] == [step];
    RunAppend(s, run, [step]);
  }

  // ---- What holds in every run ----

  /** A token the bridge hands out was minted by an inner call begun after the bridge's last Invalidate, although
      Service fetches it through a cache that other callbacks refresh and invalidate, whenever it came through the
      source that carried that invalidation through. */
  lemma BridgeServesFresh(s: Sys)
    requires Reachable(s) && Ask(s.bridge, s.now).1.Served? && Carried(s)
    ensures Ask(s.bridge, s.now).1.cred.begun > s.bridgeStamp
  {
    ReachableInv(s);
  }

  /** Under the same condition the transport's one retry after a 401 carries a token whose mint was begun after the
      401 arrived. */
  lemma RetryCarriesFreshToken(s: Sys, r: RequestId)
    requires Reachable(s) && r in s.requests && s.requests[r].Resent? && s.requests[r].carried
    ensures s.requests[r].second.begun > s.requests[r].at
  {
    ReachableInv(s);
  }

  /** A Service goes through the source that carried the invalidation of its bridge generation through, if there was one;
      the first Service of a generation, which carries it, is free to choose. */
  predicate StaysWithCarrier(s: Sys, step: Step) {
    step.Opens? && s.bridge.generation > 0 && s.bridge.sourceGeneration == s.bridge.generation ==> step.source == s.carrier
  }

  predicate Steady(s: Sys, run: seq<Step>)
    requires Feasible(s, run)
    decreases |run|
  {
    run == [] || (StaysWithCarrier(s, run[0]) && Steady(Do(s, run[0]), run[1..]))
  }

  ghost predicate AllCarried(s: Sys) {
    && (s.service.Opened? || s.service.Calling? ==> s.service.generation == s.bridge.generation ==> Faithful(s))
    && (s.bridge.token.Some? ==> Carried(s))
    && (forall r | r in s.requests && s.requests[r].Resent? :: s.requests[r].carried)
  }

  lemma SteadyStep(s: Sys, step: Step)
    requires Inv(s) && AllCarried(s) && Can(s, step) && StaysWithCarrier(s, step)
    ensures AllCarried(Do(s, step))
  {
    if ServiceStep(step) || step.Fences? {
      SteadyService(s, step);
    } else if WorkerStep(step) || step.Asks? {
      SteadyWorker(s, step);
    } else {
      Uninvolved(s, step);
    }
  }

  lemma SteadyService(s: Sys, step: Step)
    requires Inv(s) && AllCarried(s) && Can(s, step) && StaysWithCarrier(s, step) && (ServiceStep(step) || step.Fences?)
    ensures AllCarried(Do(s, step))
  {}

  lemma SteadyWorker(s: Sys, step: Step)
    requires Inv(s) && AllCarried(s) && Can(s, step) && (WorkerStep(step) || step.Asks?)
    ensures AllCarried(Do(s, step))
  {}

  /** What happens between callers and sources does not touch the bridge or its worker. */
  lemma Uninvolved(s: Sys, step: Step)
    requires Can(s, step) && !ServiceStep(step) && !WorkerStep(step) && !step.Fences? && !step.Asks?
    ensures
      var t := Do(s, step);
      t.service == s.service && t.bridge == s.bridge && t.carrier == s.carrier && t.via == s.via && t.requests == s.requests
  {}

  lemma {:induction false} SteadyRun(s: Sys, run: seq<Step>)
    requires Inv(s) && AllCarried(s) && Feasible(s, run) && Steady(s, run)
    ensures Inv(After(s, run)) && AllCarried(After(s, run))
    decreases |run|
  {
    if run != [] {
      StepKeeps(s, run[0]);
      SteadyStep(s, run[0]);
      SteadyRun(Do(s, run[0]), run[1..]);
    }
  }

  /** In every run in which each Service stays with the source that carried its generation's invalidation, as when one
      source serves the bridge throughout, every token served was minted after the last Invalidate and every retry
      carries one minted after its 401. */
  lemma SteadyRunsAreFresh(start: Sys, run: seq<Step>, r: RequestId)
    requires Starts(start) && Feasible(start, run) && Steady(start, run)
    ensures
      var s := After(start, run);
      && (Ask(s.bridge, s.now).1.Served? ==> Ask(s.bridge, s.now).1.cred.begun > s.bridgeStamp)
      && (r in s.requests && s.requests[r].Resent? ==> s.requests[r].second.begun > s.requests[r].at)
  {
    SteadyRun(start, run);
  }

  // ---- Callers of one source ----

  /** At most one refresh of a source runs at a time; the stored token, and every token a call returned, was minted by
      a call begun after the last Invalidate of the source, or after the last one before that call. */
  lemma SourceServesFresh(s: Sys, c: CallerId, d: CallerId, a: SourceId)
    requires Reachable(s) && c in s.callers && d in s.callers
    ensures s.callers[c].Leading? && s.callers[d].Leading? && s.callers[c].source == s.callers[d].source ==> c == d
    ensures SourceAt(s, a).cache.current.Some? ==> SourceAt(s, a).cache.current.value.cred.begun > SourceAt(s, a).stamp
    ensures s.callers[c].Got? ==> s.callers[c].cred.begun > s.callers[c].floor
  {
    ReachableInv(s);
    assert CallerOk(s, c, s.callers[c]) && CallerOk(s, d, s.callers[d]);
  }

  /** The error of a failed call is that of its own context, which did end, or of a mint it led itself, which did fail:
      it brought no token, or one that is malformed or had ten seconds or less to live. */
  lemma FailuresAreOwn(s: Sys, c: CallerId)
    requires Reachable(s) && c in s.callers && s.callers[c].Failed?
    ensures
      var error := s.callers[c].error;
      && error.of == c
      && (error.ContextEnded? ==> c in s.cancelled)
      && (error.MintFailed? && error.brought.Some? ==>
            var cred := error.brought.value;
            cred.text == "" || cred.expiry == ZERO_TIME || cred.expiry >= YEAR_10000 || error.at >= cred.expiry - 10 * SECOND)
  {
    ReachableInv(s);
    assert CallerOk(s, c, s.callers[c]);
  }

  /** How a refresh closes. A usable token is stored and returned, unless the source was invalidated since the refresh
      began: then nothing is stored and the leader goes round again. Without a usable token a live leader of a source
      that was not invalidated falls back on the token it started from, if that has more than ten seconds left, to look
      again in ten; every other leader fails and leaves the store alone. A leader whose context has ended gets no token
      either way. */
  lemma ClosesExactly(s: Sys, c: CallerId)
    requires Inv(s) && Can(s, Closes(c))
    ensures
      var t, l := Do(s, Closes(c)), s.callers[c];
      var was, now := SourceAt(s, l.source).cache, SourceAt(t, l.source).cache;
      var cred := if l.result.value.Token? then l.result.value.cred else Cred("", 0, 0);
      var usable :=
        && cred.text != "" && cred.expiry != -62_135_596_800_000_000_000 && cred.expiry < 253_402_300_800_000_000_000
        && s.now < cred.expiry - 10 * SECOND;
      var invalidated := l.lead.generation != was.generation;
      var fallback := !usable && !invalidated && c !in s.cancelled && was.current.Some? && s.now < was.current.value.cred.expiry - 10 * SECOND;
      && (usable && !invalidated ==>
            && now.current.Some? && now.current.value.cred == cred
            && t.callers[c] == (if c in s.cancelled then Failed(l.source, l.floor, ContextEnded(c)) else Got(l.source, l.floor, cred)))
      && (usable && invalidated ==> now.current == was.current && t.callers[c] == Looping(l.source, l.floor))
      && (fallback ==>
            var kept := was.current.value.cred;
            && now.current == Some(Cached(kept, Min(s.now + 10 * SECOND, kept.expiry - 10 * SECOND)))
            && t.callers[c] == Got(l.source, l.floor, kept))
      && (!usable && !fallback ==> now.current == was.current && t.callers[c].Failed?)
      && now.refreshing.None? && now.generation == was.generation
  {
    assert CallerOk(s, c, s.callers[c]);
  }

  /** A live leader whose source is invalidated while it mints does not fail for that: it leads again, and gets a token
      that was minted after the Invalidate. */
  lemma InvalidatedLeaderGoesRound(s: Sys, c: CallerId, text: string, expiry: int) returns (run: seq<Step>)
    requires Reachable(s) && c in s.callers && s.callers[c].Leading? && c !in s.cancelled
    requires s.callers[c].lead.generation != SourceAt(s, s.callers[c].source).cache.generation
    requires s.callers[c].result.Some? ==> Minted(s.callers[c]).Some? && Usable(Minted(s.callers[c]).value, s.now)
    requires Usable(Cred(text, expiry, 0), s.now)
    ensures Feasible(s, run)
    ensures
      var t, l := After(s, run), s.callers[c];
      && c in t.callers && t.callers[c].Got? && t.callers[c].cred == Cred(text, expiry, t.callers[c].cred.begun)
      && t.callers[c].cred.begun > s.tick >= SourceAt(s, l.source).stamp
  {
    ReachableInv(s);
    assert CallerOk(s, c, s.callers[c]);
    assert SourceOk(s, s.callers[c].source);
    var s1 := GoesRound(s, c, text, expiry);
    FinishingRuns(s, c, text, expiry, true);
    var first := Finishing(s, c, text, expiry, true);
    LeadEffect(s1, Probes(c));
    var s2 := NewLead(s1, c);
    LeaderGets(s2, c, text, expiry);
    FinishingRuns(s2, c, text, expiry, true);
    RunSnoc(s, first, Probes(c));
    RunAppend(s, first + [Probes(c)], Finishing(s2, c, text, expiry, true));
    run := first + [Probes(c)] + Finishing(s2, c, text, expiry, true);
  }

  lemma GoesRound(s: Sys, c: CallerId, text: string, expiry: int) returns (t: Sys)
    requires c in s.callers && s.callers[c].Leading? && c !in s.cancelled
    requires s.callers[c].lead.generation != SourceAt(s, s.callers[c].source).cache.generation
    requires s.callers[c].result.Some? ==> Minted(s.callers[c]).Some? && Usable(Minted(s.callers[c]).value, s.now)
    requires Usable(Cred(text, expiry, 0), s.now) && SourceAt(s, s.callers[c].source).cache.current.None?
    ensures t == Finished(s, c, text, expiry, true)
    ensures
      var l := s.callers[c];
      && t.now == s.now && t.tick > s.tick && t.cancelled == s.cancelled && t.callers == s.callers[c := Looping(l.source, l.floor)]
      && SourceAt(t, l.source).cache.refreshing.None? && SourceAt(t, l.source).cache.current.None?
  {
    t := Finished(s, c, text, expiry, true);
  }

  /** However a leader's refresh ends, its cancellation included, the source is free for a new leader, every waiter
      can go on, and no other caller is touched. Without a token of its own a cancelled leader leaves the stored one
      as it was. */
  lemma LeaderLeavesNoTrace(s: Sys, c: CallerId)
    requires Reachable(s) && Can(s, Closes(c))
    ensures
      var a := s.callers[c].source;
      var s' := Do(s, Closes(c));
      && SourceAt(s', a).cache.refreshing.None?
      && (forall d | d in s.callers && d != c :: s'.callers[d] == s.callers[d])
      && (forall d | d in s'.callers && s'.callers[d].Waiting? && s'.callers[d].source == a :: Can(s', Wakes(d)))
      && (c in s.cancelled && s.callers[c].result.value.NoToken? ==> SourceAt(s', a).cache.current == SourceAt(s, a).cache.current)
      && (c in s.cancelled ==> !s'.callers[c].Got?)
  {}

  /** The run in which a leader's mint returns and its closing section follows. */
  function Finishing(s: Sys, c: CallerId, text: string, expiry: int, ok: bool): seq<Step>
    requires c in s.callers && s.callers[c].Leading?
  {
    if s.callers[c].result.Some? then [Closes(c)] else [Mints(c, text, expiry, ok), Closes(c)]
  }

  /** What that run comes to. */
  function Finished(s: Sys, c: CallerId, text: string, expiry: int, ok: bool): Sys
    requires c in s.callers && s.callers[c].Leading?
  {
    if s.callers[c].result.Some? then Do(s, Closes(c)) else Do(Do(s, Mints(c, text, expiry, ok)), Closes(c))
  }

  lemma FinishingRuns(s: Sys, c: CallerId, text: string, expiry: int, ok: bool)
    requires c in s.callers && s.callers[c].Leading?
    ensures Feasible(s, Finishing(s, c, text, expiry, ok))
    ensures After(s, Finishing(s, c, text, expiry, ok)) == Finished(s, c, text, expiry, ok)
  {
    if s.callers[c].result.Some? {
      RunCons(s, Closes(c), []);
      assert [Closes(c)] + [] == [Closes(c)];
    } else {
      var t := Do(s, Mints(c, text, expiry, ok));
      RunCons(t, Closes(c), []);
      RunCons(s, Mints(c, text, expiry, ok), [Closes(c)] + []);
      assert [Mints(c, text, expiry, ok)] + ([Closes(c)] + []) == [Mints(c, text, expiry, ok), Closes(c)];
    }
  }

  /** A cancelled leader never fails a live waiter. Once its refresh is over the waiter wakes, and is served what the
      leader still stored or leads a refresh of its own; either way it gets a token. */
  lemma WaiterTakesOver(s: Sys, c: CallerId, d: CallerId, text: string, expiry: int) returns (run: seq<Step>)
    requires Reachable(s) && c in s.callers && s.callers[c].Leading? && c in s.cancelled
    requires d in s.callers && s.callers[d].Waiting? && s.callers[d].source == s.callers[c].source && d !in s.cancelled
    requires Usable(Cred(text, expiry, 0), s.now)
    ensures Feasible(s, run)
    ensures
      var t := After(s, run);
      && c in t.callers && !t.callers[c].Got? && !t.callers[c].Leading?
      && d in t.callers && t.callers[d].Got?
      && (Minted(s.callers[c]).None? ==>
            t.callers[c].Failed? && t.callers[d].cred.begun > s.tick && t.callers[d].cred == Cred(text, expiry, t.callers[d].cred.begun))
  {
    LeadsOverNothingServed(s, c);
    run := TakeOver(s, c, d, text, expiry);
  }

  lemma LeadsOverNothingServed(s: Sys, c: CallerId)
    requires Reachable(s) && c in s.callers && s.callers[c].Leading?
    ensures !Serves(SourceAt(s, s.callers[c].source).cache, s.now)
  {
    ReachableInv(s);
    assert CallerOk(s, c, s.callers[c]) && SourceOk(s, s.callers[c].source);
  }

  lemma TakeOver(s: Sys, c: CallerId, d: CallerId, text: string, expiry: int) returns (run: seq<Step>)
    requires c in s.callers && s.callers[c].Leading? && c in s.cancelled && !Serves(SourceAt(s, s.callers[c].source).cache, s.now)
    requires d in s.callers && s.callers[d].Waiting? && s.callers[d].source == s.callers[c].source && d !in s.cancelled
    requires Usable(Cred(text, expiry, 0), s.now)
    ensures Feasible(s, run)
    ensures
      var t := After(s, run);
      && c in t.callers && !t.callers[c].Got? && !t.callers[c].Leading?
      && d in t.callers && t.callers[d].Got?
      && (Minted(s.callers[c]).None? ==>
            t.callers[c].Failed? && t.callers[d].cred.begun > s.tick && t.callers[d].cred == Cred(text, expiry, t.callers[d].cred.begun))
  {
    var s1 := CancelledEnds(s, c);
    FinishingRuns(s, c, "", 0, false);
    var first := Finishing(s, c, "", 0, false);
    var s2 := Do(s1, Wakes(d));
    var caller := CallerEffect(s1, Wakes(d));
    var src := SourceAt(s2, s2.callers[d].source);
    RunSnoc(s, first, Wakes(d));
    RunSnoc(s, first + [Wakes(d)], Probes(d));
    if Serves(src.cache, s2.now) {
      var got := ProbeEffect(s2, Probes(d));
      run := first + [Wakes(d)] + [Probes(d)];
    } else {
      LeadEffect(s2, Probes(d));
      var s3 := NewLead(s2, d);
      LeaderGets(s3, d, text, expiry);
      FinishingRuns(s3, d, text, expiry, true);
      RunAppend(s, first + [Wakes(d)] + [Probes(d)], Finishing(s3, d, text, expiry, true));
      run := first + [Wakes(d)] + [Probes(d)] + Finishing(s3, d, text, expiry, true);
    }
  }

  lemma CancelledEnds(s: Sys, c: CallerId) returns (t: Sys)
    requires c in s.callers && s.callers[c].Leading? && c in s.cancelled
    ensures t == Finished(s, c, "", 0, false)
    ensures
      var a := s.callers[c].source;
      && SourceAt(t, a).cache.refreshing.None? && t.now == s.now && t.cancelled == s.cancelled && t.tick > s.tick
      && t.callers.Keys == s.callers.Keys && (forall d | d in s.callers && d != c :: t.callers[d] == s.callers[d])
      && !t.callers[c].Got? && !t.callers[c].Leading?
      && (Minted(s.callers[c]).None? ==> t.callers[c].Failed? && SourceAt(t, a).cache.current == SourceAt(s, a).cache.current)
  {
    t := Finished(s, c, "", 0, false);
  }

  lemma LeaderGets(s: Sys, d: CallerId, text: string, expiry: int)
    requires d in s.callers && s.callers[d].Leading? && s.callers[d].result.None? && d !in s.cancelled
    requires s.callers[d].lead.generation == SourceAt(s, s.callers[d].source).cache.generation
    requires Usable(Cred(text, expiry, 0), s.now)
    ensures
      var l := s.callers[d];
      Finished(s, d, text, expiry, true).callers == s.callers[d := Got(l.source, l.floor, Cred(text, expiry, l.begun))]
  {
    var result := MintEffect(s, Mints(d, text, expiry, true));
    var t := Do(s, Mints(d, text, expiry, true));
    var cache, caller := CloseEffect(t, d);
  }

  // ---- The bridge's clock ----

  /** Token reports starvation exactly when the deadline has come, or no Service stored a token, and the bridge was
      not created, within the last window. */
  lemma StarvedExactly(s: Sys)
    requires Reachable(s) && s.bridge.closed.None?
    ensures Ask(s.bridge, s.now).1.Starved? <==>
      || s.now >= s.bridge.deadline
      || (s.created <= s.now - s.bridge.window && forall t | t in s.stores :: t <= s.now - s.bridge.window)
  {
    ReachableInv(s);
  }

  /** Whatever bridge is accepted starts a run of this system, is not starved yet, and fits its action's allowance. */
  lemma AcceptedBridgeStarts(info: OidcInfo, fingerprint: string, allowance: int, deadline: int, now: int)
    requires NewBridge(info, fingerprint, allowance, deadline, now).Some?
    ensures
      var b := NewBridge(info, fingerprint, allowance, deadline, now).value;
      Starts(Initial(b, now)) && Ask(b, now).1 == Queued && info.callTimeout + RESERVE <= b.window <= allowance
  {
    WindowExact(info);
  }

  /** A token is served only on an open bridge, before the deadline, with more than ten seconds left to it and within
      a window of a Service that stored a token. */
  lemma ServedInTime(s: Sys)
    requires Reachable(s) && Ask(s.bridge, s.now).1.Served?
    ensures s.bridge.closed.None? && s.now < s.bridge.deadline
    ensures s.now < Ask(s.bridge, s.now).1.cred.expiry - MARGIN
    ensures exists t | t in s.stores :: s.now - s.bridge.window < t <= s.now
  {
    ReachableInv(s);
  }

  /** How a bridge answers: closed, it says with what; else it is starved at its deadline and a window after the last
      store; else it serves its token if that has more than ten seconds left; else it queues the request. */
  lemma AnswersExactly(s: Sys)
    ensures
      var b, asked := s.bridge, Ask(s.bridge, s.now).1;
      var starved := s.now >= b.deadline || s.now >= b.serviced + b.window;
      var live := b.token.Some? && s.now < b.token.value.expiry - 10 * SECOND;
      && (b.closed.Some? ==> asked == Closed(b.closed.value))
      && (b.closed.None? && starved ==> asked == Starved)
      && (b.closed.None? && !starved && live ==> asked == Served(b.token.value))
      && (b.closed.None? && !starved && !live ==> asked == Queued && Ask(b, s.now).0 == b.(requested := true))
      && (asked != Queued ==> Ask(b, s.now).0 == b)
  {}

  /** What a Service does with the token it got: stores it when the bridge is open, the token usable and the generation
      still the one it opened with; asks for another Service when only the generation moved on; drops it otherwise. */
  lemma DepositsExactly(s: Sys)
    requires Can(s, Deposits)
    ensures
      var t, cred := Do(s, Deposits), s.callers[s.service.caller].cred;
      var usable := s.bridge.closed.None? && WellFormed(cred) && s.now < cred.expiry - 10 * SECOND;
      && (usable && s.service.generation == s.bridge.generation ==>
            t.bridge == s.bridge.(token := Some(cred), serviced := s.now, requested := false))
      && (usable && s.service.generation != s.bridge.generation ==> t.bridge == s.bridge.(requested := true))
      && (!usable ==> t.bridge == s.bridge)
  {}

  ghost predicate AskedFor(s: Sys) {
    s.bridge.closed.None? && s.bridge.token.None? && s.bridge.generation > 0 ==> s.bridge.requested
  }

  lemma {:induction false} RunAsks(s: Sys, run: seq<Step>)
    requires Feasible(s, run) && AskedFor(s)
    ensures AskedFor(After(s, run))
    decreases |run|
  {
    if run != [] {
      StepAsks(s, run[0]);
      RunAsks(Do(s, run[0]), run[1..]);
    }
  }

  lemma StepAsks(s: Sys, step: Step)
    requires Can(s, step) && AskedFor(s)
    ensures AskedFor(Do(s, step))
    ensures s.bridge.requested ==> Do(s, step).bridge.requested || (step.Deposits? && Do(s, step).bridge.token.Some?)
  {
    if !ServiceStep(step) && !WorkerStep(step) && !step.Fences? && !step.Asks? {
      Uninvolved(s, step);
    }
  }

  /** A request for a token is never lost: it stands until a Service stores one, and an invalidated bridge without a
      token has one standing. */
  lemma RequestsStand(s: Sys, step: Step)
    requires Reachable(s) && Can(s, step)
    ensures s.bridge.requested ==> Do(s, step).bridge.requested || (step.Deposits? && Do(s, step).bridge.token.Some?)
    ensures s.bridge.closed.None? && s.bridge.token.None? && s.bridge.generation > 0 ==> s.bridge.requested
  {
    var start, run :| Starts(start) && Feasible(start, run) && After(start, run) == s;
    RunAsks(start, run);
    StepAsks(s, step);
  }

  /** Once the bridge is closed nothing is served, in any run. */
  lemma {:induction false} ClosedServesNothing(s: Sys, run: seq<Step>)
    requires s.bridge.closed.Some? && Feasible(s, run)
    ensures Ask(After(s, run).bridge, After(s, run).now).1 == Closed(s.bridge.closed.value)
    decreases |run|
  {
    if run != [] {
      ClosedStays(s, run[0]);
      ClosedServesNothing(Do(s, run[0]), run[1..]);
    }
  }

  lemma ClosedStays(s: Sys, step: Step)
    requires s.bridge.closed.Some? && Can(s, step)
    ensures Do(s, step).bridge.closed == s.bridge.closed
  {}

}
