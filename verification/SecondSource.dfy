// What another source does to the bridge's fence: exactly when a Service through it
// stores a token from before the bridge's last Invalidate.
module SecondSource {
  import opened Base
  import opened TokenCache
  import opened AuthBridge
  import opened Credentials

  // ---- What a source has to offer ----

  predicate Alive(cred: Cred, now: int) {
    now < cred.expiry - MARGIN
  }

  /** The leader of a's refresh, when what it brings will be stored. */
  predicate LeaderCounts(s: Sys, a: SourceId) {
    var src := SourceAt(s, a);
    src.cache.refreshing.Some? && src.leader in s.callers && s.callers[src.leader].Leading?
    && s.callers[src.leader].lead.generation == src.cache.generation
  }

  function LeaderOf(s: Sys, a: SourceId): Caller
    requires LeaderCounts(s, a)
  {
    s.callers[SourceAt(s, a).leader]
  }

  /** The leader has brought a token, minted after the bridge's last Invalidate, that outlives the stored one. */
  predicate Superseded(s: Sys, a: SourceId) {
    LeaderCounts(s, a) && SourceAt(s, a).cache.current.Some? && Minted(LeaderOf(s, a)).Some?
    && var m := Minted(LeaderOf(s, a)).value;
       m.begun > s.bridgeStamp && Usable(m, s.now) && SourceAt(s, a).cache.current.value.cred.expiry <= m.expiry
  }

  /** The source stores a token from before the last Invalidate, not in its last ten seconds and not about to go. */
  predicate HoldsStale(s: Sys, a: SourceId) {
    var current := SourceAt(s, a).cache.current;
    current.Some? && Alive(current.value.cred, s.now) && current.value.cred.begun <= s.bridgeStamp && !Superseded(s, a)
  }

  /** The last moment at which some expiry is still acceptable. */
  const LAST_MINT: int := YEAR_10000 - 1 - MARGIN

  /** The source has a refresh in flight from before the last Invalidate that may yet bring, or has brought, a token. */
  predicate BringsStale(s: Sys, a: SourceId) {
    LeaderCounts(s, a) && LeaderOf(s, a).begun <= s.bridgeStamp
    && if LeaderOf(s, a).result.None? then SourceAt(s, a).leader !in s.cancelled && s.now < LAST_MINT
       else Minted(LeaderOf(s, a)).Some? && Usable(Minted(LeaderOf(s, a)).value, s.now)
  }

  predicate Clean(s: Sys, a: SourceId) {
    !HoldsStale(s, a) && !BringsStale(s, a)
  }

  /** Between Services, the invalidations of an open bridge having been carried through. */
  predicate Settled(s: Sys) {
    s.bridge.closed.None? && s.service.Idle? && s.bridge.sourceGeneration == s.bridge.generation
  }

  /** The run invalidates the bridge no more, and its Services go through a. */
  predicate KeepsTo(run: seq<Step>, a: SourceId) {
    forall i | 0 <= i < |run| :: !run[i].Revokes? && !run[i].Revokes401? && (run[i].Opens? ==> run[i].source == a)
  }

  predicate StoresStale(s: Sys, run: seq<Step>, a: SourceId) {
    Feasible(s, run) && KeepsTo(run, a)
    && After(s, run).bridge.token.Some? && After(s, run).bridge.token.value.begun <= After(s, run).bridgeStamp
  }

  // ---- A clean source stays clean ----

  predicate ServiceKept(s: Sys, a: SourceId) {
    && (s.service.Opened? ==> s.service.source == a && !s.service.invalidate)
    && (s.service.Calling? ==>
          && s.service.source == a && s.service.caller in s.callers
          && (s.callers[s.service.caller].Got? ==> s.callers[s.service.caller].cred.begun > s.bridgeStamp))
  }

  predicate BridgeKept(s: Sys) {
    s.bridge.sourceGeneration == s.bridge.generation && (s.bridge.token.Some? ==> s.bridge.token.value.begun > s.bridgeStamp)
  }

  ghost predicate Kept(s: Sys, a: SourceId) {
    Inv(s) && BridgeKept(s) && ServiceKept(s, a) && Clean(s, a)
  }

  /** The part of a step on callers and sources that does not concern a: its source and leader are as they were. */
  lemma CleanElsewhere(s: Sys, t: Sys, a: SourceId)
    requires Inv(s) && Clean(s, a) && SourceAt(t, a) == SourceAt(s, a)
    requires t.bridgeStamp == s.bridgeStamp && t.now >= s.now && s.cancelled <= t.cancelled
    requires SourceAt(s, a).cache.refreshing.Some? ==>
      SourceAt(s, a).leader in t.callers && t.callers[SourceAt(s, a).leader] == s.callers[SourceAt(s, a).leader]
    ensures Clean(t, a)
  {
    assert a in s.sources ==> SourceOk(s, a);
  }

  lemma CallerStepKept(s: Sys, step: Step, a: SourceId)
    requires Kept(s, a) && Can(s, step) && CallerStep(step)
    ensures BridgeKept(Do(s, step)) && ServiceKept(Do(s, step), a) && Clean(Do(s, step), a)
  {
    assert a in s.sources ==> SourceOk(s, a);
    if !step.Passes? && !step.Cancels? {
      var caller := CallerEffect(s, step);
    }
    CleanElsewhere(s, Do(s, step), a);
  }

  lemma ServiceStepKept(s: Sys, step: Step, a: SourceId)
    requires Kept(s, a) && Can(s, step) && ServiceStep(step) && (step.Opens? ==> step.source == a)
    ensures BridgeKept(Do(s, step)) && ServiceKept(Do(s, step), a) && Clean(Do(s, step), a)
  {
    assert a in s.sources ==> SourceOk(s, a);
    CleanElsewhere(s, Do(s, step), a);
  }

  lemma WorkerStepKept(s: Sys, step: Step, a: SourceId)
    requires Kept(s, a) && Can(s, step) && (step.Shuts? || step.Rejects? || step.Asks?)
    ensures BridgeKept(Do(s, step)) && ServiceKept(Do(s, step), a) && Clean(Do(s, step), a)
  {
    assert a in s.sources ==> SourceOk(s, a);
    if step.Asks? {
      var bridge := AskEffect(s, step);
    }
    CleanElsewhere(s, Do(s, step), a);
  }

  lemma InvalidateKept(s: Sys, step: Step, a: SourceId)
    requires Kept(s, a) && Can(s, step) && step.Invalidates?
    ensures BridgeKept(Do(s, step)) && ServiceKept(Do(s, step), a) && Clean(Do(s, step), a)
  {
    assert a in s.sources ==> SourceOk(s, a);
    var b := FenceEffect(s, step);
    if b != a {
      CleanElsewhere(s, Do(s, step), a);
    }
  }

  /** A probe is answered from the store only while nobody refreshes. */
  lemma ProbeKept(s: Sys, step: Step, a: SourceId)
    requires Kept(s, a) && Can(s, step) && step.Probes?
    ensures BridgeKept(Do(s, step)) && ServiceKept(Do(s, step), a) && Clean(Do(s, step), a)
  {
    assert a in s.sources ==> SourceOk(s, a);
    var b := s.callers[step.c].source;
    if Serves(SourceAt(s, b).cache, s.now) || SourceAt(s, b).cache.refreshing.Some? {
      var caller := ProbeEffect(s, step);
      CleanElsewhere(s, Do(s, step), a);
    } else {
      LeadEffect(s, step);
      if b != a {
        CleanElsewhere(s, NewLead(s, step.c), a);
      }
    }
  }

  lemma MintKept(s: Sys, step: Step, a: SourceId)
    requires Kept(s, a) && Can(s, step) && step.Mints?
    ensures BridgeKept(Do(s, step)) && ServiceKept(Do(s, step), a) && Clean(Do(s, step), a)
  {
    var result := MintEffect(s, step);
    assert CallerOk(s, step.c, s.callers[step.c]);
    assert a in s.sources ==> SourceOk(s, a);
    if s.callers[step.c].source == a {
      MintAtKept(s, step, a, result);
    } else {
      CleanElsewhere(s, Do(s, step), a);
    }
  }

  lemma MintAtKept(s: Sys, step: Step, a: SourceId, result: MintResult)
    requires Inv(s) && Clean(s, a) && Can(s, step) && step.Mints? && s.callers[step.c].source == a
    requires CallerOk(s, step.c, s.callers[step.c]) && ResultOk(s, step.c, s.callers[step.c].begun, result)
    requires Do(s, step) == s.(tick := s.tick + 1, callers := s.callers[step.c := s.callers[step.c].(result := Some(result))])
    requires result.Token? ==> step.c !in s.cancelled && result.cred == Cred(step.text, step.expiry, s.callers[step.c].begun)
    ensures Clean(Do(s, step), a)
  {
    var t := Do(s, step);
    assert SourceAt(t, a) == SourceAt(s, a);
  }

  lemma CloseKept(s: Sys, step: Step, a: SourceId)
    requires Kept(s, a) && Can(s, step) && step.Closes?
    ensures BridgeKept(Do(s, step)) && ServiceKept(Do(s, step), a) && Clean(Do(s, step), a)
  {
    assert CallerOk(s, step.c, s.callers[step.c]);
    assert a in s.sources ==> SourceOk(s, a);
    var cache, caller := CloseEffect(s, step.c);
    if s.callers[step.c].source == a {
      CloseAtKept(s, step.c, a, cache, caller);
    } else {
      CleanElsewhere(s, Do(s, step), a);
    }
  }

  /** What a clean source's leader leaves, and returns, was begun after the last Invalidate. */
  lemma CloseAtKept(s: Sys, c: CallerId, a: SourceId, cache: Cache, caller: Caller)
    requires c in s.callers && s.callers[c].Leading? && s.callers[c].result.Some? && s.callers[c].source == a
    requires CallerOk(s, c, s.callers[c]) && Clean(s, a)
    requires
      var l, was := s.callers[c], SourceAt(s, a).cache;
      && cache == Complete(was, l.lead, s.now, Minted(l), c in s.cancelled).0 && cache.refreshing.None?
      && (|| (cache.current == was.current && !caller.Got?)
          || (&& cache.current.Some? && l.lead.generation == was.generation
              && (|| (Minted(l) == Some(cache.current.value.cred) && Usable(cache.current.value.cred, s.now))
                  || (l.lead.previous.Some? && cache.current.value.cred == l.lead.previous.value.cred
                      && s.now < cache.current.value.cred.expiry - MARGIN))
              && (caller.Got? ==> caller.cred == cache.current.value.cred)))
    ensures cache.current.Some? && Alive(cache.current.value.cred, s.now) ==> cache.current.value.cred.begun > s.bridgeStamp
    ensures caller.Got? ==> caller.cred.begun > s.bridgeStamp
  {}

  lemma StepKept(s: Sys, step: Step, a: SourceId)
    requires Kept(s, a) && Can(s, step) && KeepsTo([step], a)
    ensures Kept(Do(s, step), a)
  {
    StepKeeps(s, step);
    assert [step][0] == step;
    if CallerStep(step) {
      CallerStepKept(s, step, a);
    } else if ServiceStep(step) {
      ServiceStepKept(s, step, a);
    } else if step.Shuts? || step.Rejects? || step.Asks? {
      WorkerStepKept(s, step, a);
    } else if step.Probes? {
      ProbeKept(s, step, a);
    } else if step.Mints? {
      MintKept(s, step, a);
    } else if step.Closes? {
      CloseKept(s, step, a);
    } else {
      InvalidateKept(s, step, a);
    }
  }

  lemma {:induction false} RunKept(s: Sys, run: seq<Step>, a: SourceId)
    requires Kept(s, a) && Feasible(s, run) && KeepsTo(run, a)
    ensures Kept(After(s, run), a)
    decreases |run|
  {
    if run != [] {
      StepKept(s, run[0], a);
      RunKept(Do(s, run[0]), run[1..], a);
    }
  }

  // ---- A source that is not clean stores a stale token ----

  ghost predicate CanStoreStale(s: Sys, a: SourceId) {
    exists run :: StoresStale(s, run, a)
  }

  lemma KeepsToBoth(first: seq<Step>, second: seq<Step>, a: SourceId)
    requires KeepsTo(first, a) && KeepsTo(second, a)
    ensures KeepsTo(first + second, a)
  {}

  lemma StoresLater(s: Sys, first: seq<Step>, a: SourceId)
    requires Feasible(s, first) && KeepsTo(first, a) && CanStoreStale(After(s, first), a)
    ensures CanStoreStale(s, a)
  {
    var second :| StoresStale(After(s, first), second, a);
    RunAppend(s, first, second);
    KeepsToBoth(first, second, a);
    assert StoresStale(s, first + second, a);
  }

  lemma {:induction false} Above(ids: set<nat>) returns (id: nat)
    ensures forall i | i in ids :: i < id
    decreases |ids|
  {
    if ids == {} {
      id := 0;
    } else {
      var i :| i in ids;
      var rest := Above(ids - {i});
      id := if i < rest then rest else i + 1;
      assert forall j | j in ids :: j == i || j in ids - {i};
    }
  }

  lemma NewCaller(s: Sys) returns (c: CallerId)
    ensures c !in s.callers && c !in s.cancelled
  {
    c := Above(s.callers.Keys + s.cancelled);
  }

  /** A source that, asked now, would serve a cached token minted before the bridge's last Invalidate. */
  predicate Holds(s: Sys, a: SourceId, cred: Cred) {
    && Serves(SourceAt(s, a).cache, s.now) && SourceAt(s, a).cache.current.value.cred == cred
    && Usable(cred, s.now) && cred.begun <= s.bridgeStamp
  }

  /** A Service through such a source stores that token; the bridge, if it is not starved, serves it next. */
  lemma StaleThroughOther(s: Sys, a: SourceId, cred: Cred, c: CallerId)
    requires Settled(s) && c !in s.callers && Holds(s, a, cred)
    ensures
      var run := [Enters, Opens(a), Delegates(c), Probes(c), Deposits];
      && StoresStale(s, run, a) && After(s, run).bridge.token == Some(cred) && After(s, run).bridgeStamp == s.bridgeStamp
      && (s.bridge.window > 0 && s.now < s.bridge.deadline ==> Ask(After(s, run).bridge, After(s, run).now).1 == Served(cred))
  {
    var t := ServiceServes(s, a, cred, c);
    DepositsThat(t, a, c, cred);
    var first := [Enters, Opens(a), Delegates(c), Probes(c)];
    RunSnoc(s, first, Deposits);
    assert first + [Deposits] == [Enters, Opens(a), Delegates(c), Probes(c), Deposits];
  }

  lemma ServiceServes(s: Sys, a: SourceId, cred: Cred, c: CallerId) returns (t: Sys)
    requires Settled(s) && c !in s.callers
    requires Serves(SourceAt(s, a).cache, s.now) && SourceAt(s, a).cache.current.value.cred == cred
    ensures Feasible(s, [Enters, Opens(a), Delegates(c), Probes(c)]) && t == After(s, [Enters, Opens(a), Delegates(c), Probes(c)])
    ensures t.bridge == s.bridge && t.bridgeStamp == s.bridgeStamp && t.now == s.now
    ensures t.service == Calling(a, s.bridge.generation, c) && c in t.callers && t.callers[c].Got? && t.callers[c].cred == cred
  {
    var s2 := OpensPlainly(s, a);
    t := ServesCached(s2, a, c, cred);
    var rest := [Probes(c)] + [];
    RunCons(Do(s2, Delegates(c)), Probes(c), []);
    RunCons(s2, Delegates(c), rest);
    RunCons(Do(s, Enters), Opens(a), [Delegates(c)] + rest);
    RunCons(s, Enters, [Opens(a)] + ([Delegates(c)] + rest));
    assert [Enters] + ([Opens(a)] + ([Delegates(c)] + rest)) == [Enters, Opens(a), Delegates(c), Probes(c)];
  }

  lemma OpensPlainly(s: Sys, a: SourceId) returns (t: Sys)
    requires s.bridge.closed.None? && s.service.Idle? && s.bridge.sourceGeneration == s.bridge.generation
    ensures Can(s, Enters) && Can(Do(s, Enters), Opens(a)) && t == Do(Do(s, Enters), Opens(a))
    ensures t == s.(tick := s.tick + 2, service := Opened(a, s.bridge.generation, false))
  {
    t := Do(Do(s, Enters), Opens(a));
  }

  lemma ServesCached(s: Sys, a: SourceId, c: CallerId, cred: Cred) returns (t: Sys)
    requires s.service.Opened? && s.service.source == a && !s.service.invalidate && c !in s.callers
    requires Serves(SourceAt(s, a).cache, s.now) && SourceAt(s, a).cache.current.value.cred == cred
    ensures Can(s, Delegates(c)) && Can(Do(s, Delegates(c)), Probes(c)) && t == Do(Do(s, Delegates(c)), Probes(c))
    ensures t == s.(tick := s.tick + 2, callers := s.callers[c := Got(a, SourceAt(s, a).stamp, cred)],
                    service := Calling(a, s.service.generation, c))
  {
    var s1 := Do(s, Delegates(c));
    t := Do(s1, Probes(c));
    var caller := ProbeEffect(s1, Probes(c));
  }

  lemma DepositsThat(s: Sys, a: SourceId, c: CallerId, cred: Cred)
    requires s.service == Calling(a, s.bridge.generation, c) && c in s.callers && s.callers[c].Got? && s.callers[c].cred == cred
    requires s.bridge.closed.None? && Usable(cred, s.now)
    ensures Can(s, Deposits)
    ensures
      var t := Do(s, Deposits);
      && t.bridge.token == Some(cred) && t.bridgeStamp == s.bridgeStamp
      && (s.bridge.window > 0 && s.now < s.bridge.deadline ==> Ask(t.bridge, t.now).1 == Served(cred))
  {}

  lemma HoldsStores(s: Sys, a: SourceId, cred: Cred)
    requires Settled(s) && Holds(s, a, cred)
    ensures CanStoreStale(s, a)
  {
    var c := NewCaller(s);
    StaleThroughOther(s, a, cred, c);
  }

  /** What a leader's refresh comes to leaves the rest of the system as it was. */
  predicate OnlyRefreshed(s: Sys, t: Sys) {
    t.service == s.service && t.bridge == s.bridge && t.bridgeStamp == s.bridgeStamp && t.now == s.now && t.cancelled == s.cancelled
  }

  /** A token past its next check that nobody refreshes: the Service's own caller leads, its mint fails, and it falls
      back on that token. */
  lemma FallbackStores(s: Sys, a: SourceId, cred: Cred)
    requires Settled(s) && SourceAt(s, a).cache.current.Some? && SourceAt(s, a).cache.current.value.cred == cred
    requires SourceAt(s, a).cache.refreshing.None? && !Serves(SourceAt(s, a).cache, s.now)
    requires Usable(cred, s.now) && cred.begun <= s.bridgeStamp
    ensures CanStoreStale(s, a)
  {
    var c := NewCaller(s);
    var first := [Enters, Opens(a), Delegates(c), Probes(c)];
    var s4 := ServiceLeads(s, a, c);
    var s5 := FallsBack(s4, c, cred);
    DepositsThat(s5, a, c, cred);
    FinishingRuns(s4, c, "", 0, false);
    RunAppend(s, first, [Mints(c, "", 0, false), Closes(c)]);
    RunSnoc(s, first + [Mints(c, "", 0, false), Closes(c)], Deposits);
    assert StoresStale(s, first + [Mints(c, "", 0, false), Closes(c)] + [Deposits], a);
  }

  lemma ServiceLeads(s: Sys, a: SourceId, c: CallerId) returns (t: Sys)
    requires Settled(s) && c !in s.callers
    requires SourceAt(s, a).cache.refreshing.None? && !Serves(SourceAt(s, a).cache, s.now)
    ensures Feasible(s, [Enters, Opens(a), Delegates(c), Probes(c)]) && t == After(s, [Enters, Opens(a), Delegates(c), Probes(c)])
    ensures t.bridge == s.bridge && t.bridgeStamp == s.bridgeStamp && t.now == s.now && t.cancelled == s.cancelled
    ensures t.service == Calling(a, s.bridge.generation, c)
    ensures c in t.callers && t.callers[c].Leading? && t.callers[c].source == a && t.callers[c].result.None?
    ensures
      var cache, was := SourceAt(t, a).cache, SourceAt(s, a).cache;
      cache == was.(refreshing := cache.refreshing) && t.callers[c].lead == Lead(was.generation, was.current)
  {
    var s2 := OpensPlainly(s, a);
    var s3 := Do(s2, Delegates(c));
    LeadEffect(s3, Probes(c));
    t := NewLead(s3, c);
    var rest := [Probes(c)] + [];
    RunCons(s3, Probes(c), []);
    RunCons(s2, Delegates(c), rest);
    RunCons(Do(s, Enters), Opens(a), [Delegates(c)] + rest);
    RunCons(s, Enters, [Opens(a)] + ([Delegates(c)] + rest));
    assert [Enters] + ([Opens(a)] + ([Delegates(c)] + rest)) == [Enters, Opens(a), Delegates(c), Probes(c)];
  }

  /** A leader whose mint fails, uncancelled, returns the token it started from and stores it again, to be served. */
  lemma FallsBack(s: Sys, c: CallerId, cred: Cred) returns (t: Sys)
    requires c in s.callers && s.callers[c].Leading? && c !in s.cancelled && s.callers[c].result.None?
    requires
      var cache := SourceAt(s, s.callers[c].source).cache;
      cache.current.Some? && cache.current.value.cred == cred && s.callers[c].lead == Lead(cache.generation, cache.current)
    requires Alive(cred, s.now)
    ensures t == Finished(s, c, "", 0, false) && OnlyRefreshed(s, t)
    ensures t.callers == s.callers[c := Got(s.callers[c].source, s.callers[c].floor, cred)]
    ensures
      var cache := SourceAt(t, s.callers[c].source).cache;
      cache.refreshing.None? && Serves(cache, t.now) && cache.current.value.cred == cred
  {
    var result := MintEffect(s, Mints(c, "", 0, false));
    var u := Do(s, Mints(c, "", 0, false));
    var cache, caller := CloseEffect(u, c);
    StoredIsRechecked(SourceAt(s, s.callers[c].source).cache, s.callers[c].lead, s.now, None, false);
    t := Do(u, Closes(c));
  }

  /** The end of a counting leader's refresh. */
  lemma LeaderEnds(s: Sys, a: SourceId, text: string, expiry: int, ok: bool) returns (t: Sys)
    requires Inv(s) && LeaderCounts(s, a)
    ensures t == Finished(s, SourceAt(s, a).leader, text, expiry, ok) && OnlyRefreshed(s, t)
    ensures
      var src, l := SourceAt(s, a), LeaderOf(s, a);
      var cancelled := src.leader in s.cancelled;
      var minted :=
        if l.result.Some? then Minted(l) else if ok && !cancelled then Some(Cred(text, expiry, l.begun)) else None;
      SourceAt(t, a).cache == Complete(src.cache, l.lead, s.now, minted, cancelled).0
    ensures LeaderOf(s, a).lead.previous == SourceAt(s, a).cache.current
  {
    var c := SourceAt(s, a).leader;
    assert a in s.sources ==> SourceOk(s, a);
    assert CallerOk(s, c, s.callers[c]);
    if s.callers[c].result.None? {
      var result := MintEffect(s, Mints(c, text, expiry, ok));
      var u := Do(s, Mints(c, text, expiry, ok));
      var cache, caller := CloseEffect(u, c);
      t := Do(u, Closes(c));
    } else {
      var cache, caller := CloseEffect(s, c);
      t := Do(s, Closes(c));
    }
  }

  lemma EndsThen(s: Sys, a: SourceId, text: string, expiry: int, ok: bool)
    requires LeaderCounts(s, a) && CanStoreStale(Finished(s, SourceAt(s, a).leader, text, expiry, ok), a)
    ensures CanStoreStale(s, a)
  {
    var c := SourceAt(s, a).leader;
    FinishingRuns(s, c, text, expiry, ok);
    StoresLater(s, Finishing(s, c, text, expiry, ok), a);
  }

  /** A refresh from before the last Invalidate brings its token. */
  lemma BringingStores(s: Sys, a: SourceId)
    requires Inv(s) && Settled(s) && BringsStale(s, a)
    ensures CanStoreStale(s, a)
  {
    var c, l := SourceAt(s, a).leader, LeaderOf(s, a);
    assert a in s.sources ==> SourceOk(s, a);
    assert CallerOk(s, c, l);
    var t := LeaderEnds(s, a, "t", YEAR_10000 - 1, true);
    var minted := if l.result.Some? then Minted(l).value else Cred("t", YEAR_10000 - 1, l.begun);
    StoredIsRechecked(SourceAt(s, a).cache, l.lead, s.now, Some(minted), c in s.cancelled);
    HoldsStores(t, a, minted);
    EndsThen(s, a, "t", YEAR_10000 - 1, true);
  }

  /** A refresh that brings nothing usable leaves the stale token where it is. */
  lemma FailingStores(s: Sys, a: SourceId)
    requires Inv(s) && Settled(s) && LeaderCounts(s, a) && HoldsStale(s, a)
    requires Minted(LeaderOf(s, a)).Some? ==> !Usable(Minted(LeaderOf(s, a)).value, s.now)
    ensures CanStoreStale(s, a)
  {
    var cred := SourceAt(s, a).cache.current.value.cred;
    assert a in s.sources ==> SourceOk(s, a);
    var t := LeaderEnds(s, a, "", 0, false);
    if Serves(SourceAt(t, a).cache, t.now) {
      HoldsStores(t, a, cred);
    } else {
      FallbackStores(t, a, cred);
    }
    EndsThen(s, a, "", 0, false);
  }

  /** A fresh token that expires before the stale one is waited out. */
  lemma WaitingStores(s: Sys, a: SourceId)
    requires Inv(s) && Settled(s) && LeaderCounts(s, a) && HoldsStale(s, a) && Minted(LeaderOf(s, a)).Some?
    requires
      var m := Minted(LeaderOf(s, a)).value;
      Usable(m, s.now) && m.expiry < SourceAt(s, a).cache.current.value.cred.expiry
    ensures CanStoreStale(s, a)
  {
    var m := Minted(LeaderOf(s, a)).value;
    var step := Passes(m.expiry - MARGIN);
    var t := Do(s, step);
    StepKeeps(s, step);
    FailingStores(t, a);
    RunCons(s, step, []);
    StoresLater(s, [step] + [], a);
  }

  lemma HoldingStores(s: Sys, a: SourceId)
    requires Inv(s) && Settled(s) && HoldsStale(s, a) && !BringsStale(s, a)
    ensures CanStoreStale(s, a)
  {
    var cred := SourceAt(s, a).cache.current.value.cred;
    assert a in s.sources ==> SourceOk(s, a);
    if Serves(SourceAt(s, a).cache, s.now) {
      HoldsStores(s, a, cred);
    } else if SourceAt(s, a).cache.refreshing.None? {
      FallbackStores(s, a, cred);
    } else {
      var c := SourceAt(s, a).leader;
      assert CallerOk(s, c, s.callers[c]);
      if Minted(LeaderOf(s, a)).Some? && Usable(Minted(LeaderOf(s, a)).value, s.now) {
        WaitingStores(s, a);
      } else {
        FailingStores(s, a);
      }
    }
  }

  // ---- The exact condition ----

  /** Once the last Invalidate of an open bridge has been carried through, Services through a source can come to store
      a token minted before it exactly when the source is not clean: when it stores such a token, live and not about to
      be superseded, or has a refresh from before the Invalidate in flight that can still bring one. */
  lemma StaleExactly(s: Sys, a: SourceId)
    requires Reachable(s) && Settled(s)
    requires s.bridge.token.Some? ==> s.bridge.token.value.begun > s.bridgeStamp
    ensures (exists run :: StoresStale(s, run, a)) <==> !Clean(s, a)
  {
    ReachableInv(s);
    if Clean(s, a) {
      forall run
        ensures !StoresStale(s, run, a)
      {
        if Feasible(s, run) && KeepsTo(run, a) {
          RunKept(s, run, a);
        }
      }
    } else if BringsStale(s, a) {
      BringingStores(s, a);
    } else {
      HoldingStores(s, a);
    }
  }

  /** The source that carried the invalidation through is clean, and before the first one every source is. */
  lemma CarrierIsClean(s: Sys, a: SourceId)
    requires Reachable(s) && Settled(s) && (s.bridge.generation == 0 || a == s.carrier)
    ensures Clean(s, a)
  {
    ReachableInv(s);
    assert a in s.sources ==> SourceOk(s, a);
    if LeaderCounts(s, a) {
      assert CallerOk(s, SourceAt(s, a).leader, LeaderOf(s, a));
    }
  }

  /** In particular it serves no token from before that invalidation: only another source does. */
  lemma OnlyOthersHold(s: Sys, a: SourceId, cred: Cred)
    requires Reachable(s) && s.service.Idle? && Holds(s, a, cred)
    requires s.bridge.generation > 0 && s.bridge.sourceGeneration == s.bridge.generation
    ensures a != s.carrier
  {
    ReachableInv(s);
  }

  // ---- A reachable state that is not clean ----

  /** A first caller fills a source nobody has called yet. */
  lemma Fills(s: Sys, a: SourceId, c: CallerId, text: string, expiry: int) returns (run: seq<Step>)
    requires c !in s.callers && c !in s.cancelled && a !in s.sources && Usable(Cred(text, expiry, 0), s.now)
    ensures Feasible(s, run)
    ensures
      var t, cred := After(s, run), Cred(text, expiry, s.tick + 2);
      && t.tick == s.tick + 4 && t.callers.Keys == s.callers.Keys + {c}
      && Serves(SourceAt(t, a).cache, t.now) && SourceAt(t, a).cache.current.value.cred == cred
      && t.now == s.now && t.service == s.service && t.bridge == s.bridge && t.cancelled == s.cancelled
  {
    var s1 := Do(s, Calls(c, a));
    LeadEffect(s1, Probes(c));
    var s2 := NewLead(s1, c);
    StoresMinted(s2, c, text, expiry);
    FinishingRuns(s2, c, text, expiry, true);
    RunSnoc(s, [], Calls(c, a));
    RunSnoc(s, [] + [Calls(c, a)], Probes(c));
    RunAppend(s, [] + [Calls(c, a)] + [Probes(c)], Finishing(s2, c, text, expiry, true));
    run := [] + [Calls(c, a)] + [Probes(c)] + Finishing(s2, c, text, expiry, true);
  }

  lemma StoresMinted(s: Sys, c: CallerId, text: string, expiry: int)
    requires c in s.callers && s.callers[c].Leading? && s.callers[c].result.None? && c !in s.cancelled
    requires Usable(Cred(text, expiry, 0), s.now)
    requires s.callers[c].lead.generation == SourceAt(s, s.callers[c].source).cache.generation
    ensures
      var t, a := Finished(s, c, text, expiry, true), s.callers[c].source;
      && Serves(SourceAt(t, a).cache, t.now) && SourceAt(t, a).cache.current.value.cred == Cred(text, expiry, s.callers[c].begun)
      && t.tick == s.tick + 2 && t.callers.Keys == s.callers.Keys && OnlyRefreshed(s, t)
  {
    var l := s.callers[c];
    var result := MintEffect(s, Mints(c, text, expiry, true));
    var u := Do(s, Mints(c, text, expiry, true));
    var cache, caller := CloseEffect(u, c);
    StoredIsRechecked(SourceAt(s, l.source).cache, l.lead, s.now, Some(Cred(text, expiry, l.begun)), false);
  }

  /** The bridge is invalidated and a Service carries that through its source, without a token in the end. */
  lemma CarriesThrough(s: Sys, a: SourceId, c: CallerId) returns (run: seq<Step>)
    requires s.service.Idle? && s.bridge.closed.None? && s.bridge.sourceGeneration <= s.bridge.generation && c !in s.callers
    ensures Feasible(s, run)
    ensures
      var t := After(s, run);
      && t.service.Idle? && t.bridge == Revoke(s.bridge).(sourceGeneration := s.bridge.generation + 1)
      && t.bridgeStamp == s.tick + 1 && t.now == s.now && t.carrier == a
      && (forall b | b != a :: SourceAt(t, b) == SourceAt(s, b)) && t.callers.Keys == s.callers.Keys + {c}
  {
    var s1 := Do(s, Revokes);
    var s3 := OpensFencing(s1, a);
    var s4 := Do(s3, Fences);
    var s8 := GivesUpService(s4, c);
    RunSnoc(s, [], Revokes);
    RunSnoc(s, [] + [Revokes], Enters);
    RunSnoc(s, [] + [Revokes] + [Enters], Opens(a));
    RunSnoc(s, [] + [Revokes] + [Enters] + [Opens(a)], Fences);
    RunAppend(s, [] + [Revokes] + [Enters] + [Opens(a)] + [Fences], [Delegates(c), Cancels(c), GivesUp(c), Quits]);
    run := [] + [Revokes] + [Enters] + [Opens(a)] + [Fences] + [Delegates(c), Cancels(c), GivesUp(c), Quits];
  }

  lemma OpensFencing(s: Sys, a: SourceId) returns (t: Sys)
    requires s.bridge.closed.None? && s.service.Idle? && s.bridge.sourceGeneration < s.bridge.generation
    ensures Can(s, Enters) && Can(Do(s, Enters), Opens(a)) && t == Do(Do(s, Enters), Opens(a))
    ensures t == s.(tick := s.tick + 2, service := Opened(a, s.bridge.generation, true), carrier := a,
                    bridge := s.bridge.(sourceGeneration := s.bridge.generation))
  {
    t := Do(Do(s, Enters), Opens(a));
  }

  lemma GivesUpService(s: Sys, c: CallerId) returns (t: Sys)
    requires s.service.Opened? && !s.service.invalidate && c !in s.callers
    ensures Feasible(s, [Delegates(c), Cancels(c), GivesUp(c), Quits]) && t == After(s, [Delegates(c), Cancels(c), GivesUp(c), Quits])
    ensures
      t.service.Idle? && t.bridge == s.bridge && t.bridgeStamp == s.bridgeStamp && t.now == s.now && t.carrier == s.carrier
      && t.sources == s.sources && t.callers.Keys == s.callers.Keys + {c}
  {
    var s1 := Do(s, Delegates(c));
    var s2 := Do(s1, Cancels(c));
    var s3 := Do(s2, GivesUp(c));
    var s4 := Do(s3, Quits);
    RunSnoc(s, [], Delegates(c));
    RunSnoc(s, [] + [Delegates(c)], Cancels(c));
    RunSnoc(s, [] + [Delegates(c)] + [Cancels(c)], GivesUp(c));
    RunSnoc(s, [] + [Delegates(c)] + [Cancels(c)] + [GivesUp(c)], Quits);
    assert [] + [Delegates(c)] + [Cancels(c)] + [GivesUp(c)] + [Quits] == [Delegates(c), Cancels(c), GivesUp(c), Quits];
    t := s4;
  }

  /** With two sources the fence does not hold: from the start of any bridge there is a run after which it serves a
      token whose mint was begun before its last Invalidate. */
  lemma SecondSourceBreaksTheFence(start: Sys, text: string, expiry: int) returns (run: seq<Step>)
    requires Starts(start) && start.bridge.window > 0 && start.now < start.bridge.deadline
    requires Usable(Cred(text, expiry, 0), start.now)
    ensures Feasible(start, run) && !Carried(After(start, run))
    ensures
      var s := After(start, run);
      Ask(s.bridge, s.now).1.Served? && Ask(s.bridge, s.now).1.cred.begun < s.bridgeStamp
  {
    var filled := Fills(start, 1, 1, text, expiry);
    var s1 := After(start, filled);
    var carried := CarriesThrough(s1, 0, 2);
    var s2 := After(s1, carried);
    var cred := SourceAt(s1, 1).cache.current.value.cred;
    StaleThroughOther(s2, 1, cred, 3);
    var last := [Enters, Opens(1), Delegates(3), Probes(3), Deposits];
    RunAppend(start, filled, carried);
    RunAppend(start, filled + carried, last);
    run := filled + carried + last;
    RunKeeps(start, run);
  }
}
