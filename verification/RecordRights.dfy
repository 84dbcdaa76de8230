// Whose release records the plugin rewrites and installs over.
module RecordRights {
  import opened Base
  import opened Flights
  import opened Releases
  import opened FlightSystem
  import opened ReleaseSafety
  import opened FlightDecisions

  /** A plan was made from the record it names. */
  ghost predicate PlanMade(call: Call) {
    call.Preparing? && call.plan.Planned? ==> exists now :: call.plan == PlanOf(call.request, call.plan.current, now)
  }

  ghost predicate PlansMade(x: Cell) {
    forall c | c in x.calls :: PlanMade(x.calls[c])
  }

  lemma StepPlans(x: Cell, drains: nat, step: Step)
    requires PlansMade(x) && CanStep(x, drains, step)
    ensures PlansMade(DoStep(x, drains, step))
  {
    var y := DoStep(x, drains, step);
    forall c | c in y.calls
      ensures PlanMade(y.calls[c])
    {
      if step.Reads? && c == step.c && y.calls[c].Preparing? {
        assert y.calls[c].plan == PlanOf(y.calls[c].request, x.record, step.now);
      } else {
        Unplanned(x, drains, step, c);
      }
    }
  }

  /** Any other step leaves a callback as it was or at a point where it has no plan. */
  ghost predicate NotPlanning(x: Cell, y: Cell, c: CallId)
    requires c in y.calls
  {
    !y.calls[c].Preparing? || y.calls[c].plan.Unread? || (c in x.calls && x.calls[c] == y.calls[c])
  }

  lemma Unplanned(x: Cell, drains: nat, step: Step, c: CallId)
    requires CanStep(x, drains, step) && c in DoStep(x, drains, step).calls
    requires !(step.Reads? && c == step.c && DoStep(x, drains, step).calls[c].Preparing?)
    ensures NotPlanning(x, DoStep(x, drains, step), c)
  {
    if Entering(step) || Looking(step) {
      UnplannedComing(x, drains, step, c);
    } else {
      UnplannedGoing(x, drains, step, c);
    }
  }

  lemma UnplannedComing(x: Cell, drains: nat, step: Step, c: CallId)
    requires CanStep(x, drains, step) && c in DoStep(x, drains, step).calls && (Entering(step) || Looking(step))
    requires !(step.Reads? && c == step.c && DoStep(x, drains, step).calls[c].Preparing?)
    ensures NotPlanning(x, DoStep(x, drains, step), c)
  {}

  lemma UnplannedGoing(x: Cell, drains: nat, step: Step, c: CallId)
    requires CanStep(x, drains, step) && c in DoStep(x, drains, step).calls && !Entering(step) && !Looking(step)
    ensures NotPlanning(x, DoStep(x, drains, step), c)
  {}

  lemma {:induction false} RunPlans(s: Sys, run: seq<Event>)
    requires Feasible(s, run) && forall k | k in s.cells :: PlansMade(s.cells[k])
    ensures forall k | k in After(s, run).cells :: PlansMade(After(s, run).cells[k])
    decreases |run|
  {
    if run != [] {
      var e := run[0];
      if e.At? {
        StepPlans(CellAt(s, e.key), s.drains, e.step);
      }
      RunPlans(Do(s, e), run[1..]);
    }
  }

  lemma ReachablePlans(s: Sys, key: Key)
    requires Reachable(s)
    ensures PlansMade(CellAt(s, key))
  {
    var run :| Feasible(INITIAL, run) && After(INITIAL, run) == s;
    RunPlans(INITIAL, run);
  }

  /** Whatever else happens, no submit ever plans a rejoin, and a submit's rewrite is of an owned pending record. */
  lemma SubmitKeepsToItsOwn(s: Sys, key: Key, c: CallId)
    requires Reachable(s) && c in CellAt(s, key).calls && CellAt(s, key).calls[c].Preparing?
    ensures
      var x, call := CellAt(s, key), CellAt(s, key).calls[c];
      && (call.plan.Planned? ==> call.plan.action != Rejoin)
      && (CanRewrite(x, c) ==> Stale(call).owned && Pending(Stale(call)))
  {
    ReachablePlans(s, key);
    assert PlanMade(CellAt(s, key).calls[c]);
  }

  /** A Status that has read the record, and not yet settled on an answer, rewrites it exactly when it is pending at
      the polled revision and the call goes by no flight; neither the owner nor any clock is asked. */
  lemma StatusRewritesWhen(x: Cell, c: CallId, record: Record)
    requires c in x.calls && Watching(x.calls[c])
    requires x.calls[c].view.said.None? && x.calls[c].view.seen == Some(Some(record))
    ensures CanRewrite(x, c) <==>
      x.calls[c].op != Delete && record.version == x.calls[c].revision && Pending(record) && x.calls[c].view.flight.None?
  {}

  /** Another tool's release in mid-operation, polled with an identifier this process retains no flight for, is marked
      deployed or failed under that tool. */
  lemma ForeignRecordRewritten(key: Key, r: Record, c: CallId, cand: Flight, now: int, how: Recovery)
    requires Pending(r) && !r.owned && !how.Fails?
    requires PollCandidate(cand) && cand.op != Delete && cand.revision == r.version
    ensures
      var run := AtAll(key, [Outsider(Some(r)), Acquires(c, "", cand), Reads(c, now), Rewrites(c, how)]);
      && Feasible(INITIAL, run)
      && CellAt(After(INITIAL, run), key).record == Some(Recovered(r, how.Complete?))
  {
    var x1 := EMPTY_CELL.(record := Some(r));
    var x2 := DoAcquire(x1, 0, c, "", cand);
    var x3 := DoRead(x2, c, now);
    StatusRewritesWhen(x3, c, r);
    var x4 := DoRewrite(x3, c, how);
    FourSteps(EMPTY_CELL, Outsider(Some(r)), Acquires(c, "", cand), Reads(c, now), Rewrites(c, how), x1, x2, x3, x4);
    LocalRun(INITIAL, key, [Outsider(Some(r)), Acquires(c, "", cand), Reads(c, now), Rewrites(c, how)]);
  }

  /** A submit that reads another tool's pending record can start an install worker exactly when that record has been
      pending for more than twice its timeout. */
  lemma InstallsOverStalled(s: Sys, key: Key, r: Record, c: CallId, request: Request, cand: Flight, now: int)
    requires s.drains == 0 && CellAt(s, key).entry.None? && request.Submit? && CanReserve(CellAt(s, key), c, request, cand)
    requires Pending(r) && !r.owned
    ensures
      var run := AtAll(key, [Outsider(Some(r)), Reserves(c, request, cand), Reads(c, now)]);
      && Feasible(s, run)
      && (forall a | CanStep(CellAt(After(s, run), key), 0, Activates(c, a)) :: a.op == Install && a.revision == r.version)
      && ((exists a :: CanStep(CellAt(After(s, run), key), 0, Activates(c, a)))
          <==> Started(r) != 0 && now - Started(r) > 2 * r.timeout)
  {
    var x := CellAt(s, key);
    var x1 := x.(record := Some(r));
    var x2 := ReserveAlone(x1, c, request, cand);
    var x3 := DoRead(x2, c, now);
    StepsCons(x2, 0, Reads(c, now), []);
    StepsCons(x1, 0, Reserves(c, request, cand), [Reads(c, now)] + []);
    StepsCons(x, 0, Outsider(Some(r)), [Reserves(c, request, cand)] + ([Reads(c, now)] + []));
    assert [Outsider(Some(r))] + ([Reserves(c, request, cand)] + ([Reads(c, now)] + []))
      == [Outsider(Some(r)), Reserves(c, request, cand), Reads(c, now)];
    LocalRun(s, key, [Outsider(Some(r)), Reserves(c, request, cand), Reads(c, now)]);
    BlockedFallsThrough(r, request.isCreate, request.want, now);
    StartsWhen(x3, c, r, request, cand, now);
  }

  lemma StartsWhen(x: Cell, c: CallId, r: Record, request: Request, cand: Flight, now: int)
    requires request.Submit? && NewFlight(cand) && x.entry == Some(cand) && c in x.calls
    requires x.calls[c] == Preparing(cand.generation, request, PlanOf(request, Some(r), now), 0)
    ensures
      var (action, target) := PlanSubmit(Some(r), request.isCreate, None, Some(request.want), now);
      && (forall a | CanStep(x, 0, Activates(c, a)) :: a.op == WorkerOp(action) && a.revision == target)
      && ((exists a :: CanStep(x, 0, Activates(c, a))) <==> Dispatches(action))
  {
    var (action, target) := PlanSubmit(Some(r), request.isCreate, None, Some(request.want), now);
    if Dispatches(action) {
      assert CanStep(x, 0, Activates(c, Activation(WorkerOp(action), target, false, cand.deadline)));
    }
  }

  // ---- What a submit starts ----

  lemma ReservedFor(s: Sys, key: Key, c: CallId)
    requires QuietlyReachable(s) && c in CellAt(s, key).calls && CellAt(s, key).calls[c].Preparing?
    ensures Owned(CellAt(s, key).entry, CellAt(s, key).calls[c].gen)
  {
    QuietInv(s, key);
    assert FlightInvariant.CallOk(CellAt(s, key), CellAt(s, key).calls[c]);
  }

  /** Without another writer, a submit that has read the record can start a worker exactly when no drain is active or
      marked its reservation, and the record, as it still is, was when read one to install, upgrade or install over. */
  lemma SubmitStartsExactly(s: Sys, key: Key, c: CallId)
    requires QuietlyReachable(s) && c in CellAt(s, key).calls && CellAt(s, key).calls[c].Preparing?
    requires CellAt(s, key).calls[c].request.Submit? && !CellAt(s, key).calls[c].plan.Unread?
    ensures
      var x, request := CellAt(s, key), CellAt(s, key).calls[c].request;
      && x.entry.Some?
      && exists now ::
           && x.calls[c].plan == PlanOf(request, x.record, now)
           && var starts := if s.drains > 0 || x.entry.value.stopping then None else Starts(x.record, request.isCreate, request.want, now);
              && (starts.None? ==> forall a :: !CanStep(x, s.drains, Activates(c, a)))
              && (starts.Some? ==>
                    && (exists a :: CanStep(x, s.drains, Activates(c, a)))
                    && forall a | CanStep(x, s.drains, Activates(c, a)) :: (a.op, a.revision) == starts.value)
  {
    var x, call := CellAt(s, key), CellAt(s, key).calls[c];
    ReservedFor(s, key, c);
    PlanMadeFromRecord(s, key, c);
    var now :| call.plan == PlanOf(call.request, x.record, now);
    if s.drains == 0 && !x.entry.value.stopping {
      StartsExactly(x, c, call.request, x.record, now, call.recoveries);
    }
  }

  lemma PlanMadeFromRecord(s: Sys, key: Key, c: CallId)
    requires QuietlyReachable(s) && c in CellAt(s, key).calls && CellAt(s, key).calls[c].Preparing?
    requires !CellAt(s, key).calls[c].plan.Unread?
    ensures exists now :: CellAt(s, key).calls[c].plan == PlanOf(CellAt(s, key).calls[c].request, CellAt(s, key).record, now)
  {
    QuietInv(s, key);
    assert CallFits(CellAt(s, key), CellAt(s, key).calls[c]);
  }

  // ---- What a rewrite replaces ----

  /** Without another writer, a submit and a Status with the reservation rewrite the record that is there. */
  lemma ExclusiveRewritesCurrent(s: Sys, key: Key, c: CallId)
    requires QuietlyReachable(s) && CanRewrite(CellAt(s, key), c)
    requires CellAt(s, key).calls[c].Preparing? || CellAt(s, key).calls[c].Recovering?
    ensures CellAt(s, key).record == Some(Stale(CellAt(s, key).calls[c]))
  {
    QuietInv(s, key);
    assert CallFits(CellAt(s, key), CellAt(s, key).calls[c]);
  }

  /** A Status that retains a flight rewrites the record that is there exactly when no Status has rewritten it yet under
      that flight. Otherwise another one has, this call not being past its own rewrite, and the record is no longer
      pending. */
  lemma RetainingRewritesCurrent(s: Sys, key: Key, c: CallId)
    requires QuietlyReachable(s) && CanRewrite(CellAt(s, key), c) && CellAt(s, key).calls[c].Polling?
    ensures
      var x, call := CellAt(s, key), CellAt(s, key).calls[c];
      && call.recoveries == 0
      && (x.record == Some(Stale(call)) <==> call.gen !in x.log.rewritten)
      && (call.gen in x.log.rewritten ==> Unlocked(x.record))
  {
    QuietInv(s, key);
    assert CallFits(CellAt(s, key), CellAt(s, key).calls[c]);
    assert FlightInvariant.CallOk(CellAt(s, key), CellAt(s, key).calls[c]);
  }

  /** An install whose worker ended without error while its record stayed pending. */
  function Lost(cand: Flight, want: Props, chart: Chart, at: int, timeout: int): Cell {
    EMPTY_CELL.(
      entry := Some(cand.(op := Install, revision := 1, bridge := false, preparing := false, finished := true, cancel := false)),
      record := Some(Record(1, Some(Info(PendingInstall, at, at)), true, Some(chart), want.values, timeout)),
      calls := map[0 := Awaiting(cand.generation, None)], timers := {cand.generation}, used := {cand.generation},
      log := EMPTY_LOG.(reserved := map[cand.generation := Submit(true, want)]))
  }

  function LosingSteps(cand: Flight, want: Props, chart: Chart, at: int, timeout: int): seq<Step> {
    [Reserves(0, Submit(true, want), cand), Reads(0, at), Activates(0, Activation(Install, 1, false, cand.deadline)),
     Writes(cand.generation, chart, at, timeout), Ends(cand.generation, None)]
  }

  lemma LosesRecord(cand: Flight, want: Props, chart: Chart, at: int, timeout: int)
    requires CandidateFor(cand, Submit(true, want))
    ensures CanSteps(EMPTY_CELL, 0, LosingSteps(cand, want, chart, at, timeout))
    ensures DoSteps(EMPTY_CELL, 0, LosingSteps(cand, want, chart, at, timeout)) == Lost(cand, want, chart, at, timeout)
  {
    var request, g := Submit(true, want), cand.generation;
    var a := Activation(Install, 1, false, cand.deadline);
    var x1 := DoReserve(EMPTY_CELL, 0, 0, request, cand);
    assert x1 == EMPTY_CELL.(entry := Some(cand), used := {g}, calls := map[0 := Preparing(g, request, Unread, 0)],
                             log := EMPTY_LOG.(reserved := map[g := request]));
    var x2 := DoRead(x1, 0, at);
    assert x2 == x1.(calls := map[0 := Preparing(g, request, Planned(None, Fresh, 1), 0)]);
    var x3 := DoActivate(x2, 0, 0, a);
    assert x3.workers == map[g := Worker(Install, 1, want.values, false)] && x3.calls == map[0 := Awaiting(g, None)];
    var x4 := DoWrite(x3, g, chart, at, timeout);
    var x5 := DoEnd(x4, g, None);
    assert x5 == Lost(cand, want, chart, at, timeout);
    FiveSteps(EMPTY_CELL, Reserves(0, request, cand), Reads(0, at), Activates(0, a), Writes(g, chart, at, timeout), Ends(g, None),
              x1, x2, x3, x4, x5);
  }

  /** A candidate for polling the first install of a flight. */
  predicate Polls(cand: Flight, f: Flight) {
    PollCandidate(cand) && cand.op == Install && cand.revision == 1 && cand.auth == f.auth && cand.binding == f.binding
  }

  /** Two polls retain the flight and read its pending record. */
  function ReadingSteps(g: Gen, first: Flight, second: Flight, now: int): seq<Step> {
    [Acquires(1, g, first), Acquires(2, g, second), Reads(1, now), Reads(2, now)]
  }

  /** A Status that polls the install at revision 1. */
  function Poller(g: Gen, view: View, recoveries: nat): Call {
    Polling(g, Install, 1, view, recoveries)
  }

  function BothRead(x: Cell, first: Flight, second: Flight): Cell
    requires x.entry.Some?
  {
    var g := x.entry.value.generation;
    x.(entry := Some(Retain(Retain(x.entry.value))), used := x.used + {first.generation} + {second.generation},
       calls := x.calls[1 := Poller(g, View(None, Some(x.record), None), 0)]
                       [2 := Poller(g, View(None, Some(x.record), None), 0)])
  }

  lemma PollerEnters(x: Cell, c: CallId, cand: Flight)
    requires x.entry.Some? && c !in x.calls && cand.generation !in x.used
    requires !x.entry.value.preparing && x.entry.value.op == Install && x.entry.value.revision == 1 && Polls(cand, x.entry.value)
    ensures
      var g, f := x.entry.value.generation, Retain(x.entry.value);
      && CanStep(x, 0, Acquires(c, g, cand))
      && DoStep(x, 0, Acquires(c, g, cand))
           == x.(entry := Some(f), used := x.used + {cand.generation}, calls := x.calls[c := Poller(g, View(Some(f), None, None), 0)])
  {}

  lemma PollerReads(x: Cell, c: CallId, g: Gen, flight: Entry, recoveries: nat, now: int)
    requires c in x.calls && x.calls[c] == Poller(g, View(flight, None, None), recoveries)
    requires flight.Some? ==> flight.value.finished && flight.value.outcome.None?
    ensures CanStep(x, 0, Reads(c, now))
    ensures DoStep(x, 0, Reads(c, now)) == WithCall(x, c, Poller(g, View(None, Some(x.record), None), recoveries))
  {}

  lemma BothReads(x: Cell, first: Flight, second: Flight, now: int)
    requires x.entry.Some? && 1 !in x.calls && 2 !in x.calls
    requires
      var f := x.entry.value;
      && !f.preparing && f.finished && f.outcome.None? && f.op == Install && f.revision == 1
      && Polls(first, f) && Polls(second, f)
    requires first.generation !in x.used && second.generation !in x.used && first.generation != second.generation
    ensures
      var steps := ReadingSteps(x.entry.value.generation, first, second, now);
      CanSteps(x, 0, steps) && DoSteps(x, 0, steps) == BothRead(x, first, second)
  {
    var g, f := x.entry.value.generation, x.entry.value;
    PollerEnters(x, 1, first);
    var x1 := DoStep(x, 0, Acquires(1, g, first));
    PollerEnters(x1, 2, second);
    var x2 := DoStep(x1, 0, Acquires(2, g, second));
    PollerReads(x2, 1, g, Some(Retain(f)), 0, now);
    var x3 := DoStep(x2, 0, Reads(1, now));
    PollerReads(x3, 2, g, Some(Retain(Retain(f))), 0, now);
    var x4 := DoStep(x3, 0, Reads(2, now));
    assert x4.calls == BothRead(x, first, second).calls;
    FourSteps(x, Acquires(1, g, first), Acquires(2, g, second), Reads(1, now), Reads(2, now), x1, x2, x3, x4);
  }

  /** The first poll finds the release complete and reports it; the second rewrites what it read. */
  function AnsweringSteps(now: int): seq<Step> {
    [Rewrites(1, Complete), Reads(1, now), Judges(1, true, now), Reports(1), Rewrites(2, Incomplete)]
  }

  lemma PollerRewrites(x: Cell, c: CallId, g: Gen, r: Record, how: Recovery)
    requires c in x.calls && x.calls[c] == Poller(g, View(None, Some(Some(r)), None), 0)
    requires Pending(r) && r.version == 1 && !how.Fails?
    ensures CanStep(x, 0, Rewrites(c, how))
    ensures
      var view := if how.Complete? then View(None, None, None) else View(None, Some(Some(r)), Some(Failure(Conflict)));
      DoStep(x, 0, Rewrites(c, how))
        == WithCall(x.(record := Some(Recovered(r, how.Complete?)), log := x.log.(rewritten := x.log.rewritten + {g})), c, Poller(g, view, 1))
  {}

  lemma PollerSucceeds(x: Cell, c: CallId, g: Gen, r: Record, now: int)
    requires c in x.calls && x.calls[c] == Poller(g, View(None, Some(Some(r)), None), 1)
    requires r.info.Some? && r.info.value.status == Deployed && r.version == 1
    ensures CanStep(x, 0, Judges(c, true, now))
    ensures DoStep(x, 0, Judges(c, true, now)) == WithCall(x, c, Poller(g, View(None, Some(Some(r)), Some(Success)), 1))
  {}

  lemma PollerReports(x: Cell, c: CallId, g: Gen, seen: Option<Option<Record>>)
    requires c in x.calls && x.calls[c] == Poller(g, View(None, seen, Some(Success)), 1)
    requires Owned(x.entry, g) && x.entry.value.finished && x.entry.value.outcome.None? && x.entry.value.statusReaders > 0
    ensures CanStep(x, 0, Reports(c))
    ensures DoStep(x, 0, Reports(c))
      == WithCall(x.(entry := Some(x.entry.value.(reported := true)), log := x.log.(succeeded := x.log.succeeded[g := Evidence(Install, 1, seen)])), c, Leaving(g))
  {}

  lemma BothAnswer(x: Cell, g: Gen, r: Record, now: int)
    requires Owned(x.entry, g) && x.entry.value.finished && x.entry.value.outcome.None?
    requires x.entry.value.statusReaders > 0 && x.record == Some(r) && Pending(r) && r.version == 1
    requires 1 in x.calls && x.calls[1] == Poller(g, View(None, Some(Some(r)), None), 0)
    requires 2 in x.calls && x.calls[2] == x.calls[1]
    ensures CanSteps(x, 0, AnsweringSteps(now))
    ensures
      var y := DoSteps(x, 0, AnsweringSteps(now));
      y.record == Some(SetStatus(r, Failed)) && g in y.log.succeeded
  {
    var done := Recovered(r, true);
    PollerRewrites(x, 1, g, r, Complete);
    var x1 := DoStep(x, 0, Rewrites(1, Complete));
    PollerReads(x1, 1, g, None, 1, now);
    var x2 := DoStep(x1, 0, Reads(1, now));
    PollerSucceeds(x2, 1, g, done, now);
    var x3 := DoStep(x2, 0, Judges(1, true, now));
    PollerReports(x3, 1, g, Some(Some(done)));
    var x4 := DoStep(x3, 0, Reports(1));
    PollerRewrites(x4, 2, g, r, Incomplete);
    var x5 := DoStep(x4, 0, Rewrites(2, Incomplete));
    FiveSteps(x, Rewrites(1, Complete), Reads(1, now), Judges(1, true, now), Reports(1), Rewrites(2, Incomplete), x1, x2, x3, x4, x5);
  }

  function OverlappingPolls(cand: Flight, want: Props, chart: Chart, at: int, timeout: int, first: Flight, second: Flight, now: int): seq<Step> {
    LosingSteps(cand, want, chart, at, timeout) + (ReadingSteps(cand.generation, first, second, now) + AnsweringSteps(now))
  }

  lemma PollsOverlap(cand: Flight, want: Props, chart: Chart, at: int, timeout: int, first: Flight, second: Flight, now: int)
    requires CandidateFor(cand, Submit(true, want)) && Polls(first, cand) && Polls(second, cand)
    requires first.generation != cand.generation && second.generation != cand.generation && first.generation != second.generation
    ensures CanSteps(EMPTY_CELL, 0, OverlappingPolls(cand, want, chart, at, timeout, first, second, now))
    ensures
      var y := DoSteps(EMPTY_CELL, 0, OverlappingPolls(cand, want, chart, at, timeout, first, second, now));
      cand.generation in y.log.succeeded
      && y.record == Some(Record(1, Some(Info(Failed, at, at)), true, Some(chart), want.values, timeout))
  {
    var g, x := cand.generation, Lost(cand, want, chart, at, timeout);
    var reading, answering := ReadingSteps(g, first, second, now), AnsweringSteps(now);
    LosesRecord(cand, want, chart, at, timeout);
    BothReads(x, first, second, now);
    BothAnswer(BothRead(x, first, second), g, x.record.value, now);
    StepsAppend(x, 0, reading, answering);
    StepsAppend(EMPTY_CELL, 0, LosingSteps(cand, want, chart, at, timeout), reading + answering);
  }

  /** The copy matters: without any other writer, a release that one Status found complete, wrote deployed and reported
      as a success is marked failed by another Status that had read it pending. */
  lemma SuccessThenFailed(key: Key, cand: Flight, want: Props, chart: Chart, at: int, timeout: int,
                          first: Flight, second: Flight, now: int)
    requires CandidateFor(cand, Submit(true, want)) && Polls(first, cand) && Polls(second, cand)
    requires first.generation != cand.generation && second.generation != cand.generation && first.generation != second.generation
    ensures
      var run := AtAll(key, OverlappingPolls(cand, want, chart, at, timeout, first, second, now));
      && (forall e | e in run :: Quiet(e)) && Feasible(INITIAL, run)
      && var y := CellAt(After(INITIAL, run), key);
         && cand.generation in y.log.succeeded
         && y.record == Some(Record(1, Some(Info(Failed, at, at)), true, Some(chart), want.values, timeout))
  {
    var steps := OverlappingPolls(cand, want, chart, at, timeout, first, second, now);
    PollsOverlap(cand, want, chart, at, timeout, first, second, now);
    LocalRun(INITIAL, key, steps);
    QuietSteps(key, steps);
  }

  lemma {:induction false} QuietSteps(key: Key, steps: seq<Step>)
    requires forall step | step in steps :: !step.Outsider?
    ensures forall e | e in AtAll(key, steps) :: Quiet(e)
    decreases |steps|
  {
    if steps != [] {
      QuietSteps(key, steps[1..]);
    }
  }
}
