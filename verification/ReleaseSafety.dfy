// What the flight protocol guarantees about the release records when no other tool
// writes them: revisions, recovery after a crash, and the second plan.
module ReleaseSafety {
  import opened Base
  import opened Flights
  import opened Releases
  import opened FlightSystem
  import opened FlightInvariant

  /** Two readings of one revision, which may differ only in its status. */
  predicate Alike(a: Option<Record>, b: Option<Record>) {
    (a.None? && b.None?) ||
    (a.Some? && b.Some? && a.value.info.Some? && b.value.info.Some? && a.value.(info := b.value.info) == b.value)
  }

  predicate Unlocked(r: Option<Record>) {
    r.Some? && !Pending(r.value)
  }

  ghost predicate CallFits(x: Cell, call: Call) {
    match call
    case Preparing(_, request, plan, recoveries) =>
      && recoveries <= 1
      && (recoveries == 1 ==> request.Submit? && Unlocked(x.record) && x.record.value.owned)
      && (plan.Unread? || exists now :: plan == PlanOf(request, x.record, now))
    case Polling(gen, _, _, view, recoveries) => ViewFits(x, view, recoveries) && (SeesCurrent(x, view) || gen in x.log.rewritten)
    case Recovering(_, _, _, view, recoveries) => ViewFits(x, view, recoveries) && SeesCurrent(x, view)
    case _ => true
  }

  predicate ViewFits(x: Cell, view: View, recoveries: nat) {
    && recoveries <= 1
    && (view.flight.Some? ==> recoveries == 0)
    && (view.flight.None? && view.seen.Some? ==> Alike(view.seen.value, x.record))
    && (recoveries == 1 ==> Unlocked(x.record) && (view.said.None? && view.seen.Some? ==> Unlocked(view.seen.value)))
  }

  /** A call that goes by no flight, and is still to decide, has read the record as it is. */
  predicate SeesCurrent(x: Cell, view: View) {
    view.flight.None? && view.said.None? && view.seen.Some? ==> view.seen.value == x.record
  }

  /** What a Status rewrote under a flight it retained stays rewritten while that flight is stored. */
  ghost predicate RewritesFit(x: Cell) {
    forall g | g in x.log.rewritten :: g in x.used && (Owned(x.entry, g) ==> x.entry.value.finished && Unlocked(x.record))
  }

  predicate WorkerFits(x: Cell, w: Worker) {
    match w.op
    case Delete => true
    case Install =>
      if w.started then x.record.Some? && x.record.value.version == w.target
      else x.record.None? ==> w.target == 1
    case Upgrade =>
      if w.started then x.record.Some? && x.record.value.version == w.target
      else Unlocked(x.record) && w.target == x.record.value.version + 1
  }

  ghost predicate RecordInv(x: Cell) {
    && Readable(x.record)
    && RewritesFit(x)
    && (forall c | c in x.calls :: CallFits(x, x.calls[c]))
    && (forall g | g in x.workers :: WorkerFits(x, x.workers[g]) &&
          x.entry.Some? && x.entry.value.op == x.workers[g].op && x.entry.value.revision == x.workers[g].target)
  }

  /** Nothing a plan or a worker depends on changed, and callbacks at most left. */
  lemma FrameFits(x: Cell, y: Cell)
    requires RecordInv(x) && y.record == x.record && y.workers == x.workers
    requires x.workers.Keys != {} && x.entry.Some? ==>
      y.entry.Some? && y.entry.value.op == x.entry.value.op && y.entry.value.revision == x.entry.value.revision
    requires forall c | c in y.calls :: c in x.calls && y.calls[c] == x.calls[c]
    requires y.log.rewritten == x.log.rewritten && x.used <= y.used
    requires forall g | g in x.used && Owned(y.entry, g) :: Owned(x.entry, g) && (x.entry.value.finished ==> y.entry.value.finished)
    ensures RecordInv(y)
  {
    forall c | c in y.calls ensures CallFits(y, y.calls[c]) {
      assert CallFits(x, x.calls[c]);
    }
    forall g | g in y.workers ensures WorkerFits(y, y.workers[g]) {
      assert WorkerFits(x, x.workers[g]);
    }
  }

  lemma CallAlone(x: Cell, c: CallId, call: Call)
    requires RecordInv(x) && CallFits(x, call)
    ensures RecordInv(WithCall(x, c, call))
  {}

  lemma ReserveFits(x: Cell, drains: nat, c: CallId, request: Request, cand: Flight)
    requires CellInv(x) && RecordInv(x) && CanReserve(x, c, request, cand)
    ensures RecordInv(DoReserve(x, drains, c, request, cand))
  {
    ReserveComesTo(x, drains, c, request, cand);
    if drains == 0 && x.entry.None? {
      var y := Drawn(x, Some(cand), cand).(log := x.log.(reserved := x.log.reserved[cand.generation := request]));
      FrameFits(x, y);
      CallAlone(y, c, Preparing(cand.generation, request, Unread, 0));
    } else if drains == 0 && MatchesRejoin(x.entry, cand) {
      var y := Drawn(x, Some(Retain(x.entry.value)), cand);
      FrameFits(x, y);
      CallAlone(y, c, Rejoined(x.entry.value.generation, request, None));
    } else {
      FrameFits(x, Drawn(x, x.entry, cand));
    }
  }

  lemma AcquireFits(x: Cell, drains: nat, c: CallId, requested: Gen, cand: Flight)
    requires CellInv(x) && RecordInv(x) && CanAcquire(x, c, cand)
    ensures RecordInv(DoAcquire(x, drains, c, requested, cand))
  {
    var (entry, f, owned) := AcquireStatus(drains, x.entry, requested, cand);
    var y := x.(entry := entry, used := x.used + {cand.generation});
    FrameFits(x, y);
    CallAlone(y, c, Recovering(cand.generation, cand.op, cand.revision, View(None, None, None), 0));
    if f.Some? {
      CallAlone(y, c, Polling(requested, cand.op, cand.revision, View(f, None, None), 0));
    }
  }

  lemma ReadFits(x: Cell, c: CallId, now: int)
    requires CellInv(x) && RecordInv(x) && CanRead(x, c)
    ensures RecordInv(DoRead(x, c, now))
  {}

  /** A rewrite is of the revision the record is at. No callback plans or works beside it, and the only ones that may
      have read the record too are Status calls that retain the same flight. */
  lemma RewriteAlike(x: Cell, c: CallId)
    requires CellInv(x) && RecordInv(x) && CanRewrite(x, c)
    ensures Alike(Some(Stale(x.calls[c])), x.record) && x.workers.Keys == {}
    ensures forall d | d in x.calls && d != c ::
      !Reserving(x.calls[d]) && (x.calls[d].Polling? ==> x.calls[c].Polling? && x.calls[d].gen == x.calls[c].gen)
  {
    var call := x.calls[c];
    assert CallFits(x, call) && CallOk(x, call);
    assert forall d | d in x.calls :: CallOk(x, x.calls[d]);
  }

  lemma RewriteFits(x: Cell, c: CallId, how: Recovery)
    requires CellInv(x) && RecordInv(x) && CanRewrite(x, c)
    ensures RecordInv(DoRewrite(x, c, how))
  {
    var call := x.calls[c];
    if how.Fails? && call.Preparing? {
      AbandonFits(x, c);
    } else if how.Fails? {
      CallAlone(x, c, DoRewrite(x, c, how).calls[c]);
    } else {
      RewriteAlike(x, c);
      var noted, after := RewriteEffect(x, c, how);
      OthersFit(x, c, noted);
      NotedFits(x, c, noted, after);
    }
  }

  lemma RewriteEffect(x: Cell, c: CallId, how: Recovery) returns (noted: Cell, after: Call)
    requires CanRewrite(x, c) && CallFits(x, x.calls[c]) && !how.Fails? && Alike(Some(Stale(x.calls[c])), x.record)
    ensures Notes(x, c, noted) && DoRewrite(x, c, how) == WithCall(noted, c, after) && CallFits(noted, after)
  {
    var y := DoRewrite(x, c, how);
    noted, after := x.(record := y.record, log := y.log), y.calls[c];
  }

  /** A Status notes its rewrite, or an exclusive call makes it. */
  predicate Notes(x: Cell, c: CallId, y: Cell)
    requires c in x.calls
  {
    && y.record.Some? && Alike(x.record, y.record) && !Pending(y.record.value) && y == x.(record := y.record, log := y.log)
    && y.log == x.log.(rewritten := if x.calls[c].Polling? then x.log.rewritten + {x.calls[c].gen} else x.log.rewritten)
  }

  lemma OthersFit(x: Cell, c: CallId, y: Cell)
    requires CellInv(x) && RecordInv(x) && c in x.calls && Notes(x, c, y)
    requires forall d | d in x.calls && d != c ::
      !Reserving(x.calls[d]) && (x.calls[d].Polling? ==> x.calls[c].Polling? && x.calls[d].gen == x.calls[c].gen)
    ensures forall d | d in x.calls && d != c :: CallFits(y, x.calls[d])
  {
    forall d | d in x.calls && d != c ensures CallFits(y, x.calls[d]) {
      assert CallFits(x, x.calls[d]) && CallOk(x, x.calls[d]);
    }
  }

  lemma NotedFits(x: Cell, c: CallId, y: Cell, after: Call)
    requires CellInv(x) && RecordInv(x) && CanRewrite(x, c) && Notes(x, c, y) && x.workers.Keys == {}
    requires (forall d | d in x.calls && d != c :: CallFits(y, x.calls[d])) && CallFits(y, after)
    ensures RecordInv(WithCall(y, c, after))
  {
    assert CallOk(x, x.calls[c]);
    var z := WithCall(y, c, after);
    forall d | d in z.calls
      ensures CallFits(z, z.calls[d])
    {
      assert CallFits(y, z.calls[d]);
    }
  }

  lemma AbandonFits(x: Cell, c: CallId)
    requires CellInv(x) && RecordInv(x) && CanAbandon(x, c)
    ensures RecordInv(DoAbandon(x, c))
  {}

  lemma ActivateFits(x: Cell, drains: nat, c: CallId, a: Activation)
    requires CellInv(x) && RecordInv(x) && CanActivate(x, drains, c, a)
    ensures RecordInv(DoActivate(x, drains, c, a))
  {}

  lemma ServiceFits(x: Cell, c: CallId, err: Option<Error>)
    requires CellInv(x) && RecordInv(x) && CanService(x, c)
    ensures RecordInv(DoService(x, c, err))
  {}

  lemma JudgeFits(x: Cell, c: CallId, ready: bool, now: int)
    requires CellInv(x) && RecordInv(x) && CanJudge(x, c)
    ensures RecordInv(DoJudge(x, c, ready, now))
  {}

  lemma ObserveFits(x: Cell, c: CallId)
    requires CellInv(x) && RecordInv(x) && CanObserve(x, c)
    ensures RecordInv(DoObserve(x, c))
  {}

  lemma ReportFits(x: Cell, c: CallId, result: Option<Answer>)
    requires CellInv(x) && RecordInv(x) && c in x.calls && Watching(x.calls[c])
    ensures RecordInv(DoReport(x, c, result))
  {}

  lemma ConsumeFits(x: Cell, c: CallId)
    requires CellInv(x) && RecordInv(x) && CanConsume(x, c)
    ensures RecordInv(DoConsume(x, c))
  {
    var call := x.calls[c];
    var y := x.(entry := ConsumeFailure(x.entry, call.gen, call.err.value), log := x.log.(delivered := x.log.delivered + {call.gen}));
    FrameFits(x, y);
    if call.Rejoined? {
      CallAlone(y, c, Leaving(call.gen));
    } else {
      FrameFits(y, DropCall(y, c));
    }
  }

  lemma LeaveFits(x: Cell, c: CallId)
    requires CellInv(x) && RecordInv(x) && CanLeave(x, c)
    ensures RecordInv(DoLeave(x, c))
  {}

  lemma WriteFits(x: Cell, g: Gen, chart: Chart, at: int, timeout: int)
    requires CellInv(x) && RecordInv(x) && CanWrite(x, g)
    ensures RecordInv(DoWrite(x, g, chart, at, timeout))
  {}

  lemma SettleFits(x: Cell, g: Gen, deployed: bool)
    requires CellInv(x) && RecordInv(x) && CanSettle(x, g)
    ensures RecordInv(DoSettle(x, g, deployed))
  {}

  lemma EndFits(x: Cell, g: Gen, outcome: Option<Error>)
    requires CellInv(x) && RecordInv(x) && g in x.workers
    ensures RecordInv(DoEnd(x, g, outcome))
  {}

  lemma FireFits(x: Cell, g: Gen)
    requires CellInv(x) && RecordInv(x) && g in x.timers
    ensures RecordInv(DoFire(x, g))
  {}

  /** Every step that is not another tool writing keeps the record invariant. */
  lemma StepFits(x: Cell, drains: nat, step: Step)
    requires CellInv(x) && RecordInv(x) && CanStep(x, drains, step) && !step.Outsider?
    ensures RecordInv(DoStep(x, drains, step))
  {
    if Entering(step) || Looking(step) {
      IncomingFits(x, drains, step);
    } else if Working(step) {
      WorkFits(x, drains, step);
    } else {
      OutgoingFits(x, drains, step);
    }
  }

  lemma IncomingFits(x: Cell, drains: nat, step: Step)
    requires CellInv(x) && RecordInv(x) && CanStep(x, drains, step) && (Entering(step) || Looking(step))
    ensures RecordInv(DoStep(x, drains, step))
  {
    match step
    case Reserves(c, request, cand) => ReserveFits(x, drains, c, request, cand);
    case Acquires(c, requested, cand) => AcquireFits(x, drains, c, requested, cand);
    case Activates(c, a) => ActivateFits(x, drains, c, a);
    case Reads(c, now) => ReadFits(x, c, now);
    case Services(c, err) => ServiceFits(x, c, err);
    case Judges(c, ready, now) => JudgeFits(x, c, ready, now);
    case Observes(c) => ObserveFits(x, c);
  }

  lemma OutgoingFits(x: Cell, drains: nat, step: Step)
    requires CellInv(x) && RecordInv(x) && CanStep(x, drains, step) && (Backing(step) || Exiting(step))
    ensures RecordInv(DoStep(x, drains, step))
  {
    match step
    case Rewrites(c, how) => RewriteFits(x, c, how);
    case Abandons(c) => AbandonFits(x, c);
    case Reports(c) => ReportFits(x, c, x.calls[c].view.said);
    case ReportsEarly(c, known) => ReportFits(x, c, if known then None else Some(InProgress));
    case Consumes(c) => ConsumeFits(x, c);
    case Leaves(c) => LeaveFits(x, c);
  }

  lemma WorkFits(x: Cell, drains: nat, step: Step)
    requires CellInv(x) && RecordInv(x) && CanStep(x, drains, step) && Working(step) && !step.Outsider?
    ensures RecordInv(DoStep(x, drains, step))
  {
    match step
    case Writes(g, chart, at, timeout) => WriteFits(x, g, chart, at, timeout);
    case Settles(g, deployed) => SettleFits(x, g, deployed);
    case Ends(g, outcome) => EndFits(x, g, outcome);
    case Fires(g) => FireFits(x, g);
  }

  // ---- Runs without another writer ----

  predicate Quiet(e: Event) {
    e.At? ==> !e.step.Outsider?
  }

  /** A plugin that has just started: nothing in progress, any records that can be read. */
  ghost predicate Idle(s: Sys) {
    s.drains == 0 && s.draining == map[] &&
    forall k | k in s.cells :: s.cells[k] == Crashed(s.cells[k]) && Readable(s.cells[k].record)
  }

  ghost predicate QuietlyReachable(s: Sys) {
    exists start, run :: Idle(start) && Feasible(start, run) && (forall e | e in run :: Quiet(e)) && After(start, run) == s
  }

  ghost predicate RecordsInv(s: Sys) {
    SysInv(s) && forall k | k in s.cells :: RecordInv(s.cells[k])
  }

  lemma ReplaceFits(s: Sys, key: Key, y: Cell)
    requires RecordsInv(s) && SysInv(s.(cells := s.cells[key := y])) && RecordInv(y)
    ensures RecordsInv(s.(cells := s.cells[key := y]))
  {}

  lemma AtFits(s: Sys, key: Key, step: Step)
    requires RecordsInv(s) && CanStep(CellAt(s, key), s.drains, step) && !step.Outsider?
    ensures RecordsInv(s.(cells := s.cells[key := DoStep(CellAt(s, key), s.drains, step)]))
  {
    AtKeeps(s, key, step);
    StepFits(CellAt(s, key), s.drains, step);
    ReplaceFits(s, key, DoStep(CellAt(s, key), s.drains, step));
  }

  lemma MarkingFits(s: Sys, d: DrainId)
    requires RecordsInv(s) && Can(s, DrainStarts(d))
    ensures RecordsInv(Do(s, DrainStarts(d)))
  {
    MarkingKeeps(s, d);
    forall k | k in s.cells ensures RecordInv(Marked(s.cells[k])) {
      MarkedFits(s.cells[k]);
    }
  }

  lemma MarkedFits(x: Cell)
    requires RecordInv(x)
    ensures RecordInv(Marked(x))
  {
    FrameFits(x, Marked(x));
  }

  lemma CountingFits(s: Sys, e: Event)
    requires RecordsInv(s) && Can(s, e) && (e.DrainSeesNone? || e.DrainStops?)
    ensures RecordsInv(Do(s, e))
  {
    EventKeeps(s, e);
    assert Do(s, e).cells == s.cells;
  }

  lemma CrashFits(s: Sys)
    requires RecordsInv(s)
    ensures RecordsInv(Do(s, Crash))
  {
    CrashKeeps(s);
    forall k | k in s.cells ensures RecordInv(Crashed(s.cells[k])) {
      assert RecordInv(s.cells[k]);
    }
  }

  lemma EventFits(s: Sys, e: Event)
    requires RecordsInv(s) && Can(s, e) && Quiet(e)
    ensures RecordsInv(Do(s, e))
  {
    match e
    case At(key, step) => AtFits(s, key, step);
    case DrainStarts(d) => MarkingFits(s, d);
    case DrainSeesNone(d) => CountingFits(s, e);
    case DrainStops(d) => CountingFits(s, e);
    case Crash => CrashFits(s);
  }

  lemma {:induction false} RunFits(s: Sys, run: seq<Event>)
    requires RecordsInv(s) && Feasible(s, run) && forall e | e in run :: Quiet(e)
    ensures RecordsInv(After(s, run))
    decreases |run|
  {
    if run != [] {
      EventFits(s, run[0]);
      RunFits(Do(s, run[0]), run[1..]);
    }
  }

  lemma QuietInv(s: Sys, key: Key)
    requires QuietlyReachable(s)
    ensures RecordsInv(s) && CellInv(CellAt(s, key)) && RecordInv(CellAt(s, key))
  {
    var start, run :| Idle(start) && Feasible(start, run) && (forall e | e in run :: Quiet(e)) && After(start, run) == s;
    RunFits(start, run);
  }

  /** Between deletes a release's revision never decreases, it grows only by a worker's first write,
      and that write is at exactly the revision the submit planned and the registry names. */
  lemma RevisionsGrowAsPlanned(s: Sys, e: Event, key: Key)
    requires QuietlyReachable(s) && Can(s, e) && Quiet(e)
    ensures
      var x, y := CellAt(s, key), CellAt(Do(s, e), key);
      || (x.record.None? && y.record.None?)
      || (x.record.Some? && y.record.Some? && x.record.value.version == y.record.value.version)
      || (e.At? && e.key == key && e.step.Settles? && x.workers[e.step.g].op == Delete && y.record.None?)
      || (e.At? && e.key == key && e.step.Writes? && x.entry.Some? && y.record.Some?
          && y.record.value.version == x.workers[e.step.g].target == x.entry.value.revision
          && y.record.value.version == (if x.record.None? then 1 else x.record.value.version + 1))
  {
    QuietInv(s, key);
    if e.At? && e.key == key {
      RevisionStep(CellAt(s, key), s.drains, e.step);
      if e.step.Writes? {
        WrittenRevision(CellAt(s, key), e.step.g, e.step.chart, e.step.at, e.step.timeout);
      }
    }
  }

  lemma RevisionStep(x: Cell, drains: nat, step: Step)
    requires CellInv(x) && RecordInv(x) && CanStep(x, drains, step) && !step.Outsider?
    ensures
      var y := DoStep(x, drains, step);
      || y.record == x.record
      || (step.Rewrites? && Alike(y.record, x.record))
      || (step.Settles? && x.record.Some? && (y.record.None? || Alike(y.record, x.record))
          && (y.record.None? ==> x.workers[step.g].op == Delete))
      || (step.Writes? && y.record == Some(Written(x, step.g, step.chart, step.at, step.timeout)))
  {
    if step.Rewrites? {
      RewriteRevision(x, step.c, step.how);
    } else if !Working(step) {
      RecordStays(x, drains, step);
    }
  }

  lemma RecordStays(x: Cell, drains: nat, step: Step)
    requires CanStep(x, drains, step) && !Working(step) && !step.Rewrites?
    ensures DoStep(x, drains, step).record == x.record
  {}

  lemma WrittenRevision(x: Cell, g: Gen, chart: Chart, at: int, timeout: int)
    requires CellInv(x) && RecordInv(x) && CanWrite(x, g)
    ensures x.entry.Some?
    ensures
      var w := x.workers[g];
      var version := Written(x, g, chart, at, timeout).version;
      if w.op == Delete then version == x.record.value.version
      else version == w.target == x.entry.value.revision && version == (if x.record.None? then 1 else x.record.value.version + 1)
  {
    assert WorkerFits(x, x.workers[g]);
  }

  lemma RewriteRevision(x: Cell, c: CallId, how: Recovery)
    requires CellInv(x) && RecordInv(x) && CanRewrite(x, c)
    ensures DoRewrite(x, c, how).record == x.record || Alike(DoRewrite(x, c, how).record, x.record)
  {
    RewriteAlike(x, c);
  }

  /** The recovery budget of one callback, and what a submit plans once it has spent it. */
  ghost predicate SpentOnce(x: Cell, call: Call) {
    && (call.Preparing? || Watching(call) ==> call.recoveries <= 1 && (call.recoveries == 1 ==> !NeedsRewrite(call)))
    && (call.Preparing? && call.recoveries == 1 && !call.plan.Unread? ==>
          && call.plan.Planned? && call.plan.current == x.record && x.record.Some?
          && (|| (call.plan.action == Settled && call.plan.target == x.record.value.version)
              || (call.plan.action == Upgraded && call.plan.target == x.record.value.version + 1)))
  }

  lemma FitsSpendOnce(x: Cell, call: Call)
    requires CallFits(x, call)
    ensures SpentOnce(x, call)
  {}

  /** A submit that recovered a record plans again from the record it wrote, and that second plan settles or
      upgrades; no callback ever recovers twice, so installStatus recurses at most once. */
  lemma RecoversOnce(s: Sys, key: Key, c: CallId)
    requires QuietlyReachable(s) && c in CellAt(s, key).calls
    ensures SpentOnce(CellAt(s, key), CellAt(s, key).calls[c])
  {
    QuietInv(s, key);
    FitsSpendOnce(CellAt(s, key), CellAt(s, key).calls[c]);
  }

  /** The record a reservation read is still the record, however long it prepares. */
  lemma PlanStaysCurrent(s: Sys, key: Key, c: CallId)
    requires QuietlyReachable(s) && c in CellAt(s, key).calls && CellAt(s, key).calls[c].Preparing?
    ensures
      var x, plan := CellAt(s, key), CellAt(s, key).calls[c].plan;
      !plan.Unread? ==> plan.current == x.record
  {
    QuietInv(s, key);
    assert CallFits(CellAt(s, key), CellAt(s, key).calls[c]);
  }

  /** Submitting again what is deployed, pinned and owned starts no worker. */
  lemma SettledStartsNothing(s: Sys, key: Key, c: CallId, a: Activation)
    requires QuietlyReachable(s) && c in CellAt(s, key).calls && CellAt(s, key).calls[c].Preparing?
    requires
      var x, request := CellAt(s, key), CellAt(s, key).calls[c].request;
      request.Submit? && x.record.Some? && IsSettled(x.record.value, Some(request.want))
    ensures !CanStep(CellAt(s, key), s.drains, Activates(c, a))
  {
    QuietInv(s, key);
    assert CallFits(CellAt(s, key), CellAt(s, key).calls[c]);
  }

  /** However an operation was interrupted, once nothing is stored for a release and no drain is active, driving its
      submit again recovers an owned pending record and then either finds it settled or starts an upgrade to the next
      revision; it never waits on the abandoned lock. */
  lemma ReDriveConverges(s: Sys, key: Key, c: CallId, request: Request, cand: Flight, how: Recovery, now: int, later: int)
    requires s.drains == 0 && CellAt(s, key).entry.None? && !how.Fails?
    requires request.Submit? && CanReserve(CellAt(s, key), c, request, cand)
    requires CellAt(s, key).record.Some? && Pending(CellAt(s, key).record.value) && CellAt(s, key).record.value.owned
    ensures
      var run := AtAll(key, [Reserves(c, request, cand), Reads(c, now), Rewrites(c, how), Reads(c, later)]);
      var version := CellAt(s, key).record.value.version;
      && Feasible(s, run)
      && var x := CellAt(After(s, run), key);
         && c in x.calls && x.calls[c].Preparing? && x.calls[c].plan.Planned?
         && (|| (x.calls[c].plan.action == Settled && x.calls[c].plan.target == version)
             || (x.calls[c].plan.action == Upgraded && x.calls[c].plan.target == version + 1
                 && CanStep(x, After(s, run).drains, Activates(c, Activation(Upgrade, version + 1, false, cand.deadline)))))
  {
    var x := CellAt(s, key);
    var x1 := ReserveAlone(x, c, request, cand);
    var x2 := DoRead(x1, c, now);
    PlanRecovers(x1, c, request, now);
    var x3 := DoRewrite(x2, c, how);
    RecoveryConverges(x.record.value, request.isCreate, Some(request.want), how.Complete?, now, later);
    var x4 := DoRead(x3, c, later);
    assert x4.calls[c].plan == PlanOf(request, Some(Recovered(x.record.value, how.Complete?)), later);
    FourSteps(x, Reserves(c, request, cand), Reads(c, now), Rewrites(c, how), Reads(c, later), x1, x2, x3, x4);
    LocalRun(s, key, [Reserves(c, request, cand), Reads(c, now), Rewrites(c, how), Reads(c, later)]);
  }

  lemma ReserveAlone(x: Cell, c: CallId, request: Request, cand: Flight) returns (y: Cell)
    requires x.entry.None? && CanReserve(x, c, request, cand)
    ensures y == DoReserve(x, 0, c, request, cand)
    ensures y.entry == Some(cand) && y.record == x.record && c in y.calls
    ensures y.calls[c] == Preparing(cand.generation, request, Unread, 0)
  {
    y := DoReserve(x, 0, c, request, cand);
  }

  lemma PlanRecovers(x: Cell, c: CallId, request: Request, now: int)
    requires c in x.calls && x.calls[c].Preparing? && x.calls[c].plan.Unread? && x.calls[c].recoveries == 0
    requires x.calls[c].request == request && request.Submit?
    requires x.record.Some? && Pending(x.record.value) && x.record.value.owned
    ensures CanRead(x, c) && CanRewrite(DoRead(x, c, now), c)
    ensures Stale(DoRead(x, c, now).calls[c]) == x.record.value
  {}

  lemma FourSteps(x: Cell, a: Step, b: Step, c: Step, d: Step, x1: Cell, x2: Cell, x3: Cell, x4: Cell)
    requires CanStep(x, 0, a) && x1 == DoStep(x, 0, a)
    requires CanStep(x1, 0, b) && x2 == DoStep(x1, 0, b)
    requires CanStep(x2, 0, c) && x3 == DoStep(x2, 0, c)
    requires CanStep(x3, 0, d) && x4 == DoStep(x3, 0, d)
    ensures CanSteps(x, 0, [a, b, c, d]) && DoSteps(x, 0, [a, b, c, d]) == x4
  {
    StepsCons(x3, 0, d, []);
    StepsCons(x2, 0, c, [d] + []);
    StepsCons(x1, 0, b, [c] + ([d] + []));
    StepsCons(x, 0, a, [b] + ([c] + ([d] + [])));
    assert [a] + ([b] + ([c] + ([d] + []))) == [a, b, c, d];
  }

  lemma FiveSteps(x: Cell, a: Step, b: Step, c: Step, d: Step, e: Step, x1: Cell, x2: Cell, x3: Cell, x4: Cell, x5: Cell)
    requires CanStep(x, 0, a) && x1 == DoStep(x, 0, a)
    requires CanStep(x1, 0, b) && x2 == DoStep(x1, 0, b)
    requires CanStep(x2, 0, c) && x3 == DoStep(x2, 0, c)
    requires CanStep(x3, 0, d) && x4 == DoStep(x3, 0, d)
    requires CanStep(x4, 0, e) && x5 == DoStep(x4, 0, e)
    ensures CanSteps(x, 0, [a, b, c, d, e]) && DoSteps(x, 0, [a, b, c, d, e]) == x5
  {
    FourSteps(x1, b, c, d, e, x2, x3, x4, x5);
    StepsCons(x, 0, a, [b, c, d, e]);
    assert [a] + [b, c, d, e] == [a, b, c, d, e];
  }
}
