// What the flight protocol guarantees, for every reachable state and every run.
module FlightSafety {
  import opened Base
  import opened Flights
  import opened FlightSystem
  import opened FlightInvariant

  /** At most one Helm worker is live per flight key, its flight is stored unfinished, and nothing is preparing beside it. */
  lemma OneWorker(s: Sys, key: Key, g: Gen, h: Gen)
    requires Reachable(s) && g in CellAt(s, key).workers && h in CellAt(s, key).workers
    ensures g == h
    ensures Owned(CellAt(s, key).entry, g) && !CellAt(s, key).entry.value.finished
    ensures forall c | c in CellAt(s, key).calls :: !Reserving(CellAt(s, key).calls[c])
  {
    ReachableInv(s, key);
  }

  /** A live worker stays the only one, with its own flight stored, until its finishFlight step or a crash. */
  lemma WorkerKeepsFlight(s: Sys, e: Event, key: Key, g: Gen)
    requires Reachable(s) && Can(s, e) && g in CellAt(s, key).workers
    requires !e.Crash? && !(e.At? && e.key == key && e.step.Ends? && e.step.g == g)
    ensures CellAt(Do(s, e), key).workers.Keys == {g}
    ensures Owned(CellAt(Do(s, e), key).entry, g) && !CellAt(Do(s, e), key).entry.value.finished
  {
    ReachableInv(s, key);
    EventKeeps(s, e);
    WorkerOutlives(s, e, key, g);
    SoleWorker(CellAt(Do(s, e), key), g);
  }

  lemma WorkerOutlives(s: Sys, e: Event, key: Key, g: Gen)
    requires SysInv(s) && Can(s, e) && g in CellAt(s, key).workers
    requires !e.Crash? && !(e.At? && e.key == key && e.step.Ends? && e.step.g == g)
    ensures key in Do(s, e).cells && g in Do(s, e).cells[key].workers
  {
    if e.At? && e.key == key {
      StepEffect(CellAt(s, key), s.drains, e.step);
    }
  }

  lemma SoleWorker(x: Cell, g: Gen)
    requires WorkersOk(x) && g in x.workers
    ensures x.workers.Keys == {g} && Owned(x.entry, g) && !x.entry.value.finished
  {
    assert forall h | h in x.workers :: h == x.entry.value.generation;
  }

  /** A record is never rewritten by recoverAbandoned while a worker of that release is live,
      and a Status call that goes by no flight runs beside no worker. */
  lemma RecoveryExcludesWorkers(s: Sys, key: Key, c: CallId)
    requires Reachable(s) && c in CellAt(s, key).calls
    requires
      var call := CellAt(s, key).calls[c];
      NeedsRewrite(call) || call.Preparing? || (Watching(call) && call.view.flight.None?)
    ensures CellAt(s, key).workers == map[]
  {
    ReachableInv(s, key);
    var x := CellAt(s, key);
    assert CallOk(x, x.calls[c]);
    assert forall g | g in x.workers :: !CallOk(x, x.calls[c]);
    assert x.workers.Keys == {};
  }

  /** Reader conservation, and what it protects. */
  lemma ReadersConserved(s: Sys, key: Key)
    requires Reachable(s) && CellAt(s, key).entry.Some?
    ensures
      var x := CellAt(s, key);
      var f := x.entry.value;
      && f.statusReaders == |Readers(x.calls, f.generation)|
      && (f.preparing ==> f.statusReaders == 0)
      && (f.reported ==> f.finished && f.statusReaders > 0)
    ensures forall c | c in CellAt(s, key).calls && Retaining(CellAt(s, key).calls[c]) ::
      Owned(CellAt(s, key).entry, CellAt(s, key).calls[c].gen)
  {
    ReachableInv(s, key);
  }

  /** A flight with readers is forgotten only by the release of its last reader, or a crash. */
  lemma RetainedStays(s: Sys, e: Event, key: Key)
    requires Reachable(s) && Can(s, e) && !e.Crash?
    requires CellAt(s, key).entry.Some? && CellAt(s, key).entry.value.statusReaders > 0
    requires !Owned(CellAt(Do(s, e), key).entry, CellAt(s, key).entry.value.generation)
    ensures e.At? && e.key == key && e.step.Leaves?
    ensures
      var x := CellAt(s, key);
      x.entry.value.reported && Readers(x.calls, x.entry.value.generation) == {e.step.c}
  {
    ReachableInv(s, key);
    var x := CellAt(s, key);
    assert e.At? && e.key == key;
    StepEffect(x, s.drains, e.step);
    LastReader(x, e.step.c);
  }

  lemma LastReader(x: Cell, c: CallId)
    requires CellInv(x) && CanLeave(x, c) && x.entry.Some? && x.entry.value.statusReaders > 0
    requires !Owned(DoLeave(x, c).entry, x.entry.value.generation)
    ensures x.entry.value.reported && Readers(x.calls, x.entry.value.generation) == {c}
  {
    var readers := Readers(x.calls, x.entry.value.generation);
    assert c in readers && |readers| == 1;
    assert |readers - {c}| == 0;
  }

  // ---- Drains ----

  /** From its marking step until it returns a drain lets nothing in; once it has seen nothing remaining
      no worker is live anywhere, up to the step that drops its counter. */
  lemma DrainSafe(s: Sys, d: DrainId, key: Key)
    requires Reachable(s) && d in s.draining
    ensures forall c, request, cand | CanStep(CellAt(s, key), s.drains, Reserves(c, request, cand)) ::
      DoStep(CellAt(s, key), s.drains, Reserves(c, request, cand)).(used := CellAt(s, key).used) == CellAt(s, key)
    ensures forall c, requested, cand | CanStep(CellAt(s, key), s.drains, Acquires(c, requested, cand)) ::
      DoStep(CellAt(s, key), s.drains, Acquires(c, requested, cand)).(used := CellAt(s, key).used) == CellAt(s, key)
    ensures forall c, a :: !CanStep(CellAt(s, key), s.drains, Activates(c, a))
    ensures s.draining[d] ==> CellAt(s, key).workers == map[]
  {
    ReachableInv(s, key);
    assert |s.draining.Keys| > 0;
  }

  /** However drains overlap, a flight's cancel func is taken at most once. */
  lemma CancelsTakenOnce(s: Sys, key: Key)
    requires Reachable(s)
    ensures !CellAt(s, key).log.twice
  {
    ReachableInv(s, key);
  }

  /** No worker of this generation is live and none can be started. */
  predicate Barred(x: Cell, g: Gen) {
    g in x.used && g !in x.workers && !(Owned(x.entry, g) && x.entry.value.preparing && !x.entry.value.stopping)
  }

  lemma BarredStays(x: Cell, y: Cell, drains: nat, step: Step, g: Gen)
    requires Barred(x, g) && Effect(x, y, drains, step)
    ensures Barred(y, g)
  {}

  lemma {:induction false} BarredForever(s: Sys, run: seq<Event>, key: Key, g: Gen)
    requires SysInv(s) && Feasible(s, run) && Barred(CellAt(s, key), g)
    ensures Barred(CellAt(After(s, run), key), g)
    decreases |run|
  {
    if run != [] {
      var e := run[0];
      EventKeeps(s, e);
      BarredByEvent(s, e, key, g);
      BarredForever(Do(s, e), run[1..], key, g);
    }
  }

  lemma BarredByEvent(s: Sys, e: Event, key: Key, g: Gen)
    requires SysInv(s) && Can(s, e) && Barred(CellAt(s, key), g)
    ensures Barred(CellAt(Do(s, e), key), g)
  {
    assert key in s.cells;
    if e.At? && e.key == key {
      StepEffect(CellAt(s, key), s.drains, e.step);
      BarredStays(CellAt(s, key), CellAt(Do(s, e), key), s.drains, e.step, g);
    }
  }

  /** A flight still in preparation when a drain marks it is never activated afterwards, in any run. */
  lemma StoppedNeverActivates(s: Sys, d: DrainId, key: Key, run: seq<Event>)
    requires Reachable(s) && Can(s, DrainStarts(d)) && Feasible(Do(s, DrainStarts(d)), run)
    requires CellAt(s, key).entry.Some? && CellAt(s, key).entry.value.preparing
    ensures CellAt(s, key).entry.value.generation !in CellAt(After(Do(s, DrainStarts(d)), run), key).workers
  {
    ReachableInv(s, key);
    EventKeeps(s, DrainStarts(d));
    BarredForever(Do(s, DrainStarts(d)), run, key, CellAt(s, key).entry.value.generation);
  }

  // ---- Outcomes ----

  /** A Status that retained its flight reports a terminal answer read from the record only when the worker
      has finished without error; a recorded error always takes its place. */
  lemma ReportsHonestly(s: Sys, key: Key, c: CallId, result: Option<Answer>)
    requires Reachable(s) && c in CellAt(s, key).calls && CellAt(s, key).calls[c].Polling?
    ensures
      var x := CellAt(s, key);
      var g := x.calls[c].gen;
      var answer := Reconcile(x.entry, g, result).1;
      if g in x.log.errors then answer == Some(WorkerError(x.log.errors[g]))
      else if g in x.workers then answer == (if result.None? then None else Some(InProgress))
      else answer == result && x.entry.Some? && x.entry.value.finished
  {
    ReachableInv(s, key);
    assert CallOk(CellAt(s, key), CellAt(s, key).calls[c]);
  }

  /** Over a whole process life: no generation is reported both as a success and with a worker error, and a recorded
      error leaves the registry only after it was returned to a caller or its retention timer fired. */
  lemma OutcomesNeverLost(s: Sys, key: Key, g: Gen)
    requires Reachable(s)
    ensures g in CellAt(s, key).log.succeeded ==> g !in CellAt(s, key).log.errors && g !in CellAt(s, key).workers
    ensures
      var x := CellAt(s, key);
      g in x.log.errors && g !in x.log.delivered && g !in x.log.fired ==>
        Owned(x.entry, g) && x.entry.value.outcome == Some(x.log.errors[g])
  {
    ReachableInv(s, key);
  }

  // ---- One flight over time ----

  /** How a stored flight may change while it stays stored. */
  predicate Grows(f: Flight, later: Flight) {
    && later.generation == f.generation && later.requestOp == f.requestOp && later.fingerprint == f.fingerprint
    && (!f.preparing ==>
          && !later.preparing && later.op == f.op && later.revision == f.revision && later.auth == f.auth
          && later.binding == f.binding && later.bridge == f.bridge)
    && (f.finished ==> later.finished && later.outcome == f.outcome)
    && (f.stopping ==> later.stopping)
  }

  /** Generation g is stored afterwards only if it was before, and has grown. */
  predicate EntryGrows(e: Entry, later: Entry, g: Gen) {
    Owned(later, g) ==> Owned(e, g) && Grows(e.value, later.value)
  }

  /** The critical section a step takes on its release's entry. */
  function EntryAfter(x: Cell, drains: nat, step: Step): Entry
    requires CanStep(x, drains, step)
  {
    match step
    case Reserves(_, _, cand) => Reserve(drains, x.entry, cand).0
    case Acquires(_, requested, cand) => AcquireStatus(drains, x.entry, requested, cand).0
    case Activates(c, a) => Activate(drains, x.entry, x.calls[c].gen, a).0
    case Rewrites(c, how) => if how.Fails? && x.calls[c].Preparing? then Remove(x.entry, x.calls[c].gen) else x.entry
    case Abandons(c) => if x.calls[c].Polling? then x.entry else Remove(x.entry, x.calls[c].gen)
    case Reports(c) =>
      if x.calls[c].Polling? then Reconcile(x.entry, x.calls[c].gen, x.calls[c].view.said).0 else Remove(x.entry, x.calls[c].gen)
    case ReportsEarly(c, known) => Reconcile(x.entry, x.calls[c].gen, if known then None else Some(InProgress)).0
    case Consumes(c) => ConsumeFailure(x.entry, x.calls[c].gen, x.calls[c].err.value)
    case Leaves(c) => if x.calls[c].Awaiting? then x.entry else ReleaseStatus(x.entry, x.calls[c].gen)
    case Ends(g, outcome) => Finish(x.entry, x.closed, g, outcome).0
    case Fires(g) => Remove(x.entry, g)
    case _ => x.entry
  }

  lemma StepTakesSection(x: Cell, drains: nat, step: Step)
    requires CanStep(x, drains, step)
    ensures DoStep(x, drains, step).entry == EntryAfter(x, drains, step)
  {}

  lemma SectionGrows(x: Cell, drains: nat, step: Step, g: Gen)
    requires CanStep(x, drains, step)
    requires step.Reserves? || step.Acquires? ==> g != step.cand.generation
    requires step.Activates? ==> x.entry.Some? && x.entry.value.preparing && !x.entry.value.finished
    ensures EntryGrows(x.entry, EntryAfter(x, drains, step), g)
  {
    if Entering(step) {
      EnteringGrows(x, drains, step, g);
    } else {
      LeavingGrows(x, drains, step, g);
    }
  }

  lemma EnteringGrows(x: Cell, drains: nat, step: Step, g: Gen)
    requires CanStep(x, drains, step) && Entering(step)
    requires step.Reserves? || step.Acquires? ==> g != step.cand.generation
    requires step.Activates? ==> x.entry.Some? && x.entry.value.preparing && !x.entry.value.finished
    ensures EntryGrows(x.entry, EntryAfter(x, drains, step), g)
  {}

  lemma LeavingGrows(x: Cell, drains: nat, step: Step, g: Gen)
    requires CanStep(x, drains, step) && !Entering(step)
    ensures EntryGrows(x.entry, EntryAfter(x, drains, step), g)
  {
    if Exiting(step) {
      ExitingGrows(x, drains, step, g);
    }
  }

  lemma ExitingGrows(x: Cell, drains: nat, step: Step, g: Gen)
    requires CanStep(x, drains, step) && Exiting(step)
    ensures EntryGrows(x.entry, EntryAfter(x, drains, step), g)
  {}

  lemma StepGrows(x: Cell, drains: nat, step: Step, g: Gen)
    requires CellInv(x) && CanStep(x, drains, step) && g in x.used
    ensures EntryGrows(x.entry, DoStep(x, drains, step).entry, g)
  {
    assert step.Activates? ==> CallOk(x, x.calls[step.c]);
    StepTakesSection(x, drains, step);
    SectionGrows(x, drains, step, g);
  }

  lemma GrowsOn(e: Entry, next: Entry, later: Entry, g: Gen)
    requires EntryGrows(e, next, g) && EntryGrows(next, later, g)
    ensures EntryGrows(e, later, g)
  {}

  lemma EventGrows(s: Sys, e: Event, key: Key, g: Gen)
    requires SysInv(s) && Can(s, e) && g in CellAt(s, key).used
    ensures EntryGrows(CellAt(s, key).entry, CellAt(Do(s, e), key).entry, g)
  {
    if e.At? && e.key == key {
      StepGrows(CellAt(s, key), s.drains, e.step, g);
    }
  }

  lemma EventKeepsUsed(s: Sys, e: Event, key: Key)
    requires SysInv(s) && Can(s, e)
    ensures CellAt(s, key).used <= CellAt(Do(s, e), key).used
  {
    if e.At? && e.key == key {
      StepEffect(CellAt(s, key), s.drains, e.step);
    }
  }

  /** A generation once drawn that is stored after a run was stored before it, throughout in one identity: activated
      it keeps its operation, revision and identity, finished it keeps its outcome. A generation never comes back. */
  lemma {:induction false} RunGrows(s: Sys, run: seq<Event>, key: Key, g: Gen)
    requires SysInv(s) && Feasible(s, run) && g in CellAt(s, key).used
    ensures EntryGrows(CellAt(s, key).entry, CellAt(After(s, run), key).entry, g)
    decreases |run|
  {
    if run != [] {
      var t := Do(s, run[0]);
      EventKeeps(s, run[0]);
      EventKeepsUsed(s, run[0], key);
      RunGrows(t, run[1..], key, g);
      EventGrows(s, run[0], key, g);
      GrowsOn(CellAt(s, key).entry, CellAt(t, key).entry, CellAt(After(s, run), key).entry, g);
    }
  }

  /** A bridge is closed exactly when its flight's outcome is published. */
  lemma BridgeClosesWithOutcome(x: Cell, c: CallId)
    requires CellInv(x) && c in x.calls && Retaining(x.calls[c])
    ensures
      var g := x.calls[c].gen;
      && g in x.used && Owned(x.entry, g)
      && (g in x.closed ==> x.entry.value.finished)
      && (x.entry.value.bridge ==> (g in x.closed <==> x.entry.value.finished))
  {
    assert CallOk(x, x.calls[c]);
  }

  /** So a Service that fails on a closed bridge never reaches a callback that retains the flight: however much later
      serviceFlight looks the flight up, it hands on the finished flight with its outcome, and no error. */
  lemma ClosedBridgeIsFinished(s: Sys, run: seq<Event>, key: Key, c: CallId, err: Option<Error>)
    requires Reachable(s) && c in CellAt(s, key).calls && Retaining(CellAt(s, key).calls[c])
    requires CellAt(s, key).calls[c].gen in CellAt(s, key).closed
    requires Feasible(s, run) && CanStep(CellAt(After(s, run), key), After(s, run).drains, Services(c, err))
    requires CellAt(After(s, run), key).calls[c].gen == CellAt(s, key).calls[c].gen
    ensures
      var x, y := CellAt(s, key), CellAt(After(s, run), key);
      var view := DoStep(y, After(s, run).drains, Services(c, err)).calls[c].view;
      && x.entry.Some? && x.entry.value.finished && y.entry.Some?
      && view.flight == y.entry && view.flight.value.finished && view.flight.value.outcome == x.entry.value.outcome
      && ServiceFlight(y.entry, x.calls[c].gen, err) == (y.entry, None)
  {
    ReachableInv(s, key);
    RunKeeps(s, run);
    var x, y := CellAt(s, key), CellAt(After(s, run), key);
    BridgeClosesWithOutcome(x, c);
    BridgeClosesWithOutcome(y, c);
    RunGrows(s, run, key, x.calls[c].gen);
    Serviced(y, c, err);
  }

  lemma Serviced(y: Cell, c: CallId, err: Option<Error>)
    requires CanService(y, c) && Owned(y.entry, y.calls[c].gen) && y.entry.value.finished
    ensures ServiceFlight(y.entry, y.calls[c].gen, err) == (y.entry, None)
    ensures DoService(y, c, err).calls[c].view.flight == y.entry
  {}
}
