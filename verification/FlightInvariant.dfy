// The inductive invariant of the flight protocol and its preservation by every step.
module FlightInvariant {
  import opened Base
  import opened Flights
  import opened Releases
  import opened FlightSystem

  predicate Retaining(call: Call) {
    call.Rejoined? || call.Leaving? || call.Polling?
  }

  predicate Reserving(call: Call) {
    call.Preparing? || call.Recovering?
  }

  /** The callbacks that will release a reader of this generation. */
  function Readers(calls: map<CallId, Call>, gen: Gen): set<CallId> {
    set c | c in calls && Retaining(calls[c]) && calls[c].gen == gen
  }

  predicate FlightOk(f: Flight) {
    && (f.preparing ==> f.statusReaders == 0 && !f.finished && !f.reported && !f.bridge)
    && (f.reported ==> f.finished && f.statusReaders > 0)
    && (f.outcome.Some? ==> f.finished)
    && (f.finished ==> !f.cancel)
  }

  /** Reader conservation. */
  ghost predicate EntryOk(x: Cell) {
    x.entry.Some? ==>
      var f := x.entry.value;
      FlightOk(f) && f.generation in x.used && f.statusReaders == |Readers(x.calls, f.generation)|
  }

  predicate CallOk(x: Cell, call: Call) {
    && call.gen in x.used
    && (Reserving(call) ==> Owned(x.entry, call.gen) && x.entry.value.preparing)
    && (Retaining(call) ==> Owned(x.entry, call.gen) && !x.entry.value.preparing)
    && (call.Awaiting? && Owned(x.entry, call.gen) ==> !x.entry.value.preparing)
    && (Watching(call) ==> call.view.said.None? || !call.view.said.value.WorkerError?)
    && (call.Recovering? ==> call.view.flight.None?)
    && (call.Polling? && call.view.flight.None? ==> x.entry.value.finished)
    && (call.Polling? && call.view.flight.Some? && call.view.flight.value.finished ==>
          x.entry.value.finished && x.entry.value.outcome == call.view.flight.value.outcome)
    && ((call.Awaiting? || call.Rejoined?) && call.err.Some? ==>
          call.gen in x.log.errors && x.log.errors[call.gen] == call.err.value)
  }

  ghost predicate CallsOk(x: Cell) {
    && (forall c | c in x.calls :: CallOk(x, x.calls[c]))
    && (forall c, d | c in x.calls && d in x.calls && Reserving(x.calls[c]) && Reserving(x.calls[d]) :: c == d)
  }

  /** A live worker's flight is stored and unfinished, and every activated unfinished flight has its worker. */
  ghost predicate WorkersOk(x: Cell) {
    && (forall g | g in x.workers :: Owned(x.entry, g) && !x.entry.value.preparing && !x.entry.value.finished)
    && (x.entry.Some? && !x.entry.value.preparing && !x.entry.value.finished ==> x.entry.value.generation in x.workers)
  }

  ghost predicate TimersOk(x: Cell) {
    forall g | g in x.timers :: g in x.used && (Owned(x.entry, g) ==> x.entry.value.finished)
  }

  ghost predicate BridgesOk(x: Cell) {
    && (forall g | g in x.closed :: g in x.used)
    && (x.entry.Some? && x.entry.value.generation in x.closed ==> x.entry.value.finished)
    && (x.entry.Some? && x.entry.value.bridge && x.entry.value.finished ==> x.entry.value.generation in x.closed)
  }

  /** A recorded worker error was returned, or its timer fired, or it is still in the registry. */
  predicate Accounted(x: Cell, g: Gen)
    requires g in x.log.errors
  {
    g in x.log.delivered || g in x.log.fired || (Owned(x.entry, g) && x.entry.value.outcome == Some(x.log.errors[g]))
  }

  ghost predicate ErrorsOk(x: Cell) {
    && (forall g | g in x.log.errors :: g in x.used && g !in x.workers && Accounted(x, g))
    && (x.entry.Some? && x.entry.value.outcome.Some? ==>
          x.entry.value.generation in x.log.errors
          && x.log.errors[x.entry.value.generation] == x.entry.value.outcome.value)
    && (x.entry.Some? && x.entry.value.reported && x.entry.value.outcome.Some? ==>
          x.entry.value.generation in x.log.delivered + x.log.fired)
    && (x.entry.Some? && x.entry.value.outcome.None? ==> x.entry.value.generation !in x.log.errors)
  }

  ghost predicate SuccessesOk(x: Cell) {
    && (forall g | g in x.log.succeeded :: g in x.used && g !in x.workers && g !in x.log.errors)
    && (x.entry.Some? && !x.entry.value.finished ==> x.entry.value.generation !in x.log.succeeded)
  }

  ghost predicate CancelsOk(x: Cell) {
    && (forall g | g in x.log.taken :: g in x.used)
    && (x.entry.Some? && x.entry.value.generation in x.log.taken ==>
          !x.entry.value.cancel && (x.entry.value.stopping || x.entry.value.finished))
    && !x.log.twice
  }

  ghost predicate CellInv(x: Cell) {
    EntryOk(x) && CallsOk(x) && WorkersOk(x) && TimersOk(x) && BridgesOk(x) && ErrorsOk(x) && SuccessesOk(x) && CancelsOk(x)
  }

  lemma Card(was: set<CallId>, now: set<CallId>, c: CallId)
    requires now - {c} == was - {c}
    ensures |now| == |was| + (if c in now then 1 else 0) - (if c in was then 1 else 0)
  {
    assert c in was ==> was == (was - {c}) + {c};
    assert c in now ==> now == (now - {c}) + {c};
    assert c !in was ==> was == was - {c};
    assert c !in now ==> now == now - {c};
  }

  /** The readers of a generation after one callback moved on, and what the count says of each callback. */
  lemma Recount(calls: map<CallId, Call>, calls': map<CallId, Call>, c: CallId, g: Gen)
    requires calls' - {c} == calls - {c}
    ensures |Readers(calls', g)| == |Readers(calls, g)|
      + (if c in calls' && Retaining(calls'[c]) && calls'[c].gen == g then 1 else 0)
      - (if c in calls && Retaining(calls[c]) && calls[c].gen == g then 1 else 0)
    ensures forall d | d in calls' && Retaining(calls'[d]) && calls'[d].gen == g :: |Readers(calls', g)| > 0
  {
    assert forall d | d != c :: d in calls' <==> d in calls' - {c};
    assert forall d | d != c :: d in calls <==> d in calls - {c};
    assert forall d | d in calls' - {c} :: calls'[d] == (calls - {c})[d];
    Card(Readers(calls, g), Readers(calls', g), c);
    forall d | d in calls' && Retaining(calls'[d]) && calls'[d].gen == g ensures |Readers(calls', g)| > 0 {
      assert d in Readers(calls', g);
    }
  }

  /** A callback enters with a reservation of its own, or by retaining the stored flight. */
  lemma EnterKeeps(x: Cell, c: CallId, call: Call, f: Flight)
    requires CellInv(x) && c !in x.calls
    requires
      || (x.entry.None? && Reserving(call) && NewFlight(f) && f.generation !in x.used
          && (call.Recovering? ==> call.view.flight.None?))
      || (x.entry.Some? && !x.entry.value.preparing && f == Retain(x.entry.value) && Retaining(call)
          && (call.Rejoined? ==> call.err.None?) && (call.Polling? ==> call.view.flight == Some(f)))
    requires call.gen == f.generation && (Watching(call) ==> call.view.said.None?)
    ensures CellInv(WithCall(x.(entry := Some(f), used := x.used + {f.generation}), c, call))
  {
    Recount(x.calls, x.calls[c := call], c, f.generation);
  }

  lemma DrawKeeps(x: Cell, g: Gen)
    requires CellInv(x)
    ensures CellInv(x.(used := x.used + {g}))
  {}

  lemma ReserveKeeps(x: Cell, drains: nat, c: CallId, request: Request, cand: Flight)
    requires CellInv(x) && CanReserve(x, c, request, cand)
    ensures CellInv(DoReserve(x, drains, c, request, cand))
  {
    ReserveComesTo(x, drains, c, request, cand);
    if drains == 0 && x.entry.None? {
      var noted := x.(log := x.log.(reserved := x.log.reserved[cand.generation := request]));
      NotingKeeps(x, x.log.reserved[cand.generation := request]);
      EnterKeeps(noted, c, Preparing(cand.generation, request, Unread, 0), cand);
    } else if drains == 0 && MatchesRejoin(x.entry, cand) {
      var y := x.(used := x.used + {cand.generation});
      DrawKeeps(x, cand.generation);
      EnterKeeps(y, c, Rejoined(x.entry.value.generation, request, None), Retain(x.entry.value));
      assert y.used + {x.entry.value.generation} == y.used;
    } else {
      DrawKeeps(x, cand.generation);
    }
  }

  lemma NotingKeeps(x: Cell, reserved: map<Gen, Request>)
    requires CellInv(x)
    ensures CellInv(x.(log := x.log.(reserved := reserved)))
  {}

  function Drawn(x: Cell, entry: Entry, cand: Flight): Cell {
    x.(entry := entry, used := x.used + {cand.generation})
  }

  /** A reservation is new, joins the stored flight, or leaves everything but the drawn generation as it was. */
  lemma ReserveComesTo(x: Cell, drains: nat, c: CallId, request: Request, cand: Flight)
    ensures
      var y := DoReserve(x, drains, c, request, cand);
      && (drains == 0 && x.entry.None? ==>
            y == WithCall(Drawn(x, Some(cand), cand).(log := x.log.(reserved := x.log.reserved[cand.generation := request])), c,
                          Preparing(cand.generation, request, Unread, 0)))
      && (drains == 0 && MatchesRejoin(x.entry, cand) ==>
            y == WithCall(Drawn(x, Some(Retain(x.entry.value)), cand), c, Rejoined(x.entry.value.generation, request, None)))
      && (drains > 0 || (x.entry.Some? && !MatchesRejoin(x.entry, cand)) ==> y == Drawn(x, x.entry, cand))
  {}

  lemma TalkKeeps(x: Cell, c: CallId, call: Call)
    requires CellInv(x) && c in x.calls && CallOk(x, call) && call.gen == x.calls[c].gen
    requires Retaining(call) == Retaining(x.calls[c]) && Reserving(call) == Reserving(x.calls[c])
    ensures CellInv(WithCall(x, c, call))
  {
    if x.entry.Some? {
      Recount(x.calls, x.calls[c := call], c, x.entry.value.generation);
    }
  }

  lemma ReadKeeps(x: Cell, c: CallId, now: int)
    requires CellInv(x) && CanRead(x, c)
    ensures CellInv(DoRead(x, c, now))
  {
    TalkKeeps(x, c, DoRead(x, c, now).calls[c]);
  }

  lemma AbandonKeeps(x: Cell, c: CallId)
    requires CellInv(x) && CanAbandon(x, c)
    ensures CellInv(DoAbandon(x, c))
  {
    var x' := DoAbandon(x, c);
    if x.entry.Some? {
      Recount(x.calls, x'.calls, c, x.entry.value.generation);
    }
  }

  lemma RecordKeeps(x: Cell, record: Option<Record>)
    requires CellInv(x)
    ensures CellInv(x.(record := record))
  {}

  lemma NoteKeeps(x: Cell, record: Option<Record>, rewritten: set<Gen>)
    requires CellInv(x)
    ensures CellInv(x.(record := record, log := x.log.(rewritten := rewritten)))
  {}

  lemma RewriteKeeps(x: Cell, c: CallId, how: Recovery)
    requires CellInv(x) && CanRewrite(x, c)
    ensures CellInv(DoRewrite(x, c, how))
  {
    if how.Fails? && x.calls[c].Preparing? {
      AbandonKeeps(x, c);
    } else {
      var y := DoRewrite(x, c, how);
      NoteKeeps(x, y.record, y.log.rewritten);
      TalkKeeps(x.(record := y.record, log := y.log), c, y.calls[c]);
    }
  }

  lemma ActivateKeeps(x: Cell, drains: nat, c: CallId, a: Activation)
    requires CellInv(x) && CanActivate(x, drains, c, a)
    ensures CellInv(DoActivate(x, drains, c, a))
  {
    var x' := DoActivate(x, drains, c, a);
    if x.entry.Some? {
      Recount(x.calls, x'.calls, c, x.entry.value.generation);
    }
  }

  lemma AcquireKeeps(x: Cell, drains: nat, c: CallId, requested: Gen, cand: Flight)
    requires CellInv(x) && CanAcquire(x, c, cand)
    ensures CellInv(DoAcquire(x, drains, c, requested, cand))
  {
    DrawKeeps(x, cand.generation);
    if drains == 0 {
      if x.entry.None? {
        EnterKeeps(x, c, Recovering(cand.generation, cand.op, cand.revision, View(None, None, None), 0), cand);
      } else if MatchesStatus(x.entry.value, requested, cand) {
        var y, f := x.(used := x.used + {cand.generation}), Retain(x.entry.value);
        EnterKeeps(y, c, Polling(requested, cand.op, cand.revision, View(Some(f), None, None), 0), f);
        assert y.used + {requested} == y.used;
      }
    }
  }

  lemma ServiceKeeps(x: Cell, c: CallId, err: Option<Error>)
    requires CellInv(x) && CanService(x, c)
    ensures CellInv(DoService(x, c, err))
  {
    var x' := DoService(x, c, err);
    if x.entry.Some? {
      Recount(x.calls, x'.calls, c, x.entry.value.generation);
    }
  }

  lemma QuietKeeps(x: Cell, c: CallId)
    requires CellInv(x) && c in x.calls && Retaining(x.calls[c])
    ensures CellInv(WithCall(x, c, Leaving(x.calls[c].gen)))
  {
    Recount(x.calls, x.calls[c := Leaving(x.calls[c].gen)], c, x.calls[c].gen);
  }

  lemma MarkKeeps(x: Cell, log: Log)
    requires CellInv(x) && x.entry.Some? && x.entry.value.finished && x.entry.value.statusReaders > 0
    requires
      var f := x.entry.value;
      || (f.outcome.None? && log == x.log.(succeeded := log.succeeded) && log.succeeded.Keys <= x.log.succeeded.Keys + {f.generation})
      || (f.outcome.Some? && log == x.log.(delivered := x.log.delivered + {f.generation}))
    ensures CellInv(x.(entry := Some(x.entry.value.(reported := true)), log := log))
  {}

  lemma ReportKeeps(x: Cell, c: CallId, result: Option<Answer>)
    requires CellInv(x) && c in x.calls && Watching(x.calls[c]) && (result.Some? ==> !result.value.WorkerError?)
    ensures CellInv(DoReport(x, c, result))
  {
    var call := x.calls[c];
    if !call.Polling? {
      AbandonKeeps(x, c);
    } else {
      Recount(x.calls, x.calls, c, call.gen);
      var (entry, answer) := Reconcile(x.entry, call.gen, result);
      var y := x.(entry := entry, log := LogAnswer(x.log, call, answer));
      if entry != x.entry || y.log != x.log {
        MarkKeeps(x, y.log);
      }
      QuietKeeps(y, c);
    }
  }

  lemma DeliverKeeps(x: Cell, g: Gen)
    requires CellInv(x)
    ensures CellInv(x.(log := x.log.(delivered := x.log.delivered + {g})))
  {}

  lemma ForgetKeeps(x: Cell)
    requires CellInv(x) && x.entry.Some? && x.entry.value.finished && x.entry.value.statusReaders == 0
    requires x.entry.value.outcome.Some? ==> x.entry.value.generation in x.log.delivered + x.log.fired
    ensures CellInv(x.(entry := None))
  {
    Recount(x.calls, x.calls, 0, x.entry.value.generation);
  }

  lemma DepartKeeps(x: Cell, c: CallId)
    requires CellInv(x) && c in x.calls && x.calls[c].Awaiting?
    ensures CellInv(DropCall(x, c))
  {
    if x.entry.Some? {
      Recount(x.calls, x.calls - {c}, c, x.entry.value.generation);
    }
  }

  lemma ConsumeKeeps(x: Cell, c: CallId)
    requires CellInv(x) && CanConsume(x, c)
    ensures CellInv(DoConsume(x, c))
  {
    var call := x.calls[c];
    var y := x.(log := x.log.(delivered := x.log.delivered + {call.gen}));
    DeliverKeeps(x, call.gen);
    var entry := ConsumeFailure(x.entry, call.gen, call.err.value);
    if entry != x.entry {
      if entry.None? {
        ForgetKeeps(y);
      } else {
        MarkKeeps(x, y.log);
      }
    }
    if call.Rejoined? {
      QuietKeeps(y.(entry := entry), c);
    } else {
      DepartKeeps(y.(entry := entry), c);
    }
  }

  lemma LeaveKeeps(x: Cell, c: CallId)
    requires CellInv(x) && CanLeave(x, c)
    ensures CellInv(DoLeave(x, c))
  {
    var x' := DoLeave(x, c);
    if x.entry.Some? {
      Recount(x.calls, x'.calls, c, x.entry.value.generation);
    }
  }

  lemma WriteKeeps(x: Cell, g: Gen, chart: Chart, at: int, timeout: int)
    requires CellInv(x) && CanWrite(x, g)
    ensures CellInv(DoWrite(x, g, chart, at, timeout))
  {}

  lemma SettleKeeps(x: Cell, g: Gen, deployed: bool)
    requires CellInv(x) && CanSettle(x, g)
    ensures CellInv(DoSettle(x, g, deployed))
  {
    RecordKeeps(x, DoSettle(x, g, deployed).record);
  }

  lemma EndKeeps(x: Cell, g: Gen, outcome: Option<Error>)
    requires CellInv(x) && g in x.workers
    ensures CellInv(DoEnd(x, g, outcome))
  {}

  lemma FireKeeps(x: Cell, g: Gen)
    requires CellInv(x) && g in x.timers
    ensures CellInv(DoFire(x, g))
  {
    if x.entry.Some? {
      Recount(x.calls, x.calls, 0, x.entry.value.generation);
    }
  }

  lemma JudgeKeeps(x: Cell, c: CallId, ready: bool, now: int)
    requires CellInv(x) && CanJudge(x, c)
    ensures CellInv(DoJudge(x, c, ready, now))
  {
    var call := x.calls[c];
    TalkKeeps(x, c, call.(view := call.view.(said := Some(AnswerOf(call, ready, now)))));
  }

  lemma ObserveKeeps(x: Cell, c: CallId)
    requires CellInv(x) && CanObserve(x, c)
    ensures CellInv(DoObserve(x, c))
  {
    var call := x.calls[c];
    TalkKeeps(x, c, call.(err := if Owned(x.entry, call.gen) then x.entry.value.outcome else None));
  }

  /** Every step of one release keeps its invariant, whatever the drains. */
  lemma StepKeeps(x: Cell, drains: nat, step: Step)
    requires CellInv(x) && CanStep(x, drains, step)
    ensures CellInv(DoStep(x, drains, step))
  {
    if Entering(step) || Looking(step) {
      IncomingKeeps(x, drains, step);
    } else if Working(step) {
      WorkKeeps(x, drains, step);
    } else {
      OutgoingKeeps(x, drains, step);
    }
  }

  lemma IncomingKeeps(x: Cell, drains: nat, step: Step)
    requires CellInv(x) && CanStep(x, drains, step) && (Entering(step) || Looking(step))
    ensures CellInv(DoStep(x, drains, step))
  {
    match step
    case Reserves(c, request, cand) => ReserveKeeps(x, drains, c, request, cand);
    case Acquires(c, requested, cand) => AcquireKeeps(x, drains, c, requested, cand);
    case Activates(c, a) => ActivateKeeps(x, drains, c, a);
    case Reads(c, now) => ReadKeeps(x, c, now);
    case Services(c, err) => ServiceKeeps(x, c, err);
    case Judges(c, ready, now) => JudgeKeeps(x, c, ready, now);
    case Observes(c) => ObserveKeeps(x, c);
  }

  lemma OutgoingKeeps(x: Cell, drains: nat, step: Step)
    requires CellInv(x) && CanStep(x, drains, step) && (Backing(step) || Exiting(step))
    ensures CellInv(DoStep(x, drains, step))
  {
    match step
    case Rewrites(c, how) => RewriteKeeps(x, c, how);
    case Abandons(c) => AbandonKeeps(x, c);
    case Reports(c) => ReportKeeps(x, c, x.calls[c].view.said);
    case ReportsEarly(c, known) => ReportKeeps(x, c, if known then None else Some(InProgress));
    case Consumes(c) => ConsumeKeeps(x, c);
    case Leaves(c) => LeaveKeeps(x, c);
  }

  lemma WorkKeeps(x: Cell, drains: nat, step: Step)
    requires CellInv(x) && CanStep(x, drains, step) && Working(step)
    ensures CellInv(DoStep(x, drains, step))
  {
    match step
    case Writes(g, chart, at, timeout) => WriteKeeps(x, g, chart, at, timeout);
    case Settles(g, deployed) => SettleKeeps(x, g, deployed);
    case Ends(g, outcome) => EndKeeps(x, g, outcome);
    case Fires(g) => FireKeeps(x, g);
    case Outsider(record) => RecordKeeps(x, record);
  }

  lemma MarkedKeeps(x: Cell)
    requires CellInv(x)
    ensures CellInv(Marked(x))
  {}

  // ---- All releases together ----

  ghost predicate SysInv(s: Sys) {
    && (forall k | k in s.cells :: CellInv(s.cells[k]))
    && s.drains == |s.draining|
    && (forall d, k | d in s.draining && s.draining[d] && k in s.cells :: s.cells[k].workers == map[])
  }

  lemma MarkingKeeps(s: Sys, d: DrainId)
    requires SysInv(s) && Can(s, DrainStarts(d))
    ensures SysInv(Do(s, DrainStarts(d)))
  {
    var s' := Do(s, DrainStarts(d));
    forall k | k in s'.cells ensures CellInv(s'.cells[k]) {
      MarkedKeeps(s.cells[k]);
    }
  }

  /** Whether an activation of this generation can succeed. */
  predicate Startable(x: Cell, drains: nat, g: Gen) {
    drains == 0 && Owned(x.entry, g) && x.entry.value.preparing && !x.entry.value.stopping
  }

  /** What any step may do to the workers and the stored flight of a release. */
  ghost predicate Effect(x: Cell, y: Cell, drains: nat, step: Step) {
    && x.used <= y.used
    && (forall g | g in y.workers :: g in x.workers || Startable(x, drains, g))
    && (forall g | g in x.workers :: g in y.workers || (step.Ends? && step.g == g))
    && (forall g | g in x.used && Owned(y.entry, g) ::
          Owned(x.entry, g) && (y.entry.value.preparing && !y.entry.value.stopping ==> x.entry.value.preparing && !x.entry.value.stopping))
    && (x.entry.Some? && x.entry.value.statusReaders > 0 && !step.Leaves? ==> Owned(y.entry, x.entry.value.generation))
  }

  lemma StepEffect(x: Cell, drains: nat, step: Step)
    requires CellInv(x) && CanStep(x, drains, step)
    ensures Effect(x, DoStep(x, drains, step), drains, step)
  {
    if step.Reserves? {
      ReserveEffect(x, drains, step);
    } else if step.Acquires? {
      AcquireEffect(x, drains, step);
    } else if step.Activates? {
      ActivateEffect(x, drains, step);
    } else if Looking(step) {
      LookingEffect(x, drains, step);
    } else if Backing(step) {
      BackingEffect(x, drains, step);
    } else if step.Reports? || step.ReportsEarly? {
      ReportEffect(x, drains, step);
    } else if step.Consumes? || step.Leaves? {
      LeaveEffect(x, drains, step);
    } else {
      WorkingEffect(x, drains, step);
    }
  }

  lemma ReserveEffect(x: Cell, drains: nat, step: Step)
    requires CellInv(x) && CanStep(x, drains, step) && step.Reserves?
    ensures Effect(x, DoStep(x, drains, step), drains, step)
  {
    var entry := Reserve(drains, x.entry, step.cand).0;
    assert DoStep(x, drains, step).entry == entry;
    assert entry == x.entry || (x.entry.None? && entry == Some(step.cand)) || (x.entry.Some? && entry == Some(Retain(x.entry.value)));
  }

  lemma AcquireEffect(x: Cell, drains: nat, step: Step)
    requires CellInv(x) && CanStep(x, drains, step) && step.Acquires?
    ensures Effect(x, DoStep(x, drains, step), drains, step)
  {
    var entry := AcquireStatus(drains, x.entry, step.requested, step.cand).0;
    assert DoStep(x, drains, step).entry == entry;
    assert entry == x.entry || (x.entry.None? && entry == Some(step.cand)) || (x.entry.Some? && entry == Some(Retain(x.entry.value)));
  }

  lemma ActivateEffect(x: Cell, drains: nat, step: Step)
    requires CellInv(x) && CanStep(x, drains, step) && step.Activates?
    ensures Effect(x, DoStep(x, drains, step), drains, step)
  {}

  lemma LookingEffect(x: Cell, drains: nat, step: Step)
    requires CellInv(x) && CanStep(x, drains, step) && Looking(step)
    ensures Effect(x, DoStep(x, drains, step), drains, step)
  {}

  lemma BackingEffect(x: Cell, drains: nat, step: Step)
    requires CellInv(x) && CanStep(x, drains, step) && Backing(step)
    ensures Effect(x, DoStep(x, drains, step), drains, step)
  {}

  lemma ReportEffect(x: Cell, drains: nat, step: Step)
    requires CellInv(x) && CanStep(x, drains, step) && (step.Reports? || step.ReportsEarly?)
    ensures Effect(x, DoStep(x, drains, step), drains, step)
  {}

  lemma LeaveEffect(x: Cell, drains: nat, step: Step)
    requires CellInv(x) && CanStep(x, drains, step) && (step.Consumes? || step.Leaves?)
    ensures Effect(x, DoStep(x, drains, step), drains, step)
  {}

  lemma WorkingEffect(x: Cell, drains: nat, step: Step)
    requires CellInv(x) && CanStep(x, drains, step) && Working(step)
    ensures Effect(x, DoStep(x, drains, step), drains, step)
  {}

  /** While any drain is in progress no step starts a worker. */
  lemma DrainedStays(x: Cell, y: Cell, drains: nat, step: Step)
    requires Effect(x, y, drains, step) && drains > 0 && x.workers == map[]
    ensures y.workers == map[]
  {
    assert y.workers.Keys == {};
  }

  lemma ReplaceKeeps(s: Sys, key: Key, y: Cell)
    requires SysInv(s) && CellInv(y)
    requires s.drains > 0 && CellAt(s, key).workers == map[] ==> y.workers == map[]
    ensures SysInv(s.(cells := s.cells[key := y]))
  {
    if d :| d in s.draining && s.draining[d] {
      assert |s.draining.Keys| > 0;
      assert CellAt(s, key).workers == map[];
    }
  }

  lemma AtKeeps(s: Sys, key: Key, step: Step)
    requires SysInv(s) && CanStep(CellAt(s, key), s.drains, step)
    ensures SysInv(s.(cells := s.cells[key := DoStep(CellAt(s, key), s.drains, step)]))
  {
    var x := CellAt(s, key);
    StepKeeps(x, s.drains, step);
    StepEffect(x, s.drains, step);
    if s.drains > 0 && x.workers == map[] {
      DrainedStays(x, DoStep(x, s.drains, step), s.drains, step);
    }
    ReplaceKeeps(s, key, DoStep(x, s.drains, step));
  }

  lemma SeenKeeps(s: Sys, d: DrainId)
    requires SysInv(s) && Can(s, DrainSeesNone(d))
    ensures SysInv(Do(s, DrainSeesNone(d)))
  {
    forall k | k in s.cells ensures s.cells[k].workers == map[] {
      assert WorkersOk(s.cells[k]);
      assert s.cells[k].workers.Keys == {};
    }
  }

  lemma StopKeeps(s: Sys, d: DrainId)
    requires SysInv(s) && Can(s, DrainStops(d))
    ensures SysInv(Do(s, DrainStops(d)))
  {
    assert (s.draining - {d}).Keys == s.draining.Keys - {d};
  }

  lemma CrashKeeps(s: Sys)
    ensures SysInv(Do(s, Crash))
  {}

  lemma EventKeeps(s: Sys, e: Event)
    requires SysInv(s) && Can(s, e)
    ensures SysInv(Do(s, e))
  {
    match e
    case At(key, step) => AtKeeps(s, key, step);
    case DrainStarts(d) => MarkingKeeps(s, d);
    case DrainSeesNone(d) => SeenKeeps(s, d);
    case DrainStops(d) => StopKeeps(s, d);
    case Crash => CrashKeeps(s);
  }

  lemma {:induction false} RunKeeps(s: Sys, run: seq<Event>)
    requires SysInv(s) && Feasible(s, run)
    ensures SysInv(After(s, run))
    decreases |run|
  {
    if run != [] {
      EventKeeps(s, run[0]);
      RunKeeps(Do(s, run[0]), run[1..]);
    }
  }

  lemma ReachableInv(s: Sys, key: Key)
    requires Reachable(s)
    ensures SysInv(s) && CellInv(CellAt(s, key))
  {
    var run :| Feasible(INITIAL, run) && After(INITIAL, run) == s;
    RunKeeps(INITIAL, run);
  }
}
