// The whole protocol around the flight registry as a transition system: Create,
// Update, Delete and Status callbacks, Helm workers, retention timers, drains,
// other tools writing records, and a crash of the plugin process. Each step is
// one critical section under flightMu, or one read or write of a release record;
// a run is any interleaving of steps.
//
// The state is kept by release: a Cell holds what the registry map has under one
// flight key together with everything that works on that release. Only drains and
// the crash act on all releases at once.
module FlightSystem {
  import opened Base
  import opened Flights
  import opened Releases

  type CallId = nat
  type DrainId = nat

  datatype Request = Submit(isCreate: bool, want: Props) | Destroy

  /** What a callback that holds a reservation knows of the record. */
  datatype Plan = Unread | Planned(current: Option<Record>, action: Action, target: int) | Found(current: Option<Record>)

  /** What a Status call has learned: the flight it goes by, the record it read, the answer it settled on. */
  datatype View = View(flight: Entry, seen: Option<Option<Record>>, said: Option<Answer>)

  /** A callback in progress, by what it must give back: Preparing and Recovering hold
      a reservation; Rejoined, Polling and Leaving retain a reader; Awaiting holds nothing. */
  datatype Call =
    | Preparing(gen: Gen, request: Request, plan: Plan, recoveries: nat)
    | Recovering(gen: Gen, op: Op, revision: int, view: View, recoveries: nat)
    | Rejoined(gen: Gen, request: Request, err: Option<Error>)
    | Polling(gen: Gen, op: Op, revision: int, view: View, recoveries: nat)
    | Leaving(gen: Gen)
    | Awaiting(gen: Gen, err: Option<Error>)

  /** A Helm operation. `started` is set once it has written to the record. */
  datatype Worker = Worker(op: Op, target: int, values: string, started: bool)

  /** What a Status call that reported a success had been asked for, and had read. */
  datatype Evidence = Evidence(op: Op, revision: int, read: Option<Option<Record>>)

  /** History of this process, which no step reads. */
  datatype Log = Log(
    errors: map<Gen, Error>,   // worker errors that were recorded
    delivered: set<Gen>,       // generations whose error was returned to a caller
    fired: set<Gen>,           // generations whose retention timer fired
    succeeded: map<Gen, Evidence>,  // generations a retaining Status reported as Success
    taken: set<Gen>,           // generations whose cancel func a drain took
    twice: bool,               // some cancel func was taken twice
    rewritten: set<Gen>,       // generations a retaining Status rewrote the record under
    reserved: map<Gen, Request>)  // what each reservation of a submit or delete was made for

  datatype Cell = Cell(
    entry: Entry,
    record: Option<Record>,        // the last release record
    calls: map<CallId, Call>,
    workers: map<Gen, Worker>,
    timers: set<Gen>,
    closed: map<Gen, Error>,       // bridges closed so far
    used: set<Gen>,                // generations drawn so far
    log: Log)

  datatype Sys = Sys(cells: map<Key, Cell>, drains: nat, draining: map<DrainId, bool>)  // true: saw nothing remaining

  datatype Recovery = Complete | Incomplete | Fails

  datatype Step =
    // a callback enters, or starts its worker
    | Reserves(c: CallId, request: Request, cand: Flight)
    | Acquires(c: CallId, requested: Gen, cand: Flight)
    | Activates(c: CallId, a: Activation)
    // a callback looks something up
    | Reads(c: CallId, now: int)
    | Services(c: CallId, err: Option<Error>)
    | Judges(c: CallId, ready: bool, now: int)
    | Observes(c: CallId)
    // a callback recovers the record, reports or leaves
    | Rewrites(c: CallId, how: Recovery)
    | Abandons(c: CallId)
    | Reports(c: CallId)
    | ReportsEarly(c: CallId, known: bool)
    | Consumes(c: CallId)
    | Leaves(c: CallId)
    // a worker, a timer, another tool
    | Writes(g: Gen, chart: Chart, at: int, timeout: int)
    | Settles(g: Gen, deployed: bool)
    | Ends(g: Gen, outcome: Option<Error>)
    | Fires(g: Gen)
    | Outsider(record: Option<Record>)

  predicate Entering(step: Step) { step.Reserves? || step.Acquires? || step.Activates? }
  predicate Looking(step: Step) { step.Reads? || step.Services? || step.Judges? || step.Observes? }
  predicate Backing(step: Step) { step.Rewrites? || step.Abandons? }
  predicate Exiting(step: Step) { step.Reports? || step.ReportsEarly? || step.Consumes? || step.Leaves? }
  predicate Working(step: Step) { step.Writes? || step.Settles? || step.Ends? || step.Fires? || step.Outsider? }

  datatype Event = At(key: Key, step: Step) | DrainStarts(d: DrainId) | DrainSeesNone(d: DrainId) | DrainStops(d: DrainId) | Crash

  const EMPTY_LOG := Log(map[], {}, {}, map[], {}, false, {}, map[])
  const EMPTY_CELL := Cell(None, None, map[], map[], {}, map[], {}, EMPTY_LOG)
  const INITIAL := Sys(map[], 0, map[])

  // ---- Guards ----

  predicate NewFlight(f: Flight) {
    f.generation != "" && f.preparing && f.cancel && !f.bridge && !f.stopping && !f.finished &&
    f.statusReaders == 0 && !f.reported && f.outcome.None?
  }

  /** The candidate of a Status call, which asks for no operation of its own. */
  predicate PollCandidate(f: Flight) {
    NewFlight(f) && f.requestOp.None? && f.fingerprint == ""
  }

  predicate CandidateFor(f: Flight, request: Request) {
    NewFlight(f) &&
    match request
    case Submit(isCreate, want) =>
      f.op == (if isCreate then Install else Upgrade) && f.requestOp == Some(f.op) && f.fingerprint == want.fingerprint
    case Destroy => f.op == Delete && f.requestOp.None? && f.fingerprint == ""
  }

  predicate Readable(r: Option<Record>) {
    r.Some? ==> r.value.info.Some?
  }

  predicate Watching(call: Call) {
    call.Polling? || call.Recovering?
  }

  predicate KnownFailed(view: View) {
    view.flight.Some? && view.flight.value.finished && view.flight.value.outcome.Some?
  }

  function PlanOf(request: Request, current: Option<Record>, now: int): Plan {
    match request
    case Submit(isCreate, want) =>
      var (action, target) := PlanSubmit(current, isCreate, None, Some(want), now);
      Planned(current, action, target)
    case Destroy => Found(current)
  }

  /** What a callback about to start its worker activates, if its plan starts one. */
  function ActivationOf(plan: Plan, bridge: bool, deadline: Option<int>): Option<Activation> {
    match plan
    case Unread => None
    case Planned(_, action, target) =>
      if Dispatches(action) then Some(Activation(WorkerOp(action), target, bridge, deadline)) else None
    case Found(current) =>
      if current.Some? then Some(Activation(Delete, current.value.version, bridge, deadline)) else None
  }

  predicate ViewNeedsRewrite(view: View, op: Op, revision: int) {
    view.said.None? && op != Delete && view.seen.Some? && view.seen.value.Some? && Readable(view.seen.value) &&
    InstallVerdict(view.seen.value, view.flight, revision, op, false, 0) == Rewrite
  }

  /** The callback is at the point where it calls recoverAbandoned. */
  predicate NeedsRewrite(call: Call) {
    match call
    case Preparing(_, _, plan, recoveries) =>
      plan.Planned? && plan.action == Recover && plan.current.Some? && plan.current.value.info.Some? && recoveries == 0
    case Polling(_, op, revision, view, _) => ViewNeedsRewrite(view, op, revision)
    case Recovering(_, op, revision, view, _) => ViewNeedsRewrite(view, op, revision)
    case _ => false
  }

  predicate CanReserve(x: Cell, c: CallId, request: Request, cand: Flight) {
    c !in x.calls && CandidateFor(cand, request) && cand.generation !in x.used
  }

  predicate CanAcquire(x: Cell, c: CallId, cand: Flight) {
    c !in x.calls && PollCandidate(cand) && cand.generation !in x.used
  }

  predicate CanRead(x: Cell, c: CallId) {
    c in x.calls && (
      || (x.calls[c].Preparing? && x.calls[c].plan.Unread?)
      || (Watching(x.calls[c]) && x.calls[c].view.seen.None? && x.calls[c].view.said.None? && !KnownFailed(x.calls[c].view)))
  }

  predicate CanRewrite(x: Cell, c: CallId) {
    c in x.calls && NeedsRewrite(x.calls[c])
  }

  predicate CanAbandon(x: Cell, c: CallId) {
    c in x.calls && (x.calls[c].Preparing? || Watching(x.calls[c]))
  }

  predicate CanActivate(x: Cell, drains: nat, c: CallId, a: Activation) {
    c in x.calls && x.calls[c].Preparing? && ActivationOf(x.calls[c].plan, a.bridge, a.deadline) == Some(a) &&
    Activate(drains, x.entry, x.calls[c].gen, a).1.Some? &&
    (x.calls[c].request.Submit? ==> a.deadline == x.entry.value.deadline)  // only Delete sets a new deadline
  }

  predicate CanService(x: Cell, c: CallId) {
    c in x.calls && x.calls[c].Polling? && x.calls[c].view.seen.None? && x.calls[c].view.flight.Some? &&
    x.calls[c].view.flight.value.bridge && !x.calls[c].view.flight.value.finished
  }

  predicate CanJudge(x: Cell, c: CallId) {
    c in x.calls && Watching(x.calls[c]) && x.calls[c].view.said.None? && x.calls[c].view.seen.Some? &&
    (x.calls[c].op == Delete || Readable(x.calls[c].view.seen.value)) && !NeedsRewrite(x.calls[c])
  }

  predicate CanObserve(x: Cell, c: CallId) {
    c in x.calls && (x.calls[c].Rejoined? || x.calls[c].Awaiting?)
  }

  predicate CanConsume(x: Cell, c: CallId) {
    CanObserve(x, c) && x.calls[c].err.Some?
  }

  predicate CanLeave(x: Cell, c: CallId) {
    c in x.calls && (x.calls[c].Rejoined? || x.calls[c].Awaiting? || x.calls[c].Leaving?)
  }

  predicate CanWrite(x: Cell, g: Gen) {
    g in x.workers && !x.workers[g].started &&
    match x.workers[g].op
    case Install => x.record.None?
    case Upgrade => x.record.Some? && !Pending(x.record.value)
    case Delete => x.record.Some? && x.record.value.info.Some?
  }

  predicate CanSettle(x: Cell, g: Gen) {
    g in x.workers && x.workers[g].started && x.record.Some? && x.record.value.info.Some? &&
    x.record.value.version == x.workers[g].target
  }

  predicate CanStep(x: Cell, drains: nat, step: Step) {
    match step
    case Reserves(c, request, cand) => CanReserve(x, c, request, cand)
    case Acquires(c, requested, cand) => CanAcquire(x, c, cand)
    case Activates(c, a) => CanActivate(x, drains, c, a)
    case Reads(c, now) => CanRead(x, c)
    case Services(c, err) => CanService(x, c)
    case Judges(c, ready, now) => CanJudge(x, c)
    case Observes(c) => CanObserve(x, c)
    case Rewrites(c, how) => CanRewrite(x, c)
    case Abandons(c) => CanAbandon(x, c)
    case Reports(c) => c in x.calls && Watching(x.calls[c]) && x.calls[c].view.said.Some?
    case ReportsEarly(c, known) => c in x.calls && x.calls[c].Polling? && (known ==> KnownFailed(x.calls[c].view))
    case Consumes(c) => CanConsume(x, c)
    case Leaves(c) => CanLeave(x, c)
    case Writes(g, chart, at, timeout) => CanWrite(x, g)
    case Settles(g, deployed) => CanSettle(x, g)
    case Ends(g, outcome) => g in x.workers
    case Fires(g) => g in x.timers
    case Outsider(record) => true
  }

  // ---- The steps on one release ----

  function WithCall(x: Cell, c: CallId, call: Call): Cell { x.(calls := x.calls[c := call]) }
  function DropCall(x: Cell, c: CallId): Cell { x.(calls := x.calls - {c}) }

  function DoReserve(x: Cell, drains: nat, c: CallId, request: Request, cand: Flight): Cell {
    var (entry, own, reserved) := Reserve(drains, x.entry, cand);
    var x' := x.(entry := entry, used := x.used + {cand.generation});
    if reserved then
      WithCall(x'.(log := x.log.(reserved := x.log.reserved[cand.generation := request])), c,
               Preparing(cand.generation, request, Unread, 0))
    else if MatchesRejoin(own, cand) then WithCall(x', c, Rejoined(own.value.generation, request, None))
    else x'
  }

  function DoAcquire(x: Cell, drains: nat, c: CallId, requested: Gen, cand: Flight): Cell {
    var (entry, f, owned) := AcquireStatus(drains, x.entry, requested, cand);
    var x' := x.(entry := entry, used := x.used + {cand.generation});
    if owned then WithCall(x', c, Recovering(cand.generation, cand.op, cand.revision, View(None, None, None), 0))
    else if RefusesStatus(f, requested, cand) then x'
    else WithCall(x', c, Polling(requested, cand.op, cand.revision, View(f, None, None), 0))
  }

  function DoRead(x: Cell, c: CallId, now: int): Cell
    requires CanRead(x, c)
  {
    var call := x.calls[c];
    if call.Preparing? then WithCall(x, c, call.(plan := PlanOf(call.request, x.record, now)))
    else
      var flight := if call.view.flight.Some? && call.view.flight.value.finished then None else call.view.flight;
      WithCall(x, c, call.(view := call.view.(seen := Some(x.record), flight := flight)))
  }

  /** The record a callback about to call recoverAbandoned passes to it. */
  function Stale(call: Call): Record
    requires NeedsRewrite(call)
  {
    if call.Preparing? then call.plan.current.value else call.view.seen.value.value
  }

  function DoRewrite(x: Cell, c: CallId, how: Recovery): Cell
    requires CanRewrite(x, c)
  {
    var call := x.calls[c];
    if how.Fails? then
      if call.Preparing? then DoAbandon(x, c) else WithCall(x, c, call.(view := call.view.(said := Some(Failure(General)))))
    else
      var log := if call.Polling? then x.log.(rewritten := x.log.rewritten + {call.gen}) else x.log;
      var x' := x.(record := Some(Recovered(Stale(call), how.Complete?)), log := log);
      if call.Preparing? then WithCall(x', c, call.(plan := Unread, recoveries := call.recoveries + 1))
      else
        var view := if how.Complete? then call.view.(seen := None) else call.view.(said := Some(Failure(Conflict)));
        WithCall(x', c, call.(view := view, recoveries := call.recoveries + 1))
  }

  /** Leaving without a report: a reservation is removed; a reader is still to be released. */
  function DoAbandon(x: Cell, c: CallId): Cell
    requires c in x.calls
  {
    var call := x.calls[c];
    if call.Polling? then WithCall(x, c, Leaving(call.gen))
    else DropCall(x.(entry := Remove(x.entry, call.gen)), c)
  }

  function DoActivate(x: Cell, drains: nat, c: CallId, a: Activation): Cell
    requires c in x.calls && x.calls[c].Preparing?
  {
    var call := x.calls[c];
    var values := if call.request.Submit? then call.request.want.values else "";
    var x' := x.(entry := Activate(drains, x.entry, call.gen, a).0,
                 workers := x.workers[call.gen := Worker(a.op, a.revision, values, false)]);
    if call.request.Submit? then WithCall(x', c, Awaiting(call.gen, None)) else DropCall(x', c)
  }

  function DoService(x: Cell, c: CallId, err: Option<Error>): Cell
    requires c in x.calls && x.calls[c].Polling?
  {
    var call := x.calls[c];
    var (f, e) := ServiceFlight(x.entry, call.gen, err);
    if e.None? then WithCall(x, c, call.(view := call.view.(flight := f))) else x
  }

  function AnswerOf(call: Call, ready: bool, now: int): Answer
    requires Watching(call) && call.view.seen.Some? && (call.op == Delete || Readable(call.view.seen.value))
  {
    if call.op == Delete then DeleteAnswer(call.view.seen.value, call.view.flight, now)
    else
      var v := InstallVerdict(call.view.seen.value, call.view.flight, call.revision, call.op, ready, now);
      if v.Say? then v.answer else Failure(General)
  }

  function DoJudge(x: Cell, c: CallId, ready: bool, now: int): Cell
    requires CanJudge(x, c)
  {
    var call := x.calls[c];
    WithCall(x, c, call.(view := call.view.(said := Some(AnswerOf(call, ready, now)))))
  }

  /** progressAfterFlightError looks its own flight up and finds an outcome, or does not. */
  function DoObserve(x: Cell, c: CallId): Cell
    requires CanObserve(x, c)
  {
    WithCall(x, c, x.calls[c].(err := if Owned(x.entry, x.calls[c].gen) then x.entry.value.outcome else None))
  }

  function LogAnswer(log: Log, call: Call, answer: Option<Answer>): Log
    requires call.Polling?
  {
    if answer == Some(Success) then log.(succeeded := log.succeeded[call.gen := Evidence(call.op, call.revision, call.view.seen)])
    else if answer.Some? && answer.value.WorkerError? then log.(delivered := log.delivered + {call.gen})
    else log
  }

  function DoReport(x: Cell, c: CallId, result: Option<Answer>): Cell
    requires c in x.calls
  {
    var call := x.calls[c];
    if !call.Polling? then DoAbandon(x, c)
    else
      var (entry, answer) := Reconcile(x.entry, call.gen, result);
      WithCall(x.(entry := entry, log := LogAnswer(x.log, call, answer)), c, Leaving(call.gen))
  }

  function DoConsume(x: Cell, c: CallId): Cell
    requires CanConsume(x, c)
  {
    var call := x.calls[c];
    var x' := x.(entry := ConsumeFailure(x.entry, call.gen, call.err.value),
                 log := x.log.(delivered := x.log.delivered + {call.gen}));
    if call.Rejoined? then WithCall(x', c, Leaving(call.gen)) else DropCall(x', c)
  }

  function DoLeave(x: Cell, c: CallId): Cell
    requires c in x.calls
  {
    var call := x.calls[c];
    DropCall(if call.Awaiting? then x else x.(entry := ReleaseStatus(x.entry, call.gen)), c)
  }

  /** The first write of a Helm operation: the pending record at its revision, or the record marked uninstalling. */
  function Written(x: Cell, g: Gen, chart: Chart, at: int, timeout: int): Record
    requires CanWrite(x, g)
  {
    var w := x.workers[g];
    match w.op
    case Install => Record(1, Some(Info(PendingInstall, at, at)), true, Some(chart), w.values, timeout)
    case Upgrade => Record(x.record.value.version + 1, Some(Info(PendingUpgrade, at, at)), true, Some(chart), w.values, timeout)
    case Delete => SetStatus(x.record.value, Uninstalling)
  }

  function DoWrite(x: Cell, g: Gen, chart: Chart, at: int, timeout: int): Cell
    requires CanWrite(x, g)
  {
    x.(workers := x.workers[g := x.workers[g].(started := true)], record := Some(Written(x, g, chart, at, timeout)))
  }

  function DoSettle(x: Cell, g: Gen, deployed: bool): Cell
    requires CanSettle(x, g)
  {
    if x.workers[g].op == Delete then x.(record := None)
    else x.(record := Some(SetStatus(x.record.value, if deployed then Deployed else Failed)))
  }

  function DoEnd(x: Cell, g: Gen, outcome: Option<Error>): Cell {
    var (entry, closed) := Finish(x.entry, x.closed, g, outcome);
    var errors := if outcome.Some? then x.log.errors[g := outcome.value] else x.log.errors;
    x.(entry := entry, closed := closed, workers := x.workers - {g}, timers := x.timers + {g}, log := x.log.(errors := errors))
  }

  function DoFire(x: Cell, g: Gen): Cell {
    x.(entry := Remove(x.entry, g), timers := x.timers - {g}, log := x.log.(fired := x.log.fired + {g}))
  }

  function DoStep(x: Cell, drains: nat, step: Step): Cell
    requires CanStep(x, drains, step)
  {
    match step
    case Reserves(c, request, cand) => DoReserve(x, drains, c, request, cand)
    case Reads(c, now) => DoRead(x, c, now)
    case Rewrites(c, how) => DoRewrite(x, c, how)
    case Abandons(c) => DoAbandon(x, c)
    case Activates(c, a) => DoActivate(x, drains, c, a)
    case Acquires(c, requested, cand) => DoAcquire(x, drains, c, requested, cand)
    case Services(c, err) => DoService(x, c, err)
    case Judges(c, ready, now) => DoJudge(x, c, ready, now)
    case Reports(c) => DoReport(x, c, x.calls[c].view.said)
    case ReportsEarly(c, known) => DoReport(x, c, if known then None else Some(InProgress))
    case Observes(c) => DoObserve(x, c)
    case Consumes(c) => DoConsume(x, c)
    case Leaves(c) => DoLeave(x, c)
    case Writes(g, chart, at, timeout) => DoWrite(x, g, chart, at, timeout)
    case Settles(g, deployed) => DoSettle(x, g, deployed)
    case Ends(g, outcome) => DoEnd(x, g, outcome)
    case Fires(g) => DoFire(x, g)
    case Outsider(record) => x.(record := record)
  }

  // ---- The whole system ----

  function CellAt(s: Sys, key: Key): Cell {
    if key in s.cells then s.cells[key] else EMPTY_CELL
  }

  /** The marking section of a drain, as far as one release sees it. */
  function Marked(x: Cell): Cell {
    if x.entry.None? then x
    else
      var g := x.entry.value.generation;
      var log := if x.entry.value.cancel
        then x.log.(taken := x.log.taken + {g}, twice := x.log.twice || g in x.log.taken) else x.log;
      x.(entry := Some(Drained(x.entry.value)), log := log)
  }

  /** What a crash of the plugin leaves of one release: its record. */
  function Crashed(x: Cell): Cell {
    EMPTY_CELL.(record := x.record, used := x.used)
  }

  ghost predicate NoneRemaining(s: Sys) {
    forall k | k in s.cells && s.cells[k].entry.Some? :: s.cells[k].entry.value.finished
  }

  ghost predicate Can(s: Sys, e: Event) {
    match e
    case At(key, step) => CanStep(CellAt(s, key), s.drains, step)
    case DrainStarts(d) => d !in s.draining
    case DrainSeesNone(d) => d in s.draining && NoneRemaining(s)
    case DrainStops(d) => d in s.draining && s.drains > 0
    case Crash => true
  }

  ghost function Do(s: Sys, e: Event): Sys
    requires Can(s, e)
  {
    match e
    case At(key, step) => s.(cells := s.cells[key := DoStep(CellAt(s, key), s.drains, step)])
    case DrainStarts(d) =>
      Sys(map k | k in s.cells :: Marked(s.cells[k]), s.drains + 1, s.draining[d := false])
    case DrainSeesNone(d) => s.(draining := s.draining[d := true])
    case DrainStops(d) => s.(drains := s.drains - 1, draining := s.draining - {d})
    case Crash => Sys(map k | k in s.cells :: Crashed(s.cells[k]), 0, map[])
  }

  /** A run: every event can happen where it happens. */
  ghost predicate Feasible(s: Sys, run: seq<Event>)
    decreases |run|
  {
    run == [] || (Can(s, run[0]) && Feasible(Do(s, run[0]), run[1..]))
  }

  ghost function After(s: Sys, run: seq<Event>): Sys
    requires Feasible(s, run)
    decreases |run|
  {
    if run == [] then s else After(Do(s, run[0]), run[1..])
  }

  ghost predicate Reachable(s: Sys) {
    exists run :: Feasible(INITIAL, run) && After(INITIAL, run) == s
  }

  // ---- Runs on one release ----

  predicate CanSteps(x: Cell, drains: nat, steps: seq<Step>)
    decreases |steps|
  {
    steps == [] || (CanStep(x, drains, steps[0]) && CanSteps(DoStep(x, drains, steps[0]), drains, steps[1..]))
  }

  function DoSteps(x: Cell, drains: nat, steps: seq<Step>): Cell
    requires CanSteps(x, drains, steps)
    decreases |steps|
  {
    if steps == [] then x else DoSteps(DoStep(x, drains, steps[0]), drains, steps[1..])
  }

  function AtAll(key: Key, steps: seq<Step>): (run: seq<Event>)
    ensures |run| == |steps|
  {
    if steps == [] then [] else [At(key, steps[0])] + AtAll(key, steps[1..])
  }

  lemma StepsCons(x: Cell, drains: nat, step: Step, rest: seq<Step>)
    requires CanStep(x, drains, step) && CanSteps(DoStep(x, drains, step), drains, rest)
    ensures CanSteps(x, drains, [step] + rest)
    ensures DoSteps(x, drains, [step] + rest) == DoSteps(DoStep(x, drains, step), drains, rest)
  {
    assert ([step] + rest)[1..] == rest;
  }

  lemma {:induction false} StepsAppend(x: Cell, drains: nat, first: seq<Step>, second: seq<Step>)
    requires CanSteps(x, drains, first) && CanSteps(DoSteps(x, drains, first), drains, second)
    ensures CanSteps(x, drains, first + second)
    ensures DoSteps(x, drains, first + second) == DoSteps(DoSteps(x, drains, first), drains, second)
    decreases |first|
  {
    if first == [] {
      assert first + second == second;
    } else {
      StepsAppend(DoStep(x, drains, first[0]), drains, first[1..], second);
      StepsCons(x, drains, first[0], first[1..] + second);
      assert [first[0]] + (first[1..] + second) == first + second;
    }
  }

  /** Steps of one release that can follow each other there are a run of the system. */
  lemma {:induction false} LocalRun(s: Sys, key: Key, steps: seq<Step>)
    requires CanSteps(CellAt(s, key), s.drains, steps)
    ensures Feasible(s, AtAll(key, steps))
    ensures CellAt(After(s, AtAll(key, steps)), key) == DoSteps(CellAt(s, key), s.drains, steps)
    ensures After(s, AtAll(key, steps)).drains == s.drains
    decreases |steps|
  {
    if steps != [] {
      LocalRun(Do(s, At(key, steps[0])), key, steps[1..]);
      assert AtAll(key, steps)[1..] == AtAll(key, steps[1..]);
    }
  }
}
