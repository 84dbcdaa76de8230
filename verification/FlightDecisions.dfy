// What the decisions of the flight protocol come to, stated on its steps: whom a
// reservation or a Status call is let in with, what starting a worker publishes, and
// what a poll says.
module FlightDecisions {
  import opened Base
  import opened Flights
  import opened Releases
  import opened FlightSystem
  import Text

  /** The operation a request asks for. */
  function AskedOp(request: Request): Op {
    match request
    case Submit(isCreate, _) => if isCreate then Install else Upgrade
    case Destroy => Delete
  }

  /** A submit or delete that finds a stored flight rejoins it exactly when the flight is activated, for the same
      identity and binding, and was reserved for the same operation and desired state, or for a delete deletes.
      Otherwise it leaves everything as it was. */
  lemma RejoinsExactly(x: Cell, c: CallId, request: Request, cand: Flight)
    requires CanReserve(x, c, request, cand) && x.entry.Some?
    ensures
      var f, y := x.entry.value, DoStep(x, 0, Reserves(c, request, cand));
      var same :=
        !f.preparing && f.auth == cand.auth && f.binding == cand.binding &&
        (if request.Submit? then f.requestOp == Some(AskedOp(request)) && f.fingerprint == request.want.fingerprint
         else f.op == Delete);
      && (same ==>
            && y.calls == x.calls[c := Rejoined(f.generation, request, None)]
            && y.entry == Some(f.(statusReaders := f.statusReaders + 1)))
      && (!same ==> y.calls == x.calls && y.entry == x.entry)
      && y.record == x.record && y.workers == x.workers && y.log == x.log
  {}

  /** One that finds nothing stored gets the reservation, to itself. */
  lemma ReservesAlone(x: Cell, c: CallId, request: Request, cand: Flight)
    requires CanReserve(x, c, request, cand) && x.entry.None?
    ensures
      var y := DoStep(x, 0, Reserves(c, request, cand));
      y.entry == Some(cand) && y.calls == x.calls[c := Preparing(cand.generation, request, Unread, 0)]
  {}

  /** A Status call polls the stored flight exactly when that is activated and agrees with what its request id and its
      identity name; it takes the reservation exactly when nothing is stored; otherwise it leaves everything alone. */
  lemma PollsExactly(x: Cell, c: CallId, requested: Gen, cand: Flight)
    requires CanAcquire(x, c, cand)
    ensures
      var y := DoStep(x, 0, Acquires(c, requested, cand));
      && (x.entry.None? ==>
            y.entry == Some(cand) && y.calls == x.calls[c := Recovering(cand.generation, cand.op, cand.revision, View(None, None, None), 0)])
      && (x.entry.Some? ==>
            var f := x.entry.value;
            var same :=
              !f.preparing && f.generation == requested && f.op == cand.op && f.revision == cand.revision
              && f.auth == cand.auth && f.binding == cand.binding;
            && (same ==>
                  && y.entry == Some(f.(statusReaders := f.statusReaders + 1))
                  && y.calls == x.calls[c := Polling(requested, cand.op, cand.revision, View(y.entry, None, None), 0)])
            && (!same ==> y.calls == x.calls && y.entry == x.entry))
      && y.record == x.record && y.workers == x.workers && y.log == x.log
  {}

  /** Starting a worker publishes its operation, revision, bridge and deadline with its cancel func, ends the
      preparation, and keeps whatever else identifies the flight. */
  lemma ActivationPublishes(x: Cell, drains: nat, c: CallId, a: Activation)
    requires CanActivate(x, drains, c, a)
    ensures
      var was, y := x.entry.value, DoStep(x, drains, Activates(c, a));
      && Owned(x.entry, x.calls[c].gen) && !was.stopping && drains == 0
      && y.entry.Some? && !y.entry.value.preparing && y.entry.value.cancel
      && y.entry.value.op == a.op && y.entry.value.revision == a.revision
      && y.entry.value.bridge == a.bridge && y.entry.value.deadline == a.deadline
      && y.entry.value == was.(op := a.op, revision := a.revision, bridge := a.bridge, deadline := a.deadline, cancel := true, preparing := false)
      && y.workers.Keys == x.workers.Keys + {was.generation} && y.workers[was.generation].op == a.op
      && y.workers[was.generation].target == a.revision && !y.workers[was.generation].started
  {}

  // ---- What is handed out and what is forgotten ----

  /** What a flight with this many readers becomes once it was answered for. */
  function Answered(f: Flight): Entry {
    if f.statusReaders == 0 then None else Some(f.(reported := true))
  }

  /** A retained poll's result gives way to the error of its finished worker, and otherwise waits for the worker; what is
      handed out for good marks the flight. A flight that is gone leaves the result, and turns none into a conflict. */
  lemma ReconcilesExactly(e: Entry, gen: Gen, result: Option<Answer>)
    ensures
      var (after, answer) := Reconcile(e, gen, result);
      var own := e.Some? && e.value.generation == gen;
      var failed := own && e.value.finished && e.value.outcome.Some?;
      var done := result.Some? && !result.value.InProgress?;
      && (failed ==> answer == Some(WorkerError(e.value.outcome.value)) && after == Answered(e.value))
      && (own && !failed && done && !e.value.finished ==> answer == Some(InProgress) && after == e)
      && (own && !failed && done && e.value.finished ==> answer == result && after == Answered(e.value))
      && (own && !failed && !done ==> answer == result && after == e)
      && (!own ==> answer == (if result.None? then Some(Failure(Conflict)) else result) && after == e)
  {}

  /** Only a finished flight whose very error was just returned is answered for by that. */
  lemma ConsumesExactly(e: Entry, gen: Gen, told: Error)
    ensures
      var own := e.Some? && e.value.generation == gen && e.value.finished && e.value.outcome.Some? && e.value.outcome.value == told;
      ConsumeFailure(e, gen, told) == if own then Answered(e.value) else e
  {}

  /** A Service that failed fails its callback unless the flight has finished by then; the callback goes on with the
      flight as it is. */
  lemma ServicesExactly(x: Cell, c: CallId, err: Option<Error>)
    requires CanService(x, c)
    ensures
      var call, y := x.calls[c], DoStep(x, 0, Services(c, err));
      var over := x.entry.Some? && x.entry.value.generation == call.gen && x.entry.value.finished;
      && (err.None? || over ==>
            y == x.(calls := x.calls[c := Polling(call.gen, call.op, call.revision, call.view.(flight := x.entry), call.recoveries)]))
      && (err.Some? && !over ==> y == x)
  {}

  /** A drain stops exactly the unfinished flights, takes the cancel func of every one, and leaves the rest of them. */
  lemma DrainMarks(f: Flight)
    ensures Drained(f) == (if f.finished then f.(cancel := false) else f.(stopping := true, cancel := false))
  {}

  /** What a worker first writes is this plugin's, pending, at the next revision, and of the values it was started with;
      what it ends with is deployed or failed as it went. */
  lemma WritesExactly(x: Cell, g: Gen, chart: Chart, at: int, timeout: int)
    requires CanWrite(x, g)
    ensures
      var w, r := x.workers[g], DoStep(x, 0, Writes(g, chart, at, timeout)).record;
      && r.Some? && r.value.info.Some?
      && (w.op != Delete ==>
            && r.value.owned && r.value.config == w.values && r.value.chart == Some(chart) && r.value.timeout == timeout
            && r.value.info.value.lastDeployed == at
            && r.value.version == (if x.record.Some? then x.record.value.version + 1 else 1))
      && (w.op == Install ==> r.value.info.value.status == PendingInstall)
      && (w.op == Upgrade ==> r.value.info.value.status == PendingUpgrade)
      && (w.op == Delete ==>
            && r.value.info.value.status == Uninstalling
            && r.value.(info := None) == x.record.value.(info := None))
  {}

  lemma SettlesExactly(x: Cell, g: Gen, deployed: bool)
    requires CanSettle(x, g)
    ensures
      var w, was, r := x.workers[g], x.record.value, DoStep(x, 0, Settles(g, deployed)).record;
      && (w.op == Delete <==> r.None?)
      && (w.op != Delete ==>
            && r.value.(info := None) == was.(info := None) && r.value.info.Some?
            && r.value.info.value.status == (if deployed then Deployed else Failed)
            && r.value.info.value.lastDeployed == was.info.value.lastDeployed)
  {}

  /** A worker is started with the values the submit asks for. */
  lemma WorkerGetsValues(x: Cell, drains: nat, c: CallId, a: Activation)
    requires CanActivate(x, drains, c, a) && x.calls[c].request.Submit?
    ensures
      var y := DoStep(x, drains, Activates(c, a));
      y.workers[x.calls[c].gen].values == x.calls[c].request.want.values
  {}

  // ---- What a poll says ----

  /** A flight with time left keeps a record from counting as stalled; without one it has, once it is known to have begun
      more than twice its timeout ago. */
  predicate TimeUp(r: Record, flight: Entry, now: int) {
    r.info.Some?
    && (flight.Some? ==> flight.value.deadline.Some? && flight.value.deadline.value <= now)
    && var began := if r.info.value.lastDeployed != 0 then r.info.value.lastDeployed else r.info.value.firstDeployed;
       began != 0 && began + 2 * r.timeout < now
  }

  predicate Waits(call: Call, now: int)
    requires Watching(call)
  {
    var flight := call.view.flight;
    flight.Some? && flight.value.op == call.op && flight.value.revision == call.revision
    && flight.value.deadline.Some? && now < flight.value.deadline.value
  }

  /** A poll of an install or upgrade answers Success exactly for a deployed record at the polled revision whose objects
      are ready; NotFound exactly without a record and without its own flight having time left; another failure exactly
      for a newer revision, a failed record at the polled one, or a deployed one that is not ready in time. */
  lemma InstallPollSays(x: Cell, c: CallId, ready: bool, now: int)
    requires CanJudge(x, c) && x.calls[c].op != Delete
    ensures
      var call := x.calls[c];
      var seen, said := call.view.seen.value, DoStep(x, 0, Judges(c, ready, now)).calls[c].view.said;
      var current := seen.Some? && seen.value.version == call.revision;
      && said.Some? && (said.value.InProgress? || said.value.Success? || said.value.Failure?)
      && (said == Some(Success) <==> current && seen.value.info.value.status == Deployed && ready)
      && (said == Some(Failure(NotFound)) <==> seen.None? && !Waits(call, now))
      && (said == Some(Failure(General)) <==>
            || (seen.Some? && seen.value.version > call.revision)
            || (current && seen.value.info.value.status == Failed)
            || (current && seen.value.info.value.status == Deployed && !ready && TimeUp(seen.value, call.view.flight, now)))
      && said != Some(Failure(Conflict))
  {}

  /** A poll of a delete answers Success exactly when the record is gone, or says nothing, or that it is uninstalled;
      a recoverable conflict exactly when this plugin's record has no flight any more; failure exactly when the record is
      stalled otherwise. */
  lemma DeletePollSays(x: Cell, c: CallId, ready: bool, now: int)
    requires CanJudge(x, c) && x.calls[c].op == Delete
    ensures
      var call := x.calls[c];
      var seen, said := call.view.seen.value, DoStep(x, 0, Judges(c, ready, now)).calls[c].view.said;
      var there := seen.Some? && seen.value.info.Some? && seen.value.info.value.status != Uninstalled;
      && (said == Some(Success) <==> !there)
      && (said == Some(Failure(Conflict)) <==> there && seen.value.owned && call.view.flight.None?)
      && (said == Some(Failure(General)) <==>
            there && !(seen.value.owned && call.view.flight.None?) && TimeUp(seen.value, call.view.flight, now))
      && said.Some? && (said.value.InProgress? || said.value.Success? || said.value.Failure?) && said != Some(Failure(NotFound))
  {}

  // ---- What a submit starts ----

  /** A chart reference names the last segment of its path, a trailing slash aside. */
  lemma ChartNamed(prefix: string, name: string)
    requires name != "" && '/' !in name
    ensures ChartRefName(name) == name && ChartRefName(prefix + "/" + name) == name
    ensures ChartRefName(prefix + "/" + name + "/") == name && ChartRefName(name + "/") == name
  {
    var ref := prefix + ['/'] + name;
    Text.LastAt(prefix, '/', name);
    assert (ref + "/")[..|ref|] == ref && (name + "/")[..|name|] == name;
    assert ref[|ref| - 1] == name[|name| - 1];
  }

  /** The record is what the submit asks for: owned, deployed, of the pinned version of that chart, with those values. */
  predicate AlreadyThere(r: Record, want: Props) {
    r.owned && r.info.Some? && r.info.value.status == Deployed && r.config == want.values
    && r.chart.Some? && want.version != "" && r.chart.value.version == want.version && r.chart.value.name == ChartRefName(want.chart)
  }

  predicate MidOperation(r: Record) {
    r.info.Some? && r.info.value.status in {PendingInstall, PendingUpgrade, PendingRollback}
  }

  /** What a submit that reads this record goes on to start, if anything. */
  function Starts(current: Option<Record>, isCreate: bool, want: Props, now: int): Option<(Op, int)> {
    if current.None? then Some((Install, 1))
    else if MidOperation(current.value) then
      if !current.value.owned && TimeUp(current.value, None, now) then Some((Install, current.value.version)) else None
    else if AlreadyThere(current.value, want) || (isCreate && !current.value.owned) then None
    else Some((Upgrade, current.value.version + 1))
  }

  /** A submit with a reservation that was not stopped can start a worker exactly when it read no record, a settled one
      that differs from what it asks and that it may take, or another tool's stalled one; and then only that worker. */
  lemma StartsExactly(x: Cell, c: CallId, request: Request, read: Option<Record>, now: int, recoveries: nat)
    requires c in x.calls && x.calls[c] == Preparing(x.calls[c].gen, request, PlanOf(request, read, now), recoveries)
    requires request.Submit? && Owned(x.entry, x.calls[c].gen) && !x.entry.value.stopping
    ensures
      var starts := Starts(read, request.isCreate, request.want, now);
      && (starts.None? ==> forall a :: !CanStep(x, 0, Activates(c, a)))
      && (starts.Some? ==>
            && (exists a :: CanStep(x, 0, Activates(c, a)))
            && forall a | CanStep(x, 0, Activates(c, a)) :: (a.op, a.revision) == starts.value)
  {
    var starts := Starts(read, request.isCreate, request.want, now);
    if starts.Some? {
      var a := Activation(starts.value.0, starts.value.1, false, x.entry.value.deadline);
      assert CanStep(x, 0, Activates(c, a));
    }
  }

  /** Were a submit to plan with a flight, it would rejoin exactly one that is at the pending record's revision, not past its
      deadline, and was reserved for the same desired state. */
  lemma RejoinPlanned(r: Record, isCreate: bool, f: Flight, want: Props, now: int)
    ensures PlanSubmit(Some(r), isCreate, Some(f), Some(want), now).0 == Rejoin <==>
      && r.info.Some? && r.info.value.status in {PendingInstall, PendingUpgrade, PendingRollback}
      && r.version == f.revision && f.fingerprint == want.fingerprint && want.fingerprint != ""
      && (f.deadline.Some? ==> now <= f.deadline.value)
  {}

  /** A delete that has read the record starts a worker exactly when there was one, to delete it at its revision. */
  lemma DeletesExactly(x: Cell, c: CallId, read: Option<Record>, recoveries: nat)
    requires c in x.calls && x.calls[c] == Preparing(x.calls[c].gen, Destroy, Found(read), recoveries)
    requires Owned(x.entry, x.calls[c].gen) && !x.entry.value.stopping
    ensures (exists a :: CanStep(x, 0, Activates(c, a))) <==> read.Some?
    ensures forall a | CanStep(x, 0, Activates(c, a)) :: a.op == Delete && a.revision == read.value.version
  {
    if read.Some? {
      assert CanStep(x, 0, Activates(c, Activation(Delete, read.value.version, false, None)));
    }
  }

  /** A Create never starts anything over a release of another tool that is not in mid-operation. */
  lemma CreateLeavesForeign(x: Cell, drains: nat, c: CallId, r: Record, now: int, a: Activation)
    requires CanRead(x, c) && x.calls[c].Preparing? && x.calls[c].request.Submit? && x.calls[c].request.isCreate
    requires x.record == Some(r) && !r.owned && !MidOperation(r)
    ensures !CanStep(DoStep(x, drains, Reads(c, now)), drains, Activates(c, a))
  {}
}
