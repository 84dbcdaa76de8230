// What the history of a process tells about the flights it stores: why each was
// reserved, that none is left behind, and what the successes it reported rest on.
module FlightHistory {
  import opened Base
  import opened Flights
  import opened Releases
  import opened FlightSystem
  import opened FlightInvariant
  import opened FlightSafety
  import opened FlightDecisions

  // ---- The invariants ----

  /** Two requests ask for one thing. */
  predicate SameWish(a: Request, b: Request) {
    match a
    case Submit(isCreate, want) => b.Submit? && b.isCreate == isCreate && b.want.fingerprint == want.fingerprint
    case Destroy => b.Destroy?
  }

  /** The stored flight carries what it was reserved for. */
  predicate OriginOk(x: Cell) {
    x.entry.Some? ==>
      var f := x.entry.value;
      && (f.requestOp.Some? ==>
            && f.generation in x.log.reserved && x.log.reserved[f.generation].Submit?
            && f.requestOp == Some(AskedOp(x.log.reserved[f.generation])) && f.fingerprint == x.log.reserved[f.generation].want.fingerprint)
      && (!f.preparing && f.op == Delete ==> f.generation in x.log.reserved && x.log.reserved[f.generation].Destroy?)
  }

  predicate CallOrigin(x: Cell, call: Call) {
    && (call.Preparing? ==>
          && call.gen in x.log.reserved && x.log.reserved[call.gen] == call.request
          && (call.plan.Planned? ==> call.request.Submit?) && (call.plan.Found? ==> call.request.Destroy?))
    && (call.Rejoined? ==> call.gen in x.log.reserved && SameWish(x.log.reserved[call.gen], call.request))
  }

  ghost predicate OriginsOk(x: Cell) {
    x.log.reserved.Keys <= x.used && OriginOk(x) && forall c | c in x.calls :: CallOrigin(x, x.calls[c])
  }

  /** No reservation is left behind. */
  ghost predicate HeldOk(x: Cell) {
    x.entry.Some? && x.entry.value.preparing ==>
      exists c :: c in x.calls && Reserving(x.calls[c]) && x.calls[c].gen == x.entry.value.generation
  }

  /** An unfinished flight can be cancelled, or has been. */
  predicate CancellableOk(x: Cell) {
    x.entry.Some? ==> x.entry.value.finished || x.entry.value.cancel || x.entry.value.generation in x.log.taken
  }

  /** A finished flight is on its way out: its timer runs or has fired, and once it was answered for or timed out it only
      waits for its readers. */
  ghost predicate AnsweredFor(x: Cell, g: Gen) {
    g in x.log.fired || g in x.log.delivered || g in x.log.succeeded
  }

  ghost predicate OutgoingOk(x: Cell) {
    && x.log.fired + x.log.delivered + x.log.succeeded.Keys <= x.used
    && (x.entry.Some? ==>
          var f := x.entry.value;
          && (f.finished ==> f.generation in x.timers || f.generation in x.log.fired)
          && (AnsweredFor(x, f.generation) ==> f.reported))
  }

  /** What a reported success rests on: a record that is gone, or one deployed at the polled revision. */
  predicate Proves(ev: Evidence) {
    ev.read.Some? &&
    var read := ev.read.value;
    if ev.op == Delete then read.None? || read.value.info.None? || read.value.info.value.status == Uninstalled
    else read.Some? && read.value.info.Some? && read.value.info.value.status == Deployed && read.value.version == ev.revision
  }

  predicate PollOk(x: Cell, call: Call) {
    call.Polling? ==>
      && (Owned(x.entry, call.gen) ==> x.entry.value.op == call.op && x.entry.value.revision == call.revision)
      && (call.view.said == Some(Success) ==> Proves(Evidence(call.op, call.revision, call.view.seen)))
  }

  ghost predicate EvidenceOk(x: Cell) {
    && (forall g | g in x.log.succeeded ::
          && Proves(x.log.succeeded[g])
          && (Owned(x.entry, g) ==> x.entry.value.op == x.log.succeeded[g].op && x.entry.value.revision == x.log.succeeded[g].revision))
    && (forall c | c in x.calls :: PollOk(x, x.calls[c]))
  }

  /** A closed bridge tells how its flight ended: with the worker's error, or cancelled when there was none. */
  ghost predicate ToldOk(x: Cell) {
    x.entry.Some? && x.entry.value.generation in x.closed ==>
      x.closed[x.entry.value.generation] == if x.entry.value.outcome.Some? then x.entry.value.outcome.value else "context canceled"
  }

  // ---- Every step keeps them ----

  /** Only a fresh reservation adds to the history of reservations. */
  lemma ReservedGrows(x: Cell, drains: nat, step: Step)
    requires CanStep(x, drains, step)
    ensures Recorded(x, DoStep(x, drains, step), drains, step)
  {
    if step.Reports? || step.ReportsEarly? {
      ReportRecords(x, drains, step);
    }
  }

  lemma ReportRecords(x: Cell, drains: nat, step: Step)
    requires CanStep(x, drains, step) && (step.Reports? || step.ReportsEarly?)
    ensures DoStep(x, drains, step).log.reserved == x.log.reserved
  {}

  /** What any step leaves of a callback that prepares or has rejoined. */
  predicate Carries(x: Cell, drains: nat, step: Step, c: CallId, call: Call) {
    || (!call.Preparing? && !call.Rejoined?)
    || (c in x.calls && x.calls[c] == call)
    || (c in x.calls && x.calls[c].Rejoined? && call.Rejoined? && call.gen == x.calls[c].gen && call.request == x.calls[c].request)
    || (c in x.calls && x.calls[c].Preparing? && call.Preparing? && call.gen == x.calls[c].gen && call.request == x.calls[c].request
        && (call.plan.Unread? || call.plan.Planned? == call.request.Submit?))
    || (step.Reserves? && step.c == c && drains == 0 &&
        if x.entry.None? then call == Preparing(step.cand.generation, step.request, Unread, 0)
        else MatchesRejoin(x.entry, step.cand) && call == Rejoined(x.entry.value.generation, step.request, None))
  }

  lemma CallsCarry(x: Cell, drains: nat, step: Step, c: CallId)
    requires CanStep(x, drains, step) && c in DoStep(x, drains, step).calls
    ensures Carries(x, drains, step, c, DoStep(x, drains, step).calls[c])
  {
    if Entering(step) || Looking(step) {
      ComingCarry(x, drains, step, c);
    } else {
      GoingCarry(x, drains, step, c);
    }
  }

  lemma ComingCarry(x: Cell, drains: nat, step: Step, c: CallId)
    requires CanStep(x, drains, step) && c in DoStep(x, drains, step).calls && (Entering(step) || Looking(step))
    ensures Carries(x, drains, step, c, DoStep(x, drains, step).calls[c])
  {
    if Entering(step) {
      EnteringCarry(x, drains, step, c);
    } else {
      LookingCarry(x, drains, step, c);
    }
  }

  lemma EnteringCarry(x: Cell, drains: nat, step: Step, c: CallId)
    requires CanStep(x, drains, step) && c in DoStep(x, drains, step).calls && Entering(step)
    ensures Carries(x, drains, step, c, DoStep(x, drains, step).calls[c])
  {}

  lemma LookingCarry(x: Cell, drains: nat, step: Step, c: CallId)
    requires CanStep(x, drains, step) && c in DoStep(x, drains, step).calls && Looking(step)
    ensures Carries(x, drains, step, c, DoStep(x, drains, step).calls[c])
  {}

  lemma GoingCarry(x: Cell, drains: nat, step: Step, c: CallId)
    requires CanStep(x, drains, step) && c in DoStep(x, drains, step).calls && !Entering(step) && !Looking(step)
    ensures Carries(x, drains, step, c, DoStep(x, drains, step).calls[c])
  {}

  /** The stored flight after a step is the step's new candidate, one that an activation published, or the one before,
      still preparing or still activated as the same operation. */
  predicate EntryMoves(x: Cell, step: Step, later: Entry) {
    later.Some? ==>
      || ((step.Reserves? || step.Acquires?) && x.entry.None? && later == Some(step.cand))
      || (step.Activates? && step.c in x.calls && x.calls[step.c].Preparing? && Owned(x.entry, x.calls[step.c].gen)
          && later.value.generation == x.calls[step.c].gen && later.value.op == step.a.op
          && ActivationOf(x.calls[step.c].plan, step.a.bridge, step.a.deadline) == Some(step.a))
      || (x.entry.Some? && later.value.generation == x.entry.value.generation
          && later.value.preparing == x.entry.value.preparing && later.value.op == x.entry.value.op)
  }

  lemma SectionMoves(x: Cell, drains: nat, step: Step)
    requires CanStep(x, drains, step)
    ensures EntryMoves(x, step, EntryAfter(x, drains, step))
  {}

  lemma OriginsKept(x: Cell, drains: nat, step: Step)
    requires CellInv(x) && OriginsOk(x) && CanStep(x, drains, step)
    ensures OriginsOk(DoStep(x, drains, step))
  {
    var y := DoStep(x, drains, step);
    ReservedGrows(x, drains, step);
    StepEffect(x, drains, step);
    DrawsFresh(x, drains, step);
    StepTakesSection(x, drains, step);
    SectionMoves(x, drains, step);
    if y.entry.Some? && y.entry.value.generation in x.used {
      StepGrows(x, drains, step, y.entry.value.generation);
    }
    OriginKept(x, y, drains, step);
    forall c | c in y.calls
      ensures CallOrigin(y, y.calls[c])
    {
      CallsCarry(x, drains, step, c);
      CallOriginKept(x, y, drains, step, c);
    }
  }

  /** A candidate's generation was not drawn before, a reservation's is afterwards. */
  lemma DrawsFresh(x: Cell, drains: nat, step: Step)
    requires CanStep(x, drains, step)
    ensures step.Reserves? ==>
      CandidateFor(step.cand, step.request) && step.cand.generation !in x.used && step.cand.generation in DoStep(x, drains, step).used
    ensures step.Acquires? ==> PollCandidate(step.cand) && step.cand.generation !in x.used
  {}

  /** The reservations recorded before a step are recorded after it, and that of a candidate that got its reservation. */
  predicate Recorded(x: Cell, y: Cell, drains: nat, step: Step) {
    if step.Reserves? && drains == 0 && x.entry.None?
    then y.log.reserved == x.log.reserved[step.cand.generation := step.request]
    else y.log.reserved == x.log.reserved
  }

  lemma OriginKept(x: Cell, y: Cell, drains: nat, step: Step)
    requires OriginsOk(x) && EntryMoves(x, step, y.entry) && Recorded(x, y, drains, step)
    requires step.Reserves? ==> CandidateFor(step.cand, step.request) && step.cand.generation !in x.used
    requires step.Acquires? ==> PollCandidate(step.cand) && step.cand.generation !in x.used
    requires x.entry.Some? ==> x.entry.value.generation in x.used
    requires y.entry.Some? && y.entry.value.generation in x.used ==> EntryGrows(x.entry, y.entry, y.entry.value.generation)
    requires (step.Reserves? || step.Acquires?) && drains > 0 ==> y.entry == x.entry
    ensures OriginOk(y)
  {}

  lemma CallOriginKept(x: Cell, y: Cell, drains: nat, step: Step, c: CallId)
    requires OriginsOk(x) && c in y.calls && Carries(x, drains, step, c, y.calls[c])
    requires step.Reserves? ==> CandidateFor(step.cand, step.request) && step.cand.generation !in x.used
    requires Recorded(x, y, drains, step)
    ensures CallOrigin(y, y.calls[c])
  {}

  /** What a step adds to the history, the entry aside. */
  predicate Notes(x: Cell, y: Cell, step: Step) {
    && y.log.taken == x.log.taken
    && y.closed == (if step.Ends? then Finish(x.entry, x.closed, step.g, step.outcome).1 else x.closed)
    && y.log.fired == x.log.fired + (if step.Fires? then {step.g} else {})
    && y.timers == (if step.Ends? then x.timers + {step.g} else if step.Fires? then x.timers - {step.g} else x.timers)
    && (!step.Reports? && !step.ReportsEarly? && !step.Consumes? ==>
          y.log.delivered == x.log.delivered && y.log.succeeded == x.log.succeeded)
    && (step.Consumes? && step.c in x.calls ==>
          y.log.delivered == x.log.delivered + {x.calls[step.c].gen} && y.log.succeeded == x.log.succeeded)
    && ((step.Reports? || step.ReportsEarly?) && step.c in x.calls ==>
          && y.log.delivered <= x.log.delivered + {x.calls[step.c].gen}
          && y.log.succeeded.Keys <= x.log.succeeded.Keys + {x.calls[step.c].gen})
  }

  lemma StepNotes(x: Cell, drains: nat, step: Step)
    requires CanStep(x, drains, step)
    ensures Notes(x, DoStep(x, drains, step), step)
  {
    if step.Reports? || step.ReportsEarly? {
      ReportNotes(x, drains, step);
    } else if Working(step) {
      WorkNotes(x, drains, step);
    } else {
      OtherNotes(x, drains, step);
    }
  }

  lemma ReportNotes(x: Cell, drains: nat, step: Step)
    requires CanStep(x, drains, step) && (step.Reports? || step.ReportsEarly?)
    ensures Notes(x, DoStep(x, drains, step), step)
  {}

  lemma WorkNotes(x: Cell, drains: nat, step: Step)
    requires CanStep(x, drains, step) && Working(step)
    ensures Notes(x, DoStep(x, drains, step), step)
  {}

  lemma OtherNotes(x: Cell, drains: nat, step: Step)
    requires CanStep(x, drains, step) && !Working(step) && !step.Reports? && !step.ReportsEarly?
    ensures Notes(x, DoStep(x, drains, step), step)
  {
    if Entering(step) || Looking(step) {
      ComingNotes(x, drains, step);
    } else {
      GoingNotes(x, drains, step);
    }
  }

  lemma ComingNotes(x: Cell, drains: nat, step: Step)
    requires CanStep(x, drains, step) && (Entering(step) || Looking(step))
    ensures Notes(x, DoStep(x, drains, step), step)
  {
    if Entering(step) {
      EnteringNotes(x, drains, step);
    } else {
      LookingNotes(x, drains, step);
    }
  }

  lemma EnteringNotes(x: Cell, drains: nat, step: Step)
    requires CanStep(x, drains, step) && Entering(step)
    ensures Notes(x, DoStep(x, drains, step), step)
  {
    if step.Activates? {
      ActivatingNotes(x, drains, step);
    }
  }

  lemma ActivatingNotes(x: Cell, drains: nat, step: Step)
    requires CanStep(x, drains, step) && step.Activates?
    ensures Notes(x, DoStep(x, drains, step), step)
  {}

  lemma LookingNotes(x: Cell, drains: nat, step: Step)
    requires CanStep(x, drains, step) && Looking(step)
    ensures Notes(x, DoStep(x, drains, step), step)
  {}

  lemma GoingNotes(x: Cell, drains: nat, step: Step)
    requires CanStep(x, drains, step) && (Backing(step) || step.Consumes? || step.Leaves?)
    ensures Notes(x, DoStep(x, drains, step), step)
  {}

  lemma CancellableKept(x: Cell, drains: nat, step: Step)
    requires CellInv(x) && CancellableOk(x) && CanStep(x, drains, step)
    ensures CancellableOk(DoStep(x, drains, step))
  {
    StepTakesSection(x, drains, step);
    StepNotes(x, drains, step);
    CancellableSection(x, drains, step);
  }

  lemma CancellableSection(x: Cell, drains: nat, step: Step)
    requires CanStep(x, drains, step) && CancellableOk(x)
    ensures
      var e := EntryAfter(x, drains, step);
      e.Some? ==> e.value.finished || e.value.cancel || e.value.generation in x.log.taken
  {}

  lemma OutgoingKept(x: Cell, drains: nat, step: Step)
    requires CellInv(x) && OutgoingOk(x) && CanStep(x, drains, step)
    ensures OutgoingOk(DoStep(x, drains, step))
  {
    var y := DoStep(x, drains, step);
    StepTakesSection(x, drains, step);
    StepNotes(x, drains, step);
    StepEffect(x, drains, step);
    DrawsFresh(x, drains, step);
    if step.Reports? || step.ReportsEarly? {
      ReportLeaves(x, drains, step);
    } else if step.Consumes? {
      ConsumeLeaves(x, drains, step);
    } else {
      OthersLeave(x, y, drains, step);
    }
  }

  lemma ReportLeaves(x: Cell, drains: nat, step: Step)
    requires CellInv(x) && OutgoingOk(x) && CanStep(x, drains, step) && (step.Reports? || step.ReportsEarly?)
    ensures OutgoingOk(DoStep(x, drains, step))
  {
    assert CallOk(x, x.calls[step.c]);
    StepNotes(x, drains, step);
    StepEffect(x, drains, step);
    StepTakesSection(x, drains, step);
    ReportMarks(x, drains, step);
    MarkedLeaves(x, DoStep(x, drains, step), x.calls[step.c].gen);
  }

  /** Whatever a report adds to the history it marks in the registry. */
  lemma ReportMarks(x: Cell, drains: nat, step: Step)
    requires CanStep(x, drains, step) && (step.Reports? || step.ReportsEarly?)
    requires Retaining(x.calls[step.c]) ==> Owned(x.entry, x.calls[step.c].gen)
    requires Watching(x.calls[step.c]) ==> x.calls[step.c].view.said.None? || !x.calls[step.c].view.said.value.WorkerError?
    ensures
      var y := DoStep(x, drains, step);
      || (y.log.delivered == x.log.delivered && y.log.succeeded == x.log.succeeded
          && (y.entry == x.entry || (x.entry.Some? && y.entry == MarkReported(x.entry.value))))
      || (x.entry.Some? && y.entry == MarkReported(x.entry.value))
  {}

  lemma MarkedLeaves(x: Cell, y: Cell, g: Gen)
    requires OutgoingOk(x) && EntryOk(x) && g in y.used && x.used <= y.used
    requires y.timers == x.timers && y.log.fired == x.log.fired
    requires y.log.delivered <= x.log.delivered + {g} && y.log.succeeded.Keys <= x.log.succeeded.Keys + {g}
    requires
      || (y.log.delivered == x.log.delivered && y.log.succeeded == x.log.succeeded
          && (y.entry == x.entry || (x.entry.Some? && y.entry == MarkReported(x.entry.value))))
      || (x.entry.Some? && y.entry == MarkReported(x.entry.value))
    ensures OutgoingOk(y)
  {}

  lemma ConsumeLeaves(x: Cell, drains: nat, step: Step)
    requires CellInv(x) && OutgoingOk(x) && CanStep(x, drains, step) && step.Consumes?
    ensures OutgoingOk(DoStep(x, drains, step))
  {
    assert CallOk(x, x.calls[step.c]);
  }

  lemma OthersLeave(x: Cell, y: Cell, drains: nat, step: Step)
    requires CanStep(x, drains, step) && !step.Reports? && !step.ReportsEarly? && !step.Consumes?
    requires OutgoingOk(x) && TimersOk(x) && EntryOk(x) && x.used <= y.used && Notes(x, y, step)
    requires y.entry == EntryAfter(x, drains, step)
    requires step.Reserves? || step.Acquires? ==> NewFlight(step.cand) && step.cand.generation !in x.used
    ensures OutgoingOk(y)
  {
    if Working(step) {
      WorkLeaves(x, y, drains, step);
    } else if Entering(step) {
      EnteringLeaves(x, y, drains, step);
    } else {
      QuietLeaves(x, y, drains, step);
    }
  }

  lemma WorkLeaves(x: Cell, y: Cell, drains: nat, step: Step)
    requires CanStep(x, drains, step) && Working(step) && y.entry == EntryAfter(x, drains, step)
    requires OutgoingOk(x) && TimersOk(x) && EntryOk(x) && x.used <= y.used && Notes(x, y, step)
    ensures OutgoingOk(y)
  {}

  lemma EnteringLeaves(x: Cell, y: Cell, drains: nat, step: Step)
    requires CanStep(x, drains, step) && Entering(step) && y.entry == EntryAfter(x, drains, step)
    requires OutgoingOk(x) && EntryOk(x) && x.used <= y.used && Notes(x, y, step)
    requires step.Reserves? || step.Acquires? ==> NewFlight(step.cand) && step.cand.generation !in x.used
    ensures OutgoingOk(y)
  {
    EnteringMarks(x, drains, step);
    EnteredLeaves(x, y, step);
  }

  /** A callback that enters finds a free key, or leaves what is stored as finished and as reported as it was. */
  predicate Entered(e: Entry, step: Step, later: Entry) {
    || later == e
    || ((step.Reserves? || step.Acquires?) && later == Some(step.cand))
    || (e.Some? && later.Some? && later.value.generation == e.value.generation
        && later.value.finished == e.value.finished && later.value.reported == e.value.reported)
  }

  lemma EnteringMarks(x: Cell, drains: nat, step: Step)
    requires CanStep(x, drains, step) && Entering(step)
    ensures Entered(x.entry, step, EntryAfter(x, drains, step))
  {}

  lemma EnteredLeaves(x: Cell, y: Cell, step: Step)
    requires Entering(step) && Entered(x.entry, step, y.entry)
    requires OutgoingOk(x) && x.used <= y.used && Notes(x, y, step)
    requires step.Reserves? || step.Acquires? ==> NewFlight(step.cand) && step.cand.generation !in x.used
    ensures OutgoingOk(y)
  {}

  lemma QuietLeaves(x: Cell, y: Cell, drains: nat, step: Step)
    requires CanStep(x, drains, step) && !Working(step) && !Entering(step) && y.entry == EntryAfter(x, drains, step)
    requires !step.Reports? && !step.ReportsEarly? && !step.Consumes?
    requires OutgoingOk(x) && EntryOk(x) && x.used <= y.used && Notes(x, y, step)
    ensures OutgoingOk(y)
  {}

  /** A callback with a reservation keeps it, or gives it back, or starts its worker. */
  lemma HolderStays(x: Cell, drains: nat, step: Step, c: CallId)
    requires CanStep(x, drains, step) && c in x.calls && Reserving(x.calls[c])
    ensures HolderMoves(x, DoStep(x, drains, step), drains, step, c)
  {
    if Entering(step) || Looking(step) {
      ComingHolder(x, drains, step, c);
    } else if Working(step) || Backing(step) {
      WorkingHolder(x, drains, step, c);
    } else {
      ExitingHolder(x, drains, step, c);
    }
  }

  predicate HolderMoves(x: Cell, y: Cell, drains: nat, step: Step, c: CallId)
    requires CanStep(x, drains, step) && c in x.calls
  {
    || (c in y.calls && Reserving(y.calls[c]) && y.calls[c].gen == x.calls[c].gen)
    || step.Activates?
    || EntryAfter(x, drains, step) == Remove(x.entry, x.calls[c].gen)
  }

  lemma ComingHolder(x: Cell, drains: nat, step: Step, c: CallId)
    requires CanStep(x, drains, step) && c in x.calls && Reserving(x.calls[c]) && (Entering(step) || Looking(step))
    ensures HolderMoves(x, DoStep(x, drains, step), drains, step, c)
  {}

  lemma WorkingHolder(x: Cell, drains: nat, step: Step, c: CallId)
    requires CanStep(x, drains, step) && c in x.calls && Reserving(x.calls[c]) && (Working(step) || Backing(step))
    ensures HolderMoves(x, DoStep(x, drains, step), drains, step, c)
  {}

  lemma ExitingHolder(x: Cell, drains: nat, step: Step, c: CallId)
    requires CanStep(x, drains, step) && c in x.calls && Reserving(x.calls[c]) && Exiting(step)
    ensures HolderMoves(x, DoStep(x, drains, step), drains, step, c)
  {}

  lemma HeldKept(x: Cell, drains: nat, step: Step)
    requires CellInv(x) && HeldOk(x) && CanStep(x, drains, step)
    ensures HeldOk(DoStep(x, drains, step))
  {
    var y := DoStep(x, drains, step);
    StepTakesSection(x, drains, step);
    SectionMoves(x, drains, step);
    if y.entry.Some? && y.entry.value.preparing {
      if x.entry.Some? && !step.Activates? {
        var c :| c in x.calls && Reserving(x.calls[c]) && x.calls[c].gen == x.entry.value.generation;
        HolderStays(x, drains, step, c);
      } else if x.entry.None? {
        assert step.c in y.calls && Reserving(y.calls[step.c]);
      }
    }
  }

  lemma EvidenceKept(x: Cell, drains: nat, step: Step)
    requires CellInv(x) && EvidenceOk(x) && CanStep(x, drains, step)
    ensures EvidenceOk(DoStep(x, drains, step))
  {
    var y := DoStep(x, drains, step);
    StepEffect(x, drains, step);
    forall c | c in y.calls
      ensures PollOk(y, y.calls[c])
    {
      PollKept(x, drains, step, c);
    }
    forall g | g in y.log.succeeded
      ensures Proves(y.log.succeeded[g]) && (Owned(y.entry, g) ==> y.entry.value.op == y.log.succeeded[g].op && y.entry.value.revision == y.log.succeeded[g].revision)
    {
      ProofKept(x, drains, step, g);
    }
  }

  /** Where a polling callback and its answer come from. */
  predicate Polled(x: Cell, drains: nat, step: Step, c: CallId, call: Call) {
    || !call.Polling?
    || (c in x.calls && x.calls[c].Polling? && call.gen == x.calls[c].gen && call.op == x.calls[c].op && call.revision == x.calls[c].revision
        && (|| (call.view.said == x.calls[c].view.said && (call.view.said.Some? ==> call.view.seen == x.calls[c].view.seen))
            || (call.view.said != Some(Success))
            || (step.Judges? && step.c == c && CanJudge(x, c) && call.view.seen == x.calls[c].view.seen
                && call.view.said == Some(AnswerOf(x.calls[c], step.ready, step.now)))))
    || (step.Acquires? && step.c == c && drains == 0 && x.entry.Some? && MatchesStatus(x.entry.value, step.requested, step.cand)
        && call.gen == step.requested && call.op == step.cand.op && call.revision == step.cand.revision && call.view.said.None?)
  }

  lemma CallsPolled(x: Cell, drains: nat, step: Step, c: CallId)
    requires CanStep(x, drains, step) && c in DoStep(x, drains, step).calls
    ensures Polled(x, drains, step, c, DoStep(x, drains, step).calls[c])
  {
    if Entering(step) || Looking(step) {
      ComingPolled(x, drains, step, c);
    } else {
      GoingPolled(x, drains, step, c);
    }
  }

  lemma ComingPolled(x: Cell, drains: nat, step: Step, c: CallId)
    requires CanStep(x, drains, step) && c in DoStep(x, drains, step).calls && (Entering(step) || Looking(step))
    ensures Polled(x, drains, step, c, DoStep(x, drains, step).calls[c])
  {
    if Entering(step) {
      EnteringPolled(x, drains, step, c);
    } else {
      LookingPolled(x, drains, step, c);
    }
  }

  lemma EnteringPolled(x: Cell, drains: nat, step: Step, c: CallId)
    requires CanStep(x, drains, step) && c in DoStep(x, drains, step).calls && Entering(step)
    ensures Polled(x, drains, step, c, DoStep(x, drains, step).calls[c])
  {}

  lemma LookingPolled(x: Cell, drains: nat, step: Step, c: CallId)
    requires CanStep(x, drains, step) && c in DoStep(x, drains, step).calls && Looking(step)
    ensures Polled(x, drains, step, c, DoStep(x, drains, step).calls[c])
  {}

  lemma GoingPolled(x: Cell, drains: nat, step: Step, c: CallId)
    requires CanStep(x, drains, step) && c in DoStep(x, drains, step).calls && !Entering(step) && !Looking(step)
    ensures Polled(x, drains, step, c, DoStep(x, drains, step).calls[c])
  {}

  lemma PollKept(x: Cell, drains: nat, step: Step, c: CallId)
    requires CellInv(x) && EvidenceOk(x) && CanStep(x, drains, step) && c in DoStep(x, drains, step).calls
    ensures PollOk(DoStep(x, drains, step), DoStep(x, drains, step).calls[c])
  {
    var y := DoStep(x, drains, step);
    CallsPolled(x, drains, step, c);
    if y.calls[c].Polling? && y.calls[c].gen in x.used {
      StepGrows(x, drains, step, y.calls[c].gen);
    }
    if step.Judges? && step.c == c && x.calls[c].Polling? && AnswerOf(x.calls[c], step.ready, step.now) == Success {
      AnswersProve(x, c, step.ready, step.now);
    }
    PollStays(x, y, drains, step, c);
  }

  lemma AnswersProve(x: Cell, c: CallId, ready: bool, now: int)
    requires CanJudge(x, c) && AnswerOf(x.calls[c], ready, now) == Success
    ensures Proves(Evidence(x.calls[c].op, x.calls[c].revision, x.calls[c].view.seen))
  {}

  lemma PollStays(x: Cell, y: Cell, drains: nat, step: Step, c: CallId)
    requires EvidenceOk(x) && c in y.calls && Polled(x, drains, step, c, y.calls[c])
    requires x.entry.Some? ==> x.entry.value.generation in x.used
    requires forall d | d in x.calls :: CallOk(x, x.calls[d])
    requires y.calls[c].Polling? && y.calls[c].gen in x.used ==> EntryGrows(x.entry, y.entry, y.calls[c].gen)
    requires step.Judges? && step.c == c && c in x.calls && x.calls[c].Polling? && CanJudge(x, c) && AnswerOf(x.calls[c], step.ready, step.now) == Success ==>
      Proves(Evidence(x.calls[c].op, x.calls[c].revision, x.calls[c].view.seen))
    ensures PollOk(y, y.calls[c])
  {}

  lemma ProofKept(x: Cell, drains: nat, step: Step, g: Gen)
    requires CellInv(x) && EvidenceOk(x) && CanStep(x, drains, step) && g in DoStep(x, drains, step).log.succeeded
    ensures
      var y := DoStep(x, drains, step);
      Proves(y.log.succeeded[g]) && (Owned(y.entry, g) ==> y.entry.value.op == y.log.succeeded[g].op && y.entry.value.revision == y.log.succeeded[g].revision)
  {
    assert g in x.log.succeeded ==> g in x.used;
    if g in x.used {
      StepGrows(x, drains, step, g);
    }
    if step.Reports? || step.ReportsEarly? {
      ReportProves(x, drains, step, g);
    } else {
      StepNotes(x, drains, step);
    }
  }

  /** Only a poll that settled on a success adds one to the history, with what it had asked and read. */
  lemma ReportEvidence(x: Cell, drains: nat, step: Step)
    requires CanStep(x, drains, step) && (step.Reports? || step.ReportsEarly?)
    ensures
      var y, call := DoStep(x, drains, step), x.calls[step.c];
      || y.log.succeeded == x.log.succeeded
      || (call.Polling? && call.view.said == Some(Success)
          && y.log.succeeded == x.log.succeeded[call.gen := Evidence(call.op, call.revision, call.view.seen)])
  {}

  lemma ReportProves(x: Cell, drains: nat, step: Step, g: Gen)
    requires CellInv(x) && EvidenceOk(x) && CanStep(x, drains, step) && (step.Reports? || step.ReportsEarly?)
    requires g in DoStep(x, drains, step).log.succeeded
    ensures
      var y := DoStep(x, drains, step);
      Proves(y.log.succeeded[g]) && (Owned(y.entry, g) ==> y.entry.value.op == y.log.succeeded[g].op && y.entry.value.revision == y.log.succeeded[g].revision)
  {
    assert CallOk(x, x.calls[step.c]) && PollOk(x, x.calls[step.c]);
    ReportEvidence(x, drains, step);
    StepGrows(x, drains, step, x.calls[step.c].gen);
    if g in x.log.succeeded {
      StepGrows(x, drains, step, g);
    }
  }

  lemma ToldKept(x: Cell, drains: nat, step: Step)
    requires CellInv(x) && ToldOk(x) && CanStep(x, drains, step)
    ensures ToldOk(DoStep(x, drains, step))
  {
    var y := DoStep(x, drains, step);
    StepNotes(x, drains, step);
    if step.Ends? {
      EndTells(x, drains, step);
    } else if y.entry.Some? && y.entry.value.generation in x.closed {
      StepGrows(x, drains, step, y.entry.value.generation);
    }
  }

  lemma EndTells(x: Cell, drains: nat, step: Step)
    requires CellInv(x) && ToldOk(x) && CanStep(x, drains, step) && step.Ends?
    ensures ToldOk(DoStep(x, drains, step))
  {}

  // ---- All releases, over runs ----

  ghost predicate HistoryOk(x: Cell) {
    OriginsOk(x) && HeldOk(x) && CancellableOk(x) && OutgoingOk(x) && EvidenceOk(x) && ToldOk(x)
  }

  lemma HistoryKept(x: Cell, drains: nat, step: Step)
    requires CellInv(x) && HistoryOk(x) && CanStep(x, drains, step)
    ensures HistoryOk(DoStep(x, drains, step))
  {
    OriginsKept(x, drains, step);
    HeldKept(x, drains, step);
    CancellableKept(x, drains, step);
    OutgoingKept(x, drains, step);
    EvidenceKept(x, drains, step);
    ToldKept(x, drains, step);
  }

  lemma MarkedHistory(x: Cell)
    requires CellInv(x) && HistoryOk(x)
    ensures HistoryOk(Marked(x)) && HistoryOk(Crashed(x))
  {
    if HeldOk(x) && x.entry.Some? && x.entry.value.preparing {
      var c :| c in x.calls && Reserving(x.calls[c]) && x.calls[c].gen == x.entry.value.generation;
      assert c in Marked(x).calls;
    }
  }

  lemma EventHistory(s: Sys, e: Event)
    requires SysInv(s) && Can(s, e) && forall k | k in s.cells :: HistoryOk(s.cells[k])
    ensures forall k | k in Do(s, e).cells :: HistoryOk(Do(s, e).cells[k])
  {
    forall k | k in Do(s, e).cells
      ensures HistoryOk(Do(s, e).cells[k])
    {
      CellHistory(s, e, k);
    }
  }

  lemma CellHistory(s: Sys, e: Event, k: Key)
    requires SysInv(s) && Can(s, e) && (forall k | k in s.cells :: HistoryOk(s.cells[k])) && k in Do(s, e).cells
    ensures HistoryOk(Do(s, e).cells[k])
  {
    var x := CellAt(s, k);
    assert CellInv(x) && HistoryOk(x) by {
      EmptyHistory();
    }
    if e.At? && k == e.key {
      HistoryKept(x, s.drains, e.step);
    } else if e.DrainStarts? || e.Crash? {
      MarkedHistory(x);
    }
  }

  lemma EmptyHistory()
    ensures CellInv(EMPTY_CELL) && HistoryOk(EMPTY_CELL)
  {}

  lemma {:induction false} RunHistory(s: Sys, run: seq<Event>)
    requires SysInv(s) && Feasible(s, run) && forall k | k in s.cells :: HistoryOk(s.cells[k])
    ensures forall k | k in After(s, run).cells :: HistoryOk(After(s, run).cells[k])
    decreases |run|
  {
    if run != [] {
      EventKeeps(s, run[0]);
      EventHistory(s, run[0]);
      RunHistory(Do(s, run[0]), run[1..]);
    }
  }

  lemma ReachableHistory(s: Sys, key: Key)
    requires Reachable(s)
    ensures CellInv(CellAt(s, key)) && HistoryOk(CellAt(s, key))
  {
    ReachableInv(s, key);
    var run :| Feasible(INITIAL, run) && After(INITIAL, run) == s;
    RunHistory(INITIAL, run);
  }

  // ---- What follows ----

  /** Over any run a callback has rejoined only a flight that was reserved for what it asks: a submit one that a submit
      of the same kind and desired state reserved, a delete one that a delete reserved. */
  lemma RejoinsItsOwn(s: Sys, key: Key, c: CallId)
    requires Reachable(s) && c in CellAt(s, key).calls && CellAt(s, key).calls[c].Rejoined?
    ensures
      var x, call := CellAt(s, key), CellAt(s, key).calls[c];
      && call.gen in x.log.reserved
      && (call.request.Submit? ==>
            && x.log.reserved[call.gen].Submit? && x.log.reserved[call.gen].isCreate == call.request.isCreate
            && x.log.reserved[call.gen].want.fingerprint == call.request.want.fingerprint)
      && (call.request.Destroy? ==> x.log.reserved[call.gen].Destroy?)
  {
    ReachableHistory(s, key);
    assert CallOrigin(CellAt(s, key), CellAt(s, key).calls[c]);
  }

  /** No reservation is left behind by a callback: while one is stored the callback that holds it is still there. */
  lemma ReservationsAreHeld(s: Sys, key: Key)
    requires Reachable(s) && CellAt(s, key).entry.Some? && CellAt(s, key).entry.value.preparing
    ensures
      var x := CellAt(s, key);
      exists c :: c in x.calls && Reserving(x.calls[c]) && x.calls[c].gen == x.entry.value.generation
  {
    ReachableHistory(s, key);
  }

  /** The marking step of a drain has every unfinished flight's cancel func taken, by itself or by a drain before it. */
  lemma DrainCancelsAll(s: Sys, d: DrainId, key: Key)
    requires Reachable(s) && Can(s, DrainStarts(d))
    requires CellAt(s, key).entry.Some? && !CellAt(s, key).entry.value.finished
    ensures
      var y := CellAt(Do(s, DrainStarts(d)), key);
      y.entry.value.stopping && !y.entry.value.cancel && y.entry.value.generation in y.log.taken
  {
    ReachableHistory(s, key);
  }

  /** The bridge of a finished flight is closed, and tells whoever asks it how the worker ended. */
  lemma BridgeTellsOutcome(s: Sys, key: Key)
    requires Reachable(s) && CellAt(s, key).entry.Some? && CellAt(s, key).entry.value.finished && CellAt(s, key).entry.value.bridge
    ensures
      var f, closed := CellAt(s, key).entry.value, CellAt(s, key).closed;
      f.generation in closed && closed[f.generation] == if f.outcome.Some? then f.outcome.value else "context canceled"
  {
    ReachableHistory(s, key);
  }

  /** No finished flight stays for good: its retention timer runs or has fired, and once that fired or its result was
      returned to a caller, only its readers keep it. */
  lemma FinishedFlightsLeave(s: Sys, key: Key)
    requires Reachable(s) && CellAt(s, key).entry.Some?
    ensures
      var x := CellAt(s, key);
      var f := x.entry.value;
      && (f.finished ==> f.generation in x.timers || f.generation in x.log.fired)
      && (f.generation in x.log.fired || f.generation in x.log.delivered || f.generation in x.log.succeeded ==>
            f.reported && Readers(x.calls, f.generation) != {})
  {
    ReachableHistory(s, key);
    var x := CellAt(s, key);
    if Readers(x.calls, x.entry.value.generation) == {} {
      assert |Readers(x.calls, x.entry.value.generation)| == 0;
    }
  }

  /** A success that was reported for a generation rests on what its poll had read: for an install or upgrade the record
      deployed at the flight's own revision, for a delete no record, or an uninstalled one. */
  lemma SuccessesAreProved(s: Sys, key: Key, g: Gen)
    requires Reachable(s) && g in CellAt(s, key).log.succeeded
    ensures
      var x, ev := CellAt(s, key), CellAt(s, key).log.succeeded[g];
      && ev.read.Some?
      && (ev.op != Delete ==>
            && ev.read.value.Some? && ev.read.value.value.info.Some?
            && ev.read.value.value.info.value.status == Deployed && ev.read.value.value.version == ev.revision)
      && (ev.op == Delete ==>
            ev.read.value.None? || ev.read.value.value.info.None? || ev.read.value.value.info.value.status == Uninstalled)
      && (Owned(x.entry, g) ==> x.entry.value.op == ev.op && x.entry.value.revision == ev.revision)
  {
    ReachableHistory(s, key);
  }
}
