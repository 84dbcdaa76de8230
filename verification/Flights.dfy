// The in-flight registry (pkg/resources/helm/inflight.go, flight_lifecycle.go).
//
// Every function of this module is one critical section under flightMu, written
// as a function from the registry before to the registry after. The class at the
// end is the registry as the program keeps it, a map and a counter that the
// critical sections update in place.
module Flights {
  import opened Base

  type Key = string     // scope|namespace/name
  type Gen = string     // a flight generation (UUID); "" when a RequestID names none
  type Error = string

  datatype Op = Install | Upgrade | Delete

  datatype Flight = Flight(
    op: Op,
    requestOp: Option<Op>,
    revision: int,
    fingerprint: string,
    auth: string,
    binding: string,
    generation: Gen,
    bridge: bool,               // a credential bridge is attached
    preparing: bool,
    stopping: bool,
    finished: bool,
    statusReaders: nat,
    reported: bool,
    outcome: Option<Error>,
    deadline: Option<int>,
    cancel: bool)               // a cancel func is stored

  datatype Code = Conflict | NotFound | General
  /** WorkerError is the Failure that carries the outcome of the owning worker. */
  datatype Answer = InProgress | Success | Failure(code: Code) | WorkerError(error: Error)

  const CANCELED: Error := "context canceled"

  /** What the map holds for one key. */
  type Entry = Option<Flight>

  predicate Owned(e: Entry, gen: Gen) {
    e.Some? && e.value.generation == gen
  }

  /** Marks a flight reported; it is forgotten unless a reader still retains it. */
  function MarkReported(f: Flight): Entry {
    if f.statusReaders == 0 then None else Some(f.(reported := true))
  }

  predicate MatchesRejoin(existing: Entry, wanted: Flight) {
    existing.Some? &&
    var e := existing.value;
    !e.preparing && e.auth == wanted.auth && e.binding == wanted.binding &&
    (if wanted.op == Delete then e.op == Delete
     else e.requestOp == wanted.requestOp && e.fingerprint == wanted.fingerprint)
  }

  function Retain(f: Flight): Flight {
    f.(statusReaders := f.statusReaders + 1)
  }

  /** reserveRejoinFlight: the entry after, the copy handed back, whether it is a new reservation. */
  function Reserve(drains: nat, e: Entry, f: Flight): (Entry, Entry, bool) {
    if drains > 0 then (e, None, false)
    else if e.Some? then
      var kept := Some(if MatchesRejoin(e, f) then Retain(e.value) else e.value);
      (kept, kept, false)
    else (Some(f), Some(f), true)
  }

  /** What submit and Delete write into their reservation when they start the worker. */
  datatype Activation = Activation(op: Op, revision: int, bridge: bool, deadline: Option<int>)

  function Activate(drains: nat, e: Entry, gen: Gen, a: Activation): (Entry, Entry) {
    if !Owned(e, gen) || e.value.stopping || drains > 0 then (e, None)
    else
      var f := Some(e.value.(op := a.op, revision := a.revision, bridge := a.bridge,
                             deadline := a.deadline, cancel := true, preparing := false));
      (f, f)
  }

  /** authBridge.Close keeps the first error and turns nil into context.Canceled. */
  function CloseBridge(closed: map<Gen, Error>, gen: Gen, outcome: Option<Error>): map<Gen, Error> {
    if gen in closed then closed
    else closed[gen := if outcome.Some? then outcome.value else CANCELED]
  }

  /** `closed` holds the bridges closed so far, by the generation that owns them. */
  function Finish(e: Entry, closed: map<Gen, Error>, gen: Gen, outcome: Option<Error>): (Entry, map<Gen, Error>) {
    if !Owned(e, gen) || e.value.finished then (e, closed)
    else
      (Some(e.value.(finished := true, outcome := outcome, cancel := false)),
       if e.value.bridge then CloseBridge(closed, gen, outcome) else closed)
  }

  function Remove(e: Entry, gen: Gen): Entry {
    if Owned(e, gen) then MarkReported(e.value) else e
  }

  /** The test under which acquireStatusFlight counts a reader. */
  predicate MatchesStatus(f: Flight, requested: Gen, cand: Flight) {
    !f.preparing && f.generation == requested && f.op == cand.op && f.revision == cand.revision &&
    f.auth == cand.auth && f.binding == cand.binding
  }

  /** The test under which Status answers with a conflict. */
  predicate RefusesStatus(f: Entry, requested: Gen, cand: Flight) {
    f.None? || f.value.preparing || f.value.op != cand.op || f.value.revision != cand.revision ||
    f.value.auth != cand.auth || f.value.binding != cand.binding || f.value.generation != requested
  }

  function AcquireStatus(drains: nat, e: Entry, requested: Gen, cand: Flight): (Entry, Entry, bool) {
    if drains > 0 then (e, None, false)
    else if e.None? then (Some(cand), Some(cand), true)
    else
      var kept := Some(if MatchesStatus(e.value, requested, cand) then Retain(e.value) else e.value);
      (kept, kept, false)
  }

  function ReleaseStatus(e: Entry, gen: Gen): Entry {
    if !Owned(e, gen) then e
    else
      var n := if e.value.statusReaders > 0 then e.value.statusReaders - 1 else 0;
      if n == 0 && e.value.reported then None else Some(e.value.(statusReaders := n))
  }

  function Reconcile(e: Entry, gen: Gen, result: Option<Answer>): (Entry, Option<Answer>) {
    if !Owned(e, gen) then (e, if result.None? then Some(Failure(Conflict)) else result)
    else
      var f := e.value;
      if f.finished && f.outcome.Some? then (MarkReported(f), Some(WorkerError(f.outcome.value)))
      else if result.None? || result.value.InProgress? then (e, result)
      else if !f.finished then (e, Some(InProgress))
      else (MarkReported(f), result)
  }

  function ConsumeFailure(e: Entry, gen: Gen, reported: Error): Entry {
    if Owned(e, gen) && e.value.finished && e.value.outcome == Some(reported) then MarkReported(e.value) else e
  }

  /** The part of serviceFlight after Service returned `err`: the flight to go on with and the error. */
  function ServiceFlight(e: Entry, gen: Gen, err: Option<Error>): (Entry, Option<Error>) {
    if Owned(e, gen) && e.value.finished then (e, None) else (e, err)
  }

  function Drained(f: Flight): Flight {
    f.(stopping := f.stopping || !f.finished, cancel := false)
  }

  /** The retain test and the caller's refusal test are exact complements, for Status and for a rejoin. */
  lemma RetainOrRefuse(e: Entry, requested: Gen, cand: Flight)
    requires e.Some?
    ensures
      var (kept, f, own) := AcquireStatus(0, e, requested, cand);
      && !own
      && kept == Some(if RefusesStatus(f, requested, cand) then e.value else Retain(e.value))
    ensures
      var (kept, f, own) := Reserve(0, e, cand);
      && !own
      && kept == Some(if MatchesRejoin(f, cand) then Retain(e.value) else e.value)
  {}

  /** A drain that has begun refuses reservations, Status acquisitions and activations. */
  lemma DrainRefuses(drains: nat, e: Entry, gen: Gen, f: Flight, a: Activation)
    requires drains > 0
    ensures Reserve(drains, e, f) == (e, None, false)
    ensures AcquireStatus(drains, e, gen, f) == (e, None, false)
    ensures Activate(drains, e, gen, a) == (e, None)
  {}

  // ---- The registry as a map ----

  datatype Registry = Registry(flights: map<Key, Flight>, drains: nat, closed: map<Gen, Error>) {
    function Get(key: Key): Entry {
      if key in flights then Some(flights[key]) else None
    }

    function Put(key: Key, e: Entry): Registry {
      this.(flights := if e.Some? then flights[key := e.value] else flights - {key})
    }
  }

  function DrainBegin(r: Registry): Registry {
    r.(drains := r.drains + 1, flights := map k | k in r.flights :: Drained(r.flights[k]))
  }

  /** The flights whose cancel func a drain takes. */
  function DrainTakes(r: Registry): set<Key> {
    set k | k in r.flights && r.flights[k].cancel
  }

  /** A critical section on one key leaves what is stored under every other key alone. */
  lemma PutGet(r: Registry, key: Key, e: Entry, other: Key)
    ensures r.Put(key, e).Get(key) == e
    ensures other != key ==> r.Put(key, e).Get(other) == r.Get(other)
    ensures r.Put(key, r.Get(key)) == r
  {}

  method MarkFlight(flight: Flight) returns (f: Flight, took: bool)
    ensures f == Drained(flight) && took == flight.cancel
  {
    f, took := flight, false;
    if !f.finished {
      f := f.(stopping := true);
    }
    if f.cancel {
      took := true;
      f := f.(cancel := false);
    }
  }

  /** The loop of DrainInFlight over the registry, in any order. */
  method MarkAll(flights: map<Key, Flight>) returns (marked: map<Key, Flight>, taken: set<Key>)
    ensures marked == map k | k in flights :: Drained(flights[k])
    ensures taken == set k | k in flights && flights[k].cancel
  {
    marked, taken := flights, {};
    var todo := flights.Keys;
    while todo != {}
      invariant todo <= flights.Keys == marked.Keys
      invariant forall k | k in flights :: marked[k] == if k in todo then flights[k] else Drained(flights[k])
      invariant forall k :: k in taken <==> k in flights && k !in todo && flights[k].cancel
    {
      var k :| k in todo;
      todo := todo - {k};
      var f, took := MarkFlight(marked[k]);
      marked := marked[k := f];
      if took {
        taken := taken + {k};
      }
    }
  }

  /** The registry as the program holds it: package variables guarded by flightMu. */
  class FlightRegistry {
    var flights: map<Key, Flight>
    var drains: nat
    var closed: map<Gen, Error>

    ghost function State(): Registry
      reads this
    {
      Registry(flights, drains, closed)
    }

    constructor ()
      ensures State() == Registry(map[], 0, map[])
    {
      flights, drains, closed := map[], 0, map[];
    }

    method ReserveFlight(key: Key, f: Flight) returns (own: Option<Flight>, reserved: bool)
      modifies this
      ensures var (e, own', reserved') := Reserve(old(drains), old(State()).Get(key), f);
        State() == old(State()).Put(key, e) && own == own' && reserved == reserved'
    {
      if drains > 0 {
        return None, false;
      }
      if key in flights {
        var existing := flights[key];
        if MatchesRejoin(Some(existing), f) {
          existing := existing.(statusReaders := existing.statusReaders + 1);
        }
        flights := flights[key := existing];
        return Some(existing), false;
      }
      flights := flights[key := f];
      return Some(f), true;
    }

    method ActivateFlight(key: Key, gen: Gen, a: Activation) returns (own: Option<Flight>)
      modifies this
      ensures var (e, own') := Activate(old(drains), old(State()).Get(key), gen, a);
        State() == old(State()).Put(key, e) && own == own'
    {
      if key !in flights || flights[key].generation != gen || flights[key].stopping || drains > 0 {
        return None;
      }
      var f := flights[key].(op := a.op, revision := a.revision, bridge := a.bridge, deadline := a.deadline);
      f := f.(cancel := true);
      f := f.(preparing := false);
      flights := flights[key := f];
      return Some(f);
    }

    method FinishFlight(key: Key, gen: Gen, outcome: Option<Error>)
      modifies this
      ensures var (e, closed') := Finish(old(State()).Get(key), old(closed), gen, outcome);
        State() == old(State()).Put(key, e).(closed := closed')
    {
      if key in flights && flights[key].generation == gen {
        var f := flights[key];
        if f.finished {
          return;
        }
        f := f.(finished := true, outcome := outcome, cancel := false);
        flights := flights[key := f];
        if f.bridge && gen !in closed {
          closed := closed[gen := if outcome.Some? then outcome.value else CANCELED];
        }
      }
    }

    method RemoveOwnedFlight(key: Key, gen: Gen)
      modifies this
      ensures State() == old(State()).Put(key, Remove(old(State()).Get(key), gen))
    {
      if key in flights && flights[key].generation == gen {
        Report(key);
      }
    }

    method Report(key: Key)
      requires key in flights
      modifies this
      ensures State() == old(State()).Put(key, MarkReported(old(flights)[key]))
    {
      flights := flights[key := flights[key].(reported := true)];
      if flights[key].statusReaders == 0 {
        flights := flights - {key};
        assert flights == old(flights) - {key};
      }
    }

    method AcquireStatusFlight(key: Key, requested: Gen, candidate: Flight) returns (f: Option<Flight>, owned: bool)
      modifies this
      ensures var (e, f', owned') := AcquireStatus(old(drains), old(State()).Get(key), requested, candidate);
        State() == old(State()).Put(key, e) && f == f' && owned == owned'
    {
      if drains > 0 {
        return None, false;
      }
      if key !in flights {
        flights := flights[key := candidate];
        return Some(candidate), true;
      }
      var existing := flights[key];
      if MatchesStatus(existing, requested, candidate) {
        existing := existing.(statusReaders := existing.statusReaders + 1);
      }
      flights := flights[key := existing];
      return Some(existing), false;
    }

    method ReleaseStatusFlight(key: Key, gen: Gen)
      modifies this
      ensures State() == old(State()).Put(key, ReleaseStatus(old(State()).Get(key), gen))
    {
      if key in flights && flights[key].generation == gen {
        var f := flights[key];
        if f.statusReaders > 0 {
          f := f.(statusReaders := f.statusReaders - 1);
        }
        flights := flights[key := f];
        if f.statusReaders == 0 && f.reported {
          flights := flights - {key};
          assert flights == old(flights) - {key};
        }
      }
    }

    method ReconcileFlightResult(key: Key, gen: Gen, result: Option<Answer>) returns (answer: Option<Answer>)
      modifies this
      ensures var (e, answer') := Reconcile(old(State()).Get(key), gen, result);
        State() == old(State()).Put(key, e) && answer == answer'
    {
      if key !in flights || flights[key].generation != gen {
        return if result.None? then Some(Failure(Conflict)) else result;
      }
      var f := flights[key];
      if f.finished && f.outcome.Some? {
        Report(key);
        return Some(WorkerError(f.outcome.value));
      }
      if result.None? || result.value.InProgress? {
        return result;
      }
      if !f.finished {
        return Some(InProgress);
      }
      Report(key);
      return result;
    }

    method ConsumeSynchronousFailure(key: Key, gen: Gen, reported: Error)
      modifies this
      ensures State() == old(State()).Put(key, ConsumeFailure(old(State()).Get(key), gen, reported))
    {
      if key in flights && flights[key].generation == gen && flights[key].finished && flights[key].outcome == Some(reported) {
        Report(key);
      }
    }

    /** The marking section of DrainInFlight. */
    method MarkDrain() returns (taken: set<Key>)
      modifies this
      ensures State() == DrainBegin(old(State()))
      ensures taken == DrainTakes(old(State()))
    {
      drains := drains + 1;
      flights, taken := MarkAll(flights);
    }

    /** One round of the drain's polling loop: how many flights are unfinished. */
    method CountRemaining() returns (remaining: nat)
      ensures remaining == |set k | k in flights && !flights[k].finished|
      ensures remaining == 0 <==> forall k | k in flights :: flights[k].finished
    {
      remaining := 0;
      var todo := flights.Keys;
      ghost var seen := {};
      while todo != {}
        invariant todo <= flights.Keys
        invariant seen == set k | k in flights && k !in todo && !flights[k].finished
        invariant remaining == |seen|
        decreases |todo|
      {
        var k :| k in todo;
        todo := todo - {k};
        if !flights[k].finished {
          remaining := remaining + 1;
          seen := seen + {k};
        }
      }
      assert forall k | k in flights :: flights[k].finished || k in seen;
      assert seen == set k | k in flights && !flights[k].finished;
      if remaining != 0 {
        assert seen != {};
        ghost var k :| k in seen;
        assert !flights[k].finished;
      }
    }
  }
}
