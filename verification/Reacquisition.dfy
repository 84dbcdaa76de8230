// Request ids against the registry they were written from, over runs.
module Reacquisition {
  import opened Base
  import opened Flights
  import opened FlightSystem
  import opened FlightInvariant
  import opened FlightSafety
  import opened Identifiers

  /** An id handed out for an activated flight finds its way back to it: after any run that leaves the flight stored,
      with no drain in progress, a Status call with what the id parses to, and the same identity, retains it. */
  lemma HandedOutIdReacquires(s: Sys, run: seq<Event>, key: Key, f: Flight, namespace: string, name: string,
                              c: CallId, cand: Flight, uuid: string -> bool)
    requires Reachable(s) && CellAt(s, key).entry == Some(f) && !f.preparing
    requires CleanName(namespace) && CleanName(name) && 1 <= f.revision <= MAX_INT64
    requires uuid(f.generation) && forall g :: uuid(g) ==> '#' !in g
    requires Feasible(s, run) && After(s, run).drains == 0 && Owned(CellAt(After(s, run), key).entry, f.generation)
    requires CanAcquire(CellAt(After(s, run), key), c, cand) && cand.auth == f.auth && cand.binding == f.binding
    ensures
      var id, x := FlightRequestId(namespace, name, f), CellAt(After(s, run), key);
      var t, gen := ParseRequestId(id, uuid), RequestGeneration(id, uuid);
      && t.Some? && gen.Some? && t.value.namespace == namespace && t.value.name == name
      && var step := Acquires(c, gen.value, cand.(op := t.value.op, revision := t.value.revision));
         && CanStep(x, 0, step)
         && var y := DoStep(x, 0, step);
            && c in y.calls && y.calls[c].Polling? && y.calls[c].gen == f.generation
            && y.entry == Some(Retain(x.entry.value)) && y.calls[c].view.flight == y.entry
  {
    ReachableInv(s, key);
    RunGrows(s, run, key, f.generation);
    FlightIdRoundTrip(namespace, name, f, uuid);
    HandedOutIdMatches(namespace, name, f, CellAt(After(s, run), key).entry.value, cand, uuid);
  }
}
