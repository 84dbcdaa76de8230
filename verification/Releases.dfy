// The decisions about a Helm release record (pkg/resources/helm/release.go):
// what submit plans, and what a Status poll reads out of a record.
module Releases {
  import opened Base
  import opened Flights
  import Text

  datatype Status =
    | Deployed | Failed | Superseded | Uninstalled | Uninstalling
    | PendingInstall | PendingUpgrade | PendingRollback | Unknown

  datatype Info = Info(status: Status, lastDeployed: int, firstDeployed: int)  // 0 is the zero time
  datatype Chart = Chart(name: string, version: string)

  /** `config` is the values tree as canonical JSON, `timeout` what releaseTimeout answers. */
  datatype Record = Record(version: int, info: Option<Info>, owned: bool, chart: Option<Chart>, config: string, timeout: int)

  datatype Props = Props(chart: string, version: string, values: string, fingerprint: string)

  datatype Action = Fresh | Upgraded | Retry | Recover | Blocked | Foreign | Rejoin | Settled

  predicate IsPending(s: Status) {
    s.PendingInstall? || s.PendingUpgrade? || s.PendingRollback?
  }

  predicate Pending(r: Record) {
    r.info.Some? && IsPending(r.info.value.status)
  }

  function SetStatus(r: Record, s: Status): Record
    requires r.info.Some?
  {
    r.(info := Some(r.info.value.(status := s)))
  }

  function ChartRefName(ref: string): string {
    var trimmed := if |ref| > 0 && ref[|ref| - 1] == '/' then ref[..|ref| - 1] else ref;
    var i := Text.Last(trimmed, '/');
    if i.Some? then trimmed[i.value + 1..] else trimmed
  }

  predicate StoredChartUsable(r: Record, want: Props) {
    r.chart.Some? && want.version != "" && want.version == r.chart.value.version &&
    ChartRefName(want.chart) == r.chart.value.name
  }

  predicate IsSettled(r: Record, want: Option<Props>) {
    want.Some? && r.owned && r.info.Some? && r.info.value.status == Deployed &&
    StoredChartUsable(r, want.value) && r.config == want.value.values
  }

  predicate Rejoinable(r: Record, flight: Option<Flight>, want: Option<Props>, now: int) {
    flight.Some? && want.Some? &&
    !(flight.value.deadline.Some? && now > flight.value.deadline.value) &&
    flight.value.revision == r.version &&
    want.value.fingerprint != "" && want.value.fingerprint == flight.value.fingerprint
  }

  predicate Abandoned(r: Record, flight: Option<Flight>) {
    flight.None? && r.owned
  }

  /** When the record's last operation began; the zero time when it does not say. */
  function Started(r: Record): int {
    if r.info.None? then 0 else if r.info.value.lastDeployed != 0 then r.info.value.lastDeployed else r.info.value.firstDeployed
  }

  predicate Stalled(r: Record, flight: Option<Flight>, now: int) {
    r.info.Some? &&
    !(flight.Some? && (flight.value.deadline.None? || now < flight.value.deadline.value)) &&
    Started(r) != 0 && now - Started(r) > 2 * r.timeout
  }

  function PlanSubmit(current: Option<Record>, isCreate: bool, flight: Option<Flight>, want: Option<Props>, now: int): (Action, int) {
    if current.None? then (Fresh, 1)
    else
      var r := current.value;
      if Pending(r) then
        if Rejoinable(r, flight, want, now) then (Rejoin, r.version)
        else if Abandoned(r, flight) then (Recover, r.version)
        else if Stalled(r, flight, now) then (Blocked, r.version)
        else (Retry, r.version)
      else if IsSettled(r, want) then (Settled, r.version)
      else if isCreate && !r.owned then (Foreign, r.version)
      else (Upgraded, r.version + 1)
  }

  /** The plans the dispatch in submit does not return on: it goes on to start a worker. */
  predicate Dispatches(a: Action) {
    a.Fresh? || a.Upgraded? || a.Blocked?
  }

  function WorkerOp(a: Action): Op {
    if a.Upgraded? then Upgrade else Install
  }

  /** What installStatus does with the record it read: answer, or rewrite it first. */
  datatype Verdict = Say(answer: Answer) | Rewrite

  function ReadinessAnswer(r: Record, flight: Option<Flight>, now: int): Answer {
    if Stalled(r, flight, now) then Failure(General) else InProgress
  }

  /** A record without Info makes the program panic here, hence the precondition. */
  function InstallVerdict(rel: Option<Record>, flight: Option<Flight>, want: int, op: Op, ready: bool, now: int): Verdict
    requires rel.Some? ==> rel.value.info.Some?
  {
    if rel.None? then
      if flight.Some? && flight.value.op == op && flight.value.revision == want
         && flight.value.deadline.Some? && now < flight.value.deadline.value
      then Say(InProgress) else Say(Failure(NotFound))
    else
      var r := rel.value;
      if r.version > want then Say(Failure(General))
      else if r.version < want then Say(InProgress)
      else if Pending(r) then (if flight.Some? then Say(InProgress) else Rewrite)
      else if r.info.value.status == Failed then Say(Failure(General))
      else if r.info.value.status == Deployed then
        Say(if ready then Success else ReadinessAnswer(r, flight, now))
      else Say(InProgress)
  }

  function DeleteAnswer(rel: Option<Record>, flight: Option<Flight>, now: int): Answer {
    if rel.None? || rel.value.info.None? || rel.value.info.value.status == Uninstalled then Success
    else if Abandoned(rel.value, flight) then Failure(Conflict)
    else if Stalled(rel.value, flight, now) then Failure(General)
    else InProgress
  }

  /** recoverAbandoned: what it writes back, by whether every rendered object is present and ready. */
  function Recovered(r: Record, complete: bool): Record
    requires r.info.Some?
  {
    SetStatus(r, if complete then Deployed else Failed)
  }

  /** submit always plans with a nil flight, so it never rejoins. */
  lemma SubmitNeverRejoins(current: Option<Record>, isCreate: bool, want: Option<Props>, now: int)
    ensures PlanSubmit(current, isCreate, None, want, now).0 != Rejoin
  {}

  /** An unfinished owned operation is recovered at once, and the second plan settles it or upgrades over it. */
  lemma RecoveryConverges(r: Record, isCreate: bool, want: Option<Props>, complete: bool, now: int, later: int)
    requires Pending(r) && r.owned
    ensures PlanSubmit(Some(r), isCreate, None, want, now) == (Recover, r.version)
    ensures
      var (action, target) := PlanSubmit(Some(Recovered(r, complete)), isCreate, None, want, later);
      || (action == Settled && target == r.version && complete)
      || (action == Upgraded && target == r.version + 1)
  {}

  /** Settled exactly when there is nothing to do: re-submitting a pinned deployed state starts no worker. */
  lemma ResubmitSettles(r: Record, isCreate: bool, want: Props, now: int)
    ensures PlanSubmit(Some(r), isCreate, None, Some(want), now) == (Settled, r.version)
       <==> r.owned && r.info.Some? && r.info.value.status == Deployed && StoredChartUsable(r, want) && r.config == want.values
  {}

  /** A pending record of another tool gets past the dispatch, to the install path, exactly when it stalled. */
  lemma BlockedFallsThrough(r: Record, isCreate: bool, want: Props, now: int)
    requires Pending(r) && !r.owned
    ensures
      var (action, target) := PlanSubmit(Some(r), isCreate, None, Some(want), now);
      && (Dispatches(action) <==> Started(r) != 0 && now - Started(r) > 2 * r.timeout)
      && (Dispatches(action) ==> action == Blocked && WorkerOp(action) == Install && target == r.version)
  {}

  /** A submit plans to recover exactly the pending records of its own, at any time: no clock is asked. */
  lemma SubmitRecoversOwned(r: Record, isCreate: bool, want: Props, now: int)
    ensures PlanSubmit(Some(r), isCreate, None, Some(want), now).0 == Recover <==> Pending(r) && r.owned
  {}

  /** A Status poll rewrites exactly a pending record at its own revision that no flight stands behind, whoever owns
      the record, however young it is. */
  lemma StatusRewritesAnyones(rel: Option<Record>, flight: Option<Flight>, want: int, op: Op, ready: bool, now: int)
    requires rel.Some? ==> rel.value.info.Some?
    ensures InstallVerdict(rel, flight, want, op, ready, now) == Rewrite
       <==> rel.Some? && rel.value.version == want && Pending(rel.value) && flight.None?
  {}
}
