// CachedTokenSource (pkg/auth/cache.go): one refresh at a time, fenced by a generation.
//
// Token is a loop around two critical sections with the mint between them; Probe
// and Complete are those sections. Times are nanoseconds since the Unix epoch.
module TokenCache {
  import opened Base

  const MARGIN: int := 10 * SECOND
  const EARLY: int := 60 * SECOND
  const RECHECK: int := 10 * SECOND
  const ZERO_TIME: int := -62_135_596_800 * SECOND          // time.Time{}
  const YEAR_10000: int := 253_402_300_800 * SECOND

  /** A minted token. `begun` is history: the step at which its mint was begun. */
  datatype Cred = Cred(text: string, expiry: int, begun: nat)

  datatype Cached = Cached(cred: Cred, nextCheck: int)

  /** What a refresh leader remembers across its mint. */
  datatype Lead = Lead(generation: nat, previous: Option<Cached>)

  /** `refreshing` names the channel of the refresh in progress. */
  datatype Cache = Cache(current: Option<Cached>, refreshing: Option<nat>, generation: nat)

  datatype Probed = Serve(cred: Cred) | Wait(channel: nat) | Refresh(lead: Lead)
  datatype Completed = Return(cred: Cred) | Fail | Again

  predicate Usable(cred: Cred, now: int) {
    cred.text != "" && cred.expiry != ZERO_TIME && cred.expiry < YEAR_10000 && now < cred.expiry - MARGIN
  }

  /** time.Time.Sub saturates at the ends of the int64 range. */
  function Sub(a: int, b: int): int {
    Max(MIN_INT64, Min(MAX_INT64, a - b))
  }

  /** Go's division truncates toward zero. */
  function Fifth(d: int): int {
    if d < 0 then -(-d / 5) else d / 5
  }

  predicate SameWithoutLaterExpiry(cred: Cred, previous: Option<Cached>) {
    previous.Some? && cred.text == previous.value.cred.text && cred.expiry <= previous.value.cred.expiry
  }

  function NextCheck(cred: Cred, now: int, previous: Option<Cached>): int {
    var margin := Max(Fifth(Sub(cred.expiry, now)), EARLY);
    var next := cred.expiry - margin;
    var soon := if next <= now || SameWithoutLaterExpiry(cred, previous) then now + RECHECK else next;
    Min(soon, cred.expiry - MARGIN)
  }

  function Probe(c: Cache, now: int, channel: nat): (Cache, Probed) {
    if c.current.Some? && now < c.current.value.nextCheck && now < c.current.value.cred.expiry - MARGIN
    then (c, Serve(c.current.value.cred))
    else if c.refreshing.Some? then (c, Wait(c.refreshing.value))
    else (c.(refreshing := Some(channel)), Refresh(Lead(c.generation, c.current)))
  }

  /** `minted` is None when the mint failed or the leader's context ended; `cancelled` is its context's state at the lock. */
  function Complete(c: Cache, lead: Lead, now: int, minted: Option<Cred>, cancelled: bool): (Cache, Completed) {
    var idle := c.(refreshing := None);
    var invalidated := lead.generation != c.generation;
    if minted.Some? && Usable(minted.value, now) then
      if invalidated then (idle, Again)
      else (idle.(current := Some(Cached(minted.value, NextCheck(minted.value, now, lead.previous)))), Return(minted.value))
    else if !cancelled && !invalidated && lead.previous.Some? && now < lead.previous.value.cred.expiry - MARGIN then
      var kept := lead.previous.value.cred;
      (idle.(current := Some(Cached(kept, Min(now + RECHECK, kept.expiry - MARGIN)))), Return(kept))
    else (idle, Fail)
  }

  function Invalidate(c: Cache): Cache {
    c.(current := None, generation := c.generation + 1)
  }

  // ---- The refresh clock ----

  /** Whatever Complete stores is checked again strictly later, and at least 10s before it expires. */
  lemma StoredIsRechecked(c: Cache, lead: Lead, now: int, minted: Option<Cred>, cancelled: bool)
    ensures
      var (c', done) := Complete(c, lead, now, minted, cancelled);
      && (done.Return? ==>
            && c'.current.Some? && c'.current.value.cred == done.cred
            && now < c'.current.value.nextCheck <= done.cred.expiry - MARGIN)
      && (!done.Return? ==> c'.current == c.current)
      && c'.refreshing.None? && c'.generation == c.generation
  {}

  /** A token in use never has 10 seconds or less to live where the lock is held, the fallback included. */
  lemma ServedHasLife(c: Cache, now: int, channel: nat, lead: Lead, minted: Option<Cred>, cancelled: bool)
    ensures Probe(c, now, channel).1.Serve? ==> now < Probe(c, now, channel).1.cred.expiry - MARGIN
    ensures
      var done := Complete(c, lead, now, minted, cancelled).1;
      done.Return? ==> now < done.cred.expiry - MARGIN
  {}

  /** A renewed token with more than a minute left is checked at least a minute early; and at least a fifth of its
      remaining life early exactly when that life does not outrun the int64 range of a Duration. */
  lemma RenewedIsCheckedEarly(cred: Cred, now: int, previous: Option<Cached>)
    requires !SameWithoutLaterExpiry(cred, previous) && cred.expiry - now > EARLY
    ensures NextCheck(cred, now, previous) <= cred.expiry - 60 * SECOND
    ensures cred.expiry - NextCheck(cred, now, previous) == Max(60 * SECOND, Min(MAX_INT64, cred.expiry - now) / 5)
    ensures cred.expiry - NextCheck(cred, now, previous) >= (cred.expiry - now) / 5
       <==> cred.expiry - now < 5 * (MAX_INT64 / 5) + 5
  {
    var life := cred.expiry - now;
    assert Fifth(Sub(cred.expiry, now)) == Min(MAX_INT64, life) / 5;
    assert Min(MAX_INT64, life) / 5 < life;
  }

  /** A token that did not change, and one with a minute or less to live, is looked at again in ten seconds, or ten seconds
      before it expires if that is sooner. */
  lemma UnchangedIsRecheckedSoon(cred: Cred, now: int, previous: Option<Cached>)
    requires now < cred.expiry - MARGIN
    requires
      || cred.expiry - now <= 60 * SECOND
      || (previous.Some? && previous.value.cred.text == cred.text && cred.expiry <= previous.value.cred.expiry)
    ensures NextCheck(cred, now, previous) == Min(now + 10 * SECOND, cred.expiry - 10 * SECOND)
  {
    assert Fifth(Sub(cred.expiry, now)) == Min(MAX_INT64, cred.expiry - now) / 5;
  }

  /** A token valid for 300 years from the epoch: accepted, but checked less than a fifth of its life early. */
  lemma CenturiesLongTokenIsCheckedLate()
    ensures
      var cred := Cred("t", 300 * 365 * 86_400 * SECOND, 1);
      Usable(cred, 0) && cred.expiry - NextCheck(cred, 0, None) < cred.expiry / 5
  {}

  /** The source as the program holds it. */
  class CachedTokenSource {
    var current: Option<Cached>
    var refreshing: Option<nat>
    var generation: nat

    ghost function State(): Cache
      reads this
    {
      Cache(current, refreshing, generation)
    }

    constructor ()
      ensures State() == Cache(None, None, 0)
    {
      current, refreshing, generation := None, None, 0;
    }

    method InvalidateAll()
      modifies this
      ensures State() == Invalidate(old(State()))
    {
      current := None;
      generation := generation + 1;
    }

    /** The first critical section of a round of Token. */
    method Begin(now: int, channel: nat) returns (p: Probed)
      modifies this`refreshing
      ensures (State(), p) == Probe(old(State()), now, channel)
    {
      if current.Some? {
        var snap := current.value;
        if now < snap.nextCheck && now < snap.cred.expiry - MARGIN {
          return Serve(snap.cred);
        }
      }
      if refreshing.Some? {
        return Wait(refreshing.value);
      }
      refreshing := Some(channel);
      return Refresh(Lead(generation, current));
    }

    /** The critical section after the leader's mint. */
    method Finish(lead: Lead, now: int, minted: Option<Cred>, cancelled: bool) returns (done: Completed)
      modifies this`current, this`refreshing
      ensures (State(), done) == Complete(old(State()), lead, now, minted, cancelled)
    {
      var ok := minted.Some? && Usable(minted.value, now);
      var invalidated := lead.generation != generation;
      done := if ok then (if invalidated then Again else Return(minted.value)) else Fail;
      if ok && !invalidated {
        var cred := minted.value;
        var margin := Fifth(Sub(cred.expiry, now));
        if margin < EARLY {
          margin := EARLY;
        }
        var next := cred.expiry - margin;
        if next <= now || SameWithoutLaterExpiry(cred, lead.previous) {
          next := now + RECHECK;
        }
        if next > cred.expiry - MARGIN {
          next := cred.expiry - MARGIN;
        }
        current := Some(Cached(cred, next));
      }
      if !ok && !cancelled && !invalidated && lead.previous.Some? {
        var kept := lead.previous.value.cred;
        if now < kept.expiry - MARGIN {
          current := Some(Cached(kept, Min(now + RECHECK, kept.expiry - MARGIN)));
          done := Return(kept);
        }
      }
      refreshing := None;
    }
  }
}
