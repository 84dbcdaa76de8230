// authBridge (pkg/resources/helm/auth_bridge.go): a detached worker asks for tokens,
// only a live callback mints them.
module AuthBridge {
  import opened Base
  import opened TokenCache

  datatype OidcInfo = OidcInfo(binding: string, callTimeout: int, pollInterval: int, retryDelay: int, throttleMaxDelay: int)

  const RESERVE: int := 40 * SECOND
  const HEADROOM: int := 30 * SECOND

  function Gap(info: OidcInfo): int {
    Max(info.pollInterval, Max(info.retryDelay, info.throttleMaxDelay))
  }

  function Window(info: OidcInfo): Option<int> {
    if info.binding == "" || info.callTimeout <= 0 || info.pollInterval < 0 || info.retryDelay < 0 || info.throttleMaxDelay < 0
    then None
    else if Gap(info) > MAX_INT64 - RESERVE - HEADROOM || info.callTimeout > MAX_INT64 - RESERVE - HEADROOM - Gap(info)
    then None
    else Some(info.callTimeout + Gap(info) + RESERVE)
  }

  datatype Bridge = Bridge(
    token: Option<Cred>, serviced: int, closed: Option<string>, generation: nat, sourceGeneration: nat,
    requested: bool, window: int, deadline: int)

  function NewBridge(info: OidcInfo, fingerprint: string, allowance: int, deadline: int, now: int): Option<Bridge> {
    var w := Window(info);
    if fingerprint == "" || w.None? || allowance < w.value || now >= deadline then None
    else Some(Bridge(None, now, None, 0, 0, false, w.value, deadline))
  }

  datatype Asked = Closed(error: string) | Starved | Served(cred: Cred) | Queued

  function Limit(b: Bridge): int {
    Min(b.serviced + b.window, b.deadline)
  }

  /** One round of Token under b.mu. */
  function Ask(b: Bridge, now: int): (Bridge, Asked) {
    if b.closed.Some? then (b, Closed(b.closed.value))
    else if now >= Limit(b) then (b, Starved)
    else if b.token.Some? && now < b.token.value.expiry - MARGIN then (b, Served(b.token.value))
    else (b.(requested := true), Queued)
  }

  /** The first section of Service: None when closed, else the generation read and whether the source must be invalidated. */
  function Open(b: Bridge): (Bridge, Option<(nat, bool)>) {
    if b.closed.Some? then (b, None)
    else (b.(sourceGeneration := b.generation), Some((b.generation, b.generation != b.sourceGeneration)))
  }

  /** The last section of Service, with what the source returned. */
  function Deposit(b: Bridge, generation: nat, now: int, minted: Option<Cred>): Bridge {
    if b.closed.Some? || minted.None? || !Usable(minted.value, now) then b
    else if generation != b.generation then b.(requested := true)
    else b.(token := minted, serviced := now, requested := false)
  }

  function Revoke(b: Bridge): Bridge {
    b.(token := None, generation := b.generation + 1, requested := true)
  }

  function Shut(b: Bridge, err: Option<string>): Bridge {
    if b.closed.Some? then b
    else b.(closed := Some(if err.Some? then err.value else "context canceled"), token := None)
  }

  /** An accepted window is exactly call timeout + largest gap + 40s and leaves 30s below the int64 limit;
      it is refused only for invalid metadata or when that sum would not. */
  lemma WindowExact(info: OidcInfo)
    ensures
      var gap := Gap(info);
      var sum := info.callTimeout + gap + 40 * SECOND;
      && gap >= info.pollInterval && gap >= info.retryDelay && gap >= info.throttleMaxDelay
      && (gap == info.pollInterval || gap == info.retryDelay || gap == info.throttleMaxDelay)
      && (Window(info).Some? ==> Window(info).value == sum && 0 < sum <= MAX_INT64 - 30 * SECOND)
      && (Window(info).Some? <==>
            info.binding != "" && info.callTimeout > 0 && info.pollInterval >= 0 && info.retryDelay >= 0
            && info.throttleMaxDelay >= 0 && sum + 30 * SECOND <= MAX_INT64)
  {}

  /** A bridge is refused exactly without an identity, without a window, for an allowance below it, or past its deadline. */
  lemma BridgeExact(info: OidcInfo, fingerprint: string, allowance: int, deadline: int, now: int)
    ensures
      var b := NewBridge(info, fingerprint, allowance, deadline, now);
      && (b.Some? <==> fingerprint != "" && Window(info).Some? && Window(info).value <= allowance && now < deadline)
      && (b.Some? ==> b.value.window == Window(info).value && b.value.deadline == deadline && b.value.serviced == now)
  {}

  /** However often a bridge is closed, whoever asks it is told why it was closed first. */
  lemma FirstCloseIsTold(b: Bridge, first: Option<string>, second: Option<string>, now: int)
    requires b.closed.None?
    ensures Ask(Shut(b, first), now).1 == Closed(match first case Some(e) => e case None => "context canceled")
    ensures Shut(Shut(b, first), second) == Shut(b, first) && Shut(b, first).token.None?
  {}

  class TokenBridge {
    var token: Option<Cred>
    var serviced: int
    var closed: Option<string>
    var generation: nat
    var sourceGeneration: nat
    var requested: bool
    const window: int
    const deadline: int

    ghost function State(): Bridge
      reads this
    {
      Bridge(token, serviced, closed, generation, sourceGeneration, requested, window, deadline)
    }

    constructor (window: int, deadline: int, now: int)
      ensures State() == Bridge(None, now, None, 0, 0, false, window, deadline)
    {
      this.window, this.deadline := window, deadline;
      token, serviced, closed := None, now, None;
      generation, sourceGeneration, requested := 0, 0, false;
    }

    method AskToken(now: int) returns (a: Asked)
      modifies this`requested
      ensures (State(), a) == Ask(old(State()), now)
    {
      if closed.Some? {
        return Closed(closed.value);
      }
      var limit := serviced + window;
      if deadline < limit {
        limit := deadline;
      }
      if now >= limit {
        return Starved;
      }
      if token.Some? && now < token.value.expiry - MARGIN {
        return Served(token.value);
      }
      requested := true;
      return Queued;
    }

    method OpenService() returns (granted: Option<(nat, bool)>)
      modifies this`sourceGeneration
      ensures (State(), granted) == Open(old(State()))
    {
      if closed.Some? {
        return None;
      }
      var invalidate := generation != sourceGeneration;
      sourceGeneration := generation;
      return Some((generation, invalidate));
    }

    method DepositToken(gen: nat, now: int, minted: Option<Cred>)
      modifies this
      ensures State() == Deposit(old(State()), gen, now, minted)
    {
      if closed.Some? || minted.None? || !Usable(minted.value, now) {
        return;
      }
      if gen != generation {
        requested := true;
        return;
      }
      token, serviced := minted, now;
      requested := false;
    }

    method InvalidateToken()
      modifies this
      ensures State() == Revoke(old(State()))
    {
      token := None;
      generation := generation + 1;
      requested := true;
    }

    method CloseWith(err: Option<string>)
      modifies this
      ensures State() == Shut(old(State()), err)
    {
      if closed.Some? {
        return;
      }
      closed := Some(if err.Some? then err.value else "context canceled");
      token := None;
    }
  }
}
