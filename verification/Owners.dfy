// The owner walk of discovery (pkg/resources/helm/owners.go): objects whose chain of
// first owners reaches something a release rendered are dropped.
module Owners {
  import opened Base
  import opened Inventory

  datatype OwnerRef = OwnerRef(kind: string, name: string)
  datatype Node = Node(kind: string, namespace: string, name: string)

  /** A cluster that stands still while discovery looks at it; lookups may fail. */
  datatype World = World(lookup: Node -> Result<seq<OwnerRef>, string>, owned: KindRef -> bool)

  const MAX_DEPTH: nat := 4

  /** What one lookup decides about a node: the walk ends there, or goes on to the first owner. */
  datatype Hop = Ends(answer: Result<bool, string>) | Goes(next: Node)

  function HopFrom(w: World, x: Node): Hop {
    match w.lookup(x)
    case Err(e) => Ends(Err(e))
    case Ok(refs) =>
      if refs == [] || refs[0].kind == "" || refs[0].name == "" then Ends(Ok(false))
      else if w.owned(KindRef(refs[0].kind, x.namespace, refs[0].name)) || w.owned(KindRef(refs[0].kind, "", refs[0].name))
      then Ends(Ok(true))
      else Goes(Node(refs[0].kind, x.namespace, refs[0].name))
  }

  // ---- What the walk is meant to decide ----

  /** Within k lookups the chain of first owners reaches something owned. */
  predicate ReachesIn(w: World, x: Node, k: nat)
    decreases k
  {
    k > 0 &&
    match HopFrom(w, x)
    case Ends(answer) => answer == Ok(true)
    case Goes(next) => ReachesIn(w, next, k - 1)
  }

  /** The chain of first owners, however long, reaches something owned. */
  ghost predicate Reaches(w: World, x: Node) {
    exists k: nat :: ReachesIn(w, x, k)
  }

  /** The walk without a memo; None when it runs out of depth undecided. */
  function Plain(w: World, x: Node, left: nat, chain: seq<Node>): Option<Result<bool, string>>
    decreases left
  {
    if left == 0 then None
    else if x in chain then Some(Ok(false))
    else
      match HopFrom(w, x)
      case Ends(answer) => Some(answer)
      case Goes(next) => Plain(w, next, left - 1, chain + [x])
  }

  /** The memo-free walk drops an object when it decides within the depth that a release owns it. */
  predicate PlainDrops(w: World, x: Node) {
    Plain(w, x, MAX_DEPTH, []) == Some(Ok(true))
  }

  predicate Decided(w: World, x: Node) {
    Plain(w, x, MAX_DEPTH, []).Some?
  }

  // ---- The walk with the memo ----

  type Memo = map<Node, bool>

  function Remember(memo: Memo, chain: seq<Node>, answer: bool): Memo {
    memo + map x | x in chain :: answer
  }

  function Walk(w: World, memo: Memo, x: Node, left: nat, chain: seq<Node>): (Result<bool, string>, Memo)
    decreases left
  {
    if left == 0 then (Ok(false), Remember(memo, chain, false))
    else if x in memo then (Ok(memo[x]), Remember(memo, chain, memo[x]))
    else if x in chain then (Ok(false), Remember(memo, chain, false))
    else
      match HopFrom(w, x)
      case Ends(Err(e)) => (Err(e), memo)
      case Ends(Ok(answer)) => (Ok(answer), Remember(memo, chain + [x], answer))
      case Goes(next) => Walk(w, memo, next, left - 1, chain + [x])
  }

  /** The ids the memoised filter keeps, one walk after the other. */
  function KeptFrom(w: World, memo: Memo, kind: string, ids: seq<string>): seq<string>
    decreases |ids|
  {
    if ids == [] then []
    else
      var parts := SplitId(ids[0]);
      if parts.None? then [ids[0]] + KeptFrom(w, memo, kind, ids[1..])
      else
        var (answer, memo') := Walk(w, memo, Node(kind, parts.value.0, parts.value.1), MAX_DEPTH, []);
        (if answer == Ok(true) then [] else [ids[0]]) + KeptFrom(w, memo', kind, ids[1..])
  }

  class OwnerWalk {
    var memo: Memo
    const world: World

    constructor (world: World)
      ensures memo == map[] && this.world == world
    {
      this.world := world;
      memo := map[];
    }

    /** reachesRelease, as the loop it is. */
    method ReachesRelease(x: Node) returns (answer: Result<bool, string>)
      modifies this`memo
      ensures (answer, memo) == Walk(world, old(memo), x, MAX_DEPTH, [])
    {
      var cur := x;
      var visiting: set<Node> := {};
      var chain: seq<Node> := [];
      var depth := 0;
      while depth < MAX_DEPTH
        invariant depth <= MAX_DEPTH && memo == old(memo)
        invariant forall n :: n in visiting <==> n in chain
        invariant Walk(world, memo, x, MAX_DEPTH, []) == Walk(world, memo, cur, MAX_DEPTH - depth, chain)
      {
        if cur in memo {
          answer := Ok(memo[cur]);
          memo := Remember(memo, chain, memo[cur]);
          return;
        }
        if cur in visiting {
          memo := Remember(memo, chain, false);
          return Ok(false);
        }
        visiting := visiting + {cur};
        chain := chain + [cur];
        var refs := world.lookup(cur);
        if refs.Err? {
          return Err(refs.error);
        }
        if refs.value == [] {
          memo := Remember(memo, chain, false);
          return Ok(false);
        }
        var kind, name := refs.value[0].kind, refs.value[0].name;
        if kind == "" || name == "" {
          memo := Remember(memo, chain, false);
          return Ok(false);
        }
        if world.owned(KindRef(kind, cur.namespace, name)) || world.owned(KindRef(kind, "", name)) {
          memo := Remember(memo, chain, true);
          return Ok(true);
        }
        cur := Node(kind, cur.namespace, name);
        depth := depth + 1;
      }
      memo := Remember(memo, chain, false);
      return Ok(false);
    }
  }

  lemma KeptStep(before: seq<string>, after: seq<string>, id: string, rest: seq<string>, all: seq<string>)
    requires (after == before && all == [] + rest) || (after == before + [id] && all == [id] + rest)
    ensures after + rest == before + all
  {}

  lemma {:induction false} NothingReached(w: World, memo: Memo, x: Node, left: nat, chain: seq<Node>)
    requires (forall ref :: !w.owned(ref)) && forall n | n in memo :: !memo[n]
    ensures var (answer, memo') := Walk(w, memo, x, left, chain); answer != Ok(true) && forall n | n in memo' :: !memo'[n]
    decreases left
  {
    if left > 0 && x !in memo && x !in chain && HopFrom(w, x).Goes? {
      NothingReached(w, memo, HopFrom(w, x).next, left - 1, chain + [x]);
    }
  }

  /** When no release renders anything the walks keep every id, so leaving them out changes nothing. */
  lemma {:induction false} NothingDropped(w: World, memo: Memo, kind: string, ids: seq<string>)
    requires (forall ref :: !w.owned(ref)) && forall n | n in memo :: !memo[n]
    ensures KeptFrom(w, memo, kind, ids) == ids
    decreases |ids|
  {
    if ids != [] {
      var parts := SplitId(ids[0]);
      if parts.None? {
        NothingDropped(w, memo, kind, ids[1..]);
      } else {
        var x := Node(kind, parts.value.0, parts.value.1);
        NothingReached(w, memo, x, MAX_DEPTH, []);
        NothingDropped(w, Walk(w, memo, x, MAX_DEPTH, []).1, kind, ids[1..]);
      }
    }
  }

  /** FilterControllerOwned, over no index or one that knows what the world's releases own. */
  method FilterControllerOwned(world: World, index: Index?, resourceType: string, ids: seq<string>) returns (kept: seq<string>)
    requires index != null ==> index.Valid() && forall ref :: world.owned(ref) <==> index.OwnedBy(ref).Some?
    ensures kept ==
      if index == null || KindOf(resourceType) == "" || KindOf(resourceType) == "Namespace" then ids
      else KeptFrom(world, map[], KindOf(resourceType), ids)
  {
    var kind := KindOf(resourceType);
    if index == null || index.objects == map[] || |ids| == 0 || kind == "" || kind == "Namespace" {
      if index != null && index.objects == map[] {
        NothingDropped(world, map[], kind, ids);
      }
      return ids;
    }
    var walk := new OwnerWalk(world);
    kept := [];
    for i := 0 to |ids|
      invariant fresh(walk) && walk.world == world
      invariant kept + KeptFrom(world, walk.memo, kind, ids[i..]) == KeptFrom(world, map[], kind, ids)
    {
      assert ids[i..][0] == ids[i] && ids[i..][1..] == ids[i + 1..];
      ghost var before, memo := kept, walk.memo;
      var parts := SplitId(ids[i]);
      if parts.None? {
        kept := kept + [ids[i]];
      } else {
        var answer := walk.ReachesRelease(Node(kind, parts.value.0, parts.value.1));
        if answer.Err? || !answer.value {
          kept := kept + [ids[i]];
        }
      }
      KeptStep(before, kept, ids[i], KeptFrom(world, walk.memo, kind, ids[i + 1..]), KeptFrom(world, memo, kind, ids[i..]));
    }
  }

  // ---- Why it is right ----

  /** Each node of the chain hops to the next one, and the last one to `x`. */
  predicate Leads(w: World, chain: seq<Node>, x: Node)
    decreases |chain|
  {
    chain == [] ||
    (HopFrom(w, chain[|chain| - 1]) == Goes(x) && Leads(w, chain[..|chain| - 1], chain[|chain| - 1]))
  }

  lemma LeadsOn(w: World, chain: seq<Node>, x: Node, next: Node)
    requires Leads(w, chain, x) && HopFrom(w, x) == Goes(next)
    ensures Leads(w, chain + [x], next)
  {
    assert (chain + [x])[..|chain|] == chain;
  }

  lemma {:induction false} SuccessorIn(w: World, chain: seq<Node>, x: Node, n: Node)
    requires Leads(w, chain, x) && n in chain
    ensures HopFrom(w, n).Goes? && (HopFrom(w, n).next == x || HopFrom(w, n).next in chain)
    decreases |chain|
  {
    var last := |chain| - 1;
    if n != chain[last] {
      SuccessorIn(w, chain[..last], chain[last], n);
    }
  }

  lemma ReachesNext(w: World, x: Node)
    ensures HopFrom(w, x).Ends? ==> (Reaches(w, x) <==> HopFrom(w, x).answer == Ok(true))
    ensures HopFrom(w, x).Goes? ==> (Reaches(w, x) <==> Reaches(w, HopFrom(w, x).next))
  {
    match HopFrom(w, x)
    case Ends(answer) =>
      assert ReachesIn(w, x, 1) <==> answer == Ok(true);
    case Goes(next) =>
      if Reaches(w, x) {
        var k: nat :| ReachesIn(w, x, k);
        assert ReachesIn(w, next, k - 1);
      }
      if Reaches(w, next) {
        var k: nat :| ReachesIn(w, next, k);
        assert ReachesIn(w, x, k + 1);
      }
  }

  /** The first owner a lookup of x names, taken to be in x's namespace. */
  predicate OwnedBy(w: World, x: Node, owner: Node) {
    w.lookup(x).Ok? && w.lookup(x).value != []
    && w.lookup(x).value[0] == OwnerRef(owner.kind, owner.name) && owner.kind != "" && owner.name != ""
    && owner.namespace == x.namespace
  }

  /** Some release rendered x, in its namespace or as a cluster-scoped object. */
  predicate Rendered(w: World, x: Node) {
    w.owned(KindRef(x.kind, x.namespace, x.name)) || w.owned(KindRef(x.kind, "", x.name))
  }

  /** x, its first owner, that one's first owner and so on, up to something a release rendered. */
  predicate OwnersUp(w: World, x: Node, chain: seq<Node>) {
    |chain| > 1 && chain[0] == x && Rendered(w, chain[|chain| - 1])
    && forall i | 0 < i < |chain| :: OwnedBy(w, chain[i - 1], chain[i])
  }

  lemma {:induction false} ClimbsTo(w: World, x: Node, k: nat) returns (chain: seq<Node>)
    requires ReachesIn(w, x, k)
    ensures OwnersUp(w, x, chain)
    decreases k
  {
    var first := w.lookup(x).value[0];
    var owner := Node(first.kind, x.namespace, first.name);
    if HopFrom(w, x).Ends? {
      chain := [x, owner];
    } else {
      var rest := ClimbsTo(w, owner, k - 1);
      chain := [x] + rest;
    }
  }

  lemma {:induction false} ClimbReaches(w: World, x: Node, chain: seq<Node>)
    requires OwnersUp(w, x, chain)
    ensures Reaches(w, x)
    decreases |chain|
  {
    ReachesNext(w, x);
    assert OwnedBy(w, chain[0], chain[1]);
    if HopFrom(w, x).Goes? {
      assert chain[1..][|chain| - 2] == chain[|chain| - 1];
      ClimbReaches(w, chain[1], chain[1..]);
    }
  }

  /** The walk looks for a chain of first owners, in one namespace, that ends in something a release rendered there or
      without a namespace. */
  lemma ReachesByOwners(w: World, x: Node)
    ensures Reaches(w, x) <==> exists chain :: OwnersUp(w, x, chain)
  {
    if Reaches(w, x) {
      var k: nat :| ReachesIn(w, x, k);
      var chain := ClimbsTo(w, x, k);
    }
    if chain :| OwnersUp(w, x, chain) {
      ClimbReaches(w, x, chain);
    }
  }

  /** All nodes of a chain share the fate of the node it leads to. */
  lemma {:induction false} ChainShares(w: World, chain: seq<Node>, x: Node)
    requires Leads(w, chain, x)
    ensures forall n | n in chain :: Reaches(w, n) <==> Reaches(w, x)
    decreases |chain|
  {
    if chain != [] {
      var last := |chain| - 1;
      ReachesNext(w, chain[last]);
      ChainShares(w, chain[..last], chain[last]);
    }
  }

  /** What a failed lookup cuts short is not remembered. */
  lemma {:induction false} FailuresAreForgotten(w: World, memo: Memo, x: Node, left: nat, chain: seq<Node>)
    requires Walk(w, memo, x, left, chain).0.Err?
    ensures Walk(w, memo, x, left, chain).1 == memo
    decreases left
  {
    if HopFrom(w, x).Goes? {
      FailuresAreForgotten(w, memo, HopFrom(w, x).next, left - 1, chain + [x]);
    }
  }

  /** A chain that returns to one of its nodes never reaches anything. */
  lemma {:induction false} CycleNeverReaches(w: World, chain: seq<Node>, x: Node, n: Node, k: nat)
    requires Leads(w, chain, x) && x in chain && n in chain
    ensures !ReachesIn(w, n, k)
    decreases k
  {
    if k > 0 {
      SuccessorIn(w, chain, x, n);
      CycleNeverReaches(w, chain, x, HopFrom(w, n).next, k - 1);
    }
  }

  /** A memo that only ever says true of nodes that reach a release. */
  ghost predicate Sound(w: World, memo: Memo) {
    forall n | n in memo && memo[n] :: Reaches(w, n)
  }

  ghost predicate Exact(w: World, memo: Memo) {
    forall n | n in memo :: memo[n] <==> Reaches(w, n)
  }

  lemma {:induction false} WalkSound(w: World, memo: Memo, x: Node, left: nat, chain: seq<Node>)
    requires Sound(w, memo) && Leads(w, chain, x)
    ensures var (answer, memo') := Walk(w, memo, x, left, chain);
      Sound(w, memo') && (answer == Ok(true) ==> Reaches(w, x))
    decreases left
  {
    ReachesNext(w, x);
    ChainShares(w, chain, x);
    if left > 0 && x !in memo && x !in chain && HopFrom(w, x).Goes? {
      LeadsOn(w, chain, x, HopFrom(w, x).next);
      WalkSound(w, memo, HopFrom(w, x).next, left - 1, chain + [x]);
    }
  }

  lemma RememberExact(w: World, memo: Memo, chain: seq<Node>, answer: bool)
    requires Exact(w, memo) && forall n | n in chain :: answer <==> Reaches(w, n)
    ensures Exact(w, Remember(memo, chain, answer))
  {}

  lemma CycleReachesNothing(w: World, chain: seq<Node>, x: Node)
    requires Leads(w, chain, x) && x in chain
    ensures !Reaches(w, x)
  {
    forall k: nat ensures !ReachesIn(w, x, k) {
      CycleNeverReaches(w, chain, x, x, k);
    }
  }

  lemma KnownExact(w: World, memo: Memo, x: Node, left: nat, chain: seq<Node>)
    requires Exact(w, memo) && Leads(w, chain, x) && left > 0 && (x in memo || x in chain)
    ensures var (answer, memo') := Walk(w, memo, x, left, chain);
      Exact(w, memo') && (answer == Ok(true) <==> Reaches(w, x))
  {
    ChainShares(w, chain, x);
    if x in memo {
      RememberExact(w, memo, chain, memo[x]);
    } else {
      CycleReachesNothing(w, chain, x);
      RememberExact(w, memo, chain, false);
    }
  }

  lemma EndExact(w: World, memo: Memo, x: Node, left: nat, chain: seq<Node>)
    requires Exact(w, memo) && Leads(w, chain, x) && left > 0 && x !in memo && x !in chain && HopFrom(w, x).Ends?
    ensures var (answer, memo') := Walk(w, memo, x, left, chain);
      Exact(w, memo') && (answer == Ok(true) <==> Reaches(w, x))
  {
    ReachesNext(w, x);
    ChainShares(w, chain, x);
    if HopFrom(w, x).answer.Ok? {
      RememberExact(w, memo, chain + [x], HopFrom(w, x).answer.value);
    }
  }

  lemma {:induction false} WalkExact(w: World, memo: Memo, x: Node, left: nat, chain: seq<Node>)
    requires Exact(w, memo) && Leads(w, chain, x) && Plain(w, x, left, chain).Some?
    ensures var (answer, memo') := Walk(w, memo, x, left, chain);
      Exact(w, memo') && (answer == Ok(true) <==> Reaches(w, x))
    decreases left
  {
    if x in memo || x in chain {
      KnownExact(w, memo, x, left, chain);
    } else if HopFrom(w, x).Ends? {
      EndExact(w, memo, x, left, chain);
    } else {
      ReachesNext(w, x);
      LeadsOn(w, chain, x, HopFrom(w, x).next);
      WalkExact(w, memo, HopFrom(w, x).next, left - 1, chain + [x]);
    }
  }

  /** Without a memo the walk is the plain walk, running out of depth counting as not owned. */
  lemma {:induction false} WalkPlain(w: World, x: Node, left: nat, chain: seq<Node>)
    ensures Walk(w, map[], x, left, chain).0 == (if Plain(w, x, left, chain).Some? then Plain(w, x, left, chain).value else Ok(false))
    decreases left
  {
    if left > 0 && x !in chain && HopFrom(w, x).Goes? {
      WalkPlain(w, HopFrom(w, x).next, left - 1, chain + [x]);
    }
  }

  predicate Dropped(w: World, kind: string, id: string, drops: Node -> bool) {
    SplitId(id).Some? && drops(Node(kind, SplitId(id).value.0, SplitId(id).value.1))
  }

  ghost predicate MayDrop(w: World, kind: string, id: string) {
    SplitId(id).Some? && Reaches(w, Node(kind, SplitId(id).value.0, SplitId(id).value.1))
  }

  /** `kept` is `ids` with nothing removed but ids whose owner chain reaches a release, the rest in order. */
  ghost predicate Thins(w: World, kind: string, kept: seq<string>, ids: seq<string>)
    decreases |ids|
  {
    if ids == [] then kept == []
    else
      || (kept != [] && kept[0] == ids[0] && Thins(w, kind, kept[1..], ids[1..]))
      || (MayDrop(w, kind, ids[0]) && Thins(w, kind, kept, ids[1..]))
  }

  lemma ThinsKeep(w: World, kind: string, kept: seq<string>, ids: seq<string>)
    requires ids != [] && Thins(w, kind, kept, ids[1..])
    ensures Thins(w, kind, [ids[0]] + kept, ids)
    ensures MayDrop(w, kind, ids[0]) ==> Thins(w, kind, [] + kept, ids)
  {
    assert ([ids[0]] + kept)[1..] == kept;
    assert [] + kept == kept;
  }

  /** Whatever the order, the depth and whatever lookups fail: an id is dropped only if its owner chain reaches
      something a release rendered; every other id is kept, in order. */
  lemma {:induction false} DropsOnlyOwned(w: World, memo: Memo, kind: string, ids: seq<string>)
    requires Sound(w, memo)
    ensures Thins(w, kind, KeptFrom(w, memo, kind, ids), ids)
    decreases |ids|
  {
    if ids != [] {
      var parts := SplitId(ids[0]);
      if parts.None? {
        DropsOnlyOwned(w, memo, kind, ids[1..]);
        ThinsKeep(w, kind, KeptFrom(w, memo, kind, ids[1..]), ids);
      } else {
        var x := Node(kind, parts.value.0, parts.value.1);
        var (answer, memo') := Walk(w, memo, x, MAX_DEPTH, []);
        WalkSound(w, memo, x, MAX_DEPTH, []);
        DropsOnlyOwned(w, memo', kind, ids[1..]);
        ThinsKeep(w, kind, KeptFrom(w, memo', kind, ids[1..]), ids);
      }
    }
  }

  /** When every starting chain is decided within the depth, the memoised filter keeps exactly what a memo-free walk
      keeps, shared ancestors and cycles included, in the same order. */
  lemma {:induction false} MemoChangesNothing(w: World, memo: Memo, kind: string, ids: seq<string>)
    requires Exact(w, memo)
    requires forall id | id in ids && SplitId(id).Some? :: Decided(w, Node(kind, SplitId(id).value.0, SplitId(id).value.1))
    ensures KeptFrom(w, memo, kind, ids) == Kept(ids, id => !Dropped(w, kind, id, x => PlainDrops(w, x)))
    decreases |ids|
  {
    if ids != [] {
      var parts := SplitId(ids[0]);
      if parts.None? {
        MemoChangesNothing(w, memo, kind, ids[1..]);
      } else {
        var x := Node(kind, parts.value.0, parts.value.1);
        WalkExact(w, memo, x, MAX_DEPTH, []);
        WalkExact(w, map[], x, MAX_DEPTH, []);
        WalkPlain(w, x, MAX_DEPTH, []);
        MemoChangesNothing(w, Walk(w, memo, x, MAX_DEPTH, []).1, kind, ids[1..]);
      }
    }
  }

  // ---- Where the depth bound shows ----

  /** The nodes the walk without a memo looks up. */
  function Visit(w: World, x: Node, left: nat): set<Node>
    decreases left
  {
    if left == 0 then {}
    else if HopFrom(w, x).Goes? then {x} + Visit(w, HopFrom(w, x).next, left - 1)
    else {x}
  }

  lemma {:induction false} VisitShares(w: World, x: Node, left: nat)
    ensures forall n | n in Visit(w, x, left) :: Reaches(w, n) <==> Reaches(w, x)
    decreases left
  {
    ReachesNext(w, x);
    if left > 0 && HopFrom(w, x).Goes? {
      VisitShares(w, HopFrom(w, x).next, left - 1);
    }
  }

  lemma DecidedExactly(w: World, x: Node)
    requires Decided(w, x)
    ensures PlainDrops(w, x) <==> Reaches(w, x)
  {
    WalkExact(w, map[], x, MAX_DEPTH, []);
    WalkPlain(w, x, MAX_DEPTH, []);
  }

  /** A memo that says true of exactly the nodes it knows in d. */
  predicate Marks(memo: Memo, d: set<Node>) {
    forall n | n in memo :: memo[n] <==> n in d
  }

  lemma RememberMarks(memo: Memo, chain: seq<Node>, d: set<Node>, answer: bool)
    requires Marks(memo, d) && forall n | n in chain :: answer <==> n in d
    ensures Marks(Remember(memo, chain, answer), d)
  {}

  /** A walk all of whose nodes are marked. */
  lemma {:induction false} WalkMarked(w: World, memo: Memo, x: Node, left: nat, chain: seq<Node>, d: set<Node>)
    requires Marks(memo, d) && Visit(w, x, left) <= d && forall n | n in chain :: n in d
    requires Plain(w, x, left, chain) == Some(Ok(true))
    ensures var (answer, memo') := Walk(w, memo, x, left, chain); answer == Ok(true) && Marks(memo', d)
    decreases left
  {
    if x in memo {
      RememberMarks(memo, chain, d, true);
    } else if HopFrom(w, x).Goes? {
      WalkMarked(w, memo, HopFrom(w, x).next, left - 1, chain + [x], d);
    } else {
      RememberMarks(memo, chain + [x], d, true);
    }
  }

  /** A walk none of whose nodes is marked. */
  lemma {:induction false} WalkUnmarked(w: World, memo: Memo, x: Node, left: nat, chain: seq<Node>, d: set<Node>)
    requires Marks(memo, d) && Visit(w, x, left) !! d && forall n | n in chain :: n !in d
    requires Plain(w, x, left, chain) != Some(Ok(true))
    ensures var (answer, memo') := Walk(w, memo, x, left, chain); answer != Ok(true) && Marks(memo', d)
    decreases left
  {
    if left == 0 || x in memo || x in chain {
      RememberMarks(memo, chain, d, false);
    } else if HopFrom(w, x).Goes? {
      WalkUnmarked(w, memo, HopFrom(w, x).next, left - 1, chain + [x], d);
    } else if HopFrom(w, x).answer.Ok? {
      RememberMarks(memo, chain + [x], d, false);
    }
  }

  /** An undecided walk without a memo remembers false of all it visited, and of nothing else. */
  lemma {:induction false} UndecidedRemembers(w: World, x: Node, left: nat, chain: seq<Node>)
    requires Plain(w, x, left, chain).None?
    ensures
      var (answer, memo) := Walk(w, map[], x, left, chain);
      answer == Ok(false) && forall n :: (n in memo <==> n in chain || n in Visit(w, x, left)) && (n in memo ==> !memo[n])
    decreases left
  {
    if left > 0 {
      UndecidedRemembers(w, HopFrom(w, x).next, left - 1, chain + [x]);
    }
  }

  /** A walk that meets only false memories does not answer true. */
  lemma {:induction false} MeetsFalse(w: World, memo: Memo, x: Node, left: nat, chain: seq<Node>, n: Node)
    requires (forall m | m in memo :: !memo[m]) && n in memo && n in Visit(w, x, left)
    requires Plain(w, x, left, chain) == Some(Ok(true))
    ensures Walk(w, memo, x, left, chain).0 == Ok(false)
    decreases left
  {
    if x !in memo {
      MeetsFalse(w, memo, HopFrom(w, x).next, left - 1, chain + [x], n);
    }
  }

  /** After an undecided walk of a, what a plain walk drops is still dropped exactly when the two visit nothing in
      common. */
  lemma PoisonedExactly(w: World, a: Node, b: Node)
    requires !Decided(w, a) && PlainDrops(w, b)
    ensures Walk(w, Walk(w, map[], a, MAX_DEPTH, []).1, b, MAX_DEPTH, []).0 == Ok(true)
       <==> Visit(w, a, MAX_DEPTH) !! Visit(w, b, MAX_DEPTH)
  {
    var memo := Walk(w, map[], a, MAX_DEPTH, []).1;
    UndecidedRemembers(w, a, MAX_DEPTH, []);
    if Visit(w, a, MAX_DEPTH) !! Visit(w, b, MAX_DEPTH) {
      WalkMarked(w, memo, b, MAX_DEPTH, [], Visit(w, b, MAX_DEPTH));
    } else {
      var n :| n in Visit(w, a, MAX_DEPTH) && n in Visit(w, b, MAX_DEPTH);
      MeetsFalse(w, memo, b, MAX_DEPTH, [], n);
    }
  }

  /** A walk that drops its object remembers true of all it visited, and of nothing else. */
  lemma {:induction false} DroppedRemembers(w: World, x: Node, left: nat, chain: seq<Node>)
    requires Plain(w, x, left, chain) == Some(Ok(true))
    ensures
      var (answer, memo) := Walk(w, map[], x, left, chain);
      answer == Ok(true) && forall n :: (n in memo <==> n in chain || n in Visit(w, x, left)) && (n in memo ==> memo[n])
    decreases left
  {
    if HopFrom(w, x).Goes? {
      DroppedRemembers(w, HopFrom(w, x).next, left - 1, chain + [x]);
    }
  }

  lemma {:induction false} MeetsTrue(w: World, memo: Memo, x: Node, left: nat, chain: seq<Node>, n: Node)
    requires (forall m | m in memo :: memo[m]) && n in memo && n in Visit(w, x, left)
    requires Plain(w, x, left, chain).None?
    ensures Walk(w, memo, x, left, chain).0 == Ok(true)
    decreases left
  {
    if x !in memo {
      MeetsTrue(w, memo, HopFrom(w, x).next, left - 1, chain + [x], n);
    }
  }

  /** The other way round: after a walk that drops b, the undecided a, which a plain walk keeps, is dropped exactly
      when the two visit something in common. It then does belong to a release, beyond the depth. */
  lemma RescuedExactly(w: World, a: Node, b: Node)
    requires !Decided(w, a) && PlainDrops(w, b)
    ensures Walk(w, Walk(w, map[], b, MAX_DEPTH, []).1, a, MAX_DEPTH, []).0 == Ok(true)
       <==> !(Visit(w, a, MAX_DEPTH) !! Visit(w, b, MAX_DEPTH))
  {
    var memo := Walk(w, map[], b, MAX_DEPTH, []).1;
    DroppedRemembers(w, b, MAX_DEPTH, []);
    if Visit(w, a, MAX_DEPTH) !! Visit(w, b, MAX_DEPTH) {
      WalkUnmarked(w, memo, a, MAX_DEPTH, [], Visit(w, b, MAX_DEPTH));
    } else {
      var n :| n in Visit(w, a, MAX_DEPTH) && n in Visit(w, b, MAX_DEPTH);
      MeetsTrue(w, memo, a, MAX_DEPTH, [], n);
    }
  }

  // ---- Exactly when the memo changes nothing ----

  function Start(kind: string, id: string): Node
    requires SplitId(id).Some?
  {
    Node(kind, SplitId(id).value.0, SplitId(id).value.1)
  }

  /** What the filter keeps when every walk is made without a memo. */
  function PlainKept(w: World, kind: string, ids: seq<string>): seq<string> {
    Kept(ids, id => !Dropped(w, kind, id, x => PlainDrops(w, x)))
  }

  predicate Undecided(w: World, kind: string, id: string) {
    SplitId(id).Some? && !Decided(w, Start(kind, id))
  }

  predicate DroppedPlainly(w: World, kind: string, id: string) {
    SplitId(id).Some? && PlainDrops(w, Start(kind, id))
  }

  /** No undecided walk shares a node with the walk of an object that is dropped. */
  predicate Apart(w: World, kind: string, ids: seq<string>) {
    forall u, d | u in ids && d in ids && Undecided(w, kind, u) && DroppedPlainly(w, kind, d) ::
      Visit(w, Start(kind, u), MAX_DEPTH) !! Visit(w, Start(kind, d), MAX_DEPTH)
  }

  /** All that the walks of the dropped objects visit. */
  function Marked(w: World, kind: string, ids: seq<string>): set<Node> {
    set d, n | d in ids && DroppedPlainly(w, kind, d) && n in Visit(w, Start(kind, d), MAX_DEPTH) :: n
  }

  lemma UnmarkedStart(w: World, kind: string, all: seq<string>, id: string)
    requires Apart(w, kind, all) && id in all && SplitId(id).Some? && !PlainDrops(w, Start(kind, id))
    ensures Visit(w, Start(kind, id), MAX_DEPTH) !! Marked(w, kind, all)
  {
    var x := Start(kind, id);
    forall d, n | d in all && DroppedPlainly(w, kind, d) && n in Visit(w, Start(kind, d), MAX_DEPTH)
      ensures n !in Visit(w, x, MAX_DEPTH)
    {
      if Decided(w, x) {
        DecidedExactly(w, x);
        DecidedExactly(w, Start(kind, d));
        VisitShares(w, x, MAX_DEPTH);
        VisitShares(w, Start(kind, d), MAX_DEPTH);
      } else {
        assert Undecided(w, kind, id);
      }
    }
  }

  lemma {:induction false} ApartAgrees(w: World, memo: Memo, kind: string, ids: seq<string>, all: seq<string>)
    requires Apart(w, kind, all) && Marks(memo, Marked(w, kind, all)) && forall id | id in ids :: id in all
    ensures KeptFrom(w, memo, kind, ids) == PlainKept(w, kind, ids)
    decreases |ids|
  {
    if ids != [] {
      var id, d := ids[0], Marked(w, kind, all);
      if SplitId(id).None? {
        ApartAgrees(w, memo, kind, ids[1..], all);
      } else {
        var x := Start(kind, id);
        if PlainDrops(w, x) {
          assert DroppedPlainly(w, kind, id);
          WalkMarked(w, memo, x, MAX_DEPTH, [], d);
        } else {
          UnmarkedStart(w, kind, all, id);
          WalkUnmarked(w, memo, x, MAX_DEPTH, [], d);
        }
        ApartAgrees(w, Walk(w, memo, x, MAX_DEPTH, []).1, kind, ids[1..], all);
      }
    }
  }

  lemma {:induction false} PlainKeepsNoDropped(w: World, kind: string, ids: seq<string>, d: string)
    requires DroppedPlainly(w, kind, d)
    ensures d !in PlainKept(w, kind, ids)
    decreases |ids|
  {
    if ids != [] {
      PlainKeepsNoDropped(w, kind, ids[1..], d);
    }
  }

  /** The undecided object first, then the one it shares a node with: the memo makes the filter keep both. */
  lemma MeetingDisagrees(w: World, kind: string, u: string, d: string, rest: seq<string>)
    requires Undecided(w, kind, u) && DroppedPlainly(w, kind, d)
    requires !(Visit(w, Start(kind, u), MAX_DEPTH) !! Visit(w, Start(kind, d), MAX_DEPTH))
    ensures KeptFrom(w, map[], kind, [u, d] + rest) != PlainKept(w, kind, [u, d] + rest)
  {
    var ids := [u, d] + rest;
    var x, y := Start(kind, u), Start(kind, d);
    var memo := Walk(w, map[], x, MAX_DEPTH, []).1;
    UndecidedRemembers(w, x, MAX_DEPTH, []);
    PoisonedExactly(w, x, y);
    assert Walk(w, map[], x, MAX_DEPTH, []).0 == Ok(false);
    assert ids[1..] == [d] + rest && ids[1..][0] == d;
    assert d in KeptFrom(w, memo, kind, ids[1..]);
    assert d in KeptFrom(w, map[], kind, ids);
    PlainKeepsNoDropped(w, kind, ids, d);
  }

  lemma TakeOut(ids: seq<string>, id: string) returns (rest: seq<string>)
    requires id in ids
    ensures multiset(ids) == multiset(rest) + multiset{id}
  {
    var i :| 0 <= i < |ids| && ids[i] == id;
    rest := ids[..i] + ids[i + 1..];
    assert ids == ids[..i] + [id] + ids[i + 1..];
  }

  /** Two ids brought to the front. */
  lemma BringForward(ids: seq<string>, u: string, d: string) returns (rest: seq<string>)
    requires u in ids && d in ids && u != d
    ensures multiset([u, d] + rest) == multiset(ids)
  {
    var without := TakeOut(ids, u);
    assert d in without by {
      assert d in multiset(ids) && d !in multiset{u};
    }
    rest := TakeOut(without, d);
    assert multiset([u, d]) == multiset{u} + multiset{d};
  }

  predicate MemoHarmless(w: World, kind: string, order: seq<string>) {
    KeptFrom(w, map[], kind, order) == PlainKept(w, kind, order)
  }

  lemma SameMembers(order: seq<string>, ids: seq<string>, id: string)
    requires multiset(order) == multiset(ids) && id in order
    ensures id in ids
  {
    assert id in multiset(order);
  }

  lemma ApartIsHarmless(w: World, kind: string, ids: seq<string>, order: seq<string>)
    requires Apart(w, kind, ids) && multiset(order) == multiset(ids)
    ensures MemoHarmless(w, kind, order)
  {
    forall id | id in order
      ensures id in ids
    {
      SameMembers(order, ids, id);
    }
    ApartAgrees(w, map[], kind, order, ids);
  }

  lemma MeetingHarms(w: World, kind: string, ids: seq<string>) returns (order: seq<string>)
    requires !Apart(w, kind, ids)
    ensures multiset(order) == multiset(ids) && !MemoHarmless(w, kind, order)
  {
    var u, d :| u in ids && d in ids && Undecided(w, kind, u) && DroppedPlainly(w, kind, d)
      && !(Visit(w, Start(kind, u), MAX_DEPTH) !! Visit(w, Start(kind, d), MAX_DEPTH));
    var rest := BringForward(ids, u, d);
    order := [u, d] + rest;
    MeetingDisagrees(w, kind, u, d, rest);
  }

  /** Whatever the order of the ids the memo changes nothing, exactly when no undecided walk shares a node with the
      walk of an object that is dropped. */
  lemma MemoHarmlessExactly(w: World, kind: string, ids: seq<string>)
    ensures (forall order | multiset(order) == multiset(ids) :: MemoHarmless(w, kind, order)) <==> Apart(w, kind, ids)
  {
    if Apart(w, kind, ids) {
      forall order | multiset(order) == multiset(ids)
        ensures MemoHarmless(w, kind, order)
      {
        ApartIsHarmless(w, kind, ids, order);
      }
    } else {
      var order := MeetingHarms(w, kind, ids);
    }
  }

  /** Pods a <- b <- c <- d <- e, and e owned by the release's f. */
  function LongWorld(): World {
    World(
      (x: Node) =>
        if x.name == "a" then Ok([OwnerRef("P", "b")]) else if x.name == "b" then Ok([OwnerRef("P", "c")])
        else if x.name == "c" then Ok([OwnerRef("P", "d")]) else if x.name == "d" then Ok([OwnerRef("P", "e")])
        else Ok([OwnerRef("P", "f")]),
      (r: KindRef) => r.name == "f")
  }

  function Pod(name: string): Node {
    Node("P", "n", name)
  }

  lemma LongHops()
    ensures
      var w := LongWorld();
      && HopFrom(w, Pod("a")) == Goes(Pod("b")) && HopFrom(w, Pod("b")) == Goes(Pod("c"))
      && HopFrom(w, Pod("c")) == Goes(Pod("d")) && HopFrom(w, Pod("d")) == Goes(Pod("e"))
      && HopFrom(w, Pod("e")) == Ends(Ok(true))
  {}

  /** Running out of depth along four nodes. */
  lemma RunsOut(w: World, x0: Node, x1: Node, x2: Node, x3: Node, x4: Node)
    requires HopFrom(w, x0) == Goes(x1) && HopFrom(w, x1) == Goes(x2) && HopFrom(w, x2) == Goes(x3) && HopFrom(w, x3) == Goes(x4)
    requires x1 != x0 && x2 !in [x0, x1] && x3 !in [x0, x1, x2]
    ensures !Decided(w, x0) && Walk(w, map[], x0, MAX_DEPTH, []) == (Ok(false), Remember(map[], [x0, x1, x2, x3], false))
  {
    assert [] + [x0] == [x0] && [x0] + [x1] == [x0, x1] && [x0, x1] + [x2] == [x0, x1, x2];
    assert [x0, x1, x2] + [x3] == [x0, x1, x2, x3];
    assert Walk(w, map[], x3, 1, [x0, x1, x2]) == Walk(w, map[], x4, 0, [x0, x1, x2, x3]);
    assert Walk(w, map[], x2, 2, [x0, x1]) == Walk(w, map[], x3, 1, [x0, x1, x2]);
    assert Walk(w, map[], x1, 3, [x0]) == Walk(w, map[], x2, 2, [x0, x1]);
    WalkPlain(w, x0, MAX_DEPTH, []);
    assert Plain(w, x3, 1, [x0, x1, x2]) == Plain(w, x4, 0, [x0, x1, x2, x3]);
    assert Plain(w, x2, 2, [x0, x1]) == Plain(w, x3, 1, [x0, x1, x2]);
    assert Plain(w, x1, 3, [x0]) == Plain(w, x2, 2, [x0, x1]);
  }

  lemma Poisons(w: World, a: Node, b: Node, c: Node, d: Node, e: Node)
    requires HopFrom(w, a) == Goes(b) && HopFrom(w, b) == Goes(c) && HopFrom(w, c) == Goes(d) && HopFrom(w, d) == Goes(e)
    requires HopFrom(w, e) == Ends(Ok(true)) && b != a && c !in [a, b] && d !in [a, b, c] && e !in [a, b, c, d]
    ensures !Decided(w, a) && PlainDrops(w, b)
    ensures Walk(w, Walk(w, map[], a, MAX_DEPTH, []).1, b, MAX_DEPTH, []).0 == Ok(false)
  {
    RunsOut(w, a, b, c, d, e);
    assert b in [a, b, c, d];
    assert [] + [b] == [b] && [b] + [c] == [b, c] && [b, c] + [d] == [b, c, d];
    assert Plain(w, e, 1, [b, c, d]) == Some(Ok(true));
    assert Plain(w, d, 2, [b, c]) == Plain(w, e, 1, [b, c, d]);
    assert Plain(w, c, 3, [b]) == Plain(w, d, 2, [b, c]);
  }

  /** An undecided walk memoises false for its whole chain, so it decides what later walks through it find: here b is
      dropped by itself but kept after a. */
  lemma DepthPoisonsMemo()
    ensures
      var w, a, b := LongWorld(), Pod("a"), Pod("b");
      && !Decided(w, a) && PlainDrops(w, b)
      && Walk(w, Walk(w, map[], a, MAX_DEPTH, []).1, b, MAX_DEPTH, []).0 == Ok(false)
  {
    LongHops();
    Poisons(LongWorld(), Pod("a"), Pod("b"), Pod("c"), Pod("d"), Pod("e"));
  }
}
