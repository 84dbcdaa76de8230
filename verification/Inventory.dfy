// The index of what Helm releases render, the discovery filter over it and its cache
// (pkg/resources/helm/inventory.go).
module Inventory {
  import opened Base
  import Text

  /** The head of one manifest document; a document that does not parse is None. */
  datatype Head = Head(apiVersion: string, kind: string, namespace: string, name: string)

  /** One manifest or hook manifest of a release, split into documents. */
  datatype Manifest = Manifest(docs: seq<Option<Head>>, namespace: string, owner: string)

  datatype ObjectId = ObjectId(apiVersion: string, kind: string, namespace: string, name: string)
  datatype KindRef = KindRef(kind: string, namespace: string, name: string)

  // ---- What the index is meant to say ----

  function EffectiveNamespace(d: Head, defaultNamespace: string): string {
    if d.namespace == "" then defaultNamespace else d.namespace
  }

  predicate Listed(doc: Option<Head>) {
    doc.Some? && doc.value.kind != "" && doc.value.name != ""
  }

  /** A document renders a reference: same kind and name, and its effective namespace or none. */
  predicate Renders(doc: Option<Head>, defaultNamespace: string, ref: KindRef) {
    Listed(doc) && doc.value.kind == ref.kind && doc.value.name == ref.name &&
    (ref.namespace == "" || ref.namespace == EffectiveNamespace(doc.value, defaultNamespace))
  }

  predicate RendersObject(doc: Option<Head>, defaultNamespace: string, id: ObjectId) {
    Listed(doc) &&
    id == ObjectId(doc.value.apiVersion, doc.value.kind, EffectiveNamespace(doc.value, defaultNamespace), doc.value.name)
  }

  predicate Rendered(docs: seq<Option<Head>>, defaultNamespace: string, ref: KindRef) {
    exists doc | doc in docs :: Renders(doc, defaultNamespace, ref)
  }

  predicate ObjectRendered(docs: seq<Option<Head>>, defaultNamespace: string, id: ObjectId) {
    exists doc | doc in docs :: RendersObject(doc, defaultNamespace, id)
  }

  /** The owner of the last manifest that renders the reference. */
  function LastOwner(ms: seq<Manifest>, ref: KindRef): Option<string> {
    if ms == [] then None
    else
      var m := ms[|ms| - 1];
      if Rendered(m.docs, m.namespace, ref) then Some(m.owner)
      else LastOwner(ms[..|ms| - 1], ref)
  }

  /** The owner of the last manifest that renders the object. */
  function LastObjectOwner(ms: seq<Manifest>, id: ObjectId): Option<string> {
    if ms == [] then None
    else
      var m := ms[|ms| - 1];
      if ObjectRendered(m.docs, m.namespace, id) then Some(m.owner)
      else LastObjectOwner(ms[..|ms| - 1], id)
  }

  lemma RenderedSnoc(docs: seq<Option<Head>>, doc: Option<Head>, ns: string)
    ensures forall ref :: Rendered(docs + [doc], ns, ref) <==> Rendered(docs, ns, ref) || Renders(doc, ns, ref)
    ensures forall id :: ObjectRendered(docs + [doc], ns, id) <==> ObjectRendered(docs, ns, id) || RendersObject(doc, ns, id)
  {
    assert forall d :: d in docs + [doc] <==> d in docs || d == doc;
  }

  class Index {
    var objects: map<ObjectId, string>
    var byKind: map<KindRef, string>

    /** The two maps fill together. */
    ghost predicate Valid()
      reads this
    {
      objects == map[] <==> byKind == map[]
    }

    constructor ()
      ensures objects == map[] && byKind == map[] && Valid()
    {
      objects, byKind := map[], map[];
    }

    function OwnedBy(ref: KindRef): Option<string>
      reads this
    {
      if ref in byKind then Some(byKind[ref]) else None
    }

    function ObjectOwner(id: ObjectId): Option<string>
      reads this
    {
      if id in objects then Some(objects[id]) else None
    }

    /** One document of indexManifest. */
    method IndexDocument(doc: Option<Head>, defaultNamespace: string, owner: string)
      requires Valid()
      modifies this
      ensures Valid()
      ensures forall ref :: OwnedBy(ref) == (if Renders(doc, defaultNamespace, ref) then Some(owner) else old(OwnedBy(ref)))
      ensures forall id :: ObjectOwner(id) == (if RendersObject(doc, defaultNamespace, id) then Some(owner) else old(ObjectOwner(id)))
    {
      if doc.None? || doc.value.kind == "" || doc.value.name == "" {
        return;
      }
      var head := doc.value;
      var ns := if head.namespace == "" then defaultNamespace else head.namespace;
      var id, ref := ObjectId(head.apiVersion, head.kind, ns, head.name), KindRef(head.kind, ns, head.name);
      objects := objects[id := owner];
      byKind := byKind[ref := owner];
      if ns != "" {
        byKind := byKind[KindRef(head.kind, "", head.name) := owner];
      }
      assert id in objects && ref in byKind;
    }

    /** indexManifest: afterwards exactly the references and objects the manifest renders belong to its owner. */
    method IndexManifest(m: Manifest)
      requires Valid()
      modifies this
      ensures Valid()
      ensures forall ref :: OwnedBy(ref) == (if Rendered(m.docs, m.namespace, ref) then Some(m.owner) else old(OwnedBy(ref)))
      ensures forall id ::
        ObjectOwner(id) == (if ObjectRendered(m.docs, m.namespace, id) then Some(m.owner) else old(ObjectOwner(id)))
    {
      for i := 0 to |m.docs|
        invariant Valid()
        invariant forall ref ::
          OwnedBy(ref) == (if Rendered(m.docs[..i], m.namespace, ref) then Some(m.owner) else old(OwnedBy(ref)))
        invariant forall id ::
          ObjectOwner(id) == (if ObjectRendered(m.docs[..i], m.namespace, id) then Some(m.owner) else old(ObjectOwner(id)))
      {
        assert m.docs[..i + 1] == m.docs[..i] + [m.docs[i]];
        RenderedSnoc(m.docs[..i], m.docs[i], m.namespace);
        IndexDocument(m.docs[i], m.namespace, m.owner);
      }
      assert m.docs[..|m.docs|] == m.docs;
    }
  }

  /** buildInventory over the manifests and hook manifests of every release, in order. */
  method BuildIndex(ms: seq<Manifest>) returns (index: Index)
    ensures fresh(index)
    ensures forall ref :: index.OwnedBy(ref) == LastOwner(ms, ref)
    ensures forall id :: index.ObjectOwner(id) == LastObjectOwner(ms, id)
    ensures index.Valid()
  {
    index := new Index();
    for i := 0 to |ms|
      invariant fresh(index)
      invariant forall ref :: index.OwnedBy(ref) == LastOwner(ms[..i], ref)
      invariant forall id :: index.ObjectOwner(id) == LastObjectOwner(ms[..i], id)
      invariant index.Valid()
    {
      index.IndexManifest(ms[i]);
      assert ms[..i + 1][..i] == ms[..i];
    }
    assert ms[..|ms|] == ms;
  }

  /** A reference has an owner exactly when some document of some release renders it, and then one that renders it. */
  lemma {:induction false} OwnerRenders(ms: seq<Manifest>, ref: KindRef)
    ensures LastOwner(ms, ref).Some? <==> exists m, doc | m in ms && doc in m.docs :: Renders(doc, m.namespace, ref)
    ensures LastOwner(ms, ref).Some? ==>
      exists m, doc | m in ms && doc in m.docs :: Renders(doc, m.namespace, ref) && m.owner == LastOwner(ms, ref).value
  {
    if ms != [] {
      var init, m := ms[..|ms| - 1], ms[|ms| - 1];
      assert ms == init + [m];
      OwnerRenders(init, ref);
    }
  }

  /** And an object, exactly when a document of that version, kind and name has that namespace, its own or else its
      release's. */
  lemma {:induction false} ObjectOwned(ms: seq<Manifest>, id: ObjectId)
    ensures LastObjectOwner(ms, id).Some? <==> exists m, d :: m in ms && Some(d) in m.docs && IsExactly(m, d, id)
    ensures LastObjectOwner(ms, id).Some? ==>
      exists m, d :: m in ms && Some(d) in m.docs && IsExactly(m, d, id) && m.owner == LastObjectOwner(ms, id).value
  {
    if ms != [] {
      var init, m := ms[..|ms| - 1], ms[|ms| - 1];
      assert ms == init + [m];
      ObjectOwned(init, id);
      if ObjectRendered(m.docs, m.namespace, id) {
        var doc :| doc in m.docs && RendersObject(doc, m.namespace, id);
        assert Some(doc.value) in m.docs && IsExactly(m, doc.value, id);
      }
      if d :| Some(d) in m.docs && IsExactly(m, d, id) {
        assert RendersObject(Some(d), m.namespace, id);
      }
    }
  }

  predicate IsExactly(m: Manifest, d: Head, id: ObjectId) {
    d.kind != "" && d.name != "" && d.apiVersion == id.apiVersion && d.kind == id.kind && d.name == id.name
    && id.namespace == if d.namespace != "" then d.namespace else m.namespace
  }

  // ---- The filter ----

  /** strings.Split on "::". */
  function SplitColons(s: string): (parts: seq<string>)
    ensures |parts| > 0
  {
    if |s| < 2 then [s]
    else if s[..2] == "::" then [""] + SplitColons(s[2..])
    else
      var rest := SplitColons(s[1..]);
      [[s[0]] + rest[0]] + rest[1..]
  }

  function KindOf(resourceType: string): string {
    var parts := SplitColons(resourceType);
    if |parts| != 3 then "" else parts[2]
  }

  /** splitNativeID: "namespace/name", or a cluster-scoped "name". */
  function SplitId(id: string): Option<(string, string)> {
    var parts := Text.Split(id, '/');
    if |parts| == 1 then Some(("", parts[0])) else if |parts| == 2 then Some((parts[0], parts[1])) else None
  }

  /** The elements of a list that satisfy a test, in order. */
  function Kept<T>(ids: seq<T>, keep: T -> bool): seq<T> {
    if ids == [] then []
    else (if keep(ids[0]) then [ids[0]] else []) + Kept(ids[1..], keep)
  }

  lemma {:induction false} KeptSnoc<T>(ids: seq<T>, id: T, keep: T -> bool)
    ensures Kept(ids + [id], keep) == Kept(ids, keep) + (if keep(id) then [id] else [])
  {
    if ids == [] {
      assert [id][1..] == [];
    } else {
      assert (ids + [id])[1..] == ids[1..] + [id];
      KeptSnoc(ids[1..], id, keep);
    }
  }

  /** An id is shown unless it parses and a release renders that object. */
  predicate Shown(owned: KindRef -> bool, kind: string, id: string) {
    SplitId(id).None? || !owned(KindRef(kind, SplitId(id).value.0, SplitId(id).value.1))
  }

  /** FilterHelmOwned, over no index or one built from `ms`. */
  method FilterHelmOwned(index: Index?, ghost ms: seq<Manifest>, resourceType: string, ids: seq<string>) returns (kept: seq<string>)
    requires index != null ==> forall ref :: index.OwnedBy(ref) == LastOwner(ms, ref)
    ensures kept ==
      if KindOf(resourceType) == "" || KindOf(resourceType) == "Namespace" || index == null then ids
      else Kept(ids, id => Shown(ref => LastOwner(ms, ref).Some?, KindOf(resourceType), id))
  {
    var kind := KindOf(resourceType);
    if kind == "" || index == null || |ids| == 0 || kind == "Namespace" {
      return ids;
    }
    ghost var keep := (id: string) => Shown(ref => LastOwner(ms, ref).Some?, kind, id);
    kept := [];
    for i := 0 to |ids|
      invariant kept == Kept(ids[..i], keep)
    {
      assert ids[..i + 1] == ids[..i] + [ids[i]];
      KeptSnoc(ids[..i], ids[i], keep);
      var parts := SplitId(ids[i]);
      if parts.None? {
        kept := kept + [ids[i]];
      } else if index.OwnedBy(KindRef(kind, parts.value.0, parts.value.1)).None? {
        kept := kept + [ids[i]];
      }
    }
    assert ids[..|ids|] == ids;
  }

  // ---- What the filter's ids and types name ----

  /** A namespaced id names its namespace and its name, a plain one only a name, and nothing else is an id. */
  lemma IdNames(namespace: string, name: string, id: string)
    requires '/' !in namespace && '/' !in name
    ensures SplitId(namespace + "/" + name) == Some((namespace, name))
    ensures SplitId(name) == Some(("", name))
    ensures SplitId(id).None? <==> |Text.Split(id, '/')| > 2
    ensures SplitId(id).None? ==> '/' in id && !exists a, b :: '/' !in a && '/' !in b && id == a + "/" + b
  {
    assert namespace + "/" + name == namespace + ['/'] + name;
    Text.SplitStep(namespace, '/', name);
    Text.SplitWhole(name, '/');
    forall a, b | '/' !in a && '/' !in b && id == a + "/" + b
      ensures |Text.Split(id, '/')| == 2
    {
      Text.SplitStep(a, '/', b);
      Text.SplitWhole(b, '/');
    }
  }

  lemma {:induction false} ColonFree(s: string)
    requires ':' !in s
    ensures SplitColons(s) == [s]
  {
    if |s| >= 2 {
      ColonFree(s[1..]);
      assert s[0] != ':' && s[..2][0] == s[0];
      assert [s[0]] + s[1..] == s;
    }
  }

  lemma {:induction false} ColonStep(s: string, rest: string)
    requires ':' !in s
    ensures SplitColons(s + "::" + rest) == [s] + SplitColons(rest)
  {
    var whole := s + "::" + rest;
    if s == "" {
      assert whole[..2] == "::" && whole[2..] == rest;
    } else {
      assert whole[1..] == s[1..] + "::" + rest && whole[0] == s[0] && whole[..2][0] == s[0] && s[0] != ':';
      ColonStep(s[1..], rest);
      assert [s[0]] + s[1..] == s;
      assert SplitColons(whole[1..])[1..] == SplitColons(rest);
    }
  }

  lemma ThreeParts(system: string, group: string, rest: string)
    requires ':' !in system && ':' !in group
    ensures SplitColons(system + "::" + group + "::" + rest) == [system, group] + SplitColons(rest)
  {
    assert system + "::" + group + "::" + rest == system + "::" + (group + "::" + rest);
    ColonStep(system, group + "::" + rest);
    ColonStep(group, rest);
    assert [system] + ([group] + SplitColons(rest)) == [system, group] + SplitColons(rest);
  }

  /** The kind is the third of exactly three parts of a resource type; any other number of parts names no kind. */
  lemma KindNamed(system: string, group: string, kind: string, more: string)
    requires ':' !in system && ':' !in group && ':' !in kind
    ensures KindOf(system + "::" + group + "::" + kind) == kind
    ensures KindOf(system + "::" + group) == "" && KindOf(system) == ""
    ensures KindOf(system + "::" + group + "::" + (kind + "::" + more)) == ""
  {
    ThreeParts(system, group, kind);
    ColonFree(kind);
    FewerParts(system, group);
    ThreeParts(system, group, kind + "::" + more);
    ColonStep(kind, more);
  }

  lemma FewerParts(system: string, group: string)
    requires ':' !in system && ':' !in group
    ensures KindOf(system + "::" + group) == "" && KindOf(system) == ""
  {
    ColonStep(system, group);
    ColonFree(group);
    ColonFree(system);
  }

  lemma {:induction false} KeptMembers<T>(ids: seq<T>, keep: T -> bool, id: T)
    ensures id in Kept(ids, keep) <==> id in ids && keep(id)
  {
    if ids != [] {
      KeptMembers(ids[1..], keep, id);
    }
  }

  /** d is an object of that kind and name, in that namespace or, none being asked for, in any. */
  predicate IsObject(m: Manifest, d: Head, kind: string, namespace: string, name: string) {
    && d.kind != "" && d.name != "" && d.kind == kind && d.name == name
    && (namespace != "" ==> namespace == if d.namespace != "" then d.namespace else m.namespace)
  }

  /** What FilterHelmOwned keeps of the objects of a kind: an id of a namespace and a name exactly when no document of
      any release has that kind and name and that namespace, its own or else its release's; a plain name exactly when no
      document has that kind and name; and whatever is no id. */
  lemma FilteredExactly(ms: seq<Manifest>, kind: string, ids: seq<string>, namespace: string, name: string)
    requires '/' !in namespace && '/' !in name
    ensures
      var kept := Kept(ids, id => Shown(ref => LastOwner(ms, ref).Some?, kind, id));
      var id := if namespace == "" then name else namespace + "/" + name;
      id in kept <==> id in ids && !exists m, d :: m in ms && Some(d) in m.docs && IsObject(m, d, kind, namespace, name)
    ensures
      var kept := Kept(ids, id => Shown(ref => LastOwner(ms, ref).Some?, kind, id));
      forall id | id in ids && |Text.Split(id, '/')| > 2 :: id in kept
  {
    var keep := (id: string) => Shown(ref => LastOwner(ms, ref).Some?, kind, id);
    var id := if namespace == "" then name else namespace + "/" + name;
    IdNames(namespace, name, id);
    KeptMembers(ids, keep, id);
    RendersSomewhere(ms, kind, namespace, name);
    forall other | other in ids && |Text.Split(other, '/')| > 2
      ensures other in Kept(ids, keep)
    {
      KeptMembers(ids, keep, other);
    }
  }

  lemma RendersSomewhere(ms: seq<Manifest>, kind: string, namespace: string, name: string)
    ensures LastOwner(ms, KindRef(kind, namespace, name)).Some?
       <==> exists m, d :: m in ms && Some(d) in m.docs && IsObject(m, d, kind, namespace, name)
  {
    var ref := KindRef(kind, namespace, name);
    OwnerRenders(ms, ref);
    if LastOwner(ms, ref).Some? {
      var m, doc :| m in ms && doc in m.docs && Renders(doc, m.namespace, ref);
      assert Some(doc.value) in m.docs && IsObject(m, doc.value, kind, namespace, name);
    }
    if m, d :| m in ms && Some(d) in m.docs && IsObject(m, d, kind, namespace, name) {
      assert Renders(Some(d), m.namespace, ref);
    }
  }

  // ---- The cache ----

  const TTL: int := 30 * SECOND

  /** `begun` is history: the step at which the build of the inventory began. */
  datatype Entry = Entry(begun: nat, fetched: int)

  datatype Build = Build(key: string, generation: nat, begun: nat)

  datatype Cache = Cache(entries: map<string, Entry>, generation: nat, builds: map<nat, Build>, stamp: nat, tick: nat, now: int)

  datatype Step =
    | Passes(to: int)
    | Misses(id: nat, key: string)
    | Stores(id: nat)
    | Invalidates

  /** The cached inventory is served while it is younger than the TTL. */
  predicate Hits(c: Cache, key: string) {
    key in c.entries && c.now - c.entries[key].fetched < TTL
  }

  predicate Can(c: Cache, step: Step) {
    match step
    case Passes(to) => to >= c.now
    case Misses(id, key) => id !in c.builds && !Hits(c, key)
    case Stores(id) => id in c.builds
    case Invalidates => true
  }

  function Do(c0: Cache, step: Step): Cache
    requires Can(c0, step)
  {
    var c := c0.(tick := c0.tick + 1);
    match step
    case Passes(to) => c.(now := to)
    case Misses(id, key) => c.(builds := c.builds[id := Build(key, c.generation, c.tick)])
    case Stores(id) =>
      var b := c.builds[id];
      c.(builds := c.builds - {id},
         entries := if b.generation == c.generation then c.entries[b.key := Entry(b.begun, c.now)] else c.entries)
    case Invalidates => c.(entries := map[], generation := c.generation + 1, stamp := c.tick)
  }

  predicate Feasible(c: Cache, run: seq<Step>)
    decreases |run|
  {
    run == [] || (Can(c, run[0]) && Feasible(Do(c, run[0]), run[1..]))
  }

  function After(c: Cache, run: seq<Step>): Cache
    requires Feasible(c, run)
    decreases |run|
  {
    if run == [] then c else After(Do(c, run[0]), run[1..])
  }

  ghost predicate CacheInv(c: Cache) {
    && c.stamp <= c.tick
    && (forall k | k in c.entries :: c.stamp < c.entries[k].begun <= c.tick)
    && (forall id | id in c.builds :: c.builds[id].generation <= c.generation && c.builds[id].begun <= c.tick)
    && (forall id | id in c.builds && c.builds[id].generation == c.generation :: c.stamp < c.builds[id].begun)
  }

  lemma {:induction false} CacheKeeps(c: Cache, run: seq<Step>)
    requires CacheInv(c) && Feasible(c, run)
    ensures CacheInv(After(c, run))
    decreases |run|
  {
    if run != [] {
      CacheKeeps(Do(c, run[0]), run[1..]);
    }
  }

  /** However builds and invalidations interleave, no inventory in the cache was built by a build begun before
      the latest invalidation. */
  lemma NoStaleInventory(now: int, run: seq<Step>, key: string)
    requires Feasible(Cache(map[], 0, map[], 0, 0, now), run)
    ensures
      var c := After(Cache(map[], 0, map[], 0, 0, now), run);
      key in c.entries ==> c.entries[key].begun > c.stamp
  {
    CacheKeeps(Cache(map[], 0, map[], 0, 0, now), run);
  }

  /** A build that no invalidation overtook is served for thirty seconds from when it was stored and no longer; one that
      was overtaken changes nothing. */
  lemma ServedWhileYoung(c: Cache, id: nat, to: int)
    requires id in c.builds && c.now <= to
    ensures
      var build, after := c.builds[id], Do(Do(c, Stores(id)), Passes(to));
      && (build.generation == c.generation ==>
            && (Hits(after, build.key) <==> to - c.now < 30_000_000_000)
            && after.entries[build.key].begun == build.begun
            && forall other | other != build.key :: other in after.entries <==> other in c.entries)
      && (build.generation != c.generation ==> after.entries == c.entries)
  {}
}
