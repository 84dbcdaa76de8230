// Pruning server defaults from a live object (pkg/resources/prov/livestate.go).
module LiveState {
  import opened Base
  import opened Json
  import Text

  const CONTAINER_LIST_PATHS: set<string> := {
    "spec.containers", "spec.initContainers", "spec.ephemeralContainers",
    "spec.template.spec.containers", "spec.template.spec.initContainers", "spec.template.spec.ephemeralContainers",
    "spec.jobTemplate.spec.template.spec.containers", "spec.jobTemplate.spec.template.spec.initContainers",
    "spec.jobTemplate.spec.template.spec.ephemeralContainers"
  }
  const POD_SPEC_PATHS: set<string> := {"spec", "spec.template.spec", "spec.jobTemplate.spec.template.spec"}
  const LABEL_PREFIXES: set<string> := {"kubernetes.io/", "batch.kubernetes.io/"}
  const LABEL_KEYS: set<string> := {"controller-uid", "job-name"}
  const ANNOTATION_PREFIXES: set<string> := {"deployment.kubernetes.io/", "deprecated.daemonset.template.generation"}
  const ACCOUNT_MOUNT_PREFIX := "/var/run/secrets/kubernetes.io/serviceaccount"

  predicate ContainerElementPath(path: string) {
    |path| >= 2 && path[|path| - 2..] == "[]" && path[..|path| - 2] in CONTAINER_LIST_PATHS
  }

  // ---- What the path rules name ----

  /** The rule a value falls under because of the key it is stored under. */
  datatype Kind = Plain | Labels | Annotations | Mounts

  function KindOf(path: string, key: string): Kind {
    if key == "labels" then Labels
    else if key == "annotations" then Annotations
    else if key == "volumeMounts" && ContainerElementPath(path) then Mounts
    else Plain
  }

  predicate Managed(kind: Kind, key: string) {
    match kind
    case Labels => key in LABEL_KEYS || exists p | p in LABEL_PREFIXES :: Text.HasPrefix(key, p)
    case Annotations => exists p | p in ANNOTATION_PREFIXES :: Text.HasPrefix(key, p)
    case _ => false
  }

  predicate AccountMount(mount: Json) {
    mount.Obj? && "mountPath" in mount.fields && mount.fields["mountPath"].Str?
    && Text.HasPrefix(mount.fields["mountPath"].text, ACCOUNT_MOUNT_PREFIX)
  }

  function Filtered(mounts: seq<Json>): (kept: seq<Json>)
    ensures |kept| <= |mounts|
    ensures forall x :: x in kept <==> x in mounts && !AccountMount(x)
  {
    if mounts == [] then []
    else if AccountMount(mounts[0]) then Filtered(mounts[1..])
    else [mounts[0]] + Filtered(mounts[1..])
  }

  function Kept(items: seq<Json>, kind: Kind): (kept: seq<Json>)
    ensures forall x | x in kept :: x in items
  {
    if kind.Mounts? then Filtered(items) else items
  }

  function Unmanaged(m: map<string, Json>, kind: Kind): map<string, Json> {
    map k | k in m && !Managed(kind, k) :: m[k]
  }

  /** A value once its parent has applied the rule to it. */
  function Trimmed(v: Json, kind: Kind): Json {
    if v.Obj? && (kind.Labels? || kind.Annotations?) then Obj(Unmanaged(v.fields, kind))
    else if v.Arr? && kind.Mounts? then Arr(Filtered(v.items))
    else v
  }

  /** The rule leaves nothing of the value, so its key goes too. */
  predicate Emptied(v: Json, kind: Kind) {
    || ((kind.Labels? || kind.Annotations?) && Trimmed(v, kind) == Obj(map[]))
    || (kind.Mounts? && Trimmed(v, kind) == Arr([]))
  }

  /** The field key of the object at path is one the rules remove. */
  predicate Named(path: string, key: string, v: Json) {
    || (path in POD_SPEC_PATHS && key == "serviceAccount")
    || (ContainerElementPath(path) && key == "imagePullPolicy")
    || Emptied(v, KindOf(path, key))
  }

  /** What pruning leaves of v, found at path and stored under a key of the given kind. */
  function Stripped(v: Json, path: string, kind: Kind): Json
    decreases v
  {
    match v
    case Obj(m) =>
      Obj(map k | k in m && !Managed(kind, k) && !Named(path, k, m[k]) :: Stripped(m[k], JoinPath(path, k), KindOf(path, k)))
    case Arr(items) =>
      var kept := Kept(items, kind);
      Arr(seq(|kept|, i requires 0 <= i < |kept| => assert kept[i] in items; Stripped(kept[i], path + "[]", Plain)))
    case _ => v
  }

  lemma StrippedTrimmed(v: Json, path: string, kind: Kind)
    ensures Stripped(Trimmed(v, kind), path, Plain) == Stripped(v, path, kind)
  {
    if v.Obj? {
      assert Stripped(Trimmed(v, kind), path, Plain).fields == Stripped(v, path, kind).fields;
    }
  }

  // ---- The procedures ----

  /** An object after a rule was applied to one of its fields. */
  function AfterRule(m: map<string, Json>, field: string, kind: Kind): map<string, Json> {
    if field !in m then m
    else if Emptied(m[field], kind) then m - {field}
    else m[field := Trimmed(m[field], kind)]
  }

  /** stripServerManagedLabels and stripServerManagedAnnotations. */
  method StripManaged(meta: map<string, Json>, field: string, kind: Kind) returns (out: map<string, Json>)
    requires kind.Labels? || kind.Annotations?
    ensures out == AfterRule(meta, field, kind)
  {
    if field !in meta || !meta[field].Obj? {
      return meta;
    }
    var entries := meta[field].fields;
    var todo := entries.Keys;
    while todo != {}
      invariant todo <= meta[field].fields.Keys
      invariant entries == map k | k in meta[field].fields && (k in todo || !Managed(kind, k)) :: meta[field].fields[k]
    {
      var key :| key in todo;
      todo := todo - {key};
      if Managed(kind, key) {
        entries := entries - {key};
      }
    }
    assert entries == Unmanaged(meta[field].fields, kind);
    if entries == map[] {
      out := meta - {field};
    } else {
      out := meta[field := Obj(entries)];
    }
  }

  method StripServiceAccountVolumeMounts(container: map<string, Json>) returns (out: map<string, Json>)
    ensures out == AfterRule(container, "volumeMounts", Mounts)
  {
    if "volumeMounts" !in container || !container["volumeMounts"].Arr? {
      return container;
    }
    var mounts := container["volumeMounts"].items;
    var filtered: seq<Json> := [];
    for i := 0 to |mounts|
      invariant filtered + Filtered(mounts[i..]) == Filtered(mounts)
    {
      if !AccountMount(mounts[i]) {
        filtered := filtered + [mounts[i]];
      }
    }
    assert filtered == Filtered(mounts);
    if filtered == [] {
      out := container - {"volumeMounts"};
    } else {
      out := container["volumeMounts" := Arr(filtered)];
    }
  }

  /** t is the object m at path after the rules for the given fields. */
  ghost predicate Ruled(m: map<string, Json>, path: string, t: map<string, Json>, fields: set<string>) {
    && (forall k :: k in t <==> k in m && !(k in fields && Named(path, k, m[k])))
    && forall k | k in t :: t[k] == if k in fields then Trimmed(m[k], KindOf(path, k)) else m[k]
  }

  /** The object at path after its own rules, before its children are visited. */
  ghost predicate TrimmedObject(m: map<string, Json>, path: string, t: map<string, Json>) {
    && (forall k :: k in t <==> k in m && !Named(path, k, m[k]))
    && forall k | k in t :: t[k] == Trimmed(m[k], KindOf(path, k))
  }

  lemma RuleStep(m: map<string, Json>, path: string, t: map<string, Json>, fields: set<string>, field: string)
    requires Ruled(m, path, t, fields) && field !in fields
    requires field != "serviceAccount" && field != "imagePullPolicy"
    ensures Ruled(m, path, AfterRule(t, field, KindOf(path, field)), fields + {field})
  {
    var kind, after := KindOf(path, field), AfterRule(t, field, KindOf(path, field));
    if field in m {
      assert t[field] == m[field];
      assert Named(path, field, m[field]) <==> Emptied(m[field], kind);
    }
  }

  /** The object without the fields that go whatever they hold. */
  function WithoutDefaults(m: map<string, Json>, path: string): map<string, Json> {
    var t := if path in POD_SPEC_PATHS then m - {"serviceAccount"} else m;
    if ContainerElementPath(path) then t - {"imagePullPolicy"} else t
  }

  lemma PlainRule(m: map<string, Json>, field: string)
    ensures AfterRule(m, field, Plain) == m
  {}

  lemma DefaultsStep(m: map<string, Json>, path: string)
    ensures Ruled(m, path, WithoutDefaults(m, path), {"serviceAccount", "imagePullPolicy"})
  {}

  lemma OtherFields(path: string, k: string, v: Json)
    requires k !in {"serviceAccount", "imagePullPolicy", "volumeMounts", "labels", "annotations"}
    ensures !Named(path, k, v) && Trimmed(v, KindOf(path, k)) == v
  {
    assert k != "serviceAccount" && k != "imagePullPolicy";
    assert KindOf(path, k) == Plain;
  }

  lemma AllRuled(m: map<string, Json>, path: string, t: map<string, Json>)
    requires Ruled(m, path, t, {"serviceAccount", "imagePullPolicy", "volumeMounts", "labels", "annotations"})
    ensures TrimmedObject(m, path, t)
  {
    var fields := {"serviceAccount", "imagePullPolicy", "volumeMounts", "labels", "annotations"};
    forall k | k in m && k !in fields
      ensures !Named(path, k, m[k]) && Trimmed(m[k], KindOf(path, k)) == m[k]
    {
      OtherFields(path, k, m[k]);
    }
  }

  /** All the rules of the object at path, in the program's order. */
  function InOrder(m: map<string, Json>, path: string): map<string, Json> {
    var t := AfterRule(WithoutDefaults(m, path), "volumeMounts", KindOf(path, "volumeMounts"));
    AfterRule(AfterRule(t, "labels", Labels), "annotations", Annotations)
  }

  /** Applied one after the other, the rules remove and trim exactly the fields each names in the object as it came. */
  lemma RulesCompose(m: map<string, Json>, path: string)
    ensures TrimmedObject(m, path, InOrder(m, path))
  {
    var t0 := WithoutDefaults(m, path);
    var t1 := AfterRule(t0, "volumeMounts", KindOf(path, "volumeMounts"));
    var t2 := AfterRule(t1, "labels", Labels);
    DefaultsStep(m, path);
    RuleStep(m, path, t0, {"serviceAccount", "imagePullPolicy"}, "volumeMounts");
    RuleStep(m, path, t1, {"serviceAccount", "imagePullPolicy", "volumeMounts"}, "labels");
    RuleStep(m, path, t2, {"serviceAccount", "imagePullPolicy", "volumeMounts", "labels"}, "annotations");
    AllRuled(m, path, AfterRule(t2, "annotations", Annotations));
  }

  method TrimObject(m: map<string, Json>, path: string) returns (t: map<string, Json>)
    ensures t == InOrder(m, path)
  {
    t := m;
    if path in POD_SPEC_PATHS {
      t := t - {"serviceAccount"};
    }
    if ContainerElementPath(path) {
      t := t - {"imagePullPolicy"};
      t := StripServiceAccountVolumeMounts(t);
    } else {
      PlainRule(t, "volumeMounts");
    }
    if "labels" in t {
      t := StripManaged(t, "labels", Labels);
    }
    if "annotations" in t {
      t := StripManaged(t, "annotations", Annotations);
    }
  }

  /** v is what the parent's rules left of origin. */
  method StripServerDefaults(v: Json, path: string, ghost origin: Json, ghost kind: Kind) returns (out: Json)
    requires v == Trimmed(origin, kind)
    ensures out == Stripped(v, path, Plain)
    decreases origin, 1
  {
    match v
    case Obj(m) =>
      var t := TrimObject(m, path);
      RulesCompose(m, path);
      assert forall k | k in m :: m[k] == origin.fields[k];
      out := StripChildren(t, path, m, origin);
    case Arr(items) =>
      assert origin.Arr? && forall x | x in items :: x in origin.items;
      out := StripItems(items, path, origin);
    case _ => out := v;
  }

  method StripChildren(t: map<string, Json>, path: string, ghost m: map<string, Json>, ghost origin: Json) returns (out: Json)
    requires TrimmedObject(m, path, t)
    requires origin.Obj? && forall k | k in m :: k in origin.fields && m[k] == origin.fields[k]
    ensures out == Stripped(Obj(m), path, Plain)
    decreases origin, 0
  {
    var done: map<string, Json> := map[];
    var todo := t.Keys;
    while todo != {}
      invariant todo <= t.Keys
      invariant done.Keys == t.Keys - todo
      invariant forall k | k in done :: done[k] == Stripped(m[k], JoinPath(path, k), KindOf(path, k))
    {
      var k :| k in todo;
      todo := todo - {k};
      var child := StripServerDefaults(t[k], JoinPath(path, k), origin.fields[k], KindOf(path, k));
      StrippedTrimmed(m[k], JoinPath(path, k), KindOf(path, k));
      done := done[k := child];
    }
    out := Obj(done);
    ChildrenDone(m, path, t, done);
  }

  lemma ChildrenDone(m: map<string, Json>, path: string, t: map<string, Json>, done: map<string, Json>)
    requires TrimmedObject(m, path, t) && done.Keys == t.Keys
    requires forall k | k in done :: done[k] == Stripped(m[k], JoinPath(path, k), KindOf(path, k))
    ensures Obj(done) == Stripped(Obj(m), path, Plain)
  {
    assert done == Stripped(Obj(m), path, Plain).fields;
  }

  method StripItems(items: seq<Json>, path: string, ghost origin: Json) returns (out: Json)
    requires origin.Arr? && forall x | x in items :: x in origin.items
    ensures out == Stripped(Arr(items), path, Plain)
    decreases origin, 0
  {
    var walked: seq<Json> := [];
    for i := 0 to |items|
      invariant |walked| == i
      invariant forall j | 0 <= j < i :: walked[j] == Stripped(items[j], path + "[]", Plain)
    {
      assert items[i] in origin.items;
      var item := StripServerDefaults(items[i], path + "[]", items[i], Plain);
      walked := walked + [item];
    }
    out := Arr(walked);
  }

  // ---- What pruning leaves alone ----

  /** Some key on the way along steps is managed or named, or some element an account mount of a container. */
  predicate Dropped(v: Json, path: string, kind: Kind, steps: seq<Step>)
    decreases |steps|
  {
    steps != [] &&
    match steps[0]
    case Key(k) =>
      && v.Obj? && k in v.fields
      && (Managed(kind, k) || Named(path, k, v.fields[k]) || Dropped(v.fields[k], JoinPath(path, k), KindOf(path, k), steps[1..]))
    case Index(i) =>
      && v.Arr? && i < |v.items|
      && ((kind.Mounts? && AccountMount(v.items[i])) || Dropped(v.items[i], path + "[]", Plain, steps[1..]))
  }

  /** steps picks an element of a container's volume mounts, where filtering shifts the indices. */
  predicate PicksMount(v: Json, path: string, kind: Kind, steps: seq<Step>)
    decreases |steps|
  {
    steps != [] &&
    match steps[0]
    case Key(k) => v.Obj? && k in v.fields && PicksMount(v.fields[k], JoinPath(path, k), KindOf(path, k), steps[1..])
    case Index(i) => v.Arr? && i < |v.items| && (kind.Mounts? || PicksMount(v.items[i], path + "[]", Plain, steps[1..]))
  }

  /** The same scalar, or containers of one sort. */
  predicate SameSort(a: Json, b: Json) {
    match a
    case Obj(_) => b.Obj?
    case Arr(_) => b.Arr?
    case _ => b == a
  }

  /** Off a container's mounts every value stays where it is: exactly those with a managed or named key on their way
      are gone, nothing is added, and what is left has the content it had. */
  lemma {:induction false} StripTakesOnlyNamed(v: Json, path: string, kind: Kind, steps: seq<Step>)
    requires !PicksMount(v, path, kind, steps)
    ensures ValueAt(Stripped(v, path, kind), steps).Some? <==> ValueAt(v, steps).Some? && !Dropped(v, path, kind, steps)
    ensures ValueAt(Stripped(v, path, kind), steps).Some? ==>
      SameSort(ValueAt(v, steps).value, ValueAt(Stripped(v, path, kind), steps).value)
    decreases |steps|
  {
    if steps != [] {
      match steps[0]
      case Key(k) =>
        if v.Obj? && k in v.fields {
          StripTakesOnlyNamed(v.fields[k], JoinPath(path, k), KindOf(path, k), steps[1..]);
        }
      case Index(i) =>
        if v.Arr? && i < |v.items| {
          StripTakesOnlyNamed(v.items[i], path + "[]", Plain, steps[1..]);
        }
    }
  }

  /** Filtering decides each mount on its own and keeps the order of the rest, wherever the list is cut. */
  lemma {:induction false} FilteredInOrder(front: seq<Json>, back: seq<Json>)
    ensures Filtered(front + back) == Filtered(front) + Filtered(back)
  {
    if front == [] {
      assert front + back == back;
    } else {
      assert (front + back)[1..] == front[1..] + back;
      FilteredInOrder(front[1..], back);
    }
  }

  lemma KeptAt(mounts: seq<Json>, i: nat)
    requires i < |mounts| && !AccountMount(mounts[i])
    ensures |Filtered(mounts[..i])| < |Filtered(mounts)| && Filtered(mounts)[|Filtered(mounts[..i])|] == mounts[i]
  {
    assert mounts == mounts[..i] + mounts[i..];
    FilteredInOrder(mounts[..i], mounts[i..]);
    assert mounts[i..][0] == mounts[i];
  }

  lemma {:induction false} KeptFromWhere(mounts: seq<Json>, j: nat) returns (i: nat)
    requires j < |Filtered(mounts)|
    ensures i < |mounts| && !AccountMount(mounts[i]) && |Filtered(mounts[..i])| == j
  {
    if !AccountMount(mounts[0]) && j == 0 {
      i := 0;
      assert mounts[..0] == [];
    } else {
      var rest := KeptFromWhere(mounts[1..], if AccountMount(mounts[0]) then j else j - 1);
      i := rest + 1;
      assert mounts[..i][0] == mounts[0] && mounts[..i][1..] == mounts[1..][..rest];
    }
  }

  lemma KeptApart(mounts: seq<Json>, i: nat, j: nat)
    requires i < j < |mounts| && !AccountMount(mounts[i])
    ensures |Filtered(mounts[..i])| < |Filtered(mounts[..j])|
  {
    assert mounts[..j][..i] == mounts[..i];
    KeptAt(mounts[..j], i);
  }

  /** The document has the key or element a step names. */
  predicate Takes(v: Json, step: Step) {
    match step
    case Key(k) => v.Obj? && k in v.fields
    case Index(i) => v.Arr? && i < |v.items|
  }

  /** What a step becomes by pruning: elements of a filtered list move up. */
  function Landing(v: Json, kind: Kind, step: Step): Step
    requires Takes(v, step)
  {
    match step
    case Key(k) => step
    case Index(i) => Index(|Kept(v.items[..i], kind)|)
  }

  /** Where the value at steps is after pruning. */
  function Moved(v: Json, path: string, kind: Kind, steps: seq<Step>): seq<Step>
    decreases |steps|, 1
  {
    if steps == [] then []
    else if Takes(v, steps[0]) then [Landing(v, kind, steps[0])] + MovedTail(v, path, kind, steps)
    else steps
  }

  function MovedTail(v: Json, path: string, kind: Kind, steps: seq<Step>): seq<Step>
    requires steps != [] && Takes(v, steps[0])
    decreases |steps|, 0
  {
    match steps[0]
    case Key(k) => Moved(v.fields[k], JoinPath(path, k), KindOf(path, k), steps[1..])
    case Index(i) => Moved(v.items[i], path + "[]", Plain, steps[1..])
  }

  lemma KeptItem(items: seq<Json>, kind: Kind, i: nat)
    requires i < |items| && !(kind.Mounts? && AccountMount(items[i]))
    ensures |Kept(items[..i], kind)| < |Kept(items, kind)| && Kept(items, kind)[|Kept(items[..i], kind)|] == items[i]
  {
    if kind.Mounts? {
      KeptAt(items, i);
    }
  }

  /** Every value without a managed or named piece on its way is still there, where it moved to, with the content it
      had. */
  lemma {:induction false} StripKeepsTheRest(v: Json, path: string, kind: Kind, steps: seq<Step>)
    requires ValueAt(v, steps).Some? && !Dropped(v, path, kind, steps)
    ensures
      var after := ValueAt(Stripped(v, path, kind), Moved(v, path, kind, steps));
      after.Some? && SameSort(ValueAt(v, steps).value, after.value)
    decreases |steps|
  {
    if steps != [] {
      match steps[0]
      case Key(k) =>
        StripKeepsTheRest(v.fields[k], JoinPath(path, k), KindOf(path, k), steps[1..]);
      case Index(i) =>
        KeptItem(v.items, kind, i);
        StripKeepsTheRest(v.items[i], path + "[]", Plain, steps[1..]);
    }
  }

  /** Nothing else is there: every value of the pruned document came from one that was kept. */
  lemma {:induction false} StripAddsNothing(v: Json, path: string, kind: Kind, after: seq<Step>) returns (steps: seq<Step>)
    requires ValueAt(Stripped(v, path, kind), after).Some?
    ensures ValueAt(v, steps).Some? && !Dropped(v, path, kind, steps) && Moved(v, path, kind, steps) == after
    decreases |after|
  {
    if after == [] {
      steps := [];
    } else {
      match after[0]
      case Key(k) =>
        var rest := StripAddsNothing(v.fields[k], JoinPath(path, k), KindOf(path, k), after[1..]);
        steps := [Key(k)] + rest;
        assert steps[1..] == rest;
      case Index(j) =>
        var i := j;
        if kind.Mounts? {
          i := KeptFromWhere(v.items, j);
        }
        KeptItem(v.items, kind, i);
        var rest := StripAddsNothing(v.items[i], path + "[]", Plain, after[1..]);
        steps := [Index(i)] + rest;
        assert steps[1..] == rest;
    }
  }

  /** And no two kept values end up in one place, so what is dropped is gone. */
  lemma {:induction false} StripKeepsApart(v: Json, path: string, kind: Kind, a: seq<Step>, b: seq<Step>)
    requires ValueAt(v, a).Some? && ValueAt(v, b).Some? && !Dropped(v, path, kind, a) && !Dropped(v, path, kind, b)
    requires Moved(v, path, kind, a) == Moved(v, path, kind, b)
    ensures a == b
    decreases |a|
  {
    if a != [] && b != [] {
      var x, y := Landing(v, kind, a[0]), Landing(v, kind, b[0]);
      SameHead(x, MovedTail(v, path, kind, a), y, MovedTail(v, path, kind, b));
      match a[0]
      case Key(k) =>
        StripKeepsApart(v.fields[k], JoinPath(path, k), KindOf(path, k), a[1..], b[1..]);
      case Index(i) =>
        SameOrigin(v.items, kind, i, b[0].index);
        StripKeepsApart(v.items[i], path + "[]", Plain, a[1..], b[1..]);
    }
  }

  lemma SameHead<T>(x: T, xs: seq<T>, y: T, ys: seq<T>)
    requires [x] + xs == [y] + ys
    ensures x == y && xs == ys
  {
    assert ([x] + xs)[0] == x && ([y] + ys)[0] == y;
    assert ([x] + xs)[1..] == xs && ([y] + ys)[1..] == ys;
  }

  lemma SameOrigin(items: seq<Json>, kind: Kind, i: nat, j: nat)
    requires i < |items| && j < |items| && |Kept(items[..i], kind)| == |Kept(items[..j], kind)|
    requires !(kind.Mounts? && AccountMount(items[i])) && !(kind.Mounts? && AccountMount(items[j]))
    ensures i == j
  {
    if kind.Mounts? && i < j {
      KeptApart(items, i, j);
    } else if kind.Mounts? && j < i {
      KeptApart(items, j, i);
    }
  }

  /** An empty object stays an empty object, wherever it is, unless a managed or named piece is on its way. */
  lemma {:induction false} EmptyObjectsStay(v: Json, path: string, kind: Kind, steps: seq<Step>)
    requires ValueAt(v, steps) == Some(Obj(map[])) && !Dropped(v, path, kind, steps)
    ensures ValueAt(Stripped(v, path, kind), Moved(v, path, kind, steps)) == Some(Obj(map[]))
    decreases |steps|
  {
    if steps == [] {
      assert Stripped(v, path, kind).fields == map[];
    } else {
      match steps[0]
      case Key(k) =>
        EmptyObjectsStay(v.fields[k], JoinPath(path, k), KindOf(path, k), steps[1..]);
      case Index(i) =>
        KeptItem(v.items, kind, i);
        EmptyObjectsStay(v.items[i], path + "[]", Plain, steps[1..]);
    }
  }

  // ---- Which keys and elements those are ----

  /** A token mount the API server adds to a container. */
  predicate TokenMount(mount: Json) {
    mount.Obj? && "mountPath" in mount.fields && mount.fields["mountPath"].Str?
    && "/var/run/secrets/kubernetes.io/serviceaccount" <= mount.fields["mountPath"].text
  }

  /** A label or annotation that controllers set. */
  predicate SetByServer(field: string, key: string) {
    if field == "labels" then "kubernetes.io/" <= key || "batch.kubernetes.io/" <= key || key == "controller-uid" || key == "job-name"
    else "deployment.kubernetes.io/" <= key || "deprecated.daemonset.template.generation" <= key
  }

  predicate ElementOf(list: string, path: string) {
    path == list + "[]"
  }

  /** A container in the list of some pod's containers: a Pod's own, its template's, or its job template's. */
  predicate ElementOfContainers(path: string) {
    || ElementOf("spec.containers", path) || ElementOf("spec.initContainers", path) || ElementOf("spec.ephemeralContainers", path)
    || ElementOf("spec.template.spec.containers", path) || ElementOf("spec.template.spec.initContainers", path)
    || ElementOf("spec.template.spec.ephemeralContainers", path)
    || ElementOf("spec.jobTemplate.spec.template.spec.containers", path)
    || ElementOf("spec.jobTemplate.spec.template.spec.initContainers", path)
    || ElementOf("spec.jobTemplate.spec.template.spec.ephemeralContainers", path)
  }

  lemma ElementOnce(list: string, path: string)
    ensures ElementOf(list, path) <==> |path| >= 2 && path[|path| - 2..] == "[]" && path[..|path| - 2] == list
  {
    if ElementOf(list, path) {
      assert path[..|list|] == list;
    }
  }

  lemma ContainerPaths(path: string)
    ensures ContainerElementPath(path) <==> ElementOfContainers(path)
  {
    forall list: string
      ensures ElementOf(list, path) <==> |path| >= 2 && path[|path| - 2..] == "[]" && path[..|path| - 2] == list
    {
      ElementOnce(list, path);
    }
  }

  lemma ManagedKeys(field: string, key: string)
    requires field == "labels" || field == "annotations"
    ensures Managed(if field == "labels" then Labels else Annotations, key) <==> SetByServer(field, key)
  {
    assert "kubernetes.io/" in LABEL_PREFIXES && "batch.kubernetes.io/" in LABEL_PREFIXES;
    assert "deployment.kubernetes.io/" in ANNOTATION_PREFIXES && "deprecated.daemonset.template.generation" in ANNOTATION_PREFIXES;
  }

  /** Of an object that is no label or annotation map, a field goes exactly when it is a pod spec's old service account,
      a container's pull policy, a container's mounts and all of them token mounts, or labels or annotations that only
      the server sets. */
  lemma FieldGoes(m: map<string, Json>, path: string, k: string)
    requires k in m
    ensures k !in Stripped(Obj(m), path, Plain).fields <==>
      || (k == "serviceAccount" && path in {"spec", "spec.template.spec", "spec.jobTemplate.spec.template.spec"})
      || (k == "imagePullPolicy" && ElementOfContainers(path))
      || (k == "volumeMounts" && ElementOfContainers(path) && m[k].Arr? && forall x | x in m[k].items :: TokenMount(x))
      || ((k == "labels" || k == "annotations") && m[k].Obj? && forall l | l in m[k].fields :: SetByServer(k, l))
  {
    ContainerPaths(path);
    if k == "labels" || k == "annotations" {
      MapGoes(m[k], path, k);
    } else if k == "volumeMounts" && m[k].Arr? {
      MountsGo(m[k].items);
    }
  }

  lemma MapGoes(v: Json, path: string, field: string)
    requires field == "labels" || field == "annotations"
    ensures Emptied(v, KindOf(path, field)) <==> v.Obj? && forall l | l in v.fields :: SetByServer(field, l)
  {
    if v.Obj? {
      var kind := KindOf(path, field);
      forall l | l in v.fields
        ensures Managed(kind, l) <==> SetByServer(field, l)
      {
        ManagedKeys(field, l);
      }
      if l :| l in v.fields && !Managed(kind, l) {
        assert l in Unmanaged(v.fields, kind);
      }
    }
  }

  lemma MountsGo(mounts: seq<Json>)
    ensures Filtered(mounts) == [] <==> forall x | x in mounts :: TokenMount(x)
  {
    forall x | x in mounts
      ensures AccountMount(x) <==> TokenMount(x)
    {}
    if Filtered(mounts) != [] {
      assert Filtered(mounts)[0] in Filtered(mounts);
    }
  }

  /** Of a label or annotation map, an entry that is no object goes exactly when the server sets it; when all do, the
      map goes with them. */
  lemma EntryGoes(m: map<string, Json>, path: string, field: string, key: string)
    requires (field == "labels" || field == "annotations") && field in m && m[field].Obj?
    requires key in m[field].fields && !m[field].fields[key].Obj?
    ensures
      var after := Stripped(Obj(m), path, Plain).fields;
      (field in after && after[field].Obj? && key in after[field].fields) <==> !SetByServer(field, key)
  {
    ManagedKeys(field, key);
    MapGoes(m[field], path, field);
    MetaPath(path, field);
  }

  /** The path the rules see a value of the document under: its keys and a pair of brackets for each list. */
  function PathTo(path: string, steps: seq<Step>): string
    decreases |steps|
  {
    if steps == [] then path
    else match steps[0]
      case Key(k) => PathTo(JoinPath(path, k), steps[1..])
      case Index(_) => PathTo(path + "[]", steps[1..])
  }

  lemma {:induction false} NoDefaultsBeneath(v: Json, path: string, kind: Kind, steps: seq<Step>, k: string)
    requires
      || (k == "serviceAccount" && PathTo(path, steps) in {"spec", "spec.template.spec", "spec.jobTemplate.spec.template.spec"})
      || (k == "imagePullPolicy" && ElementOfContainers(PathTo(path, steps)))
    ensures ValueAt(Stripped(v, path, kind), steps + [Key(k)]).None?
    decreases |steps|
  {
    var pruned := Stripped(v, path, kind);
    if steps == [] {
      ContainerPaths(path);
      assert ([Key(k)])[1..] == [];
      assert steps + [Key(k)] == [Key(k)];
    } else {
      var rest := steps[1..];
      assert (steps + [Key(k)])[1..] == rest + [Key(k)];
      match steps[0]
      case Key(f) =>
        if pruned.Obj? && f in pruned.fields {
          NoDefaultsBeneath(v.fields[f], JoinPath(path, f), KindOf(path, f), rest, k);
        }
      case Index(i) =>
        if pruned.Arr? && i < |pruned.items| {
          NoDefaultsBeneath(Kept(v.items, kind)[i], path + "[]", Plain, rest, k);
        }
    }
  }

  predicate ContainerList(list: string) {
    list == "containers" || list == "initContainers" || list == "ephemeralContainers"
  }

  lemma ListPath(path: string, list: string, i: nat)
    requires path != ""
    ensures PathTo(path, [Key(list), Index(i)]) == path + "." + list + "[]"
  {
    assert [Key(list), Index(i)][1..] == [Index(i)];
    assert [Index(i)][1..] == [];
    assert PathTo(path + "." + list, [Index(i)]) == path + "." + list + "[]";
  }

  lemma ContainerOf(spec: string, list: string)
    requires spec in POD_SPEC_PATHS && ContainerList(list)
    ensures ElementOfContainers(spec + "." + list + "[]")
  {
    if spec == "spec" {
      ContainerOfPod(list);
    } else if spec == "spec.template.spec" {
      ContainerOfTemplate(list);
    } else {
      ContainerOfJob(list);
    }
  }

  lemma ContainerOfPod(list: string)
    requires ContainerList(list)
    ensures ElementOfContainers("spec" + "." + list + "[]")
  {
    assert "spec" + "." + "containers" == "spec.containers";
    assert "spec" + "." + "initContainers" == "spec.initContainers";
    assert "spec" + "." + "ephemeralContainers" == "spec.ephemeralContainers";
  }

  lemma ContainerOfTemplate(list: string)
    requires ContainerList(list)
    ensures ElementOfContainers("spec.template.spec" + "." + list + "[]")
  {
    var spec := "spec.template.spec";
    assert spec + "." + "containers" == "spec.template.spec.containers";
    assert spec + "." + "initContainers" == "spec.template.spec.initContainers";
    assert spec + "." + "ephemeralContainers" == "spec.template.spec.ephemeralContainers";
  }

  lemma ContainerOfJob(list: string)
    requires ContainerList(list)
    ensures ElementOfContainers("spec.jobTemplate.spec.template.spec" + "." + list + "[]")
  {
    var spec := "spec.jobTemplate.spec.template.spec";
    assert spec + "." + "containers" == "spec.jobTemplate.spec.template.spec.containers";
    assert spec + "." + "initContainers" == "spec.jobTemplate.spec.template.spec.initContainers";
    assert spec + "." + "ephemeralContainers" == "spec.jobTemplate.spec.template.spec.ephemeralContainers";
  }

  /** Pruned, no pod spec of a document names the old service account, and no container of one a pull policy. */
  lemma PodSpecsArePruned(doc: Json, spec: seq<Step>, list: string, i: nat)
    requires PathTo("", spec) in {"spec", "spec.template.spec", "spec.jobTemplate.spec.template.spec"} && ContainerList(list)
    ensures ValueAt(Stripped(doc, "", Plain), spec + [Key("serviceAccount")]).None?
    ensures ValueAt(Stripped(doc, "", Plain), spec + [Key(list), Index(i), Key("imagePullPolicy")]).None?
  {
    var container := spec + [Key(list), Index(i)];
    NoDefaultsBeneath(doc, "", Plain, spec, "serviceAccount");
    PathToOn("", spec, [Key(list), Index(i)]);
    ListPath(PathTo("", spec), list, i);
    ContainerOf(PathTo("", spec), list);
    NoDefaultsBeneath(doc, "", Plain, container, "imagePullPolicy");
    assert container + [Key("imagePullPolicy")] == spec + [Key(list), Index(i), Key("imagePullPolicy")];
  }

  /** A workload keeps its pod spec under its template's, a CronJob under its job template's. */
  lemma WhereSpecsAre()
    ensures PathTo("", [Key("spec")]) == "spec"
    ensures PathTo("", [Key("spec")] + ([Key("template")] + [Key("spec")])) == "spec.template.spec"
    ensures PathTo("", [Key("spec")] + ([Key("jobTemplate")] + ([Key("spec")] + ([Key("template")] + [Key("spec")]))))
      == "spec.jobTemplate.spec.template.spec"
  {
    TemplateSpec("spec");
    TemplateSpec("spec.jobTemplate.spec");
    assert "spec" + ".template.spec" == "spec.template.spec";
    JobTemplateSpec([Key("template")] + [Key("spec")]);
    FirstKey([Key("template")] + [Key("spec")]);
    FirstKey([Key("jobTemplate")] + ([Key("spec")] + ([Key("template")] + [Key("spec")])));
    assert "spec.jobTemplate.spec" + ".template.spec" == "spec.jobTemplate.spec.template.spec";
  }

  lemma FirstKey(rest: seq<Step>)
    ensures PathTo("", [Key("spec")] + rest) == PathTo("spec", rest)
  {
    assert ([Key("spec")] + rest)[1..] == rest;
  }

  lemma TemplateSpec(path: string)
    requires path != ""
    ensures PathTo(path, [Key("template")] + [Key("spec")]) == path + ".template.spec"
  {
    OneKey(path, "template", [Key("spec")]);
    assert [Key("spec")] == [Key("spec")] + [];
    OneKey(path + "." + "template", "spec", []);
    assert path + "." + "template" + "." + "spec" == path + ".template.spec";
  }

  lemma JobTemplateSpec(rest: seq<Step>)
    ensures PathTo("spec", [Key("jobTemplate")] + ([Key("spec")] + rest)) == PathTo("spec.jobTemplate.spec", rest)
  {
    OneKey("spec", "jobTemplate", [Key("spec")] + rest);
    OneKey("spec" + "." + "jobTemplate", "spec", rest);
    assert "spec" + "." + "jobTemplate" + "." + "spec" == "spec.jobTemplate.spec";
  }

  lemma OneKey(path: string, k: string, rest: seq<Step>)
    requires path != ""
    ensures PathTo(path, [Key(k)] + rest) == PathTo(path + "." + k, rest)
  {
    assert ([Key(k)] + rest)[1..] == rest;
  }

  lemma {:induction false} PathToOn(path: string, first: seq<Step>, second: seq<Step>)
    ensures PathTo(path, first + second) == PathTo(PathTo(path, first), second)
    decreases |first|
  {
    if first == [] {
      assert first + second == second;
    } else {
      assert (first + second)[1..] == first[1..] + second;
      PathToOn(match first[0] case Key(k) => JoinPath(path, k) case Index(_) => path + "[]", first[1..], second);
    }
  }

  // ---- Pruning twice ----

  predicate IsMeta(kind: Kind) {
    kind.Labels? || kind.Annotations?
  }

  /** An object of which nothing remains once it is pruned itself, although its parent's rule may leave something. */
  predicate Hollow(v: Json, path: string, kind: Kind) {
    v.Obj? && forall k | k in v.fields :: Managed(kind, k) || Named(path, k, v.fields[k])
  }

  /** No label or annotation map that survives its parent's rule is hollow. */
  predicate Settles(v: Json, path: string, kind: Kind)
    decreases v
  {
    match v
    case Obj(m) =>
      forall k | k in m && !Managed(kind, k) && !Named(path, k, m[k]) ::
        && !(IsMeta(KindOf(path, k)) && Hollow(m[k], JoinPath(path, k), KindOf(path, k)))
        && Settles(m[k], JoinPath(path, k), KindOf(path, k))
    case Arr(items) =>
      var kept := Kept(items, kind);
      forall i | 0 <= i < |kept| :: (assert kept[i] in items; Settles(kept[i], path + "[]", Plain))
    case _ => true
  }

  lemma MountStays(mount: Json, path: string)
    ensures AccountMount(Stripped(mount, path, Plain)) <==> AccountMount(mount)
  {
    if mount.Obj? && "mountPath" in mount.fields {
      OtherFields(path, "mountPath", mount.fields["mountPath"]);
    }
  }

  lemma {:induction false} NoneFiltered(mounts: seq<Json>)
    requires forall i | 0 <= i < |mounts| :: !AccountMount(mounts[i])
    ensures Filtered(mounts) == mounts
  {
    if mounts != [] {
      NoneFiltered(mounts[1..]);
    }
  }

  lemma MountsStay(items: seq<Json>, path: string)
    ensures var pruned := Stripped(Arr(items), path, Mounts).items; Filtered(pruned) == pruned && |pruned| == |Filtered(items)|
  {
    var kept, pruned := Filtered(items), Stripped(Arr(items), path, Mounts).items;
    forall i | 0 <= i < |pruned|
      ensures !AccountMount(pruned[i])
    {
      assert kept[i] in items && !AccountMount(kept[i]);
      MountStays(kept[i], path + "[]");
    }
    NoneFiltered(pruned);
  }

  /** When a field that survived pruning would go the next time. */
  lemma EmptiedLater(v: Json, path: string, kind: Kind)
    requires !Emptied(v, kind)
    ensures Emptied(Stripped(v, path, kind), kind) <==> IsMeta(kind) && Hollow(v, path, kind)
  {
    if v.Obj? && IsMeta(kind) {
      var w := Stripped(v, path, kind);
      assert Unmanaged(w.fields, kind) == w.fields;
      if Hollow(v, path, kind) {
        assert w.fields == map[];
      } else {
        var k :| k in v.fields && !(Managed(kind, k) || Named(path, k, v.fields[k]));
        assert k in w.fields;
      }
    } else if v.Arr? && kind.Mounts? {
      MountsStay(v.items, path);
    }
  }

  /** Pruning a second time changes nothing exactly when no surviving label or annotation map is hollow. */
  lemma {:induction false} StripTwice(v: Json, path: string, kind: Kind)
    ensures Stripped(Stripped(v, path, kind), path, kind) == Stripped(v, path, kind) <==> Settles(v, path, kind)
    decreases v
  {
    match v
    case Obj(m) => StripObjectTwice(m, path, kind, v);
    case Arr(items) => StripArrayTwice(items, path, kind, v);
    case _ =>
  }

  lemma StripObjectTwice(m: map<string, Json>, path: string, kind: Kind, v: Json)
    requires v == Obj(m)
    ensures Stripped(Stripped(v, path, kind), path, kind) == Stripped(v, path, kind) <==> Settles(v, path, kind)
    decreases v, 0
  {
    var once := Stripped(v, path, kind);
    var twice := Stripped(once, path, kind);
    forall k | k in once.fields
      ensures k in twice.fields <==> !(IsMeta(KindOf(path, k)) && Hollow(m[k], JoinPath(path, k), KindOf(path, k)))
      ensures k in twice.fields ==> (twice.fields[k] == once.fields[k] <==> Settles(m[k], JoinPath(path, k), KindOf(path, k)))
    {
      StripTwice(m[k], JoinPath(path, k), KindOf(path, k));
      EmptiedLater(m[k], JoinPath(path, k), KindOf(path, k));
    }
    assert twice == once <==> forall k | k in once.fields :: k in twice.fields && twice.fields[k] == once.fields[k];
  }

  lemma StripArrayTwice(items: seq<Json>, path: string, kind: Kind, v: Json)
    requires v == Arr(items)
    ensures Stripped(Stripped(v, path, kind), path, kind) == Stripped(v, path, kind) <==> Settles(v, path, kind)
    decreases v, 0
  {
    var kept, once := Kept(items, kind), Stripped(v, path, kind);
    assert Kept(once.items, kind) == once.items by {
      if kind.Mounts? {
        MountsStay(items, path);
      }
    }
    var twice := Stripped(once, path, kind);
    forall i | 0 <= i < |kept|
      ensures twice.items[i] == once.items[i] <==> Settles(kept[i], path + "[]", Plain)
    {
      assert kept[i] in items;
      StripTwice(kept[i], path + "[]", Plain);
    }
    assert twice == once <==> forall i | 0 <= i < |kept| :: twice.items[i] == once.items[i];
  }

  /** Every label and annotation map in the document holds only scalars and lists. */
  predicate FlatMeta(v: Json) {
    match v
    case Obj(m) =>
      forall k | k in m ::
        && ((k == "labels" || k == "annotations") && m[k].Obj? ==> forall l | l in m[k].fields :: !m[k].fields[l].Obj?)
        && FlatMeta(m[k])
    case Arr(items) => forall i | 0 <= i < |items| :: FlatMeta(items[i])
    case _ => true
  }

  /** The path of a label or annotation map is neither a pod spec's nor a container's. */
  lemma MetaPath(path: string, key: string)
    requires key == "labels" || key == "annotations"
    ensures JoinPath(path, key) !in POD_SPEC_PATHS && !ContainerElementPath(JoinPath(path, key))
  {
    var joined := JoinPath(path, key);
    assert joined[|joined| - 1] == 's';
    assert forall p | p in POD_SPEC_PATHS :: p[|p| - 1] == 'c';
  }

  lemma FlatIsNotHollow(v: Json, path: string, key: string, kind: Kind)
    requires kind == KindOf(path, key) && IsMeta(kind)
    requires v.Obj? && !Emptied(v, kind) && forall l | l in v.fields :: !v.fields[l].Obj?
    ensures !Hollow(v, JoinPath(path, key), kind)
  {
    MetaPath(path, key);
    assert Unmanaged(v.fields, kind) != map[];
    var l :| l in Unmanaged(v.fields, kind);
    assert !Named(JoinPath(path, key), l, v.fields[l]);
  }

  /** A document whose label and annotation maps hold no objects, as Kubernetes has them, is pruned for good. */
  lemma {:induction false} FlatMetaSettles(v: Json, path: string, kind: Kind)
    requires FlatMeta(v)
    ensures Settles(v, path, kind)
    decreases v
  {
    match v
    case Obj(m) =>
      forall k | k in m && !Managed(kind, k) && !Named(path, k, m[k])
        ensures !(IsMeta(KindOf(path, k)) && Hollow(m[k], JoinPath(path, k), KindOf(path, k)))
        ensures Settles(m[k], JoinPath(path, k), KindOf(path, k))
      {
        FlatMetaSettles(m[k], JoinPath(path, k), KindOf(path, k));
        if IsMeta(KindOf(path, k)) && m[k].Obj? {
          FlatIsNotHollow(m[k], path, k, KindOf(path, k));
        }
      }
    case Arr(items) =>
      var kept := Kept(items, kind);
      forall i | 0 <= i < |kept|
        ensures Settles(kept[i], path + "[]", Plain)
      {
        assert kept[i] in items;
        FlatMetaSettles(kept[i], path + "[]", Plain);
      }
    case _ =>
  }

  const NESTED_LABELS: Json := Obj(map["labels" := Obj(map["labels" := Obj(map["job-name" := Str("backup")])])])

  /** The condition matters to the function, if not to what LiveState passes it: a label named "labels" that holds an
      object of managed labels leaves an empty map, which only a second pass removes. */
  lemma NestedLabelsTakeTwoPasses()
    ensures Stripped(NESTED_LABELS, "", Plain) == Obj(map["labels" := Obj(map[])])
    ensures Stripped(Obj(map["labels" := Obj(map[])]), "", Plain) == Obj(map[])
  {
    var inner := NESTED_LABELS.fields["labels"].fields["labels"];
    var labels := NESTED_LABELS.fields["labels"];
    assert Unmanaged(inner.fields, Labels) == map[];
    assert !Managed(Labels, "labels");
    assert Stripped(labels, "labels", Labels).fields == map[];
    assert "labels" in Unmanaged(labels.fields, Labels);
    assert Stripped(NESTED_LABELS, "", Plain).fields == map["labels" := Obj(map[])];
    assert Unmanaged(map[], Labels) == map[];
    assert Stripped(Obj(map["labels" := Obj(map[])]), "", Plain).fields == map[];
  }
}
