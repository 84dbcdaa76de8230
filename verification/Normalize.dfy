// Undoing dot-expansion of string-valued metadata maps (pkg/resources/prov/normalize.go).
//
// Go ranges over maps in any order, and two paths may collapse onto one key, so
// both operations are specified by relations: what some order yields.
module Normalize {
  import opened Json
  import Text

  // ---- What collapsing yields ----

  /** fmt's %v, and the two kinds of leaf it is not used for. */
  function Coerced(v: Json, show: Json -> string): Json {
    if v.Str? then v else if v.Null? then Str("") else Str(show(v))
  }

  /** path leads from the object m through objects to v, which is none. */
  ghost predicate LeafAt(m: map<string, Json>, path: seq<string>, v: Json)
    decreases |path|
  {
    path != [] && path[0] in m
    && if |path| == 1 then m[path[0]] == v && !v.Obj?
       else m[path[0]].Obj? && LeafAt(m[path[0]].fields, path[1..], v)
  }

  function Dotted(prefix: string, path: seq<string>): string
    decreases |path|
  {
    if path == [] then prefix else Dotted(JoinPath(prefix, path[0]), path[1..])
  }

  ghost predicate LeafOf(m: map<string, Json>, prefix: string, path: seq<string>, v: Json, key: string) {
    LeafAt(m, path, v) && Dotted(prefix, path) == key
  }

  /** out holds a key for every leaf's dotted path, and under each key the coerced value of some leaf with that path. */
  ghost predicate Collapsed(m: map<string, Json>, prefix: string, show: Json -> string, out: map<string, Json>) {
    && (forall path, v | LeafAt(m, path, v) :: Dotted(prefix, path) in out)
    && (forall key | key in out :: exists path, v :: LeafOf(m, prefix, path, v, key) && out[key] == Coerced(v, show))
  }

  lemma LeafStep(m: map<string, Json>, prefix: string, path: seq<string>, v: Json)
    requires path != []
    ensures Dotted(prefix, path) == Dotted(JoinPath(prefix, path[0]), path[1..])
    ensures path[0] in m && m[path[0]].Obj? && LeafAt(m[path[0]].fields, path[1..], v) ==> LeafAt(m, path, v)
    ensures LeafAt(m, path, v) ==> if m[path[0]].Obj? then LeafAt(m[path[0]].fields, path[1..], v) else path == [path[0]] && v == m[path[0]]
  {}

  // ---- What an order of iteration yields ----

  /** What visiting the key k of m adds: its coerced value, or some outcome of the object below. */
  ghost predicate Contributes(m: map<string, Json>, k: string, prefix: string, show: Json -> string, add: map<string, Json>)
    requires k in m
    decreases Obj(m), 0, 0
  {
    if m[k].Obj? then Outcome(m[k].fields, JoinPath(prefix, k), show, add)
    else add == map[JoinPath(prefix, k) := Coerced(m[k], show)]
  }

  /** out is what has been collected after visiting the keys of m in the given order. */
  ghost predicate Merged(m: map<string, Json>, prefix: string, show: Json -> string, order: seq<string>, out: map<string, Json>)
    requires forall k | k in order :: k in m
    decreases Obj(m), 1, |order|
  {
    if order == [] then out == map[]
    else
      var k := order[|order| - 1];
      exists before, add :: Merged(m, prefix, show, order[..|order| - 1], before) && Contributes(m, k, prefix, show, add) && out == before + add
  }

  ghost predicate Enumerates(order: seq<string>, m: map<string, Json>) {
    (forall k :: k in order <==> k in m) && forall i, j | 0 <= i < j < |order| :: order[i] != order[j]
  }

  /** out is the result for some order of iteration, here and in every object below. */
  ghost predicate Outcome(m: map<string, Json>, prefix: string, show: Json -> string, out: map<string, Json>)
    decreases Obj(m), 2, 0
  {
    exists order :: Enumerates(order, m) && Merged(m, prefix, show, order, out)
  }

  method CollapseStringMap(m: map<string, Json>, prefix: string, show: Json -> string) returns (out: map<string, Json>)
    ensures Outcome(m, prefix, show, out)
    decreases Obj(m)
  {
    out := map[];
    var todo := m.Keys;
    ghost var order: seq<string> := [];
    while todo != {}
      invariant todo <= m.Keys
      invariant forall k :: k in order <==> k in m && k !in todo
      invariant forall i, j | 0 <= i < j < |order| :: order[i] != order[j]
      invariant Merged(m, prefix, show, order, out)
    {
      var k :| k in todo;
      var add;
      if m[k].Obj? {
        add := CollapseStringMap(m[k].fields, JoinPath(prefix, k), show);
      } else {
        add := map[JoinPath(prefix, k) := Coerced(m[k], show)];
      }
      MergeOne(m, prefix, show, order, out, k, add);
      todo := todo - {k};
      order := order + [k];
      out := out + add;
    }
    assert Enumerates(order, m);
  }

  lemma MergeOne(m: map<string, Json>, prefix: string, show: Json -> string, order: seq<string>, before: map<string, Json>,
                 k: string, add: map<string, Json>)
    requires (forall f | f in order :: f in m) && k in m
    requires Merged(m, prefix, show, order, before) && Contributes(m, k, prefix, show, add)
    ensures Merged(m, prefix, show, order + [k], before + add)
  {
    assert (order + [k])[..|order|] == order;
  }

  // ---- Every outcome is the map of the dotted leaf paths ----

  lemma ContributionIsSound(m: map<string, Json>, k: string, prefix: string, show: Json -> string, add: map<string, Json>, key: string)
    requires k in m && key in add && Contributes(m, k, prefix, show, add)
    requires m[k].Obj? ==> Collapsed(m[k].fields, JoinPath(prefix, k), show, add)
    ensures exists path, v :: LeafOf(m, prefix, path, v, key) && add[key] == Coerced(v, show)
  {
    if m[k].Obj? {
      var rest, v :| LeafOf(m[k].fields, JoinPath(prefix, k), rest, v, key) && add[key] == Coerced(v, show);
      var path := [k] + rest;
      assert path[1..] == rest;
      LeafStep(m, prefix, path, v);
      assert LeafOf(m, prefix, path, v, key);
    } else {
      var path := [k];
      assert Dotted(prefix, path) == JoinPath(prefix, k);
      assert LeafOf(m, prefix, path, m[k], key);
    }
  }

  lemma ContributionIsComplete(m: map<string, Json>, prefix: string, show: Json -> string, add: map<string, Json>, path: seq<string>, v: Json)
    requires LeafAt(m, path, v) && Contributes(m, path[0], prefix, show, add)
    requires m[path[0]].Obj? ==> Collapsed(m[path[0]].fields, JoinPath(prefix, path[0]), show, add)
    ensures Dotted(prefix, path) in add
  {
    LeafStep(m, prefix, path, v);
  }

  /** What has been collected after visiting some of the keys. */
  ghost predicate PartlyCollapsed(m: map<string, Json>, prefix: string, show: Json -> string, order: seq<string>, out: map<string, Json>) {
    && (forall path, v | LeafAt(m, path, v) && path[0] in order :: Dotted(prefix, path) in out)
    && (forall key | key in out :: exists path, v :: LeafOf(m, prefix, path, v, key) && out[key] == Coerced(v, show))
  }

  lemma {:induction false} MergedIsCollapsed(m: map<string, Json>, prefix: string, show: Json -> string, order: seq<string>, out: map<string, Json>)
    requires (forall k | k in order :: k in m) && Merged(m, prefix, show, order, out)
    ensures PartlyCollapsed(m, prefix, show, order, out)
    decreases Obj(m), 0, |order|
  {
    if order != [] {
      var n := |order| - 1;
      var k := order[n];
      var before, add :| Merged(m, prefix, show, order[..n], before) && Contributes(m, k, prefix, show, add) && out == before + add;
      MergedIsCollapsed(m, prefix, show, order[..n], before);
      if m[k].Obj? {
        OutcomeIsCollapsed(m[k].fields, JoinPath(prefix, k), show, add);
      }
      MergeKeepsCollapsed(m, prefix, show, order[..n], before, k, add);
      assert order[..n] + [k] == order;
    }
  }

  lemma MergeKeepsCollapsed(m: map<string, Json>, prefix: string, show: Json -> string, order: seq<string>, before: map<string, Json>,
                            k: string, add: map<string, Json>)
    requires PartlyCollapsed(m, prefix, show, order, before) && k in m && Contributes(m, k, prefix, show, add)
    requires m[k].Obj? ==> Collapsed(m[k].fields, JoinPath(prefix, k), show, add)
    ensures PartlyCollapsed(m, prefix, show, order + [k], before + add)
  {
    forall key | key in before + add
      ensures exists path, v :: LeafOf(m, prefix, path, v, key) && (before + add)[key] == Coerced(v, show)
    {
      if key in add {
        ContributionIsSound(m, k, prefix, show, add, key);
      }
    }
    forall path, v | LeafAt(m, path, v) && path[0] in order + [k]
      ensures Dotted(prefix, path) in before + add
    {
      if path[0] == k {
        ContributionIsComplete(m, prefix, show, add, path, v);
      }
    }
  }

  /** Whatever the order, the result is exactly the map from dotted leaf paths to coerced values, a key reached by
      several paths holding the value of one of them. */
  lemma {:induction false} OutcomeIsCollapsed(m: map<string, Json>, prefix: string, show: Json -> string, out: map<string, Json>)
    requires Outcome(m, prefix, show, out)
    ensures Collapsed(m, prefix, show, out)
    decreases Obj(m), 1, 0
  {
    var order :| Enumerates(order, m) && Merged(m, prefix, show, order, out);
    MergedIsCollapsed(m, prefix, show, order, out);
  }

  /** Every collapsed key holds the text of some leaf there: a string as it is, null as nothing, others as printed. */
  lemma CollapsedText(m: map<string, Json>, prefix: string, show: Json -> string, out: map<string, Json>, key: string)
    requires Outcome(m, prefix, show, out) && key in out
    ensures exists path, v ::
      && LeafOf(m, prefix, path, v, key)
      && out[key] == (match v case Str(text) => Str(text) case Null => Str("") case _ => Str(show(v)))
  {
    OutcomeIsCollapsed(m, prefix, show, out);
    var path, v :| LeafOf(m, prefix, path, v, key) && out[key] == Coerced(v, show);
    assert v.Null? ==> out[key] == Str("");
  }

  // ---- When the order does not matter ----

  /** Leaves whose paths collapse onto one key are coerced to one value. */
  ghost predicate Agree(m: map<string, Json>, prefix: string, show: Json -> string) {
    forall key, p, v, q, w | LeafOf(m, prefix, p, v, key) && LeafOf(m, prefix, q, w, key) :: Coerced(v, show) == Coerced(w, show)
  }

  predicate Within(a: map<string, Json>, b: map<string, Json>) {
    forall key | key in a :: key in b && a[key] == b[key]
  }

  lemma WithinEachOther(a: map<string, Json>, b: map<string, Json>)
    requires Within(a, b) && Within(b, a)
    ensures a == b
  {}

  lemma AgreeingOutcomes(m: map<string, Json>, prefix: string, show: Json -> string, a: map<string, Json>, b: map<string, Json>)
    requires Collapsed(m, prefix, show, a) && Collapsed(m, prefix, show, b) && Agree(m, prefix, show)
    ensures Within(a, b)
  {
    forall key | key in a
      ensures key in b && a[key] == b[key]
    {
      var p, v :| LeafOf(m, prefix, p, v, key) && a[key] == Coerced(v, show);
      var q, w :| LeafOf(m, prefix, q, w, key) && b[key] == Coerced(w, show);
    }
  }

  lemma {:induction false} SomeOrder(keys: set<string>) returns (order: seq<string>)
    ensures forall k :: k in order <==> k in keys
    ensures forall i, j | 0 <= i < j < |order| :: order[i] != order[j]
    decreases |keys|
  {
    if keys == {} {
      order := [];
    } else {
      var k :| k in keys;
      var rest := SomeOrder(keys - {k});
      order := rest + [k];
    }
  }

  /** Any keys can be visited in any order, the objects below being visited somehow. */
  lemma {:induction false} SomeMerge(m: map<string, Json>, prefix: string, show: Json -> string, order: seq<string>) returns (out: map<string, Json>)
    requires forall k | k in order :: k in m
    ensures Merged(m, prefix, show, order, out)
    decreases Obj(m), 0, |order|
  {
    if order == [] {
      out := map[];
    } else {
      var n := |order| - 1;
      var before := SomeMerge(m, prefix, show, order[..n]);
      var add := SomeContribution(m, prefix, show, order[n]);
      out := before + add;
    }
  }

  lemma SomeContribution(m: map<string, Json>, prefix: string, show: Json -> string, k: string) returns (add: map<string, Json>)
    requires k in m
    ensures Contributes(m, k, prefix, show, add)
    decreases Obj(m), 0, 0
  {
    if m[k].Obj? {
      var order := SomeOrder(m[k].fields.Keys);
      add := SomeMerge(m[k].fields, JoinPath(prefix, k), show, order);
      assert Enumerates(order, m[k].fields);
    } else {
      add := map[JoinPath(prefix, k) := Coerced(m[k], show)];
    }
  }

  /** Some order visits a given leaf last of all leaves with its dotted path: its objects last on every level. */
  lemma {:induction false} VisitedLast(m: map<string, Json>, prefix: string, show: Json -> string, path: seq<string>, v: Json)
    returns (out: map<string, Json>)
    requires LeafAt(m, path, v)
    ensures Outcome(m, prefix, show, out)
    ensures Dotted(prefix, path) in out && out[Dotted(prefix, path)] == Coerced(v, show)
    decreases |path|
  {
    var k := path[0];
    LeafStep(m, prefix, path, v);
    var add: map<string, Json>;
    if m[k].Obj? {
      add := VisitedLast(m[k].fields, JoinPath(prefix, k), show, path[1..], v);
    } else {
      add := map[JoinPath(prefix, k) := Coerced(v, show)];
    }
    var order := SomeOrder(m.Keys - {k});
    var before := SomeMerge(m, prefix, show, order);
    MergeOne(m, prefix, show, order, before, k, add);
    out := before + add;
    assert Enumerates(order + [k], m);
  }

  lemma AgreeingOrders(m: map<string, Json>, prefix: string, show: Json -> string, a: map<string, Json>, b: map<string, Json>)
    requires Agree(m, prefix, show) && Outcome(m, prefix, show, a) && Outcome(m, prefix, show, b)
    ensures a == b
  {
    assert Collapsed(m, prefix, show, a) by { OutcomeIsCollapsed(m, prefix, show, a); }
    assert Collapsed(m, prefix, show, b) by { OutcomeIsCollapsed(m, prefix, show, b); }
    assert Within(a, b) by { AgreeingOutcomes(m, prefix, show, a, b); }
    assert Within(b, a) by { AgreeingOutcomes(m, prefix, show, b, a); }
    WithinEachOther(a, b);
  }

  lemma DisagreeingOrders(m: map<string, Json>, prefix: string, show: Json -> string) returns (a: map<string, Json>, b: map<string, Json>)
    requires !Agree(m, prefix, show)
    ensures Outcome(m, prefix, show, a) && Outcome(m, prefix, show, b) && a != b
  {
    var key, p, v, q, w :|
      LeafOf(m, prefix, p, v, key) && LeafOf(m, prefix, q, w, key) && Coerced(v, show) != Coerced(w, show);
    a := VisitedLast(m, prefix, show, p, v);
    b := VisitedLast(m, prefix, show, q, w);
    assert a[key] != b[key];
  }

  /** All orders of iteration have one outcome. */
  ghost predicate Determined(m: map<string, Json>, prefix: string, show: Json -> string) {
    forall a, b | Outcome(m, prefix, show, a) && Outcome(m, prefix, show, b) :: a == b
  }

  /** The order of iteration does not matter exactly when colliding paths agree: otherwise two orders differ. */
  lemma CollapseIsDetermined(m: map<string, Json>, prefix: string, show: Json -> string)
    ensures Determined(m, prefix, show) <==> Agree(m, prefix, show)
  {
    if Agree(m, prefix, show) {
      forall a, b | Outcome(m, prefix, show, a) && Outcome(m, prefix, show, b)
        ensures a == b
      {
        AgreeingOrders(m, prefix, show, a, b);
      }
    } else {
      var a, b := DisagreeingOrders(m, prefix, show);
    }
  }

  // ---- The dot-expansion it undoes ----

  /** No key continues another one after a dot; expansion has no tree for such a pair. */
  predicate PrefixFree(flat: map<string, string>) {
    forall a, b | a in flat && b in flat :: !(a + "." <= b)
  }

  function Head(key: string): string {
    Text.Split(key, '.')[0]
  }

  function Heads(flat: map<string, string>): set<string> {
    set key | key in flat :: Head(key)
  }

  function TailKeys(flat: map<string, string>, h: string): set<string> {
    set key | key in flat && h + "." <= key :: key[|h| + 1..]
  }

  /** The keys that continue h, without it. */
  function Tail(flat: map<string, string>, h: string): (rest: map<string, string>)
    ensures forall t :: t in rest <==> h + "." + t in flat
    ensures forall t | t in rest :: rest[t] == flat[h + "." + t]
  {
    TailKey(flat, h);
    map t | t in TailKeys(flat, h) :: flat[h + "." + t]
  }

  lemma TailKey(flat: map<string, string>, h: string)
    ensures forall t :: t in TailKeys(flat, h) <==> h + "." + t in flat
  {
    forall t
      ensures t in TailKeys(flat, h) <==> h + "." + t in flat
    {
      var key := h + "." + t;
      assert h + "." <= key && key[|h| + 1..] == t;
      if t in TailKeys(flat, h) {
        var other :| other in flat && h + "." <= other && other[|h| + 1..] == t;
        assert other == key;
      }
    }
  }

  /** Every key is shorter than n. */
  predicate Shorter(flat: map<string, string>, n: nat) {
    forall key | key in flat :: |key| < n
  }

  /** A flat map as nested objects, one level for each dot of a key. */
  function Expand(flat: map<string, string>, n: nat): map<string, Json>
    requires Shorter(flat, n)
    decreases n
  {
    if n == 0 then map[]
    else map h | h in Heads(flat) :: if h in flat then Str(flat[h]) else Obj(ExpandTail(flat, h, n))
  }

  function ExpandTail(flat: map<string, string>, h: string, n: nat): map<string, Json>
    requires Shorter(flat, n) && n > 0
    decreases n, 0
  {
    TailIsShorter(flat, h, n);
    Expand(Tail(flat, h), n - 1)
  }

  lemma TailIsShorter(flat: map<string, string>, h: string, n: nat)
    requires Shorter(flat, n) && n > 0
    ensures Shorter(Tail(flat, h), n - 1)
  {
    forall t | t in Tail(flat, h)
      ensures |t| < n - 1
    {
      assert h + "." + t in flat;
    }
  }

  lemma TailIsPrefixFree(flat: map<string, string>, h: string)
    requires PrefixFree(flat)
    ensures PrefixFree(Tail(flat, h))
  {
    forall a, b | a in Tail(flat, h) && b in Tail(flat, h)
      ensures !(a + "." <= b)
    {
      if a + "." <= b {
        Continues(h, a, b);
        Clash(flat, h + "." + a, h + "." + b);
      }
    }
  }

  lemma Clash(flat: map<string, string>, a: string, b: string)
    requires PrefixFree(flat) && a in flat && b in flat
    ensures !(a + "." <= b)
  {}

  lemma Continues(h: string, a: string, b: string)
    requires a + "." <= b
    ensures h + "." + a + "." <= h + "." + b
  {
    assert b == a + "." + b[|a| + 1..];
    assert h + "." + b == h + "." + a + "." + b[|a| + 1..];
  }

  predicate DotFree(path: seq<string>) {
    forall i | 0 <= i < |path| :: '.' !in path[i]
  }

  /** path is a key of flat split at its dots, and v the string stored under it. */
  predicate EntryAt(flat: map<string, string>, path: seq<string>, v: Json)
    requires path != []
  {
    DotFree(path) && Text.Join(path, '.') in flat && v == Str(flat[Text.Join(path, '.')])
  }

  /** The leaves of an expansion are the flat map's entries, each at its key split at the dots. */
  lemma {:induction false} ExpansionLeaves(flat: map<string, string>, n: nat, path: seq<string>, v: Json)
    requires PrefixFree(flat) && Shorter(flat, n) && path != []
    ensures LeafAt(Expand(flat, n), path, v) <==> EntryAt(flat, path, v)
    decreases |path|, 0
  {
    var h, rest := path[0], path[1..];
    assert path == [h] + rest;
    if n == 0 {
      assert LeafAt(map[], path, v) == false;
    } else if rest == [] {
      FlatLeaf(flat, n, h, v);
    } else {
      DeepStep(flat, n, h, rest, v);
    }
  }

  lemma DeepStep(flat: map<string, string>, n: nat, h: string, rest: seq<string>, v: Json)
    requires PrefixFree(flat) && Shorter(flat, n) && n > 0 && rest != []
    ensures LeafAt(Expand(flat, n), [h] + rest, v) <==> EntryAt(flat, [h] + rest, v)
    decreases |rest|, 1
  {
    assert LeafAt(ExpandTail(flat, h, n), rest, v) <==> EntryAt(Tail(flat, h), rest, v) by {
      TailIsPrefixFree(flat, h);
      TailIsShorter(flat, h, n);
      ExpansionLeaves(Tail(flat, h), n - 1, rest, v);
    }
    DeepLeaf(flat, n, h, rest, v);
    DeepEntry(flat, h, rest, v);
  }

  lemma FlatLeaf(flat: map<string, string>, n: nat, h: string, v: Json)
    requires Shorter(flat, n) && n > 0
    ensures LeafAt(Expand(flat, n), [h], v) <==> EntryAt(flat, [h], v)
  {
    HeadOf(flat, h, []);
    assert [h] + [] == [h];
  }

  lemma DeepLeaf(flat: map<string, string>, n: nat, h: string, rest: seq<string>, v: Json)
    requires Shorter(flat, n) && n > 0 && rest != []
    ensures LeafAt(Expand(flat, n), [h] + rest, v) <==> h in Heads(flat) && h !in flat && LeafAt(ExpandTail(flat, h, n), rest, v)
  {
    var path := [h] + rest;
    assert path[0] == h && path[1..] == rest;
  }

  lemma DeepEntry(flat: map<string, string>, h: string, rest: seq<string>, v: Json)
    requires PrefixFree(flat) && rest != []
    ensures EntryAt(flat, [h] + rest, v) <==> h in Heads(flat) && h !in flat && EntryAt(Tail(flat, h), rest, v)
  {
    var path := [h] + rest;
    HeadOf(flat, h, rest);
    var key, tail := Text.Join(path, '.'), Text.Join(rest, '.');
    assert path[1..] == rest;
    assert key == h + "." + tail && h + "." <= key;
    assert DotFree(path) <==> '.' !in h && DotFree(rest) by {
      assert forall i | 0 <= i < |rest| :: rest[i] == path[i + 1];
      assert forall i | 0 < i < |path| :: path[i] == rest[i - 1];
    }
  }

  /** h is a head exactly when it is dot-free and a key or the start of one. */
  lemma HeadOf(flat: map<string, string>, h: string, rest: seq<string>)
    ensures h in Heads(flat) ==> '.' !in h
    ensures '.' !in h && Text.Join([h] + rest, '.') in flat ==> h in Heads(flat)
  {
    if h in Heads(flat) {
      var key :| key in flat && Head(key) == h;
      Text.SplitPieces(key, '.');
    }
    if '.' !in h {
      var key := Text.Join([h] + rest, '.');
      if rest == [] {
        Text.SplitWhole(h, '.');
      } else {
        assert ([h] + rest)[1..] == rest;
        Text.SplitStep(h, '.', Text.Join(rest, '.'));
      }
      assert Head(key) == h;
    }
  }

  // ---- Collapsing undoes expansion ----

  function Strings(flat: map<string, string>): map<string, Json> {
    map key | key in flat :: Str(flat[key])
  }

  predicate LeadingDot(key: string) {
    key != "" && key[0] == '.'
  }

  lemma {:induction false} DottedUnder(prefix: string, path: seq<string>)
    requires prefix != "" && path != []
    ensures Dotted(prefix, path) == prefix + "." + Text.Join(path, '.')
    decreases |path|
  {
    if |path| > 1 {
      DottedUnder(JoinPath(prefix, path[0]), path[1..]);
      assert prefix + "." + path[0] + "." + Text.Join(path[1..], '.') == prefix + "." + Text.Join(path, '.');
    }
  }

  /** A dotted path never starts with a dot, and is the joined one unless that does. */
  lemma {:induction false} DottedFromRoot(path: seq<string>)
    requires path != [] && DotFree(path)
    ensures !LeadingDot(Dotted("", path))
    ensures !LeadingDot(Text.Join(path, '.')) ==> Dotted("", path) == Text.Join(path, '.')
    decreases |path|
  {
    assert '.' !in path[0];
    if |path| > 1 {
      if path[0] == "" {
        DottedFromRoot(path[1..]);
      } else {
        DottedUnder(path[0], path[1..]);
      }
    }
  }

  lemma SplitIsEntry(flat: map<string, string>, key: string)
    requires key in flat
    ensures EntryAt(flat, Text.Split(key, '.'), Str(flat[key]))
  {
    Text.SplitPieces(key, '.');
    Text.JoinSplit(key, '.');
  }

  lemma ExpansionCovers(flat: map<string, string>, n: nat, show: Json -> string, out: map<string, Json>, key: string)
    requires PrefixFree(flat) && Shorter(flat, n) && Collapsed(Expand(flat, n), "", show, out)
    requires key in flat && !LeadingDot(key)
    ensures key in out
  {
    var path := Text.Split(key, '.');
    SplitIsEntry(flat, key);
    ExpansionLeaves(flat, n, path, Str(flat[key]));
    Text.JoinSplit(key, '.');
    DottedFromRoot(path);
  }

  lemma ExpansionYields(flat: map<string, string>, n: nat, show: Json -> string, out: map<string, Json>, key: string)
    requires PrefixFree(flat) && Shorter(flat, n) && Collapsed(Expand(flat, n), "", show, out) && key in out
    ensures !LeadingDot(key)
    ensures (forall k | k in flat :: !LeadingDot(k)) ==> key in flat && out[key] == Str(flat[key])
  {
    var path, v :| LeafOf(Expand(flat, n), "", path, v, key) && out[key] == Coerced(v, show);
    ExpansionLeaves(flat, n, path, v);
    DottedFromRoot(path);
  }

  predicate NoneLeads(flat: map<string, string>) {
    forall key | key in flat :: !LeadingDot(key)
  }

  lemma NothingAdded(flat: map<string, string>, n: nat, show: Json -> string, out: map<string, Json>)
    requires PrefixFree(flat) && Shorter(flat, n) && Collapsed(Expand(flat, n), "", show, out)
    ensures forall key | key in out :: !LeadingDot(key)
    ensures NoneLeads(flat) ==> forall key | key in out :: key in flat && out[key] == Str(flat[key])
  {
    forall key | key in out
      ensures !LeadingDot(key)
      ensures NoneLeads(flat) ==> key in flat && out[key] == Str(flat[key])
    {
      ExpansionYields(flat, n, show, out, key);
    }
  }

  lemma NothingLost(flat: map<string, string>, n: nat, show: Json -> string, out: map<string, Json>)
    requires PrefixFree(flat) && Shorter(flat, n) && Collapsed(Expand(flat, n), "", show, out) && NoneLeads(flat)
    ensures forall key | key in flat :: key in out
  {
    forall key | key in flat
      ensures key in out
    {
      ExpansionCovers(flat, n, show, out, key);
    }
  }

  /** Whatever order the keys are visited in, collapsing a dot-expanded map gives the map back exactly when none of
      its keys starts with a dot: the empty prefix stands for "at the root", so leading dots are lost. */
  lemma CollapseUndoesExpand(flat: map<string, string>, n: nat, show: Json -> string, out: map<string, Json>)
    requires PrefixFree(flat) && Shorter(flat, n) && Outcome(Expand(flat, n), "", show, out)
    ensures out == Strings(flat) <==> NoneLeads(flat)
  {
    OutcomeIsCollapsed(Expand(flat, n), "", show, out);
    NothingAdded(flat, n, show, out);
    if NoneLeads(flat) {
      NothingLost(flat, n, show, out);
      SameEntries(flat, out);
    } else {
      var key :| key in flat && LeadingDot(key);
      assert key !in out && key in Strings(flat);
    }
  }

  lemma SameEntries(flat: map<string, string>, out: map<string, Json>)
    requires forall key | key in flat :: key in out
    requires forall key | key in out :: key in flat && out[key] == Str(flat[key])
    ensures out == Strings(flat)
  {}

  // ---- The walk ----

  const STRING_MAP_KEYS: set<string> := {"labels", "annotations", "matchLabels", "nodeSelector"}

  predicate LabelSelectorShape(m: map<string, Json>) {
    "matchLabels" in m || "matchExpressions" in m
  }

  predicate HasNestedObject(m: map<string, Json>) {
    exists k | k in m :: m[k].Obj?
  }

  /** The field k holds a string map, or a flat selector, that was dot-expanded. */
  predicate Flattens(k: string, child: Json) {
    child.Obj? && HasNestedObject(child.fields)
    && (k in STRING_MAP_KEYS || (k == "selector" && !LabelSelectorShape(child.fields)))
  }

  /** after is an outcome of walking before. */
  ghost predicate Walked(before: Json, show: Json -> string, after: Json)
    decreases before
  {
    match before
    case Obj(m) =>
      after.Obj? && after.fields.Keys == m.Keys
      && forall k | k in m ::
        if Flattens(k, m[k]) then after.fields[k].Obj? && Outcome(m[k].fields, "", show, after.fields[k].fields)
        else Walked(m[k], show, after.fields[k])
    case Arr(items) =>
      after.Arr? && |after.items| == |items| && forall i | 0 <= i < |items| :: Walked(items[i], show, after.items[i])
    case _ => after == before
  }

  method WalkAndFlatten(v: Json, show: Json -> string) returns (out: Json)
    ensures Walked(v, show, out)
    decreases v
  {
    match v
    case Obj(m) =>
      var fields := m;
      var todo := m.Keys;
      while todo != {}
        invariant todo <= m.Keys == fields.Keys
        invariant forall k | k in m && k in todo :: fields[k] == m[k]
        invariant forall k | k in m && k !in todo ::
          if Flattens(k, m[k]) then fields[k].Obj? && Outcome(m[k].fields, "", show, fields[k].fields)
          else Walked(m[k], show, fields[k])
      {
        var k :| k in todo;
        todo := todo - {k};
        if Flattens(k, m[k]) {
          var collapsed := CollapseStringMap(m[k].fields, "", show);
          fields := fields[k := Obj(collapsed)];
        } else {
          var child := WalkAndFlatten(m[k], show);
          fields := fields[k := child];
        }
      }
      out := Obj(fields);
    case Arr(items) =>
      var walked: seq<Json> := [];
      for i := 0 to |items|
        invariant |walked| == i
        invariant forall j | 0 <= j < i :: Walked(items[j], show, walked[j])
      {
        var item := WalkAndFlatten(items[i], show);
        walked := walked + [item];
      }
      out := Arr(walked);
    case _ => out := v;
  }

  /** No field anywhere in the document is to be flattened. */
  predicate Stable(v: Json) {
    match v
    case Obj(m) => forall k | k in m :: !Flattens(k, m[k]) && Stable(m[k])
    case Arr(items) => forall i | 0 <= i < |items| :: Stable(items[i])
    case _ => true
  }

  lemma CollapsedIsFlat(m: map<string, Json>, prefix: string, show: Json -> string, out: map<string, Json>)
    requires Outcome(m, prefix, show, out)
    ensures forall k | k in out :: out[k].Str?
  {
    OutcomeIsCollapsed(m, prefix, show, out);
  }

  lemma NoMoreNested(k: string, before: Json, show: Json -> string, after: Json)
    requires !Flattens(k, before) && Walked(before, show, after)
    ensures !Flattens(k, after)
  {
    if before.Obj? {
      assert forall f | f in after.fields && after.fields[f].Obj? :: before.fields[f].Obj?;
    }
  }

  /** A document is left as it was exactly when it holds nothing to flatten, and one walk leaves nothing to flatten;
      so a second walk changes nothing, in whatever order either visits the keys. */
  lemma {:induction false} WalkSettles(before: Json, show: Json -> string, after: Json)
    requires Walked(before, show, after)
    ensures Stable(after)
    ensures after == before <==> Stable(before)
    decreases before
  {
    match before
    case Obj(m) =>
      forall k | k in m
        ensures !Flattens(k, after.fields[k]) && Stable(after.fields[k])
        ensures after.fields[k] == m[k] <==> !Flattens(k, m[k]) && Stable(m[k])
      {
        if Flattens(k, m[k]) {
          CollapsedIsFlat(m[k].fields, "", show, after.fields[k].fields);
        } else {
          WalkSettles(m[k], show, after.fields[k]);
          NoMoreNested(k, m[k], show, after.fields[k]);
        }
      }
      assert after == before <==> forall k | k in m :: after.fields[k] == m[k];
    case Arr(items) =>
      forall i | 0 <= i < |items|
        ensures Stable(after.items[i])
        ensures after.items[i] == items[i] <==> Stable(items[i])
      {
        WalkSettles(items[i], show, after.items[i]);
      }
      assert after == before <==> forall i | 0 <= i < |items| :: after.items[i] == items[i];
    case _ =>
  }

  /** Of the objects that hold an object, the walk collapses exactly those that the API has as string maps: under the
      four keys, or under `selector` unless it is a label selector. The others keep their objects and keys. */
  lemma FlattensExactly(m: map<string, Json>, show: Json -> string, after: Json, k: string, f: string)
    requires Walked(Obj(m), show, after) && k in m && m[k].Obj? && f in m[k].fields && m[k].fields[f].Obj?
    ensures
      var child := m[k].fields;
      var mapped :=
        || k == "labels" || k == "annotations" || k == "matchLabels" || k == "nodeSelector"
        || (k == "selector" && "matchLabels" !in child && "matchExpressions" !in child);
      && after.fields[k].Obj?
      && (mapped ==> forall g | g in after.fields[k].fields :: after.fields[k].fields[g].Str?)
      && (!mapped ==> after.fields[k].fields.Keys == child.Keys && after.fields[k].fields[f].Obj?)
  {
    if Flattens(k, m[k]) {
      CollapsedIsFlat(m[k].fields, "", show, after.fields[k].fields);
    } else {
      assert Walked(m[k], show, after.fields[k]);
      assert Flattens(f, m[k].fields[f]) || Walked(m[k].fields[f], show, after.fields[k].fields[f]);
    }
  }

  lemma WalkIsIdempotent(before: Json, show: Json -> string, once: Json, twice: Json)
    requires Walked(before, show, once) && Walked(once, show, twice)
    ensures twice == once
  {
    WalkSettles(before, show, once);
    WalkSettles(once, show, twice);
  }

  /** path enters a map that is flattened. */
  predicate Enters(v: Json, path: seq<Step>)
    decreases |path|
  {
    path != [] &&
    match path[0]
    case Key(k) => v.Obj? && k in v.fields && (Flattens(k, v.fields[k]) || Enters(v.fields[k], path[1..]))
    case Index(i) => v.Arr? && i < |v.items| && Enters(v.items[i], path[1..])
  }

  /** The same scalar, or a container of the same keys or length. */
  predicate SameShape(a: Json, b: Json) {
    match a
    case Obj(m) => b.Obj? && b.fields.Keys == m.Keys
    case Arr(items) => b.Arr? && |b.items| == |items|
    case _ => b == a
  }

  /** Outside the flattened maps the document has the same paths, with the same scalars and shapes under them. */
  lemma {:induction false} WalkKeepsTheRest(before: Json, show: Json -> string, after: Json, path: seq<Step>)
    requires Walked(before, show, after) && !Enters(before, path)
    ensures ValueAt(before, path).Some? <==> ValueAt(after, path).Some?
    ensures ValueAt(before, path).Some? ==> SameShape(ValueAt(before, path).value, ValueAt(after, path).value)
    decreases |path|
  {
    if path != [] {
      match path[0]
      case Key(k) =>
        if before.Obj? && k in before.fields {
          WalkKeepsTheRest(before.fields[k], show, after.fields[k], path[1..]);
        }
      case Index(i) =>
        if before.Arr? && i < |before.items| {
          WalkKeepsTheRest(before.items[i], show, after.items[i], path[1..]);
        }
    }
  }

  /** An expansion with no nested object is the flat map itself, and no key of that holds a dot. */
  lemma NothingNested(flat: map<string, string>, n: nat)
    requires PrefixFree(flat) && Shorter(flat, n) && !HasNestedObject(Expand(flat, n))
    ensures Expand(flat, n) == Strings(flat)
    ensures forall key | key in flat :: '.' !in key
  {
    forall key | key in flat
      ensures Head(key) == key && '.' !in key
    {
      assert Head(key) in Expand(flat, n);
      assert Head(key) in flat;
      if '.' in key {
        var h, t := Text.CutFirst(key, '.');
        Text.SplitStep(h, '.', t);
        Clash(flat, h, key);
        assert false;
      }
      Text.SplitWhole(key, '.');
    }
  }

  /** The other way round: keys without dots expand to themselves. */
  lemma NothingToNest(flat: map<string, string>, n: nat)
    requires Shorter(flat, n) && forall key | key in flat :: '.' !in key
    ensures Expand(flat, n) == Strings(flat)
  {
    forall key | key in flat
      ensures Head(key) == key
    {
      Text.SplitWhole(key, '.');
    }
    if n > 0 {
      assert Heads(flat) == flat.Keys;
      assert Expand(flat, n) == Strings(flat);
    } else {
      assert forall key | key in flat :: false;
    }
  }

  /** The round trip through the core's property store that the shim exists for: wherever an object's string map was
      stored dot-expanded, with or without a dot in any key, the walk puts the map back exactly when no key starts
      with a dot. */
  lemma MetadataRoundTrip(doc: map<string, Json>, k: string, flat: map<string, string>, n: nat, show: Json -> string, after: Json)
    requires PrefixFree(flat) && Shorter(flat, n)
    requires k in {"labels", "annotations", "matchLabels", "nodeSelector"} && k in doc && doc[k] == Obj(Expand(flat, n))
    requires Walked(Obj(doc), show, after)
    ensures after.fields[k] == Obj(Strings(flat)) <==> NoneLeads(flat)
  {
    if HasNestedObject(doc[k].fields) {
      CollapseUndoesExpand(flat, n, show, after.fields[k].fields);
    } else {
      NothingNested(flat, n);
      WalkSettles(doc[k], show, after.fields[k]);
    }
  }

  /** A flat selector comes back under the same condition, unless one of its keys would make its expansion look like a
      label selector: then only if there was nothing to expand. */
  lemma SelectorRoundTrip(doc: map<string, Json>, flat: map<string, string>, n: nat, show: Json -> string, after: Json)
    requires PrefixFree(flat) && Shorter(flat, n)
    requires "selector" in doc && doc["selector"] == Obj(Expand(flat, n))
    requires Walked(Obj(doc), show, after)
    ensures after.fields["selector"] == Obj(Strings(flat)) <==>
      && NoneLeads(flat)
      && ((forall key | key in flat :: Text.Split(key, '.')[0] !in {"matchLabels", "matchExpressions"})
          || forall key | key in flat :: '.' !in key)
  {
    var expanded := doc["selector"].fields;
    if !HasNestedObject(expanded) {
      NothingNested(flat, n);
      WalkSettles(doc["selector"], show, after.fields["selector"]);
    } else {
      if forall key | key in flat :: '.' !in key {
        NothingToNest(flat, n);
        assert false;
      }
      ShapeByHeads(flat, n);
      if LabelSelectorShape(expanded) {
        var f :| f in expanded && expanded[f].Obj?;
        FlattensExactly(doc, show, after, "selector", f);
        assert !(f in Strings(flat) && Strings(flat)[f].Obj?);
      } else {
        CollapseUndoesExpand(flat, n, show, after.fields["selector"].fields);
      }
    }
  }

  lemma ShapeByHeads(flat: map<string, string>, n: nat)
    requires Shorter(flat, n)
    ensures LabelSelectorShape(Expand(flat, n)) <==> exists key | key in flat :: Text.Split(key, '.')[0] in {"matchLabels", "matchExpressions"}
  {
    assert Expand(flat, n).Keys == Heads(flat) by {
      assert n == 0 ==> flat == map[];
    }
    assert forall h :: h in Heads(flat) <==> exists key | key in flat :: Text.Split(key, '.')[0] == h;
  }
}
