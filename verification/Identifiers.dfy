// The identifiers handed to the host and read back: request ids, native ids and
// custom-resource ids (pkg/resources/helm/release.go, flight_lifecycle.go,
// pkg/resources/prov/nativeid.go, customid.go).
module Identifiers {
  import opened Base
  import opened Flights
  import Text

  // ---- Decimal numbers ----

  function DigitChar(d: nat): char
    requires d < 10
  {
    '0' + d as char
  }

  predicate IsDigit(c: char) {
    '0' <= c <= '9'
  }

  function DigitValue(c: char): nat
    requires IsDigit(c)
  {
    c as int - '0' as int
  }

  function Digits(n: nat): string {
    if n < 10 then [DigitChar(n)] else Digits(n / 10) + [DigitChar(n % 10)]
  }

  /** fmt's %d. */
  function FormatInt(n: int): string {
    if n < 0 then "-" + Digits(-n) else Digits(n)
  }

  predicate AllDigits(s: string) {
    s != "" && forall i | 0 <= i < |s| :: IsDigit(s[i])
  }

  function Value(s: string): nat
    requires forall i | 0 <= i < |s| :: IsDigit(s[i])
  {
    if s == "" then 0 else 10 * Value(s[..|s| - 1]) + DigitValue(s[|s| - 1])
  }

  /** strconv.Atoi: an optional sign, digits, and the range of int. */
  function Atoi(s: string): Option<int> {
    var signed := s != "" && (s[0] == '-' || s[0] == '+');
    var digits := if signed then s[1..] else s;
    if !AllDigits(digits) then None
    else
      var magnitude: int := Value(digits);
      var v := if signed && s[0] == '-' then 0 - magnitude else magnitude;
      if MIN_INT64 <= v <= MAX_INT64 then Some(v) else None
  }

  lemma {:induction false} DigitsRoundTrip(n: nat)
    ensures AllDigits(Digits(n)) && Value(Digits(n)) == n
  {
    if n >= 10 {
      DigitsRoundTrip(n / 10);
      var s := Digits(n);
      assert s[..|s| - 1] == Digits(n / 10);
    }
  }

  /** Every int reads back from its decimal text, and no text of a larger one reads. */
  lemma NumberRoundTrip(n: int)
    ensures Atoi(FormatInt(n)) == if MIN_INT64 <= n <= MAX_INT64 then Some(n) else None
    ensures n >= 0 ==> AllDigits(FormatInt(n))
  {
    DigitsRoundTrip(if n < 0 then -n else n);
    if n < 0 {
      assert FormatInt(n)[1..] == Digits(-n);
    } else {
      assert FormatInt(n)[0] != '-' && FormatInt(n)[0] != '+';
    }
  }

  /** A sign of either kind and leading zeros are read too. */
  lemma OtherSpellings(n: nat)
    requires n <= MAX_INT64
    ensures Atoi("+" + Digits(n)) == Some(n) && Atoi("0" + Digits(n)) == Some(n) && Atoi("-0" + Digits(n)) == Some(0 - n)
  {
    DigitsRoundTrip(n);
    LeadingZero(Digits(n));
    var zeroed := "0" + Digits(n);
    assert ("+" + Digits(n))[1..] == Digits(n) && ("-0" + Digits(n))[1..] == zeroed;
    assert AllDigits(zeroed) by {
      assert forall i | 0 < i < |zeroed| :: zeroed[i] == Digits(n)[i - 1];
    }
  }

  lemma {:induction false} LeadingZero(s: string)
    requires forall i | 0 <= i < |s| :: IsDigit(s[i])
    ensures (forall i | 0 <= i < |"0" + s| :: IsDigit(("0" + s)[i])) && Value("0" + s) == Value(s)
    decreases |s|
  {
    if s == "" {
      assert Value("0") == 10 * Value("") + DigitValue('0');
    } else {
      var n := |s| - 1;
      LeadingZero(s[..n]);
      assert ("0" + s)[..n + 1] == "0" + s[..n] && ("0" + s)[n + 1] == s[n];
    }
  }

  // ---- Native ids ----

  function NativeId(namespace: string, name: string): string {
    namespace + "/" + name
  }

  function ParseNative(id: string): Option<(string, string)> {
    var parts := Text.Split(id, '/');
    if id == "" || |parts| != 2 || parts[0] == "" || parts[1] == "" then None else Some((parts[0], parts[1]))
  }

  predicate CleanPart(s: string) {
    s != "" && '/' !in s
  }

  /** A native id reads back as written exactly when neither part is empty or holds a slash. */
  lemma NativeRoundTrip(namespace: string, name: string)
    ensures ParseNative(NativeId(namespace, name)) == Some((namespace, name)) <==> CleanPart(namespace) && CleanPart(name)
  {
    Text.SplitPieces(NativeId(namespace, name), '/');
    if CleanPart(namespace) && CleanPart(name) {
      Text.SplitStep(namespace, '/', name);
      Text.SplitWhole(name, '/');
    }
  }

  /** Whatever parses is two clean parts, and those parts joined are the id. */
  lemma ParsedNative(id: string)
    requires ParseNative(id).Some?
    ensures var (namespace, name) := ParseNative(id).value;
      CleanPart(namespace) && CleanPart(name) && NativeId(namespace, name) == id
  {
    Text.SplitPieces(id, '/');
    Text.JoinSplit(id, '/');
    var parts := Text.Split(id, '/');
    assert Text.Join(parts[1..], '/') == parts[1];
  }

  // ---- Request ids ----

  function OpText(op: Op): string {
    match op
    case Install => "install"
    case Upgrade => "upgrade"
    case Delete => "delete"
  }

  function ParseOp(s: string): Option<Op> {
    if s == "install" then Some(Install) else if s == "upgrade" then Some(Upgrade) else if s == "delete" then Some(Delete) else None
  }

  function RequestId(namespace: string, name: string, revision: int, op: Op): string {
    NativeId(namespace, name) + "@" + FormatInt(revision) + ":" + OpText(op)
  }

  function FlightRequestId(namespace: string, name: string, f: Flight): string {
    RequestId(namespace, name, f.revision, f.op) + "#" + f.generation
  }

  /** requestGeneration; `uuid` is uuid.Parse. None stands for the error. */
  function RequestGeneration(id: string, uuid: string -> bool): Option<Gen> {
    var i := Text.First(id, '#');
    if i.None? then Some("")
    else if uuid(id[i.value + 1..]) then Some(id[i.value + 1..])
    else None
  }

  datatype Target = Target(namespace: string, name: string, revision: int, op: Op)

  /** The texts before the last '@', between it and the last ':', and after that. */
  function CutTarget(id: string): Option<(string, string, string)> {
    var at, colon := Text.Last(id, '@'), Text.Last(id, ':');
    if at.None? || colon.None? || colon.value < at.value then None
    else Some((id[..at.value], id[at.value + 1..colon.value], id[colon.value + 1..]))
  }

  function ReadTarget(native: string, digits: string, tail: string): Option<Target> {
    var revision, ids, op := Atoi(digits), ParseNative(native), ParseOp(tail);
    if revision.None? || ids.None? || revision.value < 1 || op.None? then None
    else Some(Target(ids.value.0, ids.value.1, revision.value, op.value))
  }

  function ParseTarget(id: string): Option<Target> {
    var cut := CutTarget(id);
    if cut.None? then None else ReadTarget(cut.value.0, cut.value.1, cut.value.2)
  }

  function ParseRequestId(id: string, uuid: string -> bool): Option<Target> {
    if RequestGeneration(id, uuid).None? then None
    else
      var i := Text.First(id, '#');
      ParseTarget(if i.None? then id else id[..i.value])
  }

  /** An id reads: namespace, '/', name, '@', the revision, ':', what is done, and for a flight '#' and its generation. */
  lemma RequestIdReads(namespace: string, name: string, f: Flight)
    ensures
      var done := if f.op.Install? then "install" else if f.op.Upgrade? then "upgrade" else "delete";
      FlightRequestId(namespace, name, f) == namespace + "/" + name + "@" + FormatInt(f.revision) + ":" + done + "#" + f.generation
  {}

  predicate CleanName(s: string) {
    s != "" && '/' !in s && '#' !in s
  }

  lemma NoneAmong(c: char, s: string, t: string)
    requires c !in s && c !in t
    ensures c !in s + t
  {}

  lemma DigitsHold(s: string, c: char)
    requires AllDigits(s) && !IsDigit(c)
    ensures c !in s
  {}

  /** The text after the last '@' of a request id. */
  lemma TailIsPlain(revision: int, op: Op, c: char)
    requires 1 <= revision <= MAX_INT64 && (c == '@' || c == '#' || c == '/')
    ensures c !in FormatInt(revision) && c !in OpText(op) && c !in FormatInt(revision) + ":" + OpText(op)
    ensures ':' !in OpText(op)
  {
    NumberRoundTrip(revision);
    DigitsHold(FormatInt(revision), c);
  }

  lemma Slices(a: string, c: char, b: string, d: char, e: string)
    ensures
      var s := a + [c] + b + [d] + e;
      && s == a + [c] + (b + [d] + e) && s == (a + [c] + b) + [d] + e
      && s[..|a|] == a && s[|a| + 1..|a| + 1 + |b|] == b && s[|a| + |b| + 2..] == e
  {}

  lemma CutsBack(native: string, digits: string, tail: string)
    requires '@' !in digits && '@' !in tail && ':' !in tail
    ensures CutTarget(native + "@" + digits + ":" + tail) == Some((native, digits, tail))
  {
    var id, left, right := native + "@" + digits + ":" + tail, native + "@" + digits, digits + ":" + tail;
    Slices(native, '@', digits, ':', tail);
    assert Text.Last(id, '@') == Some(|native|) by {
      assert '@' !in right;
      Text.LastAt(native, '@', right);
    }
    assert Text.Last(id, ':') == Some(|left|) by {
      Text.LastAt(left, ':', tail);
    }
  }

  lemma ReadsBack(namespace: string, name: string, revision: int, op: Op)
    requires CleanPart(namespace) && CleanPart(name) && 1 <= revision <= MAX_INT64
    ensures ReadTarget(NativeId(namespace, name), FormatInt(revision), OpText(op)) == Some(Target(namespace, name, revision, op))
  {
    NumberRoundTrip(revision);
    NativeRoundTrip(namespace, name);
    assert ParseOp(OpText(op)) == Some(op);
  }

  lemma TargetRoundTrip(namespace: string, name: string, revision: int, op: Op)
    requires CleanPart(namespace) && CleanPart(name) && 1 <= revision <= MAX_INT64
    ensures ParseTarget(RequestId(namespace, name, revision, op)) == Some(Target(namespace, name, revision, op))
  {
    TailIsPlain(revision, op, '@');
    CutsBack(NativeId(namespace, name), FormatInt(revision), OpText(op));
    ReadsBack(namespace, name, revision, op);
  }

  /** Whatever parses names clean parts, a positive revision in range, and holds nothing of a generation. */
  lemma ParsedTarget(id: string)
    requires ParseTarget(id).Some? && '#' !in id
    ensures var t := ParseTarget(id).value; CleanName(t.namespace) && CleanName(t.name) && 1 <= t.revision <= MAX_INT64
  {
    var native := CutTarget(id).value.0;
    ParsedNative(native);
    var t := ParseTarget(id).value;
    assert native == t.namespace + "/" + t.name;
    assert forall c | c in t.namespace || c in t.name :: c in native && c in id;
  }

  /** Whatever parses as a request id, and its generation, is one: clean names, a positive revision in range, one of the
      three operations, and after a '#' nothing but a UUID. */
  lemma ParsedRequest(id: string, uuid: string -> bool)
    requires ParseRequestId(id, uuid).Some?
    ensures
      var t := ParseRequestId(id, uuid).value;
      CleanName(t.namespace) && CleanName(t.name) && 1 <= t.revision <= MAX_INT64
    ensures RequestGeneration(id, uuid).Some?
    ensures
      if '#' in id then uuid(RequestGeneration(id, uuid).value) && RequestGeneration(id, uuid).value <= id[|id| - |RequestGeneration(id, uuid).value|..]
      else RequestGeneration(id, uuid).value == ""
    ensures OpText(ParseRequestId(id, uuid).value.op) in {"install", "upgrade", "delete"}
  {
    var i := Text.First(id, '#');
    ParsedTarget(if i.None? then id else id[..i.value]);
  }

  /** Everything flightRequestID wrote is recovered, whatever '@' and ':' the names hold, exactly when neither name is
      empty or holds '/' or '#'. */
  lemma FlightIdRoundTrip(namespace: string, name: string, f: Flight, uuid: string -> bool)
    requires 1 <= f.revision <= MAX_INT64 && uuid(f.generation)
    requires forall g :: uuid(g) ==> '#' !in g
    ensures
      var id := FlightRequestId(namespace, name, f);
      ParseRequestId(id, uuid) == Some(Target(namespace, name, f.revision, f.op)) && RequestGeneration(id, uuid) == Some(f.generation)
      <==> CleanName(namespace) && CleanName(name)
  {
    var id, head := FlightRequestId(namespace, name, f), RequestId(namespace, name, f.revision, f.op);
    if CleanName(namespace) && CleanName(name) {
      TailIsPlain(f.revision, f.op, '#');
      NoneAmong('#', namespace, "/" + name);
      assert head == (namespace + ("/" + name)) + ("@" + (FormatInt(f.revision) + ":" + OpText(f.op)));
      Text.FirstAt(head, '#', f.generation);
      assert id[..|head|] == head && id[|head| + 1..] == f.generation;
      TargetRoundTrip(namespace, name, f.revision, f.op);
    }
    if ParseRequestId(id, uuid) == Some(Target(namespace, name, f.revision, f.op)) {
      var i := Text.First(id, '#');
      ParsedTarget(if i.None? then id else id[..i.value]);
    }
  }

  /** Two states of one activated flight: what a Status call is matched by has not changed. */
  predicate SameIdentity(f: Flight, later: Flight) {
    !f.preparing && !later.preparing && later.generation == f.generation && later.op == f.op && later.revision == f.revision
    && later.auth == f.auth && later.binding == f.binding
  }

  /** An id handed out for a flight retains what that flight has become, for a Status call of the same identity. */
  lemma HandedOutIdMatches(namespace: string, name: string, f: Flight, later: Flight, cand: Flight, uuid: string -> bool)
    requires CleanName(namespace) && CleanName(name) && SameIdentity(f, later)
    requires 1 <= f.revision <= MAX_INT64 && uuid(f.generation) && forall g :: uuid(g) ==> '#' !in g
    requires cand.auth == f.auth && cand.binding == f.binding
    ensures
      var id := FlightRequestId(namespace, name, f);
      var t, gen := ParseRequestId(id, uuid), RequestGeneration(id, uuid);
      && t.Some? && gen == Some(f.generation) && t.value.op == f.op && t.value.revision == f.revision
      && AcquireStatus(0, Some(later), gen.value, cand.(op := t.value.op, revision := t.value.revision))
           == (Some(Retain(later)), Some(Retain(later)), false)
  {
    FlightIdRoundTrip(namespace, name, f, uuid);
  }

  // ---- Custom-resource ids ----

  datatype CustomId = CustomId(apiVersion: string, kind: string, namespace: string, name: string)

  function FormatCustom(c: CustomId): string {
    c.apiVersion + "/" + c.kind + "/" + c.namespace + "/" + c.name
  }

  function ParseCustom(id: string): Option<CustomId> {
    var parts := Text.Split(id, '/');
    var n := |parts|;
    if n < 4 then None
    else
      var c := CustomId(Text.Join(parts[..n - 3], '/'), parts[n - 3], parts[n - 2], parts[n - 1]);
      if c.apiVersion == "" || c.kind == "" || c.name == "" then None else Some(c)
  }

  predicate CleanCustom(c: CustomId) {
    c.apiVersion != "" && CleanPart(c.kind) && '/' !in c.namespace && CleanPart(c.name)
  }

  lemma SplitCustom(c: CustomId)
    requires '/' !in c.kind && '/' !in c.namespace && '/' !in c.name
    ensures Text.Split(FormatCustom(c), '/') == Text.Split(c.apiVersion, '/') + [c.kind, c.namespace, c.name]
  {
    var front := c.apiVersion + "/" + c.kind;
    Text.SplitAppend(c.apiVersion, '/', c.kind);
    Text.SplitWhole(c.kind, '/');
    Text.SplitAppend(front, '/', c.namespace);
    Text.SplitWhole(c.namespace, '/');
    Text.SplitAppend(front + "/" + c.namespace, '/', c.name);
    Text.SplitWhole(c.name, '/');
  }

  /** What parses is clean and formats back to the very id. */
  lemma ParsedCustom(id: string)
    requires ParseCustom(id).Some?
    ensures CleanCustom(ParseCustom(id).value) && FormatCustom(ParseCustom(id).value) == id
  {
    var parts := Text.Split(id, '/');
    var n := |parts|;
    Text.SplitPieces(id, '/');
    Text.JoinSplit(id, '/');
    Text.JoinInit(parts, '/');
    Text.JoinInit(parts[..n - 1], '/');
    assert parts[..n - 1][..n - 2] == parts[..n - 2];
    Text.JoinInit(parts[..n - 2], '/');
    assert parts[..n - 2][..n - 3] == parts[..n - 3];
  }

  /** A custom-resource id reads back as written, groups included, exactly when kind and name are clean parts, the
      namespace holds no slash and the apiVersion is not empty. */
  lemma CustomRoundTrip(c: CustomId)
    ensures ParseCustom(FormatCustom(c)) == Some(c) <==> CleanCustom(c)
  {
    if CleanCustom(c) {
      SplitCustom(c);
      Text.JoinSplit(c.apiVersion, '/');
      var front := Text.Split(c.apiVersion, '/');
      assert (front + [c.kind, c.namespace, c.name])[..|front|] == front;
    }
    if ParseCustom(FormatCustom(c)) == Some(c) {
      ParsedCustom(FormatCustom(c));
    }
  }
}
