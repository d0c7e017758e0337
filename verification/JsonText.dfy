/**
 JSON values and the canonical text every digest is taken of: members sorted by key,
 no white space, strings quoted as in section 7 of RFC 8259. Numbers are integers.
 */
module JsonText {
  import opened Options
  import opened Texts

  datatype Pair<+T> = Pair(key: Text, value: T)

  /** An object keeps its members in insertion order. */
  datatype Json =
    | Null
    | Bool(b: bool)
    | Num(n: int)
    | Str(s: Text)
    | Arr(items: seq<Json>)
    | Obj(members: seq<Pair<Json>>)

  ghost predicate DistinctKeys<T>(ps: seq<Pair<T>>) {
    forall i, j :: 0 <= i < j < |ps| ==> ps[i].key != ps[j].key
  }

  /** Objects at every level hold each key once. */
  ghost predicate Proper(v: Json) {
    match v
    case Arr(items) => forall i :: 0 <= i < |items| ==> Proper(items[i])
    case Obj(ms) => DistinctKeys(ms) && forall i :: 0 <= i < |ms| ==> Proper(ms[i].value)
    case _ => true
  }

  /** Equality up to the order of object members, at every level. */
  ghost predicate Same(v: Json, w: Json)
    decreases v, 1
  {
    match (v, w)
    case (Arr(a), Arr(b)) => |a| == |b| && forall i :: 0 <= i < |a| ==> Same(a[i], b[i])
    case (Obj(f), Obj(g)) =>
      && (forall i :: 0 <= i < |f| ==> HasSame(f[i], g))
      && (forall j :: 0 <= j < |g| ==> IsSame(f, g[j]))
    case _ => v == w
  }

  /** Some member of g is equal to p. */
  ghost predicate HasSame(p: Pair<Json>, g: seq<Pair<Json>>)
    decreases p, 0
  {
    exists j :: 0 <= j < |g| && p.key == g[j].key && Same(p.value, g[j].value)
  }

  /** Some member of f is equal to q. */
  ghost predicate IsSame(f: seq<Pair<Json>>, q: Pair<Json>)
    decreases f, 0
  {
    exists i :: 0 <= i < |f| && f[i].key == q.key && Same(f[i].value, q.value)
  }

  // ---------- printing ----------

  const QUOTE: Unit := 0x22
  const COMMA: Unit := 0x2C
  const MINUS: Unit := 0x2D
  const COLON: Unit := 0x3A
  const BACKSLASH: Unit := 0x5C

  function Hex(d: int): Unit
    requires 0 <= d < 16
  {
    if d < 10 then 0x30 + d else 0x57 + d
  }

  function Escape(u: Unit): Text {
    if u == QUOTE then [BACKSLASH, QUOTE]
    else if u == BACKSLASH then [BACKSLASH, BACKSLASH]
    else if u == 8 then [BACKSLASH, 0x62]
    else if u == 9 then [BACKSLASH, 0x74]
    else if u == 10 then [BACKSLASH, 0x6E]
    else if u == 12 then [BACKSLASH, 0x66]
    else if u == 13 then [BACKSLASH, 0x72]
    else if u < 0x20 then [BACKSLASH, 0x75, 0x30, 0x30, Hex(u / 16), Hex(u % 16)]
    else [u]
  }

  function EscapeAll(s: Text): Text {
    if s == [] then [] else Escape(s[0]) + EscapeAll(s[1..])
  }

  function Quote(s: Text): Text {
    [QUOTE] + EscapeAll(s) + [QUOTE]
  }

  function Digits(n: nat): (t: Text)
    ensures t != []
    ensures forall i :: 0 <= i < |t| ==> IsDigit(t[i])
  {
    if n < 10 then [0x30 + n] else Digits(n / 10) + [0x30 + n % 10]
  }

  predicate IsDigit(u: Unit) { 0x30 <= u <= 0x39 }

  function Integer(n: int): Text {
    if n < 0 then [MINUS] + Digits(-n) else Digits(n)
  }

  function Join(ts: seq<Text>): Text {
    if ts == [] then []
    else if |ts| == 1 then ts[0]
    else ts[0] + [COMMA] + Join(ts[1..])
  }

  function Insert<T>(p: Pair<T>, ps: seq<Pair<T>>): seq<Pair<T>> {
    if ps == [] || Before(p.key, ps[0].key) then [p] + ps
    else [ps[0]] + Insert(p, ps[1..])
  }

  function SortByKey<T>(ps: seq<Pair<T>>): seq<Pair<T>> {
    if ps == [] then [] else Insert(ps[0], SortByKey(ps[1..]))
  }

  function Member(p: Pair<Text>): Text {
    Quote(p.key) + [COLON] + p.value
  }

  function Members(ps: seq<Pair<Text>>): seq<Text> {
    if ps == [] then [] else [Member(ps[0])] + Members(ps[1..])
  }

  /** The text of a value: what `canonical` returns when none of its checks fails. */
  function Print(v: Json): Text {
    match v
    case Null => T("null")
    case Bool(b) => if b then T("true") else T("false")
    case Num(n) => Integer(n)
    case Str(s) => Quote(s)
    case Arr(items) => T("[") + Join(PrintItems(items)) + T("]")
    case Obj(ms) => T("{") + Join(Members(SortByKey(PrintValues(ms)))) + T("}")
  }

  function PrintItems(items: seq<Json>): (ts: seq<Text>)
  {
    if items == [] then [] else [Print(items[0])] + PrintItems(items[1..])
  }

  function PrintValues(ms: seq<Pair<Json>>): (ps: seq<Pair<Text>>)
  {
    if ms == [] then [] else [Pair(ms[0].key, Print(ms[0].value))] + PrintValues(ms[1..])
  }

  // ---------- the checks ----------

  const MAX_SAFE_INTEGER := 9007199254740991
  const MAX_STRING := 65536
  const MAX_ITEMS := 4096
  const MAX_KEYS := 512
  const MAX_KEY_LENGTH := 256

  function Without(ms: seq<Pair<Json>>, excluded: Text): (r: seq<Pair<Json>>)
    ensures |r| <= |ms|
    ensures forall i :: 0 <= i < |r| ==> r[i] in ms && r[i].key != excluded
  {
    if ms == [] then []
    else if ms[0].key == excluded then Without(ms[1..], excluded)
    else [ms[0]] + Without(ms[1..], excluded)
  }

  /** Every check `canonical` makes on a value at a nesting depth. */
  predicate Printable(v: Json, depth: nat, maximum: nat) {
    depth <= maximum &&
    match v
    case Num(n) => -MAX_SAFE_INTEGER <= n <= MAX_SAFE_INTEGER
    case Str(s) => |s| <= MAX_STRING && WellFormedText(s)
    case Arr(items) => |items| <= MAX_ITEMS && forall i :: 0 <= i < |items| ==> Printable(items[i], depth + 1, maximum)
    case Obj(ms) => |ms| <= MAX_KEYS && forall i :: 0 <= i < |ms| ==> PrintableMember(ms[i], depth + 1, maximum)
    case _ => true
  }

  predicate PrintableMember(p: Pair<Json>, depth: nat, maximum: nat) {
    |p.key| <= MAX_KEY_LENGTH && WellFormedText(p.key) && Printable(p.value, depth, maximum)
  }

  /** The text, or None where a check throws. */
  function Canonical(v: Json, maximum: nat): Option<Text> {
    if Printable(v, 0, maximum) then Some(Print(v)) else None
  }

  /** The text of an object with one top-level field left out; the field still counts as a key. */
  function CanonicalWithout(v: Json, excluded: Text, maximum: nat): Option<Text> {
    if v.Obj? then
      if |v.members| <= MAX_KEYS then Canonical(Obj(Without(v.members, excluded)), maximum) else None
    else Canonical(v, maximum)
  }
}
