/**
 The canonical text is uniquely readable: it determines the value up to the order of
 object members, and the order of members never shows in it.
 */
module JsonReading {
  import opened Texts
  import opened JsonText

  // ---------- serialization without the sort ----------

  /** Like Print, but members stay in the order they are stored. */
  function Serial(v: Json): Text {
    match v
    case Null => T("null")
    case Bool(b) => if b then T("true") else T("false")
    case Num(n) => Integer(n)
    case Str(s) => Quote(s)
    case Arr(items) => T("[") + SerialItems(items) + T("]")
    case Obj(ms) => T("{") + SerialMembers(ms) + T("}")
  }

  function SerialItems(items: seq<Json>): Text {
    if items == [] then []
    else if |items| == 1 then Serial(items[0])
    else Serial(items[0]) + [COMMA] + SerialItems(items[1..])
  }

  function SerialMembers(ms: seq<Pair<Json>>): Text {
    if ms == [] then []
    else if |ms| == 1 then Quote(ms[0].key) + [COLON] + Serial(ms[0].value)
    else Quote(ms[0].key) + [COLON] + Serial(ms[0].value) + [COMMA] + SerialMembers(ms[1..])
  }

  const CLOSE_ARRAY: Unit := 0x5D
  const CLOSE_OBJECT: Unit := 0x7D

  /** What may follow a value in a larger text. */
  predicate Follows(t: Text) {
    t == [] || t[0] == COMMA || t[0] == CLOSE_ARRAY || t[0] == CLOSE_OBJECT
  }

  lemma EscapeReads(u: Unit, v: Unit, s: Text, t: Text)
    requires Escape(u) + s == Escape(v) + t
    ensures u == v && s == t
  {
    var x, y := Escape(u) + s, Escape(v) + t;
    assert x[0] == Escape(u)[0] && y[0] == Escape(v)[0];
    if x[0] == BACKSLASH {
      assert x[1] == Escape(u)[1] && y[1] == Escape(v)[1];
      if x[1] == 0x75 {
        assert x[4] == Escape(u)[4] && x[5] == Escape(u)[5] && y[4] == Escape(v)[4] && y[5] == Escape(v)[5];
      }
    }
    assert u == v;
    assert s == x[|Escape(u)|..] && t == y[|Escape(v)|..];
  }

  lemma EscapeSplit(a: Text, s: Text)
    ensures EscapeAll(a) + [QUOTE] + s
         == if a == [] then [QUOTE] + s else Escape(a[0]) + (EscapeAll(a[1..]) + [QUOTE] + s)
  {
    if a != [] {
      Assoc(Escape(a[0]), EscapeAll(a[1..]), [QUOTE]);
      Assoc(Escape(a[0]), EscapeAll(a[1..]) + [QUOTE], s);
    }
  }

  lemma Assoc(a: Text, b: Text, c: Text)
    ensures a + b + c == a + (b + c)
  {
  }

  lemma {:induction false} EscapeAllReads(a: Text, b: Text, s: Text, t: Text)
    requires EscapeAll(a) + [QUOTE] + s == EscapeAll(b) + [QUOTE] + t
    ensures a == b && s == t
  {
    EscapeSplit(a, s);
    EscapeSplit(b, t);
    EscapeEmpty(a, b, s, t);
    if a == [] {
      Cut([QUOTE], [QUOTE], s, t);
    } else {
      EscapeReads(a[0], b[0], EscapeAll(a[1..]) + [QUOTE] + s, EscapeAll(b[1..]) + [QUOTE] + t);
      EscapeAllReads(a[1..], b[1..], s, t);
      assert a == [a[0]] + a[1..] && b == [b[0]] + b[1..];
    }
  }

  lemma EscapeEmpty(a: Text, b: Text, s: Text, t: Text)
    requires EscapeAll(a) + [QUOTE] + s == EscapeAll(b) + [QUOTE] + t
    ensures a == [] <==> b == []
  {
    var x, y := EscapeAll(a) + [QUOTE] + s, EscapeAll(b) + [QUOTE] + t;
    assert x[0] == if a == [] then QUOTE else Escape(a[0])[0];
    assert y[0] == if b == [] then QUOTE else Escape(b[0])[0];
  }

  lemma QuoteReads(a: Text, b: Text, s: Text, t: Text)
    requires Quote(a) + s == Quote(b) + t
    ensures a == b && s == t
  {
    assert (Quote(a) + s)[1..] == EscapeAll(a) + [QUOTE] + s;
    assert (Quote(b) + t)[1..] == EscapeAll(b) + [QUOTE] + t;
    EscapeAllReads(a, b, s, t);
  }

  function Value(t: Text): nat
    requires forall i :: 0 <= i < |t| ==> IsDigit(t[i])
  {
    if t == [] then 0
    else
      var last := t[|t| - 1];
      assert IsDigit(last);
      10 * Value(t[..|t| - 1]) + (last - 0x30)
  }

  lemma {:induction false} DigitsValue(n: nat)
    ensures Value(Digits(n)) == n
  {
    if n >= 10 {
      DigitsValue(n / 10);
      assert Digits(n)[..|Digits(n)| - 1] == Digits(n / 10);
    } else {
      assert Digits(n)[..0] == [];
    }
  }

  lemma Cut(a: Text, b: Text, s: Text, t: Text)
    requires a + s == b + t && |a| == |b|
    ensures a == b && s == t
  {
    assert a == (a + s)[..|a|] && b == (b + t)[..|b|];
    assert s == (a + s)[|a|..] && t == (b + t)[|b|..];
  }

  /** A run of digits cannot end inside another one. */
  lemma DigitRunEnds(a: Text, b: Text, s: Text, t: Text)
    requires a + s == b + t && Follows(s)
    requires forall i :: 0 <= i < |b| ==> IsDigit(b[i])
    ensures |b| <= |a|
  {
    var x := a + s;
    assert forall i :: 0 <= i < |b| ==> x[i] == b[i];
    assert |a| < |x| ==> x[|a|] == s[0];
  }

  lemma DigitsRead(m: nat, n: nat, s: Text, t: Text)
    requires Digits(m) + s == Digits(n) + t
    requires Follows(s) && Follows(t)
    ensures m == n && s == t
  {
    DigitRunEnds(Digits(m), Digits(n), s, t);
    DigitRunEnds(Digits(n), Digits(m), t, s);
    Cut(Digits(m), Digits(n), s, t);
    DigitsValue(m);
    DigitsValue(n);
  }

  lemma Drop(u: Unit, a: Text, s: Text)
    ensures ([u] + a + s)[1..] == a + s
  {
  }

  lemma IntegerReads(m: int, n: int, s: Text, t: Text)
    requires Integer(m) + s == Integer(n) + t
    requires Follows(s) && Follows(t)
    ensures m == n && s == t
  {
    var a, b := Integer(m), Integer(n);
    assert a[0] == (a + s)[0] == (b + t)[0] == b[0];
    assert m >= 0 ==> IsDigit(Digits(m)[0]);
    assert n >= 0 ==> IsDigit(Digits(n)[0]);
    if m < 0 {
      Drop(MINUS, Digits(-m), s);
      Drop(MINUS, Digits(-n), t);
      DigitsRead(-m, -n, s, t);
    } else {
      DigitsRead(m, n, s, t);
    }
  }

  /** The first unit tells the kind of a value. */
  function Kind(v: Json): nat {
    match v case Null => 0 case Bool(_) => 1 case Num(_) => 2 case Str(_) => 3 case Arr(_) => 4 case Obj(_) => 5
  }

  function KindOf(u: Unit): nat {
    if u == 0x6E then 0 else if u == 0x74 || u == 0x66 then 1 else if u == MINUS || IsDigit(u) then 2
    else if u == QUOTE then 3 else if u == 0x5B then 4 else if u == 0x7B then 5 else 6
  }

  lemma FirstUnit(v: Json)
    ensures Serial(v) != [] && KindOf(Serial(v)[0]) == Kind(v)
  {
  }

  function Rest(parts: int, text: Text, close: Unit, s: Text): Text {
    if parts <= 1 then [close] + s else [COMMA] + (text + [close] + s)
  }

  lemma ItemsSplit(a: seq<Json>, s: Text)
    requires a != []
    ensures SerialItems(a) + [CLOSE_ARRAY] + s == Serial(a[0]) + Rest(|a|, SerialItems(a[1..]), CLOSE_ARRAY, s)
  {
    var v := Serial(a[0]);
    if |a| == 1 {
      Assoc(v, [CLOSE_ARRAY], s);
    } else {
      var rest := SerialItems(a[1..]);
      Assoc(v + [COMMA], rest, [CLOSE_ARRAY]);
      Assoc(v + [COMMA], rest + [CLOSE_ARRAY], s);
      Assoc(v, [COMMA], rest + [CLOSE_ARRAY] + s);
    }
  }

  lemma MembersSplit(f: seq<Pair<Json>>, s: Text)
    requires f != []
    ensures SerialMembers(f) + [CLOSE_OBJECT] + s
         == Quote(f[0].key) + ([COLON] + (Serial(f[0].value) + Rest(|f|, SerialMembers(f[1..]), CLOSE_OBJECT, s)))
  {
    var k, v, end := Quote(f[0].key), Serial(f[0].value), [CLOSE_OBJECT] + s;
    MemberRegroup(k, v, end);
    if |f| == 1 {
      Assoc(k + [COLON] + v, [CLOSE_OBJECT], s);
    } else {
      var rest := SerialMembers(f[1..]);
      MemberRegroup(k, v, [COMMA] + (rest + end));
      Assoc(k + [COLON] + v + [COMMA], rest, [CLOSE_OBJECT]);
      Assoc(k + [COLON] + v + [COMMA] + rest, [CLOSE_OBJECT], s);
      Assoc(k + [COLON] + v + [COMMA], rest, end);
      Assoc(k + [COLON] + v, [COMMA], rest + end);
      Assoc(rest, [CLOSE_OBJECT], s);
    }
  }

  lemma MemberRegroup(k: Text, v: Text, end: Text)
    ensures k + [COLON] + v + end == k + ([COLON] + (v + end))
  {
    Assoc(k + [COLON], v, end);
    Assoc(k, [COLON], v + end);
  }

  lemma RestReads(m: nat, n: nat, a: Text, b: Text, close: Unit, s: Text, t: Text)
    requires Rest(m, a, close, s) == Rest(n, b, close, t) && close != COMMA
    ensures m <= 1 <==> n <= 1
    ensures if m <= 1 then s == t else a + [close] + s == b + [close] + t
  {
    var x, y := Rest(m, a, close, s), Rest(n, b, close, t);
    assert x[0] == y[0];
    assert x[1..] == if m <= 1 then s else a + [close] + s;
    assert y[1..] == if n <= 1 then t else b + [close] + t;
  }

  lemma {:induction false} SerialReads(v: Json, w: Json, s: Text, t: Text)
    requires Serial(v) + s == Serial(w) + t
    requires Follows(s) && Follows(t)
    ensures v == w && s == t
    decreases v, 1
  {
    SameKind(v, w, s, t);
    match v
    case Num(n) => IntegerReads(n, w.n, s, t);
    case Str(a) => QuoteReads(a, w.s, s, t);
    case Arr(items) => ArrayReads(items, w.items, s, t);
    case Obj(ms) => ObjectReads(ms, w.members, s, t);
    case _ => LiteralReads(v, w, s, t);
  }

  lemma SameKind(v: Json, w: Json, s: Text, t: Text)
    requires Serial(v) + s == Serial(w) + t
    ensures Kind(v) == Kind(w)
  {
    FirstUnit(v);
    FirstUnit(w);
    assert Serial(v)[0] == (Serial(v) + s)[0] == (Serial(w) + t)[0] == Serial(w)[0];
  }

  lemma LiteralReads(v: Json, w: Json, s: Text, t: Text)
    requires Serial(v) + s == Serial(w) + t
    requires Kind(v) == Kind(w) < 2
    ensures v == w && s == t
  {
    assert Serial(v)[0] == (Serial(v) + s)[0] == (Serial(w) + t)[0] == Serial(w)[0];
    Cut(Serial(v), Serial(w), s, t);
  }

  lemma ArrayOpens(a: seq<Json>, s: Text)
    ensures Serial(Arr(a)) + s == T("[") + (SerialItems(a) + [CLOSE_ARRAY] + s)
  {
    var items := SerialItems(a);
    assert T("]") == [CLOSE_ARRAY];
    assert Serial(Arr(a)) == T("[") + items + [CLOSE_ARRAY];
    hide *;
    assert T("[") + items + [CLOSE_ARRAY] + s == T("[") + (items + [CLOSE_ARRAY] + s);
  }

  lemma ObjectOpens(f: seq<Pair<Json>>, s: Text)
    ensures Serial(Obj(f)) + s == T("{") + (SerialMembers(f) + [CLOSE_OBJECT] + s)
  {
    var members := SerialMembers(f);
    assert T("}") == [CLOSE_OBJECT];
    assert Serial(Obj(f)) == T("{") + members + [CLOSE_OBJECT];
    hide *;
    assert T("{") + members + [CLOSE_OBJECT] + s == T("{") + (members + [CLOSE_OBJECT] + s);
  }

  lemma {:induction false} ArrayReads(a: seq<Json>, b: seq<Json>, s: Text, t: Text)
    requires Serial(Arr(a)) + s == Serial(Arr(b)) + t
    ensures a == b && s == t
    decreases a, 1
  {
    var x, y := SerialItems(a) + [CLOSE_ARRAY] + s, SerialItems(b) + [CLOSE_ARRAY] + t;
    ArrayOpens(a, s);
    ArrayOpens(b, t);
    hide Serial, SerialItems;
    Cut(T("["), T("["), x, y);
    ItemsRead(a, b, s, t);
  }

  lemma {:induction false} ItemsRead(a: seq<Json>, b: seq<Json>, s: Text, t: Text)
    requires SerialItems(a) + [CLOSE_ARRAY] + s == SerialItems(b) + [CLOSE_ARRAY] + t
    ensures a == b && s == t
    decreases a, 0
  {
    EmptyItems(a, b, s, t);
    if a == [] {
      assert SerialItems(a) + [CLOSE_ARRAY] + s == [CLOSE_ARRAY] + s;
      assert SerialItems(b) + [CLOSE_ARRAY] + t == [CLOSE_ARRAY] + t;
      Cut([CLOSE_ARRAY], [CLOSE_ARRAY], s, t);
    } else {
      ItemsSplit(a, s);
      ItemsSplit(b, t);
      var p := Rest(|a|, SerialItems(a[1..]), CLOSE_ARRAY, s);
      var q := Rest(|b|, SerialItems(b[1..]), CLOSE_ARRAY, t);
      SerialReads(a[0], b[0], p, q);
      RestReads(|a|, |b|, SerialItems(a[1..]), SerialItems(b[1..]), CLOSE_ARRAY, s, t);
      if |a| > 1 { ItemsRead(a[1..], b[1..], s, t); }
      assert a == [a[0]] + a[1..] && b == [b[0]] + b[1..];
    }
  }

  lemma EmptyItems(a: seq<Json>, b: seq<Json>, s: Text, t: Text)
    requires SerialItems(a) + [CLOSE_ARRAY] + s == SerialItems(b) + [CLOSE_ARRAY] + t
    ensures a == [] <==> b == []
  {
    var x, y := SerialItems(a) + [CLOSE_ARRAY] + s, SerialItems(b) + [CLOSE_ARRAY] + t;
    if a != [] { FirstUnit(a[0]); ItemsSplit(a, s); }
    if b != [] { FirstUnit(b[0]); ItemsSplit(b, t); }
    assert x[0] == if a == [] then CLOSE_ARRAY else Serial(a[0])[0];
    assert y[0] == if b == [] then CLOSE_ARRAY else Serial(b[0])[0];
  }

  lemma {:induction false} ObjectReads(f: seq<Pair<Json>>, g: seq<Pair<Json>>, s: Text, t: Text)
    requires Serial(Obj(f)) + s == Serial(Obj(g)) + t
    ensures f == g && s == t
    decreases f, 1
  {
    var x, y := SerialMembers(f) + [CLOSE_OBJECT] + s, SerialMembers(g) + [CLOSE_OBJECT] + t;
    ObjectOpens(f, s);
    ObjectOpens(g, t);
    hide Serial, SerialMembers;
    Cut(T("{"), T("{"), x, y);
    MembersRead(f, g, s, t);
  }

  lemma {:induction false} MembersRead(f: seq<Pair<Json>>, g: seq<Pair<Json>>, s: Text, t: Text)
    requires SerialMembers(f) + [CLOSE_OBJECT] + s == SerialMembers(g) + [CLOSE_OBJECT] + t
    ensures f == g && s == t
    decreases f, 0
  {
    EmptyMembers(f, g, s, t);
    if f == [] {
      assert SerialMembers(f) + [CLOSE_OBJECT] + s == [CLOSE_OBJECT] + s;
      assert SerialMembers(g) + [CLOSE_OBJECT] + t == [CLOSE_OBJECT] + t;
      Cut([CLOSE_OBJECT], [CLOSE_OBJECT], s, t);
    } else {
      MembersSplit(f, s);
      MembersSplit(g, t);
      var p := Rest(|f|, SerialMembers(f[1..]), CLOSE_OBJECT, s);
      var q := Rest(|g|, SerialMembers(g[1..]), CLOSE_OBJECT, t);
      var u, w := Serial(f[0].value) + p, Serial(g[0].value) + q;
      QuoteReads(f[0].key, g[0].key, [COLON] + u, [COLON] + w);
      Cut([COLON], [COLON], u, w);
      SerialReads(f[0].value, g[0].value, p, q);
      RestReads(|f|, |g|, SerialMembers(f[1..]), SerialMembers(g[1..]), CLOSE_OBJECT, s, t);
      if |f| > 1 { MembersRead(f[1..], g[1..], s, t); }
      assert f == [f[0]] + f[1..] && g == [g[0]] + g[1..];
    }
  }

  lemma EmptyMembers(f: seq<Pair<Json>>, g: seq<Pair<Json>>, s: Text, t: Text)
    requires SerialMembers(f) + [CLOSE_OBJECT] + s == SerialMembers(g) + [CLOSE_OBJECT] + t
    ensures f == [] <==> g == []
  {
    var x, y := SerialMembers(f) + [CLOSE_OBJECT] + s, SerialMembers(g) + [CLOSE_OBJECT] + t;
    if f != [] { MembersSplit(f, s); }
    if g != [] { MembersSplit(g, t); }
    assert x[0] == if f == [] then CLOSE_OBJECT else Quote(f[0].key)[0];
    assert y[0] == if g == [] then CLOSE_OBJECT else Quote(g[0].key)[0];
  }
}
