/**
 The canonical text against RFC 8259: which text spells a value, written with code points only,
 and the proof that a value has exactly one canonical text and that it is the one printed.
 */
module JsonGrammar {
  import opened Options
  import opened Texts
  import opened JsonText
  import opened JsonReading
  import opened JsonOrder

  // ---------- strings: section 7 of RFC 8259 ----------

  /** A lower-case hexadecimal digit. */
  predicate SpellsNibble(u: Unit, d: int) {
    (0 <= d <= 9 && u == 0x30 + d) || (10 <= d <= 15 && u == 0x61 + (d - 10))
  }

  /**
   One character between the quotes: quote, backslash and control characters are escaped, the short
   way if there is one.
   */
  predicate SpellsUnit(t: Text, u: Unit) {
    if u == 0x22 || u == 0x5C then t == [0x5C, u]
    else if u == 0x08 then t == [0x5C, 0x62]
    else if u == 0x09 then t == [0x5C, 0x74]
    else if u == 0x0A then t == [0x5C, 0x6E]
    else if u == 0x0C then t == [0x5C, 0x66]
    else if u == 0x0D then t == [0x5C, 0x72]
    else if u < 0x20 then
      |t| == 6 && t[..4] == [0x5C, 0x75, 0x30, 0x30] && SpellsNibble(t[4], u / 16) && SpellsNibble(t[5], u % 16)
    else t == [u]
  }

  predicate SpellsUnits(t: Text, s: Text) {
    if s == [] then t == []
    else exists k :: 0 <= k <= |t| && SpellsUnit(t[..k], s[0]) && SpellsUnits(t[k..], s[1..])
  }

  predicate SpellsString(t: Text, s: Text) {
    |t| >= 2 && t[0] == 0x22 && t[|t| - 1] == 0x22 && SpellsUnits(t[1..|t| - 1], s)
  }

  lemma UnitSpelled(t: Text, u: Unit)
    ensures SpellsUnit(t, u) <==> t == Escape(u)
  {
    if 0x0D < u < 0x20 || u < 8 || u == 0x0B {
      if SpellsUnit(t, u) { assert t == t[..4] + [t[4], t[5]]; }
      assert Escape(u)[..4] == [0x5C, 0x75, 0x30, 0x30];
    }
  }

  lemma {:induction false} UnitsSpelled(t: Text, s: Text)
    ensures SpellsUnits(t, s) <==> t == EscapeAll(s)
  {
    if s != [] {
      forall k | 0 <= k <= |t|
        ensures SpellsUnit(t[..k], s[0]) && SpellsUnits(t[k..], s[1..])
                <==> t[..k] == Escape(s[0]) && t[k..] == EscapeAll(s[1..])
      {
        UnitSpelled(t[..k], s[0]);
        UnitsSpelled(t[k..], s[1..]);
        assert t == t[..k] + t[k..];
      }
      if t == EscapeAll(s) {
        var k := |Escape(s[0])|;
        assert t[..k] == Escape(s[0]) && t[k..] == EscapeAll(s[1..]);
      }
      if k :| 0 <= k <= |t| && SpellsUnit(t[..k], s[0]) && SpellsUnits(t[k..], s[1..]) {
        assert t == t[..k] + t[k..];
      }
    }
  }

  lemma StringSpelled(t: Text, s: Text)
    ensures SpellsString(t, s) <==> t == Quote(s)
  {
    if |t| >= 2 {
      UnitsSpelled(t[1..|t| - 1], s);
      if t[0] == 0x22 && t[|t| - 1] == 0x22 { assert t == [0x22] + t[1..|t| - 1] + [0x22]; }
    }
    if t == Quote(s) { assert t[1..|t| - 1] == EscapeAll(s); }
  }

  // ---------- numbers: section 6 ----------

  /** The number a row of decimal digits stands for. */
  function Decimal(t: Text): int {
    if t == [] then 0 else 10 * Decimal(t[..|t| - 1]) + (t[|t| - 1] as int - 0x30)
  }

  /** Digits without a leading zero. */
  predicate SpellsNatural(t: Text, n: int) {
    && t != [] && (forall i :: 0 <= i < |t| ==> 0x30 <= t[i] <= 0x39)
    && (|t| > 1 ==> t[0] != 0x30) && Decimal(t) == n
  }

  predicate SpellsInteger(t: Text, n: int) {
    if n < 0 then t != [] && t[0] == 0x2D && SpellsNatural(t[1..], -n) else SpellsNatural(t, n)
  }

  lemma {:induction false} DecimalPositive(t: Text)
    requires t != [] && t[0] != 0x30 && forall i :: 0 <= i < |t| ==> 0x30 <= t[i] <= 0x39
    ensures Decimal(t) > 0
  {
    if |t| == 1 { assert t[..0] == []; } else { DecimalPositive(t[..|t| - 1]); }
  }

  lemma {:induction false} DigitsSpell(n: nat)
    ensures SpellsNatural(Digits(n), n) && (n > 0 ==> Digits(n)[0] != 0x30)
  {
    if n < 10 {
      assert Digits(n)[..0] == [];
    } else {
      DigitsSpell(n / 10);
      var t := Digits(n);
      assert t[..|t| - 1] == Digits(n / 10);
    }
  }

  lemma {:induction false} NaturalSpelled(t: Text, n: nat)
    ensures SpellsNatural(t, n) <==> t == Digits(n)
  {
    DigitsSpell(n);
    if SpellsNatural(t, n) {
      var front, last := t[..|t| - 1], t[|t| - 1];
      assert t == front + [last];
      if |t| > 1 {
        DecimalPositive(front);
        NaturalSpelled(front, n / 10);
      }
    }
  }

  lemma IntegerSpelled(t: Text, n: int)
    ensures SpellsInteger(t, n) <==> t == Integer(n)
  {
    if n < 0 {
      if t != [] {
        NaturalSpelled(t[1..], -n);
        assert t == [t[0]] + t[1..];
      }
    } else {
      NaturalSpelled(t, n);
    }
  }

  // ---------- values: sections 3 to 5 ----------

  /** The text is the canonical spelling of the value, members in their order and no white space. */
  predicate Spells(t: Text, v: Json)
    decreases v, 1
  {
    match v
    case Null => t == [0x6E, 0x75, 0x6C, 0x6C]
    case Bool(b) => if b then t == [0x74, 0x72, 0x75, 0x65] else t == [0x66, 0x61, 0x6C, 0x73, 0x65]
    case Num(n) => SpellsInteger(t, n)
    case Str(s) => SpellsString(t, s)
    case Arr(items) => |t| >= 2 && t[0] == 0x5B && t[|t| - 1] == 0x5D && SpellsItems(t[1..|t| - 1], items)
    case Obj(ms) => |t| >= 2 && t[0] == 0x7B && t[|t| - 1] == 0x7D && SpellsMembers(t[1..|t| - 1], ms)
  }

  predicate SpellsItems(t: Text, items: seq<Json>)
    decreases items, 0
  {
    if items == [] then t == []
    else if |items| == 1 then Spells(t, items[0])
    else exists k :: 0 <= k < |t| && t[k] == 0x2C && Spells(t[..k], items[0]) && SpellsItems(t[k + 1..], items[1..])
  }

  predicate SpellsMember(t: Text, p: Pair<Json>)
    decreases p, 0
  {
    exists k :: 0 <= k < |t| && t[k] == 0x3A && SpellsString(t[..k], p.key) && Spells(t[k + 1..], p.value)
  }

  predicate SpellsMembers(t: Text, ms: seq<Pair<Json>>)
    decreases ms, 0
  {
    if ms == [] then t == []
    else if |ms| == 1 then SpellsMember(t, ms[0])
    else
      exists k :: 0 <= k < |t| && t[k] == 0x2C && SpellsMember(t[..k], ms[0]) && SpellsMembers(t[k + 1..], ms[1..])
  }

  /** A text with a separator at one place. */
  lemma SplitAt(t: Text, k: nat, a: Text, sep: Unit, b: Text)
    requires k < |t|
    ensures t[k] == sep && t[..k] == a && t[k + 1..] == b <==> t == a + [sep] + b && k == |a|
  {
    if t[k] == sep && t[..k] == a && t[k + 1..] == b { assert t == t[..k] + [t[k]] + t[k + 1..]; }
  }

  /** Every value has exactly one spelling. */
  lemma {:induction false} SpelledOnce(t: Text, v: Json)
    ensures Spells(t, v) <==> t == Serial(v)
    decreases v, 1
  {
    match v
    case Num(n) => IntegerSpelled(t, n);
    case Str(s) => StringSpelled(t, s);
    case Arr(items) => Enclosed(t, 0x5B, SerialItems(items), 0x5D); if |t| >= 2 { ItemsSpelled(t[1..|t| - 1], items); }
    case Obj(ms) => Enclosed(t, 0x7B, SerialMembers(ms), 0x7D); if |t| >= 2 { MembersSpelled(t[1..|t| - 1], ms); }
    case _ => Literals();
  }

  lemma Literals()
    ensures T("null") == [0x6E, 0x75, 0x6C, 0x6C] && T("true") == [0x74, 0x72, 0x75, 0x65]
    ensures T("false") == [0x66, 0x61, 0x6C, 0x73, 0x65]
    ensures T("[") == [0x5B] && T("]") == [0x5D] && T("{") == [0x7B] && T("}") == [0x7D]
  {
  }

  lemma Enclosed(t: Text, open: Unit, inner: Text, close: Unit)
    ensures |t| >= 2 && t[0] == open && t[|t| - 1] == close && t[1..|t| - 1] == inner
            <==> t == [open] + inner + [close]
    ensures T("[") == [0x5B] && T("]") == [0x5D] && T("{") == [0x7B] && T("}") == [0x7D]
  {
    Literals();
    if |t| >= 2 && t[0] == open && t[|t| - 1] == close { assert t == [open] + t[1..|t| - 1] + [close]; }
    if t == [open] + inner + [close] { assert t[1..|t| - 1] == inner; }
  }

  lemma {:induction false} ItemsSpelled(t: Text, items: seq<Json>)
    ensures SpellsItems(t, items) <==> t == SerialItems(items)
    decreases items, 0
  {
    if |items| == 1 {
      SpelledOnce(t, items[0]);
    } else if |items| > 1 {
      var a, b := Serial(items[0]), SerialItems(items[1..]);
      forall k | 0 <= k < |t|
        ensures t[k] == 0x2C && Spells(t[..k], items[0]) && SpellsItems(t[k + 1..], items[1..])
                <==> t == a + [0x2C] + b && k == |a|
      {
        SpelledOnce(t[..k], items[0]);
        ItemsSpelled(t[k + 1..], items[1..]);
        SplitAt(t, k, a, 0x2C, b);
      }
      if t == a + [0x2C] + b {
        var k := |a|;
        assert 0 <= k < |t| && t[k] == 0x2C && Spells(t[..k], items[0]) && SpellsItems(t[k + 1..], items[1..]);
      }
    }
  }

  lemma {:induction false} MemberSpelled(t: Text, p: Pair<Json>)
    ensures SpellsMember(t, p) <==> t == Quote(p.key) + [COLON] + Serial(p.value)
    decreases p, 0
  {
    var a, b := Quote(p.key), Serial(p.value);
    forall k | 0 <= k < |t|
      ensures t[k] == 0x3A && SpellsString(t[..k], p.key) && Spells(t[k + 1..], p.value)
              <==> t == a + [0x3A] + b && k == |a|
    {
      StringSpelled(t[..k], p.key);
      SpelledOnce(t[k + 1..], p.value);
      SplitAt(t, k, a, 0x3A, b);
    }
    if t == a + [0x3A] + b {
      var k := |a|;
      assert 0 <= k < |t| && t[k] == 0x3A && SpellsString(t[..k], p.key) && Spells(t[k + 1..], p.value);
    }
  }

  lemma {:induction false} MembersSpelled(t: Text, ms: seq<Pair<Json>>)
    ensures SpellsMembers(t, ms) <==> t == SerialMembers(ms)
    decreases ms, 0
  {
    if |ms| == 1 {
      MemberSpelled(t, ms[0]);
    } else if |ms| > 1 {
      var a, b := Quote(ms[0].key) + [COLON] + Serial(ms[0].value), SerialMembers(ms[1..]);
      forall k | 0 <= k < |t|
        ensures t[k] == 0x2C && SpellsMember(t[..k], ms[0]) && SpellsMembers(t[k + 1..], ms[1..])
                <==> t == a + [0x2C] + b && k == |a|
      {
        MemberSpelled(t[..k], ms[0]);
        MembersSpelled(t[k + 1..], ms[1..]);
        SplitAt(t, k, a, 0x2C, b);
      }
      if t == a + [0x2C] + b {
        var k := |a|;
        assert 0 <= k < |t| && t[k] == 0x2C && SpellsMember(t[..k], ms[0]) && SpellsMembers(t[k + 1..], ms[1..]);
      }
    }
  }

  // ---------- the order of members ----------

  /** Keys increase strictly, by code points, at every level. */
  ghost predicate InOrder(v: Json) {
    match v
    case Arr(items) => forall i :: 0 <= i < |items| ==> InOrder(items[i])
    case Obj(ms) => KeysIncrease(ms) && forall i :: 0 <= i < |ms| ==> InOrder(ms[i].value)
    case _ => true
  }

  ghost predicate KeysIncrease(ms: seq<Pair<Json>>) {
    forall i, j :: 0 <= i < j < |ms| ==> Lexicographic(CodePoints(ms[i].key), CodePoints(ms[j].key))
  }

  lemma SortedIncrease(ms: seq<Pair<Json>>)
    requires Sorted(ms)
    ensures KeysIncrease(ms)
  {
    forall i, j | 0 <= i < j < |ms| ensures Lexicographic(CodePoints(ms[i].key), CodePoints(ms[j].key)) {
      CompareIsLexicographic(CodePoints(ms[i].key), CodePoints(ms[j].key));
    }
  }

  lemma {:induction false} NormInOrder(v: Json)
    requires Proper(v)
    ensures InOrder(Norm(v))
    decreases v, 1
  {
    match v
    case Arr(items) =>
      NormItemsAt(items);
      forall i | 0 <= i < |items| ensures InOrder(NormItems(items)[i]) { NormInOrder(items[i]); }
    case Obj(ms) =>
      MembersInOrder(ms);
    case _ =>
  }

  lemma {:induction false} NormFrom(ms: seq<Pair<Json>>, p: Pair<Json>) returns (k: nat)
    requires p in SortByKey(NormValues(ms))
    ensures k < |ms| && p == Pair(ms[k].key, Norm(ms[k].value))
  {
    NormValuesAt(ms);
    SortKeeps(NormValues(ms));
    k :| 0 <= k < |NormValues(ms)| && NormValues(ms)[k] == p;
  }

  lemma {:induction false} MembersInOrder(ms: seq<Pair<Json>>)
    requires DistinctKeys(ms) && forall i :: 0 <= i < |ms| ==> Proper(ms[i].value)
    ensures InOrder(Obj(SortByKey(NormValues(ms))))
    decreases ms, 0
  {
    NormKeysDistinct(ms);
    SortSorts(NormValues(ms));
    var sorted := SortByKey(NormValues(ms));
    SortedIncrease(sorted);
    forall i | 0 <= i < |sorted| ensures InOrder(sorted[i].value) {
      var k := NormFrom(ms, sorted[i]);
      NormInOrder(ms[k].value);
    }
  }

  lemma {:induction false} NormIsSame(v: Json)
    ensures Same(v, Norm(v))
    decreases v, 1
  {
    match v
    case Arr(items) =>
      NormItemsAt(items);
      forall i | 0 <= i < |items| ensures Same(items[i], NormItems(items)[i]) { NormIsSame(items[i]); }
    case Obj(ms) =>
      MembersAreSame(ms);
    case _ =>
  }

  lemma {:induction false} MembersAreSame(ms: seq<Pair<Json>>)
    ensures Same(Obj(ms), Obj(SortByKey(NormValues(ms))))
    decreases ms, 0
  {
    var norms := NormValues(ms);
    NormValuesAt(ms);
    SortKeeps(norms);
    var sorted := SortByKey(norms);
    forall i | 0 <= i < |ms| ensures HasSame(ms[i], sorted) {
      NormIsSame(ms[i].value);
      assert norms[i] in sorted;
      var j :| 0 <= j < |sorted| && sorted[j] == norms[i];
      assert ms[i].key == sorted[j].key && Same(ms[i].value, sorted[j].value);
    }
    forall j | 0 <= j < |sorted| ensures IsSame(ms, sorted[j]) {
      assert sorted[j] in norms;
      var i :| 0 <= i < |norms| && norms[i] == sorted[j];
      NormIsSame(ms[i].value);
      assert ms[i].key == sorted[j].key && Same(ms[i].value, sorted[j].value);
    }
  }

  /**
   What is printed is a text of RFC 8259, without white space, of the value with its members in
   increasing order, and no other text is a canonical spelling of that value.
   */
  lemma PrintSpells(v: Json)
    requires Proper(v)
    ensures Same(v, Norm(v)) && InOrder(Norm(v))
    ensures forall t :: Spells(t, Norm(v)) <==> t == Print(v)
  {
    NormIsSame(v);
    NormInOrder(v);
    PrintIsSerial(v);
    forall t ensures Spells(t, Norm(v)) <==> t == Print(v) { SpelledOnce(t, Norm(v)); }
  }

  // ---------- which values have a canonical text ----------

  /** w occurs in v at the given depth; v itself at depth 0. */
  ghost predicate Occurs(w: Json, v: Json, depth: nat)
    decreases v
  {
    (depth == 0 && w == v)
    || (depth > 0 && v.Arr? && exists i :: 0 <= i < |v.items| && Occurs(w, v.items[i], depth - 1))
    || (depth > 0 && v.Obj? && exists i :: 0 <= i < |v.members| && Occurs(w, v.members[i].value, depth - 1))
  }

  /** Every half of a surrogate pair stands beside its other half. */
  predicate NoHalves(t: Text) { forall i :: 0 <= i < |t| ==> Whole(t, i) }

  predicate Whole(t: Text, i: nat)
    requires i < |t|
  {
    && (0xD800 <= t[i] <= 0xDBFF ==> i + 1 < |t| && 0xDC00 <= t[i + 1] <= 0xDFFF)
    && (0xDC00 <= t[i] <= 0xDFFF ==> i > 0 && 0xD800 <= t[i - 1] <= 0xDBFF)
  }

  /** The bounds on one value, wherever it occurs. */
  predicate Bounded(w: Json) {
    match w
    case Num(n) => -9007199254740991 <= n <= 9007199254740991
    case Str(s) => |s| <= 65536 && NoHalves(s)
    case Arr(items) => |items| <= 4096
    case Obj(ms) => |ms| <= 512 && forall i :: 0 <= i < |ms| ==> |ms[i].key| <= 256 && NoHalves(ms[i].key)
    case _ => true
  }

  lemma {:induction false} WellFormedIff(t: Text)
    ensures WellFormedText(t) <==> NoHalves(t)
  {
    if t == [] {
    } else if StartsWithPair(t) {
      WellFormedIff(t[2..]);
      assert Whole(t, 0) && Whole(t, 1);
      ShiftWhole(t, 2);
    } else {
      WellFormedIff(t[1..]);
      assert Whole(t, 0) <==> !IsHigh(t[0]) && !IsLow(t[0]);
      if Whole(t, 0) { ShiftWhole(t, 1); }
    }
  }

  /** Behind a place where no pair is broken the halves pair up as they do alone. */
  lemma ShiftWhole(t: Text, k: nat)
    requires 0 < k <= |t| && !IsHigh(t[k - 1]) && forall i :: 0 <= i < k ==> Whole(t, i)
    ensures NoHalves(t) <==> NoHalves(t[k..])
  {
    var u := t[k..];
    forall i | 0 <= i < |u| ensures Whole(u, i) <==> Whole(t, i + k) {
      assert u[i] == t[i + k];
    }
    if NoHalves(u) {
      forall i | k <= i < |t| ensures Whole(t, i) { assert Whole(u, i - k); }
    }
  }

  /** No value occurs too deep or out of bounds. */
  ghost predicate AllBounded(v: Json, depth: nat, maximum: nat) {
    forall w, d :: Occurs(w, v, d) ==> depth + d <= maximum && Bounded(w)
  }

  lemma {:induction false} PrintableIff(v: Json, depth: nat, maximum: nat)
    ensures Printable(v, depth, maximum) <==> AllBounded(v, depth, maximum)
    decreases v
  {
    assert Occurs(v, v, 0);
    match v
    case Str(s) => WellFormedIff(s);
    case Arr(items) =>
      forall i | 0 <= i < |items|
        ensures Printable(items[i], depth + 1, maximum) <==> AllBounded(items[i], depth + 1, maximum)
      {
        PrintableIff(items[i], depth + 1, maximum);
      }
      ItemsOccur(items, depth, maximum);
    case Obj(ms) =>
      forall i | 0 <= i < |ms|
        ensures PrintableMember(ms[i], depth + 1, maximum)
                <==> |ms[i].key| <= 256 && NoHalves(ms[i].key) && AllBounded(ms[i].value, depth + 1, maximum)
      {
        WellFormedIff(ms[i].key);
        PrintableIff(ms[i].value, depth + 1, maximum);
      }
      MembersOccur(ms, depth, maximum);
    case _ =>
  }

  lemma {:induction false} ItemsOccur(items: seq<Json>, depth: nat, maximum: nat)
    ensures AllBounded(Arr(items), depth, maximum)
            <==> depth <= maximum && Bounded(Arr(items))
                 && forall i :: 0 <= i < |items| ==> AllBounded(items[i], depth + 1, maximum)
  {
    var v := Arr(items);
    assert Occurs(v, v, 0);
    if AllBounded(v, depth, maximum) {
      forall i: int, w: Json, d: nat | 0 <= i < |items| && Occurs(w, items[i], d)
        ensures depth + 1 + d <= maximum && Bounded(w)
      {
        assert Occurs(w, v.items[i], d + 1 - 1);
        assert Occurs(w, v, d + 1);
      }
    }
    if depth <= maximum && Bounded(v) && forall i :: 0 <= i < |items| ==> AllBounded(items[i], depth + 1, maximum) {
      forall w: Json, d: nat | Occurs(w, v, d) ensures depth + d <= maximum && Bounded(w) {
        if d > 0 {
          var i :| 0 <= i < |items| && Occurs(w, items[i], d - 1);
          assert AllBounded(items[i], depth + 1, maximum);
        }
      }
    }
  }

  lemma {:induction false} MembersOccur(ms: seq<Pair<Json>>, depth: nat, maximum: nat)
    ensures AllBounded(Obj(ms), depth, maximum)
            <==> depth <= maximum && Bounded(Obj(ms))
                 && forall i :: 0 <= i < |ms| ==> AllBounded(ms[i].value, depth + 1, maximum)
  {
    var v := Obj(ms);
    assert Occurs(v, v, 0);
    if AllBounded(v, depth, maximum) {
      forall i: int, w: Json, d: nat | 0 <= i < |ms| && Occurs(w, ms[i].value, d)
        ensures depth + 1 + d <= maximum && Bounded(w)
      {
        assert Occurs(w, v.members[i].value, d + 1 - 1);
        assert Occurs(w, v, d + 1);
      }
    }
    if depth <= maximum && Bounded(v) && forall i :: 0 <= i < |ms| ==> AllBounded(ms[i].value, depth + 1, maximum) {
      forall w: Json, d: nat | Occurs(w, v, d) ensures depth + d <= maximum && Bounded(w) {
        if d > 0 {
          var i :| 0 <= i < |ms| && Occurs(w, ms[i].value, d - 1);
          assert AllBounded(ms[i].value, depth + 1, maximum);
        }
      }
    }
  }

  /** A value has a canonical text exactly when everything in it is in bounds, and then it is its spelling. */
  lemma CanonicalIff(v: Json, maximum: nat, t: Text)
    requires Proper(v)
    ensures Canonical(v, maximum) == Some(t) <==> AllBounded(v, 0, maximum) && Spells(t, Norm(v))
  {
    PrintableIff(v, 0, maximum);
    PrintSpells(v);
  }
}
