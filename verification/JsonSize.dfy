/**
 How many bytes a value takes when it is sent: the sum of the bytes of its parts.
 */
module JsonSize {
  import opened Texts
  import opened JsonText
  import opened JsonReading

  function QuoteBytes(s: Text): nat { 2 + Utf8Length(EscapeAll(s)) }

  /** The bytes of a value, counted part by part. */
  function Bytes(v: Json): nat {
    match v
    case Null => 4
    case Bool(b) => if b then 4 else 5
    case Num(n) => |Integer(n)|
    case Str(s) => QuoteBytes(s)
    case Arr(items) => if items == [] then 2 else 1 + ItemBytes(items)
    case Obj(ms) => if ms == [] then 2 else 1 + MemberBytes(ms)
  }

  /** Each with the comma or bracket after it. */
  function ItemBytes(items: seq<Json>): nat {
    if items == [] then 0 else Bytes(items[0]) + 1 + ItemBytes(items[1..])
  }

  function MemberBytes(ms: seq<Pair<Json>>): nat {
    if ms == [] then 0 else QuoteBytes(ms[0].key) + 1 + Bytes(ms[0].value) + 1 + MemberBytes(ms[1..])
  }

  // ---------- adding up ----------

  lemma {:induction false} Utf8Adds(a: Text, b: Text)
    requires b != [] ==> !IsLow(b[0])
    ensures Utf8Length(a + b) == Utf8Length(a) + Utf8Length(b)
  {
    if a == [] {
      assert a + b == b;
    } else if StartsWithPair(a) {
      assert (a + b)[2..] == a[2..] + b;
      Utf8Adds(a[2..], b);
    } else {
      assert (a + b)[1..] == a[1..] + b;
      Utf8Adds(a[1..], b);
    }
  }

  lemma {:induction false} AsciiBytes(t: Text)
    requires IsAscii(t)
    ensures Utf8Length(t) == |t|
  {
    if t != [] { AsciiBytes(t[1..]); }
  }

  lemma OneByte(u: Unit)
    requires u < 0x80
    ensures Utf8Length([u]) == 1
  {
    assert [u][1..] == [];
  }

  lemma QuoteIsBytes(s: Text)
    ensures Utf8Length(Quote(s)) == QuoteBytes(s)
  {
    Utf8Adds([QUOTE] + EscapeAll(s), [QUOTE]);
    if EscapeAll(s) != [] && IsLow(EscapeAll(s)[0]) {
      assert !StartsWithPair([QUOTE] + EscapeAll(s));
      assert ([QUOTE] + EscapeAll(s))[1..] == EscapeAll(s);
    } else {
      Utf8Adds([QUOTE], EscapeAll(s));
    }
    OneByte(QUOTE);
  }

  lemma IntegerAscii(n: int)
    ensures IsAscii(Integer(n)) && Integer(n) != []
  {
  }

  /** Printed values start with an ASCII character, so nothing merges where they are joined. */
  lemma SerialStarts(v: Json)
    ensures Serial(v) != [] && Serial(v)[0] < 0x80
  {
    match v {
      case Num(n) => IntegerAscii(n);
      case _ =>
    }
  }

  lemma SerialItemsStart(items: seq<Json>)
    requires items != []
    ensures SerialItems(items) != [] && SerialItems(items)[0] < 0x80
  {
    SerialStarts(items[0]);
  }

  lemma Joins(a: Text, u: Unit, b: Text)
    requires u < 0x80 && (b != [] ==> b[0] < 0x80)
    ensures Utf8Length(a + [u] + b) == Utf8Length(a) + 1 + Utf8Length(b)
  {
    Utf8Adds(a + [u], b);
    Utf8Adds(a, [u]);
    OneByte(u);
  }

  /** What is sent has exactly that many bytes. */
  lemma {:induction false} SerialBytes(v: Json)
    ensures Utf8Length(Serial(v)) == Bytes(v)
  {
    hide Quote, EscapeAll, Integer;
    match v {
      case Null => LiteralBytes("null");
      case Bool(b) => LiteralBytes("true"); LiteralBytes("false");
      case Num(n) => IntegerAscii(n); AsciiBytes(Integer(n));
      case Str(s) => QuoteIsBytes(s);
      case Arr(items) => SerialItemsBytes(items); Bracketed("[", SerialItems(items), "]") by {
        if items != [] { SerialItemsStart(items); }
      }
      case Obj(ms) => SerialMembersBytes(ms); Bracketed("{", SerialMembers(ms), "}") by {
        if ms != [] { MembersStart(ms); }
      }
    }
  }

  lemma LiteralBytes(s: string)
    ensures Utf8Length(T(s)) == |s|
  {
    AsciiBytes(T(s));
  }

  lemma MembersStart(ms: seq<Pair<Json>>)
    requires ms != []
    ensures SerialMembers(ms) != [] && SerialMembers(ms)[0] < 0x80
  {
    assert Quote(ms[0].key)[0] == QUOTE;
  }

  lemma Bracketed(open: string, t: Text, close: string)
    requires |open| == 1 && |close| == 1 && (t != [] ==> t[0] < 0x80)
    ensures Utf8Length(T(open) + t + T(close)) == Utf8Length(t) + 2
  {
    LiteralBytes(open);
    LiteralBytes(close);
    Utf8Adds(T(open) + t, T(close));
    Utf8Adds(T(open), t);
  }

  lemma {:induction false} SerialItemsBytes(items: seq<Json>)
    ensures items != [] ==> Utf8Length(SerialItems(items)) + 1 == ItemBytes(items)
    decreases items
  {
    if items != [] {
      SerialBytes(items[0]);
      SerialItemsBytes(items[1..]);
      if |items| > 1 {
        SerialItemsStart(items[1..]);
        Joins(Serial(items[0]), COMMA, SerialItems(items[1..]));
      }
    }
  }

  lemma {:induction false} SerialMembersBytes(ms: seq<Pair<Json>>)
    ensures ms != [] ==> Utf8Length(SerialMembers(ms)) + 1 == MemberBytes(ms)
    decreases ms
  {
    hide Quote;
    if ms != [] {
      SerialBytes(ms[0].value);
      SerialMembersBytes(ms[1..]);
      QuoteIsBytes(ms[0].key);
      SerialStarts(ms[0].value);
      var head := Quote(ms[0].key) + [COLON] + Serial(ms[0].value);
      Joins(Quote(ms[0].key), COLON, Serial(ms[0].value));
      if |ms| > 1 {
        MembersStart(ms[1..]);
        Joins(head, COMMA, SerialMembers(ms[1..]));
      }
    }
  }

  // ---------- literals ----------

  predicate Unescaped(s: string) {
    forall i :: 0 <= i < |s| ==> ' ' <= s[i] <= '~' && s[i] != '"' && s[i] != '\\'
  }

  lemma {:induction false} NothingEscaped(t: Text)
    requires forall i :: 0 <= i < |t| ==> 0x20 <= t[i] < 0x80 && t[i] != QUOTE && t[i] != BACKSLASH
    ensures EscapeAll(t) == t
  {
    if t != [] {
      NothingEscaped(t[1..]);
      assert t == [t[0]] + t[1..];
    }
  }

  /** A literal without quotes, backslashes or control characters takes its length and two quotes. */
  lemma PlainBytes(s: string)
    requires Unescaped(s)
    ensures Bytes(Str(T(s))) == |s| + 2
  {
    forall i | 0 <= i < |s| ensures T(s)[i] == s[i] as int { }
    NothingEscaped(T(s));
    LiteralBytes(s);
  }

  lemma UnescapedAppend(a: string, b: string)
    requires Unescaped(a) && Unescaped(b)
    ensures Unescaped(a + b)
  {
  }
}
