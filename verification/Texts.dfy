/**
 Strings as the run contract sees them: UTF-16 code units, read as code points when
 keys are ordered.
 */
module Texts {

  type Unit = u: int | 0 <= u < 0x10000
  type Text = seq<Unit>

  /** The code units of a literal of the source; the literals used are ASCII. */
  function T(s: string): (t: Text)
    ensures |t| == |s|
    ensures IsAscii(t)
  {
    seq(|s|, i requires 0 <= i < |s| => Ascii(s[i]))
  }

  function Ascii(c: char): Unit {
    if c as int < 0x80 then c as int else 0x3F
  }

  predicate IsAscii(t: Text) { forall i :: 0 <= i < |t| ==> t[i] < 0x80 }

  // ---------- identifiers and digests ----------

  predicate IdUnit(u: Unit) { 0x61 <= u <= 0x7A || 0x30 <= u <= 0x39 }

  /** An identifier: a lower-case letter or a digit, then up to 127 of them, underscores or dashes. */
  predicate IsId(t: Text) {
    1 <= |t| <= 128 && IdUnit(t[0]) && forall i :: 0 <= i < |t| ==> IdUnit(t[i]) || t[i] == 0x5F || t[i] == 0x2D
  }

  predicate HexUnit(u: Unit) { 0x30 <= u <= 0x39 || 0x61 <= u <= 0x66 }

  predicate IsHex(t: Text) { forall i :: 0 <= i < |t| ==> HexUnit(t[i]) }

  /** A digest: sha256 and 64 hexadecimal digits. */
  predicate IsHash(t: Text) { |t| == 71 && t[..7] == T("sha256:") && IsHex(t[7..]) }

  /** A run identifier: 32 hexadecimal digits. */
  predicate IsRunId(t: Text) { |t| == 36 && t[..4] == T("run-") && IsHex(t[4..]) }

  /** One hexadecimal digit, repeated. */
  function HexText(start: string, digit: Unit, count: nat): (t: Text)
    requires HexUnit(digit)
    ensures |t| == |start| + count && t[..|start|] == T(start) && IsHex(t[|start|..]) && IsAscii(t)
    ensures count > 0 ==> t[|start|] == digit
  {
    var digits := seq(count, _ => digit);
    assert (T(start) + digits)[..|start|] == T(start) && (T(start) + digits)[|start|..] == digits;
    T(start) + digits
  }

  predicate IsHigh(u: Unit) { 0xD800 <= u < 0xDC00 }

  predicate IsLow(u: Unit) { 0xDC00 <= u < 0xE000 }

  predicate StartsWithPair(t: Text) {
    |t| >= 2 && IsHigh(t[0]) && IsLow(t[1])
  }

  /** What spreading a string yields: a surrogate pair is one code point, a lone surrogate is itself. */
  function CodePoints(t: Text): seq<int> {
    if t == [] then []
    else if StartsWithPair(t) then [0x10000 + (t[0] - 0xD800) * 0x400 + (t[1] - 0xDC00)] + CodePoints(t[2..])
    else [t[0]] + CodePoints(t[1..])
  }

  /** No lone surrogate. */
  predicate WellFormedText(t: Text) {
    if t == [] then true
    else if StartsWithPair(t) then WellFormedText(t[2..])
    else !IsHigh(t[0]) && !IsLow(t[0]) && WellFormedText(t[1..])
  }

  /** Size in bytes of a well-formed text in UTF-8. */
  function Utf8Length(t: Text): nat {
    if t == [] then 0
    else if StartsWithPair(t) then 4 + Utf8Length(t[2..])
    else (if t[0] < 0x80 then 1 else if t[0] < 0x800 then 2 else 3) + Utf8Length(t[1..])
  }

  lemma {:induction false} CodePointsInjective(a: Text, b: Text)
    requires CodePoints(a) == CodePoints(b)
    ensures a == b
  {
    if a == [] || b == [] {
    } else {
      var x, y := CodePoints(a), CodePoints(b);
      assert x[0] == y[0];
      if StartsWithPair(a) {
        assert CodePoints(a[2..]) == x[1..];
        assert StartsWithPair(b);
        assert CodePoints(b[2..]) == y[1..];
        CodePointsInjective(a[2..], b[2..]);
        assert a == a[..2] + a[2..] && b == b[..2] + b[2..];
      } else {
        assert CodePoints(a[1..]) == x[1..];
        assert !StartsWithPair(b);
        assert CodePoints(b[1..]) == y[1..];
        CodePointsInjective(a[1..], b[1..]);
        assert a == [a[0]] + a[1..] && b == [b[0]] + b[1..];
      }
    }
  }

  // ---------- key order ----------

  function Compare(a: seq<int>, b: seq<int>): int {
    if a == [] || b == [] then |a| - |b|
    else if a[0] != b[0] then a[0] - b[0]
    else Compare(a[1..], b[1..])
  }

  /** The comparator handed to the sort of object keys. */
  method CompareKeys(a: Text, b: Text) returns (delta: int)
    ensures delta == Compare(CodePoints(a), CodePoints(b))
  {
    var left, right := CodePoints(a), CodePoints(b);
    var i := 0;
    while i < (if |left| < |right| then |left| else |right|)
      invariant 0 <= i <= |left| && i <= |right|
      invariant Compare(left, right) == Compare(left[i..], right[i..])
    {
      delta := left[i] - right[i];
      if delta != 0 { return; }
      assert left[i..][1..] == left[i + 1..] && right[i..][1..] == right[i + 1..];
      i := i + 1;
    }
    delta := |left| - |right|;
  }

  predicate Before(a: Text, b: Text) {
    Compare(CodePoints(a), CodePoints(b)) < 0
  }

  /** Lexicographic order stated without the comparator: the first difference decides, or the shorter is a prefix. */
  ghost predicate Lexicographic(a: seq<int>, b: seq<int>) {
    exists k :: FirstDifference(a, b, k)
  }

  predicate FirstDifference(a: seq<int>, b: seq<int>, k: int) {
    && 0 <= k <= |a| && k <= |b| && (forall j :: 0 <= j < k ==> a[j] == b[j])
    && (if k == |a| then k < |b| else k < |b| && a[k] < b[k])
  }

  lemma {:induction false} CompareIsLexicographic(a: seq<int>, b: seq<int>)
    ensures Compare(a, b) < 0 <==> Lexicographic(a, b)
    ensures Compare(a, b) == 0 <==> a == b
    ensures Compare(b, a) == -Compare(a, b)
  {
    if a == [] || b == [] {
      if a == [] && b != [] { assert FirstDifference(a, b, 0); }
    } else if a[0] != b[0] {
      if a[0] < b[0] { assert FirstDifference(a, b, 0); }
    } else {
      CompareIsLexicographic(a[1..], b[1..]);
      if a[1..] == b[1..] { assert a == [a[0]] + a[1..] && b == [b[0]] + b[1..]; }
      if Lexicographic(a[1..], b[1..]) {
        var k :| FirstDifference(a[1..], b[1..], k);
        assert FirstDifference(a, b, k + 1) by {
          assert forall j :: 0 < j < k + 1 ==> a[j] == a[1..][j - 1] && b[j] == b[1..][j - 1];
        }
      }
      if Lexicographic(a, b) {
        var k :| FirstDifference(a, b, k);
        assert FirstDifference(a[1..], b[1..], k - 1);
      }
    }
  }

  lemma {:induction false} CompareTransitive(a: seq<int>, b: seq<int>, c: seq<int>)
    requires Compare(a, b) < 0 && Compare(b, c) < 0
    ensures Compare(a, c) < 0
  {
    if a != [] && b != [] && c != [] && a[0] == b[0] == c[0] {
      CompareTransitive(a[1..], b[1..], c[1..]);
    }
  }

  /** The comparator is a strict total order on all strings, lone surrogates included. */
  lemma KeyOrderIsTotal(a: Text, b: Text, c: Text)
    ensures !Before(a, a)
    ensures a != b ==> (Before(a, b) <==> !Before(b, a))
    ensures Before(a, b) && Before(b, c) ==> Before(a, c)
  {
    var x, y, z := CodePoints(a), CodePoints(b), CodePoints(c);
    CompareIsLexicographic(x, x);
    CompareIsLexicographic(x, y);
    if x == y { CodePointsInjective(a, b); }
    if Before(a, b) && Before(b, c) { CompareTransitive(x, y, z); }
  }
}
