/**
 Code points and bytes of a text against RFC 2781 and RFC 3629: which code points its UTF-16 units
 stand for, and how many bytes they take in UTF-8. Also the forms of identifiers and digests.
 */
module Encodings {
  import opened Texts

  // ---------- UTF-16: section 2 of RFC 2781 ----------

  /** The units of one code point. */
  function Units(c: int): seq<int> {
    if c < 0x10000 then [c] else [0xD800 + (c - 0x10000) / 0x400, 0xDC00 + (c - 0x10000) % 0x400]
  }

  function AllUnits(cs: seq<int>): seq<int> {
    if cs == [] then [] else Units(cs[0]) + AllUnits(cs[1..])
  }

  /** A high and a low surrogate in a row are one code point, never two. */
  predicate Joined(cs: seq<int>) {
    forall i :: 0 <= i < |cs| - 1 ==> !(0xD800 <= cs[i] <= 0xDBFF && 0xDC00 <= cs[i + 1] <= 0xDFFF)
  }

  predicate SpellsPoints(t: Text, cs: seq<int>) {
    (forall i :: 0 <= i < |cs| ==> 0 <= cs[i] <= 0x10FFFF) && AllUnits(cs) == t && Joined(cs)
  }

  /** The first code point, and where the next one starts. */
  lemma {:induction false} PointsStart(t: Text)
    ensures |CodePoints(t)| <= |t| && (t != [] ==> CodePoints(t) != [])
    ensures t != [] && !StartsWithPair(t) ==> CodePoints(t)[0] == t[0]
    ensures t != [] && CodePoints(t)[0] < 0x10000 ==> CodePoints(t)[0] == t[0] && !StartsWithPair(t)
  {
    if t != [] { if StartsWithPair(t) { PointsStart(t[2..]); } else { PointsStart(t[1..]); } }
  }

  lemma OneMore(c: int, cs: seq<int>, rest: Text)
    requires SpellsPoints(rest, cs) && 0 <= c <= 0x10FFFF
    requires 0xD800 <= c <= 0xDBFF && cs != [] ==> !(0xDC00 <= cs[0] <= 0xDFFF)
    ensures Units(c) + rest == AllUnits([c] + cs)
    ensures Joined([c] + cs) && forall i :: 0 <= i < |[c] + cs| ==> 0 <= ([c] + cs)[i] <= 0x10FFFF
  {
    assert ([c] + cs)[1..] == cs;
  }

  lemma PairUnits(h: int, l: int)
    requires 0xD800 <= h < 0xDC00 && 0xDC00 <= l < 0xE000
    ensures var c := 0x10000 + (h - 0xD800) * 0x400 + (l - 0xDC00);
            0x10000 <= c <= 0x10FFFF && Units(c) == [h, l]
  {
  }

  lemma NeverMeet(t: Text)
    requires t != [] && !StartsWithPair(t)
    ensures 0xD800 <= t[0] <= 0xDBFF && CodePoints(t[1..]) != [] ==> !(0xDC00 <= CodePoints(t[1..])[0] <= 0xDFFF)
  {
    PointsStart(t[1..]);
    hide CodePoints;
  }

  lemma {:induction false} PointsSpell(t: Text)
    ensures SpellsPoints(t, CodePoints(t))
  {
    if t != [] {
      if StartsWithPair(t) {
        PointsSpell(t[2..]);
        PairUnits(t[0], t[1]);
        var h: int, l: int := t[0], t[1];
        var c := 0x10000 + (h - 0xD800) * 0x400 + (l - 0xDC00);
        assert CodePoints(t) == [c] + CodePoints(t[2..]) && t == [t[0], t[1]] + t[2..];
        hide *;
        OneMore(c, CodePoints(t[2..]), t[2..]);
        assert SpellsPoints(t, [c] + CodePoints(t[2..])) by { Spelled(t, [c] + CodePoints(t[2..])); }
      } else {
        PointsSpell(t[1..]);
        NeverMeet(t);
        assert CodePoints(t) == [t[0]] + CodePoints(t[1..]) && t == [t[0]] + t[1..] && Units(t[0]) == [t[0]];
        hide *;
        OneMore(t[0], CodePoints(t[1..]), t[1..]);
        assert SpellsPoints(t, [t[0]] + CodePoints(t[1..])) by { Spelled(t, [t[0]] + CodePoints(t[1..])); }
      }
    }
  }

  lemma Spelled(t: Text, cs: seq<int>)
    requires AllUnits(cs) == t && Joined(cs) && forall i :: 0 <= i < |cs| ==> 0 <= cs[i] <= 0x10FFFF
    ensures SpellsPoints(t, cs)
  {
    hide AllUnits, Joined;
  }

  lemma {:induction false} PointsUnique(t: Text, cs: seq<int>)
    requires SpellsPoints(t, cs)
    ensures cs == CodePoints(t)
  {
    if cs != [] {
      var rest: Text := t[|Units(cs[0])|..];
      assert t == Units(cs[0]) + rest && AllUnits(cs[1..]) == rest;
      PointsUnique(rest, cs[1..]);
      if |cs| > 1 { assert cs[1..][0] == cs[1]; PointsStart(rest); }
      hide SpellsPoints, AllUnits;
      FirstPoint(t, cs[0], rest, cs[1..]);
      assert cs == [cs[0]] + cs[1..];
    }
  }

  /** A point in front of a text is its first point, unless both halves of a pair would meet. */
  lemma FirstPoint(t: Text, c: int, rest: Text, cs: seq<int>)
    requires 0 <= c <= 0x10FFFF && t == Units(c) + rest && cs == CodePoints(rest)
    requires 0xD800 <= c <= 0xDBFF && cs != [] ==> !(0xDC00 <= cs[0] <= 0xDFFF)
    ensures CodePoints(t) == [c] + cs
  {
    PointsStart(rest);
    if c < 0x10000 {
      assert !StartsWithPair(t) && rest == t[1..];
    } else {
      assert t[0] == 0xD800 + (c - 0x10000) / 0x400 && t[1] == 0xDC00 + (c - 0x10000) % 0x400;
      assert StartsWithPair(t) && rest == t[2..];
    }
  }

  /** The code points of a text are those its units spell, and no others. */
  lemma CodePointsIff(t: Text, cs: seq<int>)
    ensures cs == CodePoints(t) <==> SpellsPoints(t, cs)
  {
    PointsSpell(t);
    if SpellsPoints(t, cs) { PointsUnique(t, cs); }
  }

  // ---------- UTF-8: section 3 of RFC 3629 ----------

  /** The bytes of one code point. */
  function Utf8(c: int): seq<int> {
    if c <= 0x7F then [c]
    else if c <= 0x7FF then [0xC0 + c / 64, 0x80 + c % 64]
    else if c <= 0xFFFF then [0xE0 + c / 4096, 0x80 + c / 64 % 64, 0x80 + c % 64]
    else [0xF0 + c / 262144, 0x80 + c / 4096 % 64, 0x80 + c / 64 % 64, 0x80 + c % 64]
  }

  function AllUtf8(cs: seq<int>): seq<int> {
    if cs == [] then [] else Utf8(cs[0]) + AllUtf8(cs[1..])
  }

  /** The length that is compared with byte limits is that of the encoded text. */
  lemma {:induction false} Utf8Measures(t: Text)
    ensures Utf8Length(t) == |AllUtf8(CodePoints(t))|
  {
    if t != [] {
      var rest := if StartsWithPair(t) then t[2..] else t[1..];
      Utf8Measures(rest);
      assert CodePoints(t)[1..] == CodePoints(rest);
    }
  }

  // ---------- identifiers, run identifiers and digests ----------

  predicate LowerOrDigit(c: char) { 'a' <= c <= 'z' || '0' <= c <= '9' }

  predicate HexDigit(c: char) { '0' <= c <= '9' || 'a' <= c <= 'f' }

  predicate IdForm(s: string) {
    1 <= |s| <= 128 && LowerOrDigit(s[0]) && forall i :: 0 <= i < |s| ==> LowerOrDigit(s[i]) || s[i] in "_-"
  }

  predicate HexForm(s: string, start: string, count: nat) {
    && |s| == |start| + count && start <= s && forall i :: |start| <= i < |s| ==> HexDigit(s[i])
  }

  function Chars(t: Text): string { seq(|t|, i requires 0 <= i < |t| => if t[i] < 0x80 then t[i] as char else '?') }

  lemma CharsOf(t: Text)
    requires forall i :: 0 <= i < |t| ==> t[i] < 0x80
    ensures T(Chars(t)) == t
  {
  }

  /** A lower-case letter or a digit, then up to 127 of them, underscores or dashes. */
  lemma IdIff(t: Text)
    ensures IsId(t) <==> exists s: string :: IdForm(s) && T(s) == t
  {
    if IsId(t) {
      CharsOf(t);
      assert IdForm(Chars(t));
    }
    if s: string :| IdForm(s) && T(s) == t {
      forall i | 0 <= i < |t| ensures t[i] == s[i] as int { assert LowerOrDigit(s[i]) || s[i] in "_-"; }
    }
  }

  lemma {:induction false} HexIff(t: Text, start: string, count: nat)
    requires forall i :: 0 <= i < |start| ==> start[i] as int < 0x80
    ensures |t| == |start| + count && t[..|start|] == T(start) && IsHex(t[|start|..])
            <==> exists s: string :: HexForm(s, start, count) && T(s) == t
  {
    var n := |start|;
    if |t| == n + count && t[..n] == T(start) && IsHex(t[n..]) {
      forall i | 0 <= i < |t| ensures t[i] < 0x80 && (i >= n ==> HexUnit(t[i])) {
        if i < n { assert t[..n][i] == T(start)[i]; } else { assert t[n..][i - n] == t[i]; }
      }
      CharsOf(t);
      var s := Chars(t);
      forall i | 0 <= i < n ensures s[i] == start[i] { assert t[..n][i] == T(start)[i]; }
      assert HexForm(s, start, count);
    }
    if s: string :| HexForm(s, start, count) && T(s) == t {
      assert t[..n] == T(start) by { forall i | 0 <= i < n ensures t[i] == T(start)[i] { assert s[i] == start[i]; } }
      forall i | 0 <= i < |t| - n ensures HexUnit(t[n..][i]) { assert HexDigit(s[n + i]); }
    }
  }

  /** Digests are "sha256:" and 64 hexadecimal digits, run identifiers "run-" and 32. */
  lemma FormsIff(t: Text)
    ensures IsHash(t) <==> exists s: string :: HexForm(s, "sha256:", 64) && T(s) == t
    ensures IsRunId(t) <==> exists s: string :: HexForm(s, "run-", 32) && T(s) == t
  {
    hide T, HexForm;
    HexIff(t, "sha256:", 64);
    HexIff(t, "run-", 32);
  }
}
