/**
 Digests and seals. The hash is a parameter; what needs it collision-free says so.
 */
module Digests {
  import opened Options
  import opened Texts
  import opened JsonText
  import JsonOrder

  type Hash = Text -> Text

  ghost predicate Injective(h: Hash) {
    forall a, b :: h(a) == h(b) ==> a == b
  }

  const DIGEST_DEPTH := 20

  function Digest(h: Hash, v: Json): Option<Text> {
    match Canonical(v, DIGEST_DEPTH)
    case Some(t) => Some(h(t))
    case None => None
  }

  function DigestWithout(h: Hash, v: Json, excluded: Text): Option<Text> {
    match CanonicalWithout(v, excluded, DIGEST_DEPTH)
    case Some(t) => Some(h(t))
    case None => None
  }

  function Lookup(ms: seq<Pair<Json>>, key: Text): Option<Json> {
    if ms == [] then None
    else if ms[0].key == key then Some(ms[0].value)
    else Lookup(ms[1..], key)
  }

  /** Assignment to a property: in place when it exists, appended otherwise. */
  function Assign(ms: seq<Pair<Json>>, key: Text, value: Json): seq<Pair<Json>> {
    if ms == [] then [Pair(key, value)]
    else if ms[0].key == key then [Pair(key, value)] + ms[1..]
    else [ms[0]] + Assign(ms[1..], key, value)
  }

  /** The seal check: the field holds the digest of the rest of the object. */
  predicate Sealed(h: Hash, ms: seq<Pair<Json>>, field: Text) {
    match Lookup(ms, field)
    case Some(Str(s)) => DigestWithout(h, Obj(ms), field) == Some(s)
    case _ => false
  }

  /** Sealing an object: compute the digest that leaves the field out, then store it there. */
  function Seal(h: Hash, ms: seq<Pair<Json>>, field: Text): Option<seq<Pair<Json>>> {
    match DigestWithout(h, Obj(ms), field)
    case Some(s) => Some(Assign(ms, field, Str(s)))
    case None => None
  }

  // ---------- canonical text of checked values ----------

  lemma {:induction false} SamePrintable(v: Json, w: Json, depth: nat, maximum: nat)
    requires Proper(v) && Proper(w) && Same(v, w) && Printable(v, depth, maximum)
    ensures Printable(w, depth, maximum)
    decreases v
  {
    match v
    case Arr(a) =>
      forall i | 0 <= i < |w.items| ensures Printable(w.items[i], depth + 1, maximum) {
        SamePrintable(a[i], w.items[i], depth + 1, maximum);
      }
    case Obj(f) =>
      SameSize(f, w.members);
      forall j | 0 <= j < |w.members| ensures PrintableMember(w.members[j], depth + 1, maximum) {
        var q := w.members[j];
        assert IsSame(f, q);
        var i :| 0 <= i < |f| && f[i].key == q.key && Same(f[i].value, q.value);
        assert PrintableMember(f[i], depth + 1, maximum);
        SamePrintable(f[i].value, q.value, depth + 1, maximum);
      }
    case _ =>
  }

  lemma SameSize(f: seq<Pair<Json>>, g: seq<Pair<Json>>)
    requires Proper(Obj(f)) && Proper(Obj(g)) && Same(Obj(f), Obj(g))
    ensures |f| == |g|
  {
    JsonOrder.NormDecidesSame(Obj(f), Obj(g));
    JsonOrder.NormValuesAt(f);
    JsonOrder.NormValuesAt(g);
    JsonOrder.SortKeeps(JsonOrder.NormValues(f));
    JsonOrder.SortKeeps(JsonOrder.NormValues(g));
  }

  lemma SameReversed(v: Json, w: Json)
    requires Proper(v) && Proper(w)
    ensures Same(v, w) <==> Same(w, v)
  {
    JsonOrder.NormDecidesSame(v, w);
    JsonOrder.NormDecidesSame(w, v);
  }

  /** Member order never changes the outcome, failure included; and the text gives the value back up to that order. */
  lemma CanonicalDecidesSame(v: Json, w: Json, maximum: nat)
    requires Proper(v) && Proper(w)
    ensures Canonical(v, maximum) == Canonical(w, maximum)
       <==> Same(v, w) || (Canonical(v, maximum).None? && Canonical(w, maximum).None?)
  {
    JsonOrder.PrintDecidesSame(v, w);
    SameReversed(v, w);
    if Same(v, w) {
      if Printable(v, 0, maximum) { SamePrintable(v, w, 0, maximum); }
      if Printable(w, 0, maximum) { SamePrintable(w, v, 0, maximum); }
    }
  }

  /** A collision-free digest identifies a value up to member order. */
  lemma DigestDecidesSame(h: Hash, v: Json, w: Json)
    requires Injective(h) && Proper(v) && Proper(w)
    requires Digest(h, v).Some? && Digest(h, w).Some?
    ensures Digest(h, v) == Digest(h, w) <==> Same(v, w)
  {
    CanonicalDecidesSame(v, w, DIGEST_DEPTH);
  }

  // ---------- sealing ----------

  lemma {:induction false} AssignReads(ms: seq<Pair<Json>>, key: Text, value: Json)
    ensures Lookup(Assign(ms, key, value), key) == Some(value)
    ensures Lookup(ms, key).Some? ==> |Assign(ms, key, value)| == |ms|
    ensures Lookup(ms, key).None? ==> |Assign(ms, key, value)| == |ms| + 1
  {
    if ms != [] && ms[0].key != key {
      AssignReads(ms[1..], key, value);
      assert Assign(ms, key, value)[1..] == Assign(ms[1..], key, value);
    }
  }

  lemma {:induction false} AssignWithout(ms: seq<Pair<Json>>, key: Text, value: Json)
    ensures Without(Assign(ms, key, value), key) == Without(ms, key)
  {
    if ms == [] {
      assert Assign(ms, key, value)[1..] == [];
    } else if ms[0].key == key {
      assert Assign(ms, key, value)[1..] == ms[1..];
    } else {
      AssignWithout(ms[1..], key, value);
      assert Assign(ms, key, value)[1..] == Assign(ms[1..], key, value);
    }
  }

  /** A freshly sealed object passes the seal check exactly when the new field still fits the key limit. */
  lemma SealPassesIffFits(h: Hash, ms: seq<Pair<Json>>, field: Text)
    requires Seal(h, ms, field).Some?
    ensures Sealed(h, Seal(h, ms, field).value, field)
       <==> Lookup(ms, field).Some? || |ms| < MAX_KEYS
  {
    var s := DigestWithout(h, Obj(ms), field).value;
    AssignReads(ms, field, Str(s));
    AssignWithout(ms, field, Str(s));
  }

  lemma {:induction false} WithoutProper(ms: seq<Pair<Json>>, key: Text)
    requires Proper(Obj(ms))
    ensures Proper(Obj(Without(ms, key)))
  {
    if ms != [] {
      assert Proper(Obj(ms[1..]));
      WithoutProper(ms[1..], key);
      var r := Without(ms[1..], key);
      forall i | 0 <= i < |r| ensures r[i].key != ms[0].key && Proper(r[i].value) {
        assert r[i] in ms[1..];
      }
    }
  }

  /** Two sealed objects with one digest hold the same sealed content. */
  lemma SealedContentUnique(h: Hash, f: seq<Pair<Json>>, g: seq<Pair<Json>>, field: Text)
    requires Injective(h) && Proper(Obj(f)) && Proper(Obj(g))
    requires Sealed(h, f, field) && Sealed(h, g, field) && Lookup(f, field) == Lookup(g, field)
    ensures Same(Obj(Without(f, field)), Obj(Without(g, field)))
  {
    WithoutProper(f, field);
    WithoutProper(g, field);
    CanonicalDecidesSame(Obj(Without(f, field)), Obj(Without(g, field)), DIGEST_DEPTH);
  }
}
