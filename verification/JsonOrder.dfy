/**
 Sorting the members of every object gives a normal form: two values have the same one
 exactly when they differ only in the order of members, and the canonical text is its
 serialization.
 */
module JsonOrder {
  import opened Texts
  import opened JsonText
  import opened JsonReading

  // ---------- sorting by key ----------

  ghost predicate Sorted<T>(ps: seq<Pair<T>>) {
    forall i, j :: 0 <= i < j < |ps| ==> Before(ps[i].key, ps[j].key)
  }

  ghost predicate SameElements<T>(a: seq<Pair<T>>, b: seq<Pair<T>>) {
    AllIn(a, b) && AllIn(b, a)
  }

  ghost predicate AllIn<T>(a: seq<Pair<T>>, b: seq<Pair<T>>) {
    forall i :: 0 <= i < |a| ==> a[i] in b
  }

  lemma {:induction false} InsertKeeps<T>(p: Pair<T>, ps: seq<Pair<T>>)
    ensures |Insert(p, ps)| == |ps| + 1
    ensures forall x :: x in Insert(p, ps) <==> x == p || x in ps
  {
    if !(ps == [] || Before(p.key, ps[0].key)) {
      InsertKeeps(p, ps[1..]);
      assert ps == [ps[0]] + ps[1..];
    }
  }

  ghost function At<T>(ps: seq<Pair<T>>, p: Pair<T>): (i: nat)
    requires p in ps
    ensures i < |ps| && ps[i] == p
  {
    var i :| 0 <= i < |ps| && ps[i] == p;
    i
  }

  lemma {:induction false} InsertSorts<T>(p: Pair<T>, ps: seq<Pair<T>>)
    requires Sorted(ps)
    requires forall i :: 0 <= i < |ps| ==> ps[i].key != p.key
    ensures Sorted(Insert(p, ps))
  {
    if ps == [] {
    } else if Before(p.key, ps[0].key) {
      forall j | 0 < j < |ps| ensures Before(p.key, ps[j].key) {
        KeyOrderIsTotal(p.key, ps[0].key, ps[j].key);
      }
    } else {
      KeyOrderIsTotal(p.key, ps[0].key, p.key);
      InsertSorts(p, ps[1..]);
      InsertKeeps(p, ps[1..]);
      var r := Insert(p, ps[1..]);
      forall j | 0 <= j < |r| ensures Before(ps[0].key, r[j].key) {
        if r[j] != p { var k := At(ps[1..], r[j]); assert ps[k + 1] == r[j]; }
      }
    }
  }

  lemma {:induction false} SortKeeps<T>(ps: seq<Pair<T>>)
    ensures |SortByKey(ps)| == |ps|
    ensures forall x :: x in SortByKey(ps) <==> x in ps
  {
    if ps != [] {
      SortKeeps(ps[1..]);
      InsertKeeps(ps[0], SortByKey(ps[1..]));
      assert ps == [ps[0]] + ps[1..];
    }
  }

  lemma {:induction false} SortSorts<T>(ps: seq<Pair<T>>)
    requires DistinctKeys(ps)
    ensures Sorted(SortByKey(ps))
  {
    if ps != [] {
      SortSorts(ps[1..]);
      SortKeeps(ps[1..]);
      var r := SortByKey(ps[1..]);
      forall i | 0 <= i < |r| ensures r[i].key != ps[0].key {
        var k := At(ps[1..], r[i]);
        assert ps[k + 1] == r[i];
      }
      InsertSorts(ps[0], r);
    }
  }

  lemma SortedHeads<T>(a: seq<Pair<T>>, b: seq<Pair<T>>)
    requires Sorted(a) && Sorted(b) && SameElements(a, b) && a != [] && b != []
    ensures a[0] == b[0]
  {
    assert a[0] in b && b[0] in a;
    if a[0] != b[0] {
      KeyOrderIsTotal(a[0].key, b[0].key, a[0].key);
    }
  }

  lemma SortedTails<T>(a: seq<Pair<T>>, b: seq<Pair<T>>)
    requires Sorted(a) && Sorted(b) && a != [] && b != [] && a[0] == b[0]
    requires forall i :: 0 <= i < |a| ==> a[i] in b
    ensures forall i :: 0 <= i < |a[1..]| ==> a[1..][i] in b[1..]
  {
    forall i | 0 <= i < |a[1..]| ensures a[1..][i] in b[1..] {
      var k := At(b, a[i + 1]);
      KeyOrderIsTotal(a[0].key, a[i + 1].key, a[0].key);
      assert b[1..][k - 1] == a[i + 1];
    }
  }

  /** A set of members with distinct keys has one sorted arrangement, whatever the sorting algorithm. */
  lemma {:induction false} SortedUnique<T>(a: seq<Pair<T>>, b: seq<Pair<T>>)
    requires Sorted(a) && Sorted(b) && SameElements(a, b)
    ensures a == b
  {
    assert a != [] ==> a[0] in b;
    assert b != [] ==> b[0] in a;
    if a != [] {
      SortedHeads(a, b);
      SortedTails(a, b);
      SortedTails(b, a);
      SortedUnique(a[1..], b[1..]);
      assert a == [a[0]] + a[1..] && b == [b[0]] + b[1..];
    }
  }

  // ---------- normal form ----------

  function Norm(v: Json): Json {
    match v
    case Arr(items) => Arr(NormItems(items))
    case Obj(ms) => Obj(SortByKey(NormValues(ms)))
    case _ => v
  }

  function NormItems(items: seq<Json>): seq<Json> {
    if items == [] then [] else [Norm(items[0])] + NormItems(items[1..])
  }

  function NormValues(ms: seq<Pair<Json>>): seq<Pair<Json>> {
    if ms == [] then [] else [Pair(ms[0].key, Norm(ms[0].value))] + NormValues(ms[1..])
  }

  lemma {:induction false} NormItemsAt(items: seq<Json>)
    ensures |NormItems(items)| == |items|
    ensures forall i :: 0 <= i < |items| ==> NormItems(items)[i] == Norm(items[i])
  {
    if items != [] { NormItemsAt(items[1..]); }
  }

  lemma {:induction false} NormValuesAt(ms: seq<Pair<Json>>)
    ensures |NormValues(ms)| == |ms|
    ensures forall i :: 0 <= i < |ms| ==> NormValues(ms)[i] == Pair(ms[i].key, Norm(ms[i].value))
  {
    if ms != [] { NormValuesAt(ms[1..]); }
  }

  function SerialValues(ms: seq<Pair<Json>>): seq<Pair<Text>> {
    if ms == [] then [] else [Pair(ms[0].key, Serial(ms[0].value))] + SerialValues(ms[1..])
  }

  lemma {:induction false} InsertCommutes(p: Pair<Json>, ms: seq<Pair<Json>>)
    ensures SerialValues(Insert(p, ms)) == Insert(Pair(p.key, Serial(p.value)), SerialValues(ms))
  {
    if ms == [] {
    } else if Before(p.key, ms[0].key) {
      assert ([p] + ms)[1..] == ms;
    } else {
      InsertCommutes(p, ms[1..]);
      assert ([ms[0]] + Insert(p, ms[1..]))[1..] == Insert(p, ms[1..]);
    }
  }

  lemma {:induction false} SortCommutes(ms: seq<Pair<Json>>)
    ensures SerialValues(SortByKey(ms)) == SortByKey(SerialValues(ms))
  {
    if ms != [] {
      SortCommutes(ms[1..]);
      InsertCommutes(ms[0], SortByKey(ms[1..]));
    }
  }

  lemma {:induction false} SerialMembersJoin(ms: seq<Pair<Json>>)
    ensures SerialMembers(ms) == Join(Members(SerialValues(ms)))
    ensures |Members(SerialValues(ms))| == |ms|
  {
    if ms != [] {
      SerialMembersJoin(ms[1..]);
      assert Members(SerialValues(ms))[1..] == Members(SerialValues(ms[1..]));
    }
  }

  lemma {:induction false} SerialItemsJoin(items: seq<Json>)
    ensures SerialItems(NormItems(items)) == Join(PrintItems(items))
    ensures |PrintItems(items)| == |items|
    decreases items, 0
  {
    NormItemsAt(items);
    if items != [] {
      SerialItemsJoin(items[1..]);
      PrintIsSerial(items[0]);
      assert NormItems(items)[1..] == NormItems(items[1..]);
      assert PrintItems(items)[1..] == PrintItems(items[1..]);
    }
  }

  lemma {:induction false} PrintValuesSerial(ms: seq<Pair<Json>>)
    ensures PrintValues(ms) == SerialValues(NormValues(ms))
    decreases ms, 0
  {
    if ms != [] {
      PrintValuesSerial(ms[1..]);
      PrintIsSerial(ms[0].value);
      assert NormValues(ms)[1..] == NormValues(ms[1..]);
    }
  }

  /** Sorting while printing is printing the sorted value. */
  lemma {:induction false} PrintIsSerial(v: Json)
    ensures Print(v) == Serial(Norm(v))
    decreases v, 1
  {
    match v
    case Arr(items) =>
      SerialItemsJoin(items);
    case Obj(ms) =>
      PrintValuesSerial(ms);
      SortCommutes(NormValues(ms));
      SerialMembersJoin(SortByKey(NormValues(ms)));
    case _ =>
  }

  ghost predicate NormMatch(p: Pair<Json>, q: Pair<Json>) {
    p.key == q.key && Norm(p.value) == Norm(q.value)
  }

  ghost predicate NormsIn(f: seq<Pair<Json>>, g: seq<Pair<Json>>) {
    forall i :: 0 <= i < |f| ==> HasNorm(f[i], g)
  }

  ghost predicate HasNorm(p: Pair<Json>, g: seq<Pair<Json>>) {
    exists j :: 0 <= j < |g| && NormMatch(p, g[j])
  }

  lemma NormsInElements(f: seq<Pair<Json>>, g: seq<Pair<Json>>)
    ensures NormsIn(f, g) <==> AllIn(NormValues(f), NormValues(g))
  {
    var nf, ng := NormValues(f), NormValues(g);
    NormValuesAt(f);
    NormValuesAt(g);
    forall i | 0 <= i < |f| ensures nf[i] in ng <==> HasNorm(f[i], g) {
      NormInAt(f[i], g);
    }
  }

  lemma NormInAt(p: Pair<Json>, g: seq<Pair<Json>>)
    ensures Pair(p.key, Norm(p.value)) in NormValues(g) <==> HasNorm(p, g)
  {
    NormValuesAt(g);
    var q, ng := Pair(p.key, Norm(p.value)), NormValues(g);
    assert forall j :: 0 <= j < |g| ==> (ng[j] == q <==> NormMatch(p, g[j]));
  }

  lemma SortArrangement(f: seq<Pair<Json>>, g: seq<Pair<Json>>)
    requires DistinctKeys(f) && DistinctKeys(g)
    ensures SameElements(f, g) <==> SortByKey(f) == SortByKey(g)
  {
    SortKeeps(f);
    SortKeeps(g);
    SortSorts(f);
    SortSorts(g);
    var a, b := SortByKey(f), SortByKey(g);
    if SameElements(f, g) {
      forall i | 0 <= i < |a| ensures a[i] in b { assert a[i] in f; }
      forall i | 0 <= i < |b| ensures b[i] in a { assert b[i] in g; }
      SortedUnique(a, b);
    }
    if a == b {
      forall i | 0 <= i < |f| ensures f[i] in g { assert f[i] in a; }
      forall i | 0 <= i < |g| ensures g[i] in f { assert g[i] in b; }
    }
  }

  lemma NormKeysDistinct(f: seq<Pair<Json>>)
    requires DistinctKeys(f)
    ensures DistinctKeys(NormValues(f))
  {
    NormValuesAt(f);
  }

  lemma NormOfObjects(f: seq<Pair<Json>>, g: seq<Pair<Json>>)
    requires DistinctKeys(f) && DistinctKeys(g)
    ensures Norm(Obj(f)) == Norm(Obj(g)) <==> NormsIn(f, g) && NormsIn(g, f)
  {
    NormKeysDistinct(f);
    NormKeysDistinct(g);
    NormsInElements(f, g);
    NormsInElements(g, f);
    var nf, ng := NormValues(f), NormValues(g);
    assert SameElements(nf, ng) <==> NormsIn(f, g) && NormsIn(g, f);
    SortArrangement(nf, ng);
    assert Norm(Obj(f)) == Obj(SortByKey(nf)) && Norm(Obj(g)) == Obj(SortByKey(ng));
  }

  lemma NormOfArrays(a: seq<Json>, b: seq<Json>)
    ensures Norm(Arr(a)) == Norm(Arr(b)) <==> |a| == |b| && forall i :: 0 <= i < |a| ==> Norm(a[i]) == Norm(b[i])
  {
    NormItemsAt(a);
    NormItemsAt(b);
  }

  lemma {:induction false} NormDecidesSame(v: Json, w: Json)
    requires Proper(v) && Proper(w)
    ensures Norm(v) == Norm(w) <==> Same(v, w)
    decreases v, 1
  {
    match v
    case Arr(a) => if w.Arr? { ArraysDecide(a, w.items); }
    case Obj(f) => if w.Obj? { ObjectsDecide(f, w.members); }
    case _ =>
  }

  lemma {:induction false} ArraysDecide(a: seq<Json>, b: seq<Json>)
    requires Proper(Arr(a)) && Proper(Arr(b))
    ensures Norm(Arr(a)) == Norm(Arr(b)) <==> Same(Arr(a), Arr(b))
    decreases a, 0
  {
    NormOfArrays(a, b);
    forall i | 0 <= i < |a| && i < |b| ensures Norm(a[i]) == Norm(b[i]) <==> Same(a[i], b[i]) {
      NormDecidesSame(a[i], b[i]);
    }
  }

  lemma AgreeingMember(p: Pair<Json>, g: seq<Pair<Json>>)
    requires forall j :: 0 <= j < |g| ==> (NormMatch(p, g[j]) <==> (p.key == g[j].key && Same(p.value, g[j].value)))
    ensures HasSame(p, g) <==> HasNorm(p, g)
  {
  }

  lemma AgreeingBack(f: seq<Pair<Json>>, q: Pair<Json>)
    requires forall i :: 0 <= i < |f| ==> (NormMatch(q, f[i]) <==> (f[i].key == q.key && Same(f[i].value, q.value)))
    ensures IsSame(f, q) <==> HasNorm(q, f)
  {
  }

  lemma {:induction false} ObjectsDecide(f: seq<Pair<Json>>, g: seq<Pair<Json>>)
    requires Proper(Obj(f)) && Proper(Obj(g))
    ensures Norm(Obj(f)) == Norm(Obj(g)) <==> Same(Obj(f), Obj(g))
    decreases f, 0
  {
    forall i | 0 <= i < |f| ensures HasSame(f[i], g) <==> HasNorm(f[i], g) {
      forall j | 0 <= j < |g| ensures NormMatch(f[i], g[j])
          <==> (f[i].key == g[j].key && Same(f[i].value, g[j].value)) {
        NormDecidesSame(f[i].value, g[j].value);
      }
      AgreeingMember(f[i], g);
    }
    forall j | 0 <= j < |g| ensures IsSame(f, g[j]) <==> HasNorm(g[j], f) {
      forall i | 0 <= i < |f| ensures NormMatch(g[j], f[i])
          <==> (f[i].key == g[j].key && Same(f[i].value, g[j].value)) {
        NormDecidesSame(f[i].value, g[j].value);
      }
      AgreeingBack(f, g[j]);
    }
    NormOfObjects(f, g);
  }

  /** Two values print alike exactly when they are equal up to the order of object members. */
  lemma PrintDecidesSame(v: Json, w: Json)
    requires Proper(v) && Proper(w)
    ensures Print(v) == Print(w) <==> Same(v, w)
  {
    PrintIsSerial(v);
    PrintIsSerial(w);
    NormDecidesSame(v, w);
    if Print(v) == Print(w) {
      SerialReads(Norm(v), Norm(w), [], []);
    }
  }
}
