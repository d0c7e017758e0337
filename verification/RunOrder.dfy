/**
 "May replace" orders the believed records of a run: transitive always, antisymmetric
 because the digest seals the record, and reflexive exactly on records whose event
 details leave room for the extra level the comparison adds.
 */
module RunOrder {
  import opened Options
  import opened Texts
  import opened JsonText
  import opened Digests
  import opened RunContract
  import JsonReading

  // ---------- the sealed body ----------

  /** A field name's place in the record, read off its length and one letter. */
  function Position(s: Text): int {
    match |s|
    case 15 => if s[14] == 0x6e then 0 else 9
    case 5 => if s[0] == 0x72 then 1 else 3
    case 8 => if s[0] == 0x72 then 2 else 14
    case 10 => 4
    case 4 => 5
    case 12 => 6
    case 16 => 7
    case 20 => 8
    case 19 => 10
    case 18 => 11
    case 6 => if s[0] == 0x69 then 12 else 17
    case 14 => 13
    case 9 => if s[0] == 0x63 then 15 else if s[0] == 0x75 then 16 else 20
    case 7 => 18
    case _ => 19
  }

  lemma KeyNamesDiffer(place: nat)
    requires place < 20
    ensures Position(T(KeyName(place))) == place
  {
  }

  lemma BodyKeysAre(r: Run)
    ensures |Body(r)| == 20
    ensures forall i :: 0 <= i < 20 ==> Body(r)[i].key == T(KeyName(i))
  {
  }

  lemma BodyKeysDistinct(r: Run)
    ensures DistinctKeys(Body(r))
    ensures forall i :: 0 <= i < |Body(r)| ==> Body(r)[i].key != T("runDigest")
  {
    BodyKeysAre(r);
    assert Position(T("runDigest")) == 20;
    forall i | 0 <= i < 20 ensures Position(Body(r)[i].key) == i { KeyNamesDiffer(i); }
  }

  lemma {:induction false} LookupLast(ms: seq<Pair<Json>>, key: Text, value: Json)
    requires forall i :: 0 <= i < |ms| ==> ms[i].key != key
    ensures Lookup(ms + [Pair(key, value)], key) == Some(value)
    ensures Without(ms + [Pair(key, value)], key) == ms
  {
    var all := ms + [Pair(key, value)];
    if ms == [] {
      assert all[1..] == [];
    } else {
      assert all[1..] == ms[1..] + [Pair(key, value)];
      LookupLast(ms[1..], key, value);
    }
  }

  /** The seal of a run is the digest of its body. */
  lemma RunSealed(h: Hash, r: Run)
    ensures Sealed(h, Fields(r), T("runDigest")) <==> Digest(h, Obj(Body(r))) == Some(r.runDigest)
  {
    BodyKeysDistinct(r);
    LookupLast(Body(r), T("runDigest"), Str(r.runDigest));
    assert |Fields(r)| == 21;
  }

  lemma EventProper(e: Event)
    requires Proper(e.detail)
    ensures Proper(EventJson(e))
  {
    assert T("sequence")[0] == 0x73 && T("type")[0] == 0x74 && T("at")[0] == 0x61 && T("detail")[0] == 0x64;
    assert DistinctKeys(EventJson(e).members);
  }

  lemma ApprovalProper(a: Approval)
    ensures Proper(ApprovalJson(a))
  {
    assert T("digest")[0] == 0x64 && T("expiresAt")[0] == 0x65 && T("approvedAt")[0] == 0x61;
    assert DistinctKeys(ApprovalJson(a).members);
  }

  lemma OutcomeProper(o: Option<Outcome>)
    ensures Proper(OutcomeJson(o))
  {
    if o.Some? {
      assert T("status")[0] == 0x73 && T("reason")[0] == 0x72 && T("evidenceDigest")[0] == 0x65;
      assert DistinctKeys(OutcomeJson(o).members);
    }
  }

  lemma BodyProper(r: Run)
    requires ProperRun(r)
    ensures Proper(Obj(Body(r)))
  {
    BodyKeysDistinct(r);
    ApprovalProper(r.approval);
    OutcomeProper(r.outcome);
    assert Proper(Arr(EventsJson(r.events))) by {
      forall i | 0 <= i < |r.events| ensures Proper(EventsJson(r.events)[i]) { EventProper(r.events[i]); }
    }
    assert forall i :: 0 <= i < 20 ==> Body(r)[i].value == BodyValue(r, i);
    assert forall i :: 0 <= i < 20 ==> Proper(BodyValue(r, i));
  }

  // ---------- equal bodies, equal runs ----------

  /** Objects listing the same distinct keys in the same places agree place by place. */
  lemma SameAligned(f: seq<Pair<Json>>, g: seq<Pair<Json>>)
    requires Same(Obj(f), Obj(g)) && DistinctKeys(g) && |f| == |g|
    requires forall i :: 0 <= i < |f| ==> f[i].key == g[i].key
    ensures forall i :: 0 <= i < |f| ==> Same(f[i].value, g[i].value)
  {
    forall i | 0 <= i < |f| ensures Same(f[i].value, g[i].value) {
      assert HasSame(f[i], g);
      var j :| 0 <= j < |g| && f[i].key == g[j].key && Same(f[i].value, g[j].value);
      assert j == i;
    }
  }

  lemma IntegerInjective(m: int, n: int)
    requires Integer(m) == Integer(n)
    ensures m == n
  {
    assert Integer(m) + [] == Integer(n) + [];
    JsonReading.IntegerReads(m, n, [], []);
  }

  lemma StampInjective(m: int, n: int)
    requires Same(Stamp(m), Stamp(n))
    ensures m == n
  {
    IntegerInjective(m, n);
  }

  lemma PhaseTextInjective(p: Phase, q: Phase)
    requires PhaseText(p) == PhaseText(q)
    ensures p == q
  {
    assert |PhaseText(p)| == |PhaseText(q)| && PhaseText(p)[0] == PhaseText(q)[0];
  }

  lemma StopTextInjective(p: StopStatus, q: StopStatus)
    requires StopText(p) == StopText(q)
    ensures p == q
  {
    assert |StopText(p)| == |StopText(q)| && StopText(p)[5] == StopText(q)[5];
  }

  lemma ModeTextInjective(p: Mode, q: Mode)
    requires ModeText(p) == ModeText(q)
    ensures p == q
  {
    assert |ModeText(p)| == |ModeText(q)|;
  }

  ghost predicate EventValues(f: seq<Pair<Json>>, e: Event) {
    |f| == 4 && f[0].value == Num(e.sequence) && f[1].value == Str(e.kind) && f[2].value == Stamp(e.at)
        && f[3].value == e.detail
  }

  ghost predicate Aligned(f: seq<Pair<Json>>, g: seq<Pair<Json>>) {
    && |f| == |g| && DistinctKeys(g)
    && forall i :: 0 <= i < |f| ==> f[i].key == g[i].key
  }

  lemma EventFromValues(f: seq<Pair<Json>>, g: seq<Pair<Json>>, a: Event, b: Event)
    requires Same(Obj(f), Obj(g)) && Aligned(f, g) && EventValues(f, a) && EventValues(g, b)
    ensures SameEvent(a, b)
  {
    SameAligned(f, g);
    assert Same(f[0].value, g[0].value) && Same(f[1].value, g[1].value) && Same(f[2].value, g[2].value)
           && Same(f[3].value, g[3].value);
    StampInjective(a.at, b.at);
  }

  lemma SameEventJson(a: Event, b: Event)
    requires Same(EventJson(a), EventJson(b))
    ensures SameEvent(a, b)
  {
    EventShape(a, b);
    EventFromValues(EventJson(a).members, EventJson(b).members, a, b);
  }

  lemma EventShape(a: Event, b: Event)
    ensures EventJson(a).Obj? && EventJson(b).Obj? && Aligned(EventJson(a).members, EventJson(b).members)
    ensures EventValues(EventJson(a).members, a) && EventValues(EventJson(b).members, b)
  {
    assert T("sequence")[0] == 0x73 && T("type")[0] == 0x74 && T("at")[0] == 0x61 && T("detail")[0] == 0x64;
  }

  ghost predicate ApprovalValues(f: seq<Pair<Json>>, a: Approval) {
    |f| == 3 && f[0].value == Str(a.digest) && f[1].value == Stamp(a.expiresAt)
        && f[2].value == OptionalStamp(a.approvedAt)
  }

  lemma ApprovalFromValues(f: seq<Pair<Json>>, g: seq<Pair<Json>>, a: Approval, b: Approval)
    requires Same(Obj(f), Obj(g)) && Aligned(f, g) && ApprovalValues(f, a) && ApprovalValues(g, b)
    ensures a == b
  {
    SameAligned(f, g);
    assert Same(f[0].value, g[0].value) && Same(f[1].value, g[1].value) && Same(f[2].value, g[2].value);
    StampInjective(a.expiresAt, b.expiresAt);
    if a.approvedAt.Some? { StampInjective(a.approvedAt.value, b.approvedAt.value); }
  }

  lemma ApprovalShape(a: Approval, b: Approval)
    ensures Aligned(ApprovalJson(a).members, ApprovalJson(b).members)
    ensures ApprovalValues(ApprovalJson(a).members, a) && ApprovalValues(ApprovalJson(b).members, b)
  {
    assert T("digest")[0] == 0x64 && T("expiresAt")[0] == 0x65 && T("approvedAt")[0] == 0x61;
  }

  lemma SameApprovalJson(a: Approval, b: Approval)
    requires Same(ApprovalJson(a), ApprovalJson(b))
    ensures a == b
  {
    ApprovalShape(a, b);
    ApprovalFromValues(ApprovalJson(a).members, ApprovalJson(b).members, a, b);
  }

  ghost predicate OutcomeValues(f: seq<Pair<Json>>, o: Outcome) {
    |f| == 3 && f[0].value == Str(PhaseText(o.status)) && f[1].value == Str(o.reason)
        && f[2].value == OptionalStr(o.evidenceDigest)
  }

  lemma OutcomeFromValues(f: seq<Pair<Json>>, g: seq<Pair<Json>>, a: Outcome, b: Outcome)
    requires Same(Obj(f), Obj(g)) && Aligned(f, g) && OutcomeValues(f, a) && OutcomeValues(g, b)
    ensures a == b
  {
    SameAligned(f, g);
    assert Same(f[0].value, g[0].value) && Same(f[1].value, g[1].value) && Same(f[2].value, g[2].value);
    PhaseTextInjective(a.status, b.status);
  }

  lemma SameOutcomeJson(a: Option<Outcome>, b: Option<Outcome>)
    requires Same(OutcomeJson(a), OutcomeJson(b))
    ensures a == b
  {
    if a.Some? {
      OutcomeShape(a.value, b.value);
      OutcomeFromValues(OutcomeJson(a).members, OutcomeJson(b).members, a.value, b.value);
    }
  }

  lemma OutcomeShape(a: Outcome, b: Outcome)
    ensures Aligned(OutcomeJson(Some(a)).members, OutcomeJson(Some(b)).members)
    ensures OutcomeValues(OutcomeJson(Some(a)).members, a) && OutcomeValues(OutcomeJson(Some(b)).members, b)
  {
    assert T("status")[0] == 0x73 && T("reason")[0] == 0x72 && T("evidenceDigest")[0] == 0x65;
  }

  lemma SameEventsJson(a: seq<Event>, b: seq<Event>)
    requires Same(Arr(EventsJson(a)), Arr(EventsJson(b)))
    ensures |a| == |b| && forall i :: 0 <= i < |a| ==> SameEvent(a[i], b[i])
  {
    var x, y := EventsJson(a), EventsJson(b);
    assert |x| == |a| && |y| == |b|;
    forall i | 0 <= i < |a| ensures SameEvent(a[i], b[i]) {
      assert Same(x[i], y[i]);
      SameEventJson(a[i], b[i]);
    }
  }

  lemma IdentityFromValues(a: Run, b: Run)
    requires forall i :: 0 <= i < 20 ==> Same(BodyValue(a, i), BodyValue(b, i))
    ensures SameIdentity(a, b) && a.revision == b.revision && a.phase == b.phase && a.stopStatus == b.stopStatus
  {
    assert Same(BodyValue(a, 1), BodyValue(b, 1)) && Same(BodyValue(a, 2), BodyValue(b, 2))
           && Same(BodyValue(a, 3), BodyValue(b, 3)) && Same(BodyValue(a, 4), BodyValue(b, 4))
           && Same(BodyValue(a, 5), BodyValue(b, 5)) && Same(BodyValue(a, 6), BodyValue(b, 6));
    assert Same(BodyValue(a, 7), BodyValue(b, 7)) && Same(BodyValue(a, 8), BodyValue(b, 8))
           && Same(BodyValue(a, 9), BodyValue(b, 9)) && Same(BodyValue(a, 10), BodyValue(b, 10))
           && Same(BodyValue(a, 11), BodyValue(b, 11)) && Same(BodyValue(a, 13), BodyValue(b, 13));
    PhaseTextInjective(a.phase, b.phase);
    StopTextInjective(a.stopStatus, b.stopStatus);
    ModeTextInjective(a.mode, b.mode);
  }

  lemma RecordFromValues(a: Run, b: Run)
    requires forall i :: 0 <= i < 20 ==> Same(BodyValue(a, i), BodyValue(b, i))
    ensures Same(a.inputs, b.inputs) && a.approval == b.approval && a.createdAt == b.createdAt
            && a.updatedAt == b.updatedAt
    ensures |a.events| == |b.events| && forall i :: 0 <= i < |a.events| ==> SameEvent(a.events[i], b.events[i])
    ensures a.outcome == b.outcome
  {
    assert Same(BodyValue(a, 12), BodyValue(b, 12)) && Same(BodyValue(a, 14), BodyValue(b, 14))
           && Same(BodyValue(a, 15), BodyValue(b, 15)) && Same(BodyValue(a, 16), BodyValue(b, 16))
           && Same(BodyValue(a, 17), BodyValue(b, 17)) && Same(BodyValue(a, 18), BodyValue(b, 18));
    SameApprovalJson(a.approval, b.approval);
    StampInjective(a.createdAt, b.createdAt);
    StampInjective(a.updatedAt, b.updatedAt);
    SameEventsJson(a.events, b.events);
    SameOutcomeJson(a.outcome, b.outcome);
  }

  lemma BodyAligned(a: Run, b: Run)
    ensures Aligned(Body(a), Body(b))
  {
    BodyKeysAre(a);
    BodyKeysAre(b);
    BodyKeysDistinct(b);
  }

  lemma RunFromBodies(a: Run, b: Run)
    requires Same(Obj(Body(a)), Obj(Body(b)))
    ensures a.runDigest == b.runDigest ==> SameRun(a, b)
  {
    BodyAligned(a, b);
    SameAligned(Body(a), Body(b));
    forall i | 0 <= i < 20 ensures Same(BodyValue(a, i), BodyValue(b, i)) {
      assert Same(Body(a)[i].value, Body(b)[i].value);
    }
    IdentityFromValues(a, b);
    RecordFromValues(a, b);
  }

  /** Believed records with one digest are the same record up to member order. */
  lemma DigestIdentifiesRun(h: Hash, a: Run, b: Run)
    requires Injective(h) && Normalized(h, a) && Normalized(h, b) && a.runDigest == b.runDigest
    ensures SameRun(a, b)
  {
    RunSealed(h, a);
    RunSealed(h, b);
    BodyProper(a);
    BodyProper(b);
    DigestDecidesSame(h, Obj(Body(a)), Obj(Body(b)));
    RunFromBodies(a, b);
  }

  lemma MatchesAntisymmetric(h: Hash, a: Run, b: Run)
    requires Injective(h) && Normalized(h, a) && Normalized(h, b)
    requires Matches(a, b) && Matches(b, a)
    ensures SameRun(a, b)
  {
    DigestIdentifiesRun(h, a, b);
  }
}
