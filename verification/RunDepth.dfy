/**
 Which records pass the checks of the canonical text: when sealing succeeds, and on
 which records the comparison accepts the record against itself.
 */
module RunDepth {
  import opened Options
  import opened Texts
  import opened JsonText
  import opened Digests
  import opened RunContract
  import RunOrder

  // ---------- nesting depth ----------

  /** Levels below a value; an empty container has none. */
  function Depth(v: Json): nat {
    match v
    case Arr(items) => if items == [] then 0 else 1 + DepthOfItems(items)
    case Obj(ms) => if ms == [] then 0 else 1 + DepthOfMembers(ms)
    case _ => 0
  }

  function Max(a: nat, b: nat): nat { if a < b then b else a }

  function DepthOfItems(items: seq<Json>): nat {
    if items == [] then 0 else Max(Depth(items[0]), DepthOfItems(items[1..]))
  }

  function DepthOfMembers(ms: seq<Pair<Json>>): nat {
    if ms == [] then 0 else Max(Depth(ms[0].value), DepthOfMembers(ms[1..]))
  }

  lemma {:induction false} ItemsWithin(items: seq<Json>, bound: nat)
    ensures DepthOfItems(items) <= bound <==> forall i :: 0 <= i < |items| ==> Depth(items[i]) <= bound
  {
    if items != [] {
      ItemsWithin(items[1..], bound);
      assert forall i :: 0 < i < |items| ==> items[i] == items[1..][i - 1];
      assert forall i :: 0 <= i < |items[1..]| ==> items[1..][i] == items[i + 1];
    }
  }

  lemma {:induction false} MembersWithin(ms: seq<Pair<Json>>, bound: nat)
    ensures DepthOfMembers(ms) <= bound <==> forall i :: 0 <= i < |ms| ==> Depth(ms[i].value) <= bound
  {
    if ms != [] {
      MembersWithin(ms[1..], bound);
      assert forall i :: 0 < i < |ms| ==> ms[i] == ms[1..][i - 1];
      assert forall i :: 0 <= i < |ms[1..]| ==> ms[1..][i] == ms[i + 1];
    }
  }

  /** Apart from the depth limit, no check depends on where a value stands. */
  lemma {:induction false} PrintableElsewhere(v: Json, d: nat, m: nat, e: nat, n: nat)
    requires Printable(v, d, m)
    ensures Printable(v, e, n) <==> e + Depth(v) <= n
    decreases v
  {
    match v
    case Arr(items) =>
      forall i | 0 <= i < |items| ensures Printable(items[i], e + 1, n) <==> e + 1 + Depth(items[i]) <= n {
        PrintableElsewhere(items[i], d + 1, m, e + 1, n);
      }
      if e + 1 <= n { ItemsWithin(items, n - e - 1); }
    case Obj(ms) =>
      forall i | 0 <= i < |ms| ensures PrintableMember(ms[i], e + 1, n) <==> e + 1 + Depth(ms[i].value) <= n {
        assert PrintableMember(ms[i], d + 1, m);
        PrintableElsewhere(ms[i].value, d + 1, m, e + 1, n);
      }
      if e + 1 <= n { MembersWithin(ms, n - e - 1); }
    case _ =>
  }

  // ---------- the fixed parts of a record are printable ----------

  lemma {:induction false} NoSurrogates(t: Text)
    requires forall i :: 0 <= i < |t| ==> t[i] < 0xD800 || t[i] >= 0xE000
    ensures WellFormedText(t)
  {
    if t != [] { NoSurrogates(t[1..]); }
  }

  lemma LiteralWellFormed(s: string)
    ensures WellFormedText(T(s))
  {
    NoSurrogates(T(s));
  }

  function Power(k: nat): nat { if k == 0 then 1 else 10 * Power(k - 1) }

  lemma {:induction false} DigitsShort(n: nat, k: nat)
    requires k > 0 && n < Power(k)
    ensures |Digits(n)| <= k
  {
    if n >= 10 { DigitsShort(n / 10, k - 1); }
  }

  lemma StampPrintable(ms: int, depth: nat, maximum: nat)
    requires ValidStamp(ms) && depth <= maximum
    ensures Printable(Stamp(ms), depth, maximum)
  {
    var n := if ms < 0 then -ms else ms;
    assert Power(5) == 100000;
    assert Power(10) == 10000000000;
    assert Power(15) == 1000000000000000;
    DigitsShort(n, 15);
    NoSurrogates(Integer(ms));
  }

  lemma NamedPrintable(name: string, v: Json, depth: nat, maximum: nat)
    requires |name| <= MAX_KEY_LENGTH
    ensures PrintableMember(Pair(T(name), v), depth, maximum) <==> Printable(v, depth, maximum)
  {
    LiteralWellFormed(name);
  }

  lemma FourPrintable(ms: seq<Pair<Json>>, depth: nat, maximum: nat)
    requires |ms| == 4 && depth <= maximum
    ensures Printable(Obj(ms), depth, maximum)
       <==> PrintableMember(ms[0], depth + 1, maximum) && PrintableMember(ms[1], depth + 1, maximum)
            && PrintableMember(ms[2], depth + 1, maximum) && PrintableMember(ms[3], depth + 1, maximum)
  {
  }

  lemma EventPrintable(e: Event, index: nat, depth: nat, maximum: nat)
    requires index < MAX_EVENTS && ValidEvent(e, index) && depth < maximum
    ensures Printable(EventJson(e), depth, maximum) <==> depth + 1 + Depth(e.detail) <= maximum
  {
    NamedPrintable("sequence", Num(e.sequence), depth + 1, maximum);
    NamedPrintable("type", Str(e.kind), depth + 1, maximum);
    NamedPrintable("at", Stamp(e.at), depth + 1, maximum);
    NamedPrintable("detail", e.detail, depth + 1, maximum);
    NoSurrogates(e.kind);
    StampPrintable(e.at, depth + 1, maximum);
    PrintableElsewhere(e.detail, 0, COMPARE_DEPTH, depth + 1, maximum);
    FourPrintable(EventJson(e).members, depth, maximum);
  }

  /** A believed record may replace itself exactly when every event detail is less than sixteen levels deep. */
  lemma ReflexiveIffShallow(h: Hash, r: Run)
    requires Normalized(h, r)
    ensures Matches(r, r) <==> forall i :: 0 <= i < |r.events| ==> Depth(r.events[i].detail) < COMPARE_DEPTH
  {
    forall i | 0 <= i < |r.events|
      ensures SameCanonical(EventJson(r.events[i]), EventJson(r.events[i]))
              <==> Depth(r.events[i].detail) < COMPARE_DEPTH
    {
      assert ValidEvent(r.events[i], i);
      EventPrintable(r.events[i], i, 0, COMPARE_DEPTH);
    }
  }

  // ---------- sealing a record ----------

  ghost predicate ValuesPrintable(r: Run) {
    forall i :: 0 <= i < 20 ==> Printable(BodyValue(r, i), 1, DIGEST_DEPTH)
  }

  lemma BodyPrintable(r: Run)
    ensures Printable(Obj(Body(r)), 0, DIGEST_DEPTH) <==> ValuesPrintable(r)
  {
    forall i | 0 <= i < 20
      ensures PrintableMember(Body(r)[i], 1, DIGEST_DEPTH) <==> Printable(BodyValue(r, i), 1, DIGEST_DEPTH)
    {
      NamedPrintable(KeyName(i), BodyValue(r, i), 1, DIGEST_DEPTH);
    }
  }

  /** A record sealed by its own digest passes the seal check; sealing fails exactly when a value cannot be printed. */
  lemma SealRunSeals(h: Hash, r: Run)
    ensures SealRun(h, r).Some? <==> ValuesPrintable(r)
    ensures SealRun(h, r).Some? ==> Sealed(h, Fields(SealRun(h, r).value), T("runDigest"))
  {
    BodyPrintable(r);
    if SealRun(h, r).Some? {
      var s := SealRun(h, r).value;
      assert forall i :: 0 <= i < 20 ==> BodyValue(s, i) == BodyValue(r, i);
      assert Body(s) == Body(r);
      RunOrder.RunSealed(h, s);
    }
  }

  lemma ApprovalPrintable(a: Approval, depth: nat, maximum: nat)
    requires ValidApproval(a) && |a.digest| <= MAX_STRING && WellFormedText(a.digest) && depth + 1 <= maximum
    ensures Printable(ApprovalJson(a), depth, maximum)
  {
    var ms := ApprovalJson(a).members;
    NamedPrintable("digest", Str(a.digest), depth + 1, maximum);
    NamedPrintable("expiresAt", Stamp(a.expiresAt), depth + 1, maximum);
    NamedPrintable("approvedAt", OptionalStamp(a.approvedAt), depth + 1, maximum);
    StampPrintable(a.expiresAt, depth + 1, maximum);
    if a.approvedAt.Some? { StampPrintable(a.approvedAt.value, depth + 1, maximum); }
    assert forall i :: 0 <= i < |ms| ==> PrintableMember(ms[i], depth + 1, maximum);
  }

  predicate Plain(t: Text) { |t| <= 512 && WellFormedText(t) }

  /** Identifiers and digests of a record are short well-formed texts. */
  predicate PlainRecord(r: Run) {
    && Plain(r.runId) && Plain(r.capabilityId) && Plain(r.implementationId) && Plain(r.implementationDigest)
    && Plain(r.configurationId) && Plain(r.configurationDigest) && Plain(r.routeReceiptDigest)
    && Plain(r.snapshotDigest)
    && Plain(r.approval.digest)
    && (r.outcome.Some? ==> Plain(r.outcome.value.reason)
                            && (r.outcome.value.evidenceDigest.Some? ==> Plain(r.outcome.value.evidenceDigest.value)))
  }

  lemma PlainPrints(t: Text, depth: nat, maximum: nat)
    requires Plain(t) && depth <= maximum
    ensures Printable(Str(t), depth, maximum)
  {
  }

  lemma AsciiPlain(t: Text)
    requires IsAscii(t) && |t| <= 512
    ensures Plain(t)
  {
    NoSurrogates(t);
  }

  lemma ThreePrintable(ms: seq<Pair<Json>>, depth: nat, maximum: nat)
    requires |ms| == 3 && depth <= maximum
    requires PrintableMember(ms[0], depth + 1, maximum) && PrintableMember(ms[1], depth + 1, maximum)
    requires PrintableMember(ms[2], depth + 1, maximum)
    ensures Printable(Obj(ms), depth, maximum)
  {
  }

  lemma OutcomePrintable(o: Option<Outcome>)
    requires o.Some? ==> Plain(o.value.reason) && (o.value.evidenceDigest.Some? ==> Plain(o.value.evidenceDigest.value))
    ensures Printable(OutcomeJson(o), 1, DIGEST_DEPTH)
  {
    if o.Some? {
      NamedPrintable("status", Str(PhaseText(o.value.status)), 2, DIGEST_DEPTH);
      NamedPrintable("reason", Str(o.value.reason), 2, DIGEST_DEPTH);
      NamedPrintable("evidenceDigest", OptionalStr(o.value.evidenceDigest), 2, DIGEST_DEPTH);
      AsciiPlain(PhaseText(o.value.status));
      PlainPrints(PhaseText(o.value.status), 2, DIGEST_DEPTH);
      PlainPrints(o.value.reason, 2, DIGEST_DEPTH);
      if o.value.evidenceDigest.Some? { PlainPrints(o.value.evidenceDigest.value, 2, DIGEST_DEPTH); }
      ThreePrintable(OutcomeJson(o).members, 1, DIGEST_DEPTH);
    }
  }

  lemma EventsPrintable(es: seq<Event>)
    requires |es| <= MAX_EVENTS && forall i :: 0 <= i < |es| ==> ValidEvent(es[i], i)
    ensures Printable(Arr(EventsJson(es)), 1, DIGEST_DEPTH)
  {
    forall i | 0 <= i < |es| ensures Printable(EventsJson(es)[i], 2, DIGEST_DEPTH) {
      EventPrintable(es[i], i, 2, DIGEST_DEPTH);
      PrintableElsewhere(es[i].detail, 0, COMPARE_DEPTH, 0, COMPARE_DEPTH);
    }
  }

  ghost predicate CheckedRecord(r: Run) {
    && PlainRecord(r) && 0 <= r.revision <= MAX_SAFE_INTEGER && JsonObject(r.inputs) && ValidApproval(r.approval)
    && ValidStamp(r.createdAt) && ValidStamp(r.updatedAt)
    && |r.events| <= MAX_EVENTS && forall i :: 0 <= i < |r.events| ==> ValidEvent(r.events[i], i)
  }

  predicate Fits(v: Json) { Printable(v, 1, DIGEST_DEPTH) }

  /** A property of every value of a record, from the values one by one. */
  lemma AllValues(r: Run, p: Json -> bool)
    requires p(Str(T("physicalsystems-run-v1"))) && p(Str(r.runId)) && p(Num(r.revision)) && p(Str(PhaseText(r.phase)))
    requires p(Str(StopText(r.stopStatus))) && p(Str(ModeText(r.mode))) && p(Str(r.capabilityId))
    requires p(Str(r.implementationId)) && p(Str(r.implementationDigest)) && p(Str(r.configurationId))
    requires p(Str(r.configurationDigest)) && p(Str(r.routeReceiptDigest)) && p(r.inputs) && p(Str(r.snapshotDigest))
    requires p(ApprovalJson(r.approval)) && p(Stamp(r.createdAt)) && p(Stamp(r.updatedAt))
    requires p(Arr(EventsJson(r.events))) && p(OutcomeJson(r.outcome)) && p(Bool(false))
    ensures forall i :: 0 <= i < 20 ==> p(BodyValue(r, i))
  {
  }

  lemma PlainFits(t: Text)
    requires Plain(t) || (IsAscii(t) && |t| <= 512)
    ensures Fits(Str(t))
  {
    if IsAscii(t) { NoSurrogates(t); }
    PlainPrints(t, 1, DIGEST_DEPTH);
  }

  /** Checked parts make a printable, so sealable, record. */
  lemma RecordPrints(r: Run)
    requires CheckedRecord(r)
    ensures ValuesPrintable(r)
  {
    PlainFits(T("physicalsystems-run-v1"));
    PlainFits(PhaseText(r.phase));
    PlainFits(StopText(r.stopStatus));
    PlainFits(ModeText(r.mode));
    PlainFits(r.runId);
    PlainFits(r.capabilityId);
    PlainFits(r.implementationId);
    PlainFits(r.implementationDigest);
    PlainFits(r.configurationId);
    PlainFits(r.configurationDigest);
    PlainFits(r.routeReceiptDigest);
    PlainFits(r.snapshotDigest);
    RestFits(r);
    var fits := v => Printable(v, 1, DIGEST_DEPTH);
    AllValues(r, fits);
    assert forall i :: 0 <= i < 20 ==> fits(BodyValue(r, i));
  }

  lemma RestFits(r: Run)
    requires CheckedRecord(r)
    ensures Fits(r.inputs) && Fits(ApprovalJson(r.approval)) && Fits(Stamp(r.createdAt)) && Fits(Stamp(r.updatedAt))
    ensures Fits(Arr(EventsJson(r.events))) && Fits(OutcomeJson(r.outcome)) && Fits(Bool(false))
            && Fits(Num(r.revision))
  {
    PrintableElsewhere(r.inputs, 0, COMPARE_DEPTH, 0, COMPARE_DEPTH);
    PrintableElsewhere(r.inputs, 0, COMPARE_DEPTH, 1, DIGEST_DEPTH);
    ApprovalPrintable(r.approval, 1, DIGEST_DEPTH);
    StampPrintable(r.createdAt, 1, DIGEST_DEPTH);
    StampPrintable(r.updatedAt, 1, DIGEST_DEPTH);
    EventsPrintable(r.events);
    OutcomePrintable(r.outcome);
  }

  /** Everything a record must satisfy before it is sealed. */
  ghost predicate Acceptable(r: Run) {
    && CheckedRecord(r) && ProperRun(r) && r.createdAt <= r.updatedAt && ValidOutcome(r)
    && (NeedsApproval(r.phase) ==> r.approval.approvedAt.Some?)
    && (r.phase.WaitingForApproval? ==> r.approval.approvedAt.None?)
  }

  /** Sealing an acceptable record succeeds and makes it one that is believed. */
  lemma SealingBelieved(h: Hash, r: Run)
    requires Acceptable(r)
    ensures SealRun(h, r).Some? && Normalized(h, SealRun(h, r).value)
  {
    RecordPrints(r);
    SealRunSeals(h, r);
  }

  // ---------- a believed record that cannot replace itself ----------

  function Nest(levels: nat): Json {
    Obj(if levels == 0 then [] else [Pair(T("d"), Nest(levels - 1))])
  }

  lemma {:induction false} NestShape(levels: nat, depth: nat, maximum: nat)
    requires depth + levels <= maximum
    ensures Depth(Nest(levels)) == levels && Proper(Nest(levels)) && Printable(Nest(levels), depth, maximum)
    ensures |Print(Nest(levels))| == 6 * levels + 2
  {
    if levels > 0 {
      var inner := Nest(levels - 1);
      NestShape(levels - 1, depth + 1, maximum);
      NamedPrintable("d", inner, depth + 1, maximum);
      var ms := Nest(levels).members;
      assert ms[1..] == [] && DepthOfMembers(ms) == Max(Depth(inner), 0);
      assert PrintValues(ms) == [Pair(T("d"), Print(inner))] by { assert ms[1..] == []; }
      assert SortByKey(PrintValues(ms)) == PrintValues(ms) by { assert PrintValues(ms)[1..] == []; }
      assert Members(PrintValues(ms)) == [Member(PrintValues(ms)[0])] by { assert PrintValues(ms)[1..] == []; }
      assert EscapeAll(T("d")) == Escape(0x64) by { assert T("d")[0] == 0x64 && EscapeAll(T("d")[1..]) == []; }
    }
  }

  lemma {:induction false} Utf8AtMostThrice(t: Text)
    ensures Utf8Length(t) <= 3 * |t|
  {
    if t == [] {
    } else if StartsWithPair(t) {
      Utf8AtMostThrice(t[2..]);
    } else {
      Utf8AtMostThrice(t[1..]);
    }
  }

  /** Every identifier and digest of the record has the form the contract asks for. */
  predicate WellShaped(r: Run) {
    && IsRunId(r.runId) && IsId(r.capabilityId) && IsId(r.implementationId) && IsId(r.configurationId)
    && IsHash(r.implementationDigest) && IsHash(r.configurationDigest) && IsHash(r.routeReceiptDigest)
    && IsHash(r.snapshotDigest)
    && IsHash(r.approval.digest) && IsHash(r.runDigest)
    && (r.outcome.Some? && r.outcome.value.evidenceDigest.Some? ==> IsHash(r.outcome.value.evidenceDigest.value))
  }

  /** The hash spells its digests the way the contract asks for. */
  ghost predicate HexHash(h: Hash) { forall t :: IsHash(h(t)) }

  /** A prepared run whose one event detail has a given depth. */
  function DeepRun(levels: nat): Run {
    var id, digest := T("a"), HexText("sha256:", 0x30, 64);
    Run(HexText("run-", 0x30, 32), Simulation, id, id, digest, id, digest, digest, digest, Obj([]),
        Approval(digest, 0, None), 0,
        1, WaitingForApproval, NotRequested, 0, [Event(1, id, 0, Nest(levels))], None, digest)
  }

  lemma DeepRunValid(levels: nat)
    requires levels <= COMPARE_DEPTH
    ensures JsonObject(Nest(levels)) && Proper(Nest(levels)) && Depth(Nest(levels)) == levels
  {
    NestShape(levels, 0, COMPARE_DEPTH);
    Utf8AtMostThrice(Print(Nest(levels)));
  }

  lemma DeepRunAcceptable(levels: nat)
    requires levels <= COMPARE_DEPTH
    ensures Acceptable(DeepRun(levels)) && Depth(DeepRun(levels).events[0].detail) == levels
  {
    DeepRunValid(levels);
    DeepRunValid(0);
    AsciiPlain(T("a"));
    AsciiPlain(HexText("run-", 0x30, 32));
    AsciiPlain(HexText("sha256:", 0x30, 64));
    assert T("a")[0] == 0x61;
  }

  lemma DeepRunShaped(levels: nat)
    ensures WellShaped(DeepRun(levels))
  {
    assert T("a")[0] == 0x61;
  }

  /** At exactly sixteen levels a record of the right form is believed, yet the comparison rejects it against itself. */
  lemma NotAlwaysReflexive(h: Hash)
    requires HexHash(h)
    ensures exists r :: WellShaped(r) && Normalized(h, r) && !Matches(r, r)
  {
    var deep := DeepRun(COMPARE_DEPTH);
    DeepRunAcceptable(COMPARE_DEPTH);
    DeepRunShaped(COMPARE_DEPTH);
    hide DeepRun, IsHash, IsRunId, IsId, Body, Acceptable, Matches, Normalized;
    SealingBelieved(h, deep);
    var r := SealRun(h, deep).value;
    ReflexiveIffShallow(h, r);
    assert WellShaped(r) && Normalized(h, r) && !Matches(r, r);
  }
}
