/**
 What a believed run record guarantees, field by field: normalizing accepts exactly the records
 spelled out here, sealed by the hash of the canonical text of everything but the seal.
 */
module RunBelief {
  import opened Options
  import opened Texts
  import opened JsonText
  import opened JsonOrder
  import opened JsonGrammar
  import opened Digests
  import opened Encodings
  import opened RunContract
  import opened RunDepth
  import RunOrder

  // ---------- the record as an object ----------

  /** The value of a field, by its name. */
  function Field(r: Run, name: string): Option<Json> { Lookup(Fields(r), T(name)) }

  function Inner(v: Json, name: string): Option<Json> {
    if v.Obj? then Lookup(v.members, T(name)) else None
  }

  lemma {:induction false} LookupAt(ms: seq<Pair<Json>>, i: nat)
    requires DistinctKeys(ms) && i < |ms|
    ensures Lookup(ms, ms[i].key) == Some(ms[i].value)
  {
    if i > 0 {
      assert ms[1..][i - 1] == ms[i];
      LookupAt(ms[1..], i - 1);
    }
  }

  lemma FieldAt(r: Run, place: nat)
    requires place < 20
    ensures Field(r, KeyName(place)) == Some(BodyValue(r, place))
  {
    FieldsDistinct(r);
    RunOrder.BodyKeysAre(r);
    assert Fields(r)[place] == Body(r)[place];
    LookupAt(Fields(r), place);
  }

  lemma FieldsDistinct(r: Run)
    ensures DistinctKeys(Fields(r)) && |Fields(r)| == 21
  {
    RunOrder.BodyKeysDistinct(r);
  }

  function PhaseName(p: Phase): string {
    match p
    case Preparing => "PREPARING"
    case WaitingForApproval => "WAITING_FOR_APPROVAL"
    case Ready => "READY"
    case Dispatching => "DISPATCHING"
    case Running => "RUNNING"
    case Verifying => "VERIFYING"
    case VerifiedSuccess => "VERIFIED_SUCCESS"
    case Failed => "FAILED"
    case OutcomeUnknown => "OUTCOME_UNKNOWN"
    case Cancelled => "CANCELLED"
    case Blocked => "BLOCKED"
  }

  function StopName(s: StopStatus): string {
    match s
    case NotRequested => "NOT_REQUESTED"
    case StopRequested => "STOP_REQUESTED"
    case StopConfirmed => "STOP_CONFIRMED"
    case StopUnconfirmed => "STOP_UNCONFIRMED"
  }

  predicate IsText(o: Option<Json>, s: Text) { o == Some(Str(s)) }

  /** An instant, spelled as its milliseconds. */
  predicate IsInstant(o: Option<Json>, ms: int) { o.Some? && o.value.Str? && SpellsInteger(o.value.s, ms) }

  lemma StampIsInstant(ms: int)
    ensures IsInstant(Some(Stamp(ms)), ms)
  {
    IntegerSpelled(Integer(ms), ms);
  }

  /** A record has 21 fields, each once, and this is what each of them holds. */
  lemma FieldsByName(r: Run)
    ensures |Fields(r)| == 21 && DistinctKeys(Fields(r))
    ensures IsText(Field(r, "contractVersion"), T("physicalsystems-run-v1")) && IsText(Field(r, "runId"), r.runId)
    ensures Field(r, "revision") == Some(Num(r.revision)) && IsText(Field(r, "runDigest"), r.runDigest)
    ensures IsText(Field(r, "phase"), T(PhaseName(r.phase)))
    ensures IsText(Field(r, "stopStatus"), T(StopName(r.stopStatus)))
    ensures IsText(Field(r, "mode"), if r.mode.Simulation? then T("simulation") else T("physical"))
    ensures IsText(Field(r, "capabilityId"), r.capabilityId) && IsText(Field(r, "implementationId"), r.implementationId)
    ensures IsText(Field(r, "implementationDigest"), r.implementationDigest)
    ensures IsText(Field(r, "configurationId"), r.configurationId)
    ensures IsText(Field(r, "configurationDigest"), r.configurationDigest)
    ensures IsText(Field(r, "routeReceiptDigest"), r.routeReceiptDigest)
    ensures Field(r, "inputs") == Some(r.inputs) && IsText(Field(r, "snapshotDigest"), r.snapshotDigest)
    ensures IsInstant(Field(r, "createdAt"), r.createdAt) && IsInstant(Field(r, "updatedAt"), r.updatedAt)
    ensures Field(r, "physicalExecutionAuthorized") == Some(Bool(false))
  {
    hide Fields, Field, BodyValue, Body;
    FieldsDistinct(r);
    SealField(r);
    PlainFields(r);
    DigestFields(r);
    OtherFields(r);
  }

  lemma SealField(r: Run)
    ensures IsText(Field(r, "runDigest"), r.runDigest)
  {
    FieldsDistinct(r);
    LookupAt(Fields(r), 20);
  }

  lemma PlainFields(r: Run)
    ensures IsText(Field(r, "contractVersion"), T("physicalsystems-run-v1")) && IsText(Field(r, "runId"), r.runId)
    ensures Field(r, "revision") == Some(Num(r.revision))
    ensures IsText(Field(r, "phase"), T(PhaseName(r.phase)))
    ensures IsText(Field(r, "stopStatus"), T(StopName(r.stopStatus)))
    ensures IsText(Field(r, "mode"), if r.mode.Simulation? then T("simulation") else T("physical"))
  {
    hide Fields, Field, T;
    FieldAt(r, 0);
    FieldAt(r, 1);
    FieldAt(r, 2);
    FieldAt(r, 3);
    FieldAt(r, 4);
    FieldAt(r, 5);
  }

  lemma DigestFields(r: Run)
    ensures IsText(Field(r, "capabilityId"), r.capabilityId) && IsText(Field(r, "implementationId"), r.implementationId)
    ensures IsText(Field(r, "implementationDigest"), r.implementationDigest)
    ensures IsText(Field(r, "configurationId"), r.configurationId)
    ensures IsText(Field(r, "configurationDigest"), r.configurationDigest)
    ensures IsText(Field(r, "routeReceiptDigest"), r.routeReceiptDigest)
    ensures IsText(Field(r, "snapshotDigest"), r.snapshotDigest)
  {
    hide Fields, Field, T;
    FieldAt(r, 6);
    FieldAt(r, 7);
    FieldAt(r, 8);
    FieldAt(r, 9);
    FieldAt(r, 10);
    FieldAt(r, 11);
    FieldAt(r, 13);
  }

  lemma OtherFields(r: Run)
    ensures Field(r, "inputs") == Some(r.inputs)
    ensures IsInstant(Field(r, "createdAt"), r.createdAt) && IsInstant(Field(r, "updatedAt"), r.updatedAt)
    ensures Field(r, "physicalExecutionAuthorized") == Some(Bool(false))
  {
    hide Fields, Field, T, IsInstant;
    FieldAt(r, 12);
    FieldAt(r, 15);
    FieldAt(r, 16);
    FieldAt(r, 19);
    StampIsInstant(r.createdAt);
    StampIsInstant(r.updatedAt);
  }

  /** The approval, the outcome and each event are objects of their own. */
  lemma PartsByName(r: Run)
    ensures Field(r, "approval").Some? && Field(r, "events").Some? && Field(r, "outcome").Some?
    ensures ApprovalByName(Field(r, "approval").value, r.approval)
    ensures var events := Field(r, "events").value;
            events.Arr? && |events.items| == |r.events|
            && forall i :: 0 <= i < |r.events| ==> EventByName(events.items[i], r.events[i])
    ensures var v := Field(r, "outcome").value;
            if r.outcome.None? then v == Null else OutcomeByName(v, r.outcome.value)
  {
    hide Fields, Field, T, ApprovalByName, EventByName, OutcomeByName, ApprovalJson, EventJson;
    FieldAt(r, 14);
    FieldAt(r, 17);
    FieldAt(r, 18);
    ApprovalNamed(r.approval);
    forall i | 0 <= i < |r.events| ensures EventByName(EventsJson(r.events)[i], r.events[i]) {
      EventNamed(r.events[i]);
    }
    if r.outcome.Some? { OutcomeNamed(r.outcome.value); }
  }

  predicate ApprovalByName(v: Json, a: Approval) {
    && v.Obj? && |v.members| == 3 && IsText(Inner(v, "digest"), a.digest)
    && IsInstant(Inner(v, "expiresAt"), a.expiresAt)
    && (if a.approvedAt.Some? then IsInstant(Inner(v, "approvedAt"), a.approvedAt.value)
        else Inner(v, "approvedAt") == Some(Null))
  }

  predicate EventByName(v: Json, e: Event) {
    && v.Obj? && |v.members| == 4 && Inner(v, "sequence") == Some(Num(e.sequence)) && IsText(Inner(v, "type"), e.kind)
    && IsInstant(Inner(v, "at"), e.at) && Inner(v, "detail") == Some(e.detail)
  }

  predicate OutcomeByName(v: Json, o: Outcome) {
    && v.Obj? && |v.members| == 3 && IsText(Inner(v, "status"), T(PhaseName(o.status)))
    && IsText(Inner(v, "reason"), o.reason)
    && Inner(v, "evidenceDigest") == Some(if o.evidenceDigest.Some? then Str(o.evidenceDigest.value) else Null)
  }

  lemma ApprovalNamed(a: Approval)
    ensures ApprovalByName(ApprovalJson(a), a)
  {
    RunOrder.ApprovalProper(a);
    var ms := ApprovalJson(a).members;
    hide T, IsInstant;
    LookupAt(ms, 0);
    LookupAt(ms, 1);
    LookupAt(ms, 2);
    StampIsInstant(a.expiresAt);
    if a.approvedAt.Some? { StampIsInstant(a.approvedAt.value); }
  }

  lemma EventNamed(e: Event)
    ensures EventByName(EventJson(e), e)
  {
    var ms := EventJson(e).members;
    RunOrder.EventShape(e, e);
    hide T, IsInstant;
    LookupAt(ms, 0);
    LookupAt(ms, 1);
    LookupAt(ms, 2);
    LookupAt(ms, 3);
    StampIsInstant(e.at);
  }

  lemma OutcomeNamed(o: Outcome)
    ensures OutcomeByName(OutcomeJson(Some(o)), o)
  {
    RunOrder.OutcomeProper(Some(o));
    var ms := OutcomeJson(Some(o)).members;
    hide T;
    LookupAt(ms, 0);
    LookupAt(ms, 1);
    LookupAt(ms, 2);
  }

  // ---------- what normalizing accepts ----------

  /** From the first day of year 0 to the last day of year 9999. */
  predicate InYears(ms: int) { -719528 * 86400000 <= ms < 2932897 * 86400000 }

  /** A bounded object, nested at most 16 levels deep, whose canonical text takes at most 512 KiB in UTF-8. */
  ghost predicate SmallObject(v: Json) {
    v.Obj? && AllBounded(v, 0, 16) && forall t :: Spells(t, Norm(v)) ==> |AllUtf8(CodePoints(t))| <= 512 * 1024
  }

  ghost predicate EventFits(e: Event, n: int) {
    && e.sequence == n && InYears(e.at) && SmallObject(e.detail)
    && 1 <= |e.kind| <= 64 && 0x61 <= e.kind[0] <= 0x7A
    && forall i :: 0 <= i < |e.kind| ==>
      0x61 <= e.kind[i] <= 0x7A || 0x30 <= e.kind[i] <= 0x39 || e.kind[i] == 0x5F || e.kind[i] == 0x2D
  }

  /** Which approval and which outcome each phase allows. */
  predicate PhaseFits(r: Run) {
    match r.phase
    case Preparing => r.outcome.None?
    case WaitingForApproval => r.outcome.None? && r.approval.approvedAt.None?
    case Ready => r.outcome.None? && r.approval.approvedAt.Some?
    case Dispatching => r.outcome.None? && r.approval.approvedAt.Some?
    case Running => r.outcome.None? && r.approval.approvedAt.Some?
    case Verifying => r.outcome.None? && r.approval.approvedAt.Some?
    case VerifiedSuccess =>
      && r.approval.approvedAt.Some? && r.outcome.Some? && r.outcome.value.evidenceDigest.Some? && OutcomeFits(r)
    case Failed => r.outcome.Some? ==> OutcomeFits(r)
    case OutcomeUnknown => r.outcome.Some? ==> OutcomeFits(r)
    case Cancelled => r.outcome.Some? ==> OutcomeFits(r)
    case Blocked => r.outcome.Some? ==> OutcomeFits(r)
  }

  /** The outcome names the phase of the record and gives a reason. */
  predicate OutcomeFits(r: Run)
    requires r.outcome.Some?
  {
    r.outcome.value.status == r.phase && 1 <= |r.outcome.value.reason| <= 512
  }

  ghost predicate Believable(r: Run) {
    && 0 <= r.revision <= 9007199254740991 && SmallObject(r.inputs)
    && InYears(r.createdAt) && InYears(r.updatedAt) && r.createdAt <= r.updatedAt
    && InYears(r.approval.expiresAt)
    && (r.approval.approvedAt.Some? ==>
          InYears(r.approval.approvedAt.value) && r.approval.approvedAt.value <= r.approval.expiresAt)
    && |r.events| <= 1024 && (forall i :: 0 <= i < |r.events| ==> EventFits(r.events[i], i + 1)) && PhaseFits(r)
  }

  /** The seal is the hash of the canonical text of all other fields, in bounds and at most 20 levels deep. */
  ghost predicate SealHolds(h: Hash, r: Run) {
    var body := Obj(Body(r));
    AllBounded(body, 0, 20) && exists t :: Spells(t, Norm(body)) && h(t) == r.runDigest
  }

  lemma JsonObjectIff(v: Json)
    requires Proper(v)
    ensures JsonObject(v) <==> SmallObject(v)
  {
    PrintableIff(v, 0, 16);
    PrintSpells(v);
    Utf8Measures(Print(v));
    hide Spells, AllBounded, Printable, Utf8Length, AllUtf8;
    assert Spells(Print(v), Norm(v));
  }

  lemma EventIff(e: Event, i: nat)
    requires Proper(e.detail)
    ensures ValidEvent(e, i) <==> EventFits(e, i + 1)
  {
    JsonObjectIff(e.detail);
    hide JsonObject, SmallObject;
  }

  lemma SealIff(h: Hash, r: Run)
    requires ProperRun(r)
    ensures Sealed(h, Fields(r), T("runDigest")) <==> SealHolds(h, r)
  {
    RunOrder.RunSealed(h, r);
    RunOrder.BodyProper(r);
    var body := Obj(Body(r));
    hide Sealed, Fields, Body, Spells, AllBounded, Norm, T, Printable, Print;
    PrintableIff(body, 0, 20);
    PrintSpells(body);
    assert Spells(Print(body), Norm(body));
  }

  lemma PhaseIff(r: Run)
    ensures PhaseFits(r)
            <==> ValidOutcome(r) && (NeedsApproval(r.phase) ==> r.approval.approvedAt.Some?)
                 && (r.phase.WaitingForApproval? ==> r.approval.approvedAt.None?)
  {
  }

  /** Normalizing accepts exactly the records spelled out, each sealed by its own content. */
  lemma BelievedIff(h: Hash, r: Run)
    requires ProperRun(r)
    ensures Normalized(h, r) <==> Believable(r) && SealHolds(h, r)
  {
    JsonObjectIff(r.inputs);
    SealIff(h, r);
    PhaseIff(r);
    forall i | 0 <= i < |r.events| ensures ValidEvent(r.events[i], i) <==> EventFits(r.events[i], i + 1) {
      EventIff(r.events[i], i);
    }
    hide Sealed, SealHolds, ValidEvent, EventFits, JsonObject, SmallObject, ValidOutcome, NeedsApproval, PhaseFits;
  }

  // ---------- what replacing means ----------

  /** One record extends another of the same run: nothing fixed changes, nothing known is lost. */
  ghost predicate ExtendsRecord(r: Run, e: Run) {
    && r.runId == e.runId && r.mode == e.mode && r.capabilityId == e.capabilityId
    && r.implementationId == e.implementationId && r.implementationDigest == e.implementationDigest
    && r.configurationId == e.configurationId && r.configurationDigest == e.configurationDigest
    && r.routeReceiptDigest == e.routeReceiptDigest && r.snapshotDigest == e.snapshotDigest
    && Same(r.inputs, e.inputs)
    && r.approval.digest == e.approval.digest && r.approval.expiresAt == e.approval.expiresAt
    && (r.revision > e.revision || (r.revision == e.revision && r.runDigest == e.runDigest))
    && |r.events| >= |e.events| && forall i :: 0 <= i < |e.events| ==> RepeatsEvent(r.events[i], e.events[i])
  }

  /** The same event up to member order, its detail less than 16 levels deep. */
  ghost predicate RepeatsEvent(a: Event, b: Event) {
    a.sequence == b.sequence && a.kind == b.kind && a.at == b.at && Same(a.detail, b.detail) && Depth(a.detail) < 16
  }

  lemma EventsRepeat(a: Event, b: Event, i: nat)
    requires i < MAX_EVENTS && ValidEvent(a, i) && ValidEvent(b, i) && Proper(a.detail) && Proper(b.detail)
    ensures SameCanonical(EventJson(a), EventJson(b)) <==> RepeatsEvent(a, b)
  {
    EventPrintable(a, i, 0, COMPARE_DEPTH);
    RunOrder.EventProper(a);
    RunOrder.EventProper(b);
    CanonicalDecidesSame(EventJson(a), EventJson(b), COMPARE_DEPTH);
    if Same(EventJson(a), EventJson(b)) { RunOrder.SameEventJson(a, b); }
    if RepeatsEvent(a, b) { SameParts(a, b); }
  }

  lemma SameParts(a: Event, b: Event)
    requires a.sequence == b.sequence && a.kind == b.kind && a.at == b.at && Same(a.detail, b.detail)
    ensures Same(EventJson(a), EventJson(b))
  {
    hide T;
    var f, g := EventJson(a).members, EventJson(b).members;
    assert |f| == |g| == 4 && f[0] == g[0] && f[1] == g[1] && f[2] == g[2];
    assert f[3].key == g[3].key && f[3].value == a.detail && g[3].value == b.detail;
    assert f[2].value.Str?;
    hide EventJson, Stamp;
    LeafSame(f[0].value);
    LeafSame(f[1].value);
    LeafSame(f[2].value);
    PlacesSame(f, g);
  }

  lemma LeafSame(v: Json)
    requires v.Num? || v.Str?
    ensures Same(v, v)
  {
  }

  /** Objects that are the same place by place are the same. */
  lemma PlacesSame(f: seq<Pair<Json>>, g: seq<Pair<Json>>)
    requires |f| == |g| == 4
    requires f[0].key == g[0].key && f[1].key == g[1].key && f[2].key == g[2].key && f[3].key == g[3].key
    requires Same(f[0].value, g[0].value) && Same(f[1].value, g[1].value) && Same(f[2].value, g[2].value)
             && Same(f[3].value, g[3].value)
    ensures Same(Obj(f), Obj(g))
  {
    AtPlace(f, g, 0);
    AtPlace(f, g, 1);
    AtPlace(f, g, 2);
    AtPlace(f, g, 3);
    hide HasSame, IsSame;
  }

  lemma AtPlace(f: seq<Pair<Json>>, g: seq<Pair<Json>>, i: nat)
    requires i < |f| && i < |g| && f[i].key == g[i].key && Same(f[i].value, g[i].value)
    ensures HasSame(f[i], g) && IsSame(f, g[i])
  {
    hide Same;
  }

  /** Between believed records the comparison accepts exactly the extensions of the older one. */
  lemma ReplacesIff(h: Hash, r: Run, e: Run)
    requires Normalized(h, r) && Normalized(h, e)
    ensures Matches(r, e) <==> ExtendsRecord(r, e)
  {
    CanonicalDecidesSame(r.inputs, e.inputs, COMPARE_DEPTH);
    forall i | 0 <= i < |e.events| && i < |r.events|
      ensures SameCanonical(EventJson(r.events[i]), EventJson(e.events[i])) <==> RepeatsEvent(r.events[i], e.events[i])
    {
      assert ValidEvent(r.events[i], i) && ValidEvent(e.events[i], i);
      EventsRepeat(r.events[i], e.events[i], i);
    }
    hide RepeatsEvent, Sealed, ValidEvent, EventJson;
  }
}
