/**
 The run evidence contract: what a run record must satisfy to be believed, and when one
 record may replace another of the same run.
 */
module RunContract {
  import opened Options
  import opened Texts
  import opened JsonText
  import opened Digests

  datatype Phase =
    | Preparing | WaitingForApproval | Ready | Dispatching | Running | Verifying
    | VerifiedSuccess | Failed | OutcomeUnknown | Cancelled | Blocked

  datatype StopStatus = NotRequested | StopRequested | StopConfirmed | StopUnconfirmed

  datatype Mode = Simulation | Physical

  datatype Event = Event(sequence: int, kind: Text, at: int, detail: Json)

  datatype Approval = Approval(digest: Text, expiresAt: int, approvedAt: Option<int>)

  datatype Outcome = Outcome(status: Phase, reason: Text, evidenceDigest: Option<Text>)

  /** Instants are milliseconds since the epoch. */
  datatype Run = Run(
    runId: Text, mode: Mode, capabilityId: Text, implementationId: Text, implementationDigest: Text,
    configurationId: Text, configurationDigest: Text, routeReceiptDigest: Text, snapshotDigest: Text,
    inputs: Json, approval: Approval, createdAt: int,
    revision: int, phase: Phase, stopStatus: StopStatus, updatedAt: int, events: seq<Event>, outcome: Option<Outcome>,
    runDigest: Text)

  // ---------- the JSON spelling of a run ----------

  function PhaseText(p: Phase): (t: Text)
    ensures IsAscii(t) && |t| <= 20
  {
    match p
    case Preparing => T("PREPARING")
    case WaitingForApproval => T("WAITING_FOR_APPROVAL")
    case Ready => T("READY")
    case Dispatching => T("DISPATCHING")
    case Running => T("RUNNING")
    case Verifying => T("VERIFYING")
    case VerifiedSuccess => T("VERIFIED_SUCCESS")
    case Failed => T("FAILED")
    case OutcomeUnknown => T("OUTCOME_UNKNOWN")
    case Cancelled => T("CANCELLED")
    case Blocked => T("BLOCKED")
  }

  function StopText(s: StopStatus): (t: Text)
    ensures IsAscii(t) && |t| <= 20
  {
    match s
    case NotRequested => T("NOT_REQUESTED")
    case StopRequested => T("STOP_REQUESTED")
    case StopConfirmed => T("STOP_CONFIRMED")
    case StopUnconfirmed => T("STOP_UNCONFIRMED")
  }

  function ModeText(m: Mode): (t: Text)
    ensures IsAscii(t) && |t| <= 20
  {
    match m case Simulation => T("simulation") case Physical => T("physical")
  }

  function Stamp(ms: int): Json { Str(Integer(ms)) }

  function OptionalStamp(o: Option<int>): Json {
    match o case Some(ms) => Stamp(ms) case None => Null
  }

  function OptionalStr(o: Option<Text>): Json {
    match o case Some(s) => Str(s) case None => Null
  }

  function EventJson(e: Event): Json {
    Obj([Pair(T("sequence"), Num(e.sequence)), Pair(T("type"), Str(e.kind)), Pair(T("at"), Stamp(e.at)),
         Pair(T("detail"), e.detail)])
  }

  function EventsJson(es: seq<Event>): seq<Json> {
    seq(|es|, i requires 0 <= i < |es| => EventJson(es[i]))
  }

  function ApprovalJson(a: Approval): Json {
    Obj([Pair(T("digest"), Str(a.digest)), Pair(T("expiresAt"), Stamp(a.expiresAt)),
         Pair(T("approvedAt"), OptionalStamp(a.approvedAt))])
  }

  function OutcomeJson(o: Option<Outcome>): Json {
    match o
    case None => Null
    case Some(v) =>
      Obj([Pair(T("status"), Str(PhaseText(v.status))), Pair(T("reason"), Str(v.reason)),
           Pair(T("evidenceDigest"), OptionalStr(v.evidenceDigest))])
  }

  /** The name of each field of the body, by place. */
  function KeyName(place: int): string {
    match place
    case 0 => "contractVersion"
    case 1 => "runId"
    case 2 => "revision"
    case 3 => "phase"
    case 4 => "stopStatus"
    case 5 => "mode"
    case 6 => "capabilityId"
    case 7 => "implementationId"
    case 8 => "implementationDigest"
    case 9 => "configurationId"
    case 10 => "configurationDigest"
    case 11 => "routeReceiptDigest"
    case 12 => "inputs"
    case 13 => "snapshotDigest"
    case 14 => "approval"
    case 15 => "createdAt"
    case 16 => "updatedAt"
    case 17 => "events"
    case 18 => "outcome"
    case _ => "physicalExecutionAuthorized"
  }

  function BodyValue(r: Run, place: int): Json {
    match place
    case 0 => Str(T("physicalsystems-run-v1"))
    case 1 => Str(r.runId)
    case 2 => Num(r.revision)
    case 3 => Str(PhaseText(r.phase))
    case 4 => Str(StopText(r.stopStatus))
    case 5 => Str(ModeText(r.mode))
    case 6 => Str(r.capabilityId)
    case 7 => Str(r.implementationId)
    case 8 => Str(r.implementationDigest)
    case 9 => Str(r.configurationId)
    case 10 => Str(r.configurationDigest)
    case 11 => Str(r.routeReceiptDigest)
    case 12 => r.inputs
    case 13 => Str(r.snapshotDigest)
    case 14 => ApprovalJson(r.approval)
    case 15 => Stamp(r.createdAt)
    case 16 => Stamp(r.updatedAt)
    case 17 => Arr(EventsJson(r.events))
    case 18 => OutcomeJson(r.outcome)
    case _ => Bool(false)
  }

  /** Everything the run digest covers: each field under its name. */
  function Body(r: Run): seq<Pair<Json>> {
    seq(20, i => Pair(T(KeyName(i)), BodyValue(r, i)))
  }

  function Fields(r: Run): seq<Pair<Json>> {
    Body(r) + [Pair(T("runDigest"), Str(r.runDigest))]
  }

  /** Computing the digest of a record and storing it there. */
  function SealRun(h: Hash, r: Run): Option<Run> {
    match Digest(h, Obj(Body(r)))
    case Some(s) => Some(r.(runDigest := s))
    case None => None
  }

  // ---------- validation ----------

  const COMPARE_DEPTH := 16
  const MAX_EVENTS := 1024
  const MAX_OBJECT_BYTES := 524288

  predicate JsonObject(v: Json) {
    v.Obj? && Printable(v, 0, COMPARE_DEPTH) && Utf8Length(Print(v)) <= MAX_OBJECT_BYTES
  }

  /** Four-digit years. */
  predicate ValidStamp(ms: int) { -62167219200000 <= ms < 253402300800000 }

  predicate LowerCase(u: Unit) { 0x61 <= u <= 0x7A }

  predicate EventType(t: Text) {
    1 <= |t| <= 64 && LowerCase(t[0])
    && forall i :: 0 <= i < |t| ==> LowerCase(t[i]) || IsDigit(t[i]) || t[i] == 0x5F || t[i] == 0x2D
  }

  predicate ValidEvent(e: Event, index: int) {
    e.sequence == index + 1 && EventType(e.kind) && ValidStamp(e.at) && JsonObject(e.detail)
  }

  predicate ValidApproval(a: Approval) {
    ValidStamp(a.expiresAt)
    && match a.approvedAt case Some(at) => ValidStamp(at) && at <= a.expiresAt case None => true
  }

  predicate Final(p: Phase) {
    p.VerifiedSuccess? || p.Failed? || p.OutcomeUnknown? || p.Cancelled? || p.Blocked?
  }

  predicate ValidOutcome(r: Run) {
    match r.outcome
    case None => !r.phase.VerifiedSuccess?
    case Some(o) =>
      Final(o.status) && 1 <= |o.reason| <= 512 && o.status == r.phase
      && (r.phase.VerifiedSuccess? ==> o.evidenceDigest.Some?)
  }

  predicate Terminal(p: Phase) {
    p.VerifiedSuccess? || p.Failed? || p.Cancelled? || p.Blocked?
  }

  predicate NeedsApproval(p: Phase) {
    p.Ready? || p.Dispatching? || p.Running? || p.Verifying? || p.VerifiedSuccess?
  }

  /** Objects inside the record hold each key once, as JavaScript objects do. */
  ghost predicate ProperRun(r: Run) {
    Proper(r.inputs) && forall i :: 0 <= i < |r.events| ==> Proper(r.events[i].detail)
  }

  /** Every check that normalizing a run makes. */
  predicate Checks(h: Hash, r: Run) {
    && 0 <= r.revision <= MAX_SAFE_INTEGER
    && JsonObject(r.inputs)
    && ValidApproval(r.approval)
    && ValidStamp(r.createdAt) && ValidStamp(r.updatedAt) && r.createdAt <= r.updatedAt
    && |r.events| <= MAX_EVENTS
    && (forall i :: 0 <= i < |r.events| ==> ValidEvent(r.events[i], i))
    && ValidOutcome(r)
    && (NeedsApproval(r.phase) ==> r.approval.approvedAt.Some?)
    && (r.phase.WaitingForApproval? ==> r.approval.approvedAt.None?)
    && Sealed(h, Fields(r), T("runDigest"))
  }

  /** What normalizing a run accepts. */
  ghost predicate Normalized(h: Hash, r: Run) {
    ProperRun(r) && Checks(h, r)
  }

  /** The running counter that checks event numbers. */
  method CheckSequences(events: seq<Event>) returns (ok: bool)
    ensures ok <==> forall i :: 0 <= i < |events| ==> events[i].sequence == i + 1
  {
    var previous := 0;
    for i := 0 to |events|
      invariant previous == i
      invariant forall j :: 0 <= j < i ==> events[j].sequence == j + 1
    {
      if events[i].sequence != previous + 1 { return false; }
      previous := events[i].sequence;
    }
    ok := true;
  }

  // ---------- one record replacing another ----------

  predicate SameCanonical(v: Json, w: Json) {
    Canonical(v, COMPARE_DEPTH).Some? && Canonical(v, COMPARE_DEPTH) == Canonical(w, COMPARE_DEPTH)
  }

  predicate SameIdentity(r: Run, e: Run) {
    && r.runId == e.runId && r.mode == e.mode && r.capabilityId == e.capabilityId
    && r.implementationId == e.implementationId && r.implementationDigest == e.implementationDigest
    && r.configurationId == e.configurationId && r.configurationDigest == e.configurationDigest
    && r.routeReceiptDigest == e.routeReceiptDigest && r.snapshotDigest == e.snapshotDigest
  }

  /** `assertRunMatches` against a full record does not throw. */
  predicate Matches(r: Run, e: Run) {
    && SameIdentity(r, e)
    && SameCanonical(r.inputs, e.inputs)
    && r.approval.digest == e.approval.digest && r.approval.expiresAt == e.approval.expiresAt
    && r.revision >= e.revision
    && (r.revision == e.revision ==> r.runDigest == e.runDigest)
    && |r.events| >= |e.events|
    && forall i :: 0 <= i < |e.events| ==> SameCanonical(EventJson(r.events[i]), EventJson(e.events[i]))
  }

  ghost predicate SameEvent(a: Event, b: Event) {
    a.(detail := b.detail) == b && Same(a.detail, b.detail)
  }

  /** Equal up to the order of object members in inputs and event details. */
  ghost predicate SameRun(a: Run, b: Run) {
    && a.(inputs := b.inputs, events := b.events) == b
    && Same(a.inputs, b.inputs)
    && |a.events| == |b.events|
    && forall i :: 0 <= i < |a.events| ==> SameEvent(a.events[i], b.events[i])
  }

  lemma MatchesTransitive(a: Run, b: Run, c: Run)
    requires Matches(a, b) && Matches(b, c)
    ensures Matches(a, c)
  {
  }

  predicate Extends(r: Run, e: Run) { r == e || Matches(r, e) }

  lemma ExtendsTransitive(a: Run, b: Run, c: Run)
    requires Extends(a, b) && Extends(b, c)
    ensures Extends(a, c)
  {
  }

  // ---------- lists of records ----------

  ghost predicate Distinct(rs: seq<Run>) {
    forall i, j :: 0 <= i < j < |rs| ==> rs[i].runId != rs[j].runId
  }

  function Find(rs: seq<Run>, id: Text): (r: Option<Run>)
    ensures r.Some? ==> r.value in rs && r.value.runId == id
    ensures r.None? ==> forall i :: 0 <= i < |rs| ==> rs[i].runId != id
  {
    if rs == [] then None else if rs[0].runId == id then Some(rs[0]) else Find(rs[1..], id)
  }

  lemma FindIs(rs: seq<Run>, r: Run)
    requires Distinct(rs) && r in rs
    ensures Find(rs, r.runId) == Some(r)
  {
  }

  function WithoutRun(rs: seq<Run>, id: Text): (r: seq<Run>)
    ensures forall x :: x in r <==> x in rs && x.runId != id
  {
    if rs == [] then [] else (if rs[0].runId == id then [] else [rs[0]]) + WithoutRun(rs[1..], id)
  }

  lemma {:induction false} WithoutRunDistinct(rs: seq<Run>, id: Text)
    requires Distinct(rs)
    ensures Distinct(WithoutRun(rs, id))
  {
    if rs != [] {
      WithoutRunDistinct(rs[1..], id);
      var rest := WithoutRun(rs[1..], id);
      forall i | 0 <= i < |rest| ensures rest[i].runId != rs[0].runId {
        assert rest[i] in rs[1..];
      }
    }
  }
}
