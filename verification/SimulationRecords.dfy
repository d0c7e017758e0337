/**
 What every record the simulated Node stores satisfies, and why the contract accepts each
 record it writes over the one it replaces.
 */
module SimulationRecords {
  import opened Options
  import opened Texts
  import opened JsonText
  import opened Digests
  import opened RunContract
  import opened RunDepth
  import opened SimulationNode

  /** Digests are short ASCII texts. */
  ghost predicate ShortHash(h: Hash) {
    forall t :: Plain(h(t))
  }

  /** A routed transfer names its source and its destination. */
  ghost predicate Trip(inputs: Json) {
    && inputs.Obj? && Proper(inputs)
    && HasText(inputs, T("source")) && HasText(inputs, T("destination"))
  }

  predicate HasText(v: Json, key: Text) {
    v.Obj? && match Lookup(v.members, key) case Some(Str(_)) => true case _ => false
  }

  ghost predicate Scripted(es: seq<Event>) {
    |es| <= 6 && forall i :: 0 <= i < |es| ==> es[i].kind == StepKind(i)
  }

  /** Which events a record in each phase holds, in order. No record is ever FAILED. */
  ghost predicate Story(phase: Phase, es: seq<Event>) {
    var n := |es|;
    match phase
    case WaitingForApproval => n == 1 && Scripted(es)
    case Running => 2 <= n <= 5 && Scripted(es)
    case VerifiedSuccess => n == 6 && Scripted(es)
    case OutcomeUnknown => 3 <= n <= 6 && Scripted(es[..n - 1]) && es[n - 1].kind == RestartedKind()
    case Cancelled =>
      && 2 <= n <= 7 && es[n - 1].kind == StoppedKind()
      && (Scripted(es[..n - 1]) || (n >= 4 && Scripted(es[..n - 2]) && es[n - 2].kind == RestartedKind()))
    case _ => false
  }

  predicate Standing(r: Run) {
    && r.stopStatus == (if r.phase.Cancelled? then StopConfirmed else NotRequested)
    && (r.outcome.None? <==> r.phase.WaitingForApproval? || r.phase.Running?)
    && (r.phase.WaitingForApproval? ==> r.approval.approvedAt.None?)
    && (r.phase.Running? || r.phase.VerifiedSuccess? || r.phase.OutcomeUnknown? ==> r.approval.approvedAt.Some?)
  }

  ghost predicate SimpleDetails(es: seq<Event>) {
    forall i :: 0 <= i < |es| ==> es[i].detail == Detail()
  }

  ghost predicate Good(h: Hash, r: Run, time: int) {
    && Normalized(h, r) && PlainRecord(r) && Trip(r.inputs) && r.mode.Simulation?
    && r.revision == |r.events| && r.updatedAt <= time
    && SimpleDetails(r.events) && Story(r.phase, r.events) && Standing(r)
  }

  /** The same record, or a newer one that extends it. */
  predicate Later(a: Run, b: Run) { a == b || (Matches(a, b) && a.revision > b.revision) }

  lemma LaterTransitive(a: Run, b: Run, c: Run)
    requires Later(a, b) && Later(b, c)
    ensures Later(a, c)
  {
  }

  // ---------- fixed parts ----------

  predicate LowerWord(s: string) {
    1 <= |s| <= 64 && s[0] != '_' && forall i :: 0 <= i < |s| ==> 'a' <= s[i] <= 'z' || s[i] == '_'
  }

  lemma WordIsEventType(s: string)
    requires LowerWord(s)
    ensures EventType(T(s))
  {
    var t := T(s);
    forall i | 0 <= i < |t| ensures LowerCase(t[i]) || t[i] == 0x5F {
      assert t[i] == s[i] as int;
    }
    assert LowerCase(t[0]);
  }

  lemma KindsValid()
    ensures forall i :: EventType(StepKind(i))
    ensures EventType(StoppedKind()) && EventType(RestartedKind())
  {
    WordIsEventType("prepared");
    WordIsEventType("approved");
    WordIsEventType("pick_simulated");
    WordIsEventType("transfer_simulated");
    WordIsEventType("place_simulated");
    WordIsEventType("simulation_verified");
    WordIsEventType("stopped");
    WordIsEventType("simulation_host_restarted");
  }

  lemma TextPlain(s: string)
    requires 1 <= |s| <= 512
    ensures Plain(T(s)) && |T(s)| > 0
  {
    AsciiPlain(T(s));
  }

  lemma CheckReasonPlain(verified: bool)
    ensures Plain(CheckReason(verified)) && |CheckReason(verified)| > 0
  {
    hide T, Plain;
    if verified {
      TextPlain("Three scripted simulation state transitions completed; no hardware was operated.");
    } else {
      TextPlain("The scripted simulation destination check failed.");
    }
  }

  lemma StopReasonPlain()
    ensures Plain(StopReason()) && |StopReason()| > 0
  {
    hide T, Plain;
    TextPlain("The scripted simulation was stopped by the operator.");
  }

  lemma RestartReasonPlain()
    ensures Plain(RestartReason()) && |RestartReason()| > 0
  {
    hide T, Plain;
    TextPlain("The previous scripted simulation host ended before recording a final state. "
              + "Stop this run before preparing another.");
  }

  lemma {:induction false} EscapedLength(s: Text)
    ensures |EscapeAll(s)| <= 6 * |s|
  {
    if s != [] { EscapedLength(s[1..]); }
  }

  /** An object with one short named text. */
  lemma OneTextObject(name: string, s: Text)
    requires |name| <= 256 && Plain(s)
    ensures var v := Obj([Pair(T(name), Str(s))]); JsonObject(v) && Proper(v) && Depth(v) == 1
  {
    var v := Obj([Pair(T(name), Str(s))]);
    NamedPrintable(name, Str(s), 1, COMPARE_DEPTH);
    var ms := v.members;
    assert ms[1..] == [];
    assert PrintValues(ms) == [Pair(T(name), Print(Str(s)))];
    assert SortByKey(PrintValues(ms)) == PrintValues(ms) by { assert PrintValues(ms)[1..] == []; }
    assert Members(PrintValues(ms)) == [Member(PrintValues(ms)[0])] by { assert PrintValues(ms)[1..] == []; }
    EscapedLength(T(name));
    EscapedLength(s);
    Utf8AtMostThrice(Print(v));
    assert DepthOfMembers(ms) == Max(Depth(Str(s)), 0);
  }

  lemma DetailValid()
    ensures JsonObject(Detail()) && Proper(Detail()) && Depth(Detail()) == 1
  {
    AsciiPlain(T("simulation"));
    OneTextObject("mode", T("simulation"));
  }

  // ---------- growing a record ----------

  ghost predicate MayGrow(h: Hash, r: Run, x: Run, phase: Phase, kind: Text, u: int, v: int, time: int) {
    && Good(h, r, time) && x == r.(approval := x.approval, stopStatus := x.stopStatus, outcome := x.outcome)
    && EventType(kind) && time <= u <= v && ValidStamp(u) && ValidStamp(v)
    && ValidApproval(x.approval) && x.approval.digest == r.approval.digest
    && x.approval.expiresAt == r.approval.expiresAt
    && Story(phase, Grown(x, phase, kind, u, v).events) && Standing(Grown(x, phase, kind, u, v))
    && OutcomeFits(x.outcome, phase)
  }

  predicate OutcomeFits(o: Option<Outcome>, phase: Phase) {
    match o
    case None => true
    case Some(v) =>
      v.status == phase && Plain(v.reason) && |v.reason| > 0
          && (v.evidenceDigest.Some? ==> Plain(v.evidenceDigest.value))
      && (phase.VerifiedSuccess? ==> v.evidenceDigest.Some?)
  }

  lemma GrownAcceptable(h: Hash, r: Run, x: Run, phase: Phase, kind: Text, u: int, v: int, time: int)
    requires MayGrow(h, r, x, phase, kind, u, v, time)
    ensures Acceptable(Grown(x, phase, kind, u, v))
  {
    DetailValid();
    hide Scripted, Trip, WellFormedText, Sealed, JsonObject, EventType, Proper, T, Detail;
    var g := Grown(x, phase, kind, u, v);
    forall i | 0 <= i < |g.events| ensures ValidEvent(g.events[i], i) && Proper(g.events[i].detail) {
      if i < |r.events| { assert ValidEvent(r.events[i], i); }
    }
  }

  lemma SealedIs(h: Hash, g: Run)
    requires SealRun(h, g).Some?
    ensures SealRun(h, g).value == g.(runDigest := SealRun(h, g).value.runDigest)
  {
  }

  lemma GrownMatches(h: Hash, r: Run, g: Run)
    requires Normalized(h, r) && SimpleDetails(r.events)
    requires SameIdentity(g, r) && g.inputs == r.inputs && g.approval.digest == r.approval.digest
    requires g.approval.expiresAt == r.approval.expiresAt && g.revision > r.revision
    requires |g.events| > |r.events| && g.events[..|r.events|] == r.events
    ensures Matches(g, r)
  {
    DetailValid();
    ReflexiveIffShallow(h, r);
    forall i | 0 <= i < |r.events| ensures SameCanonical(EventJson(g.events[i]), EventJson(r.events[i])) {
      assert g.events[i] == g.events[..|r.events|][i];
    }
  }

  lemma GrownGood(h: Hash, r: Run, x: Run, phase: Phase, kind: Text, u: int, v: int, time: int, e: Run)
    requires MayGrow(h, r, x, phase, kind, u, v, time) && Normalized(h, e)
    requires e == Grown(x, phase, kind, u, v).(runDigest := e.runDigest)
    ensures Good(h, e, v)
  {
    hide Normalized, Trip, Plain, Story, EventType, ValidApproval, Detail, T, ValidStamp, Scripted;
  }

  lemma GrownLater(h: Hash, r: Run, x: Run, phase: Phase, kind: Text, u: int, v: int, time: int, e: Run)
    requires MayGrow(h, r, x, phase, kind, u, v, time)
    requires e == Grown(x, phase, kind, u, v).(runDigest := e.runDigest)
    ensures Later(e, r)
  {
    hide Normalized, Trip, Plain, Story, EventType, ValidApproval, Detail, T, ValidStamp, Matches, Standing,
         OutcomeFits, Scripted;
    assert e.events[..|r.events|] == r.events;
    GrownMatches(h, r, e);
  }

  /** A step of the script is a record the contract accepts in place of the one before. */
  lemma Grows(h: Hash, r: Run, x: Run, phase: Phase, kind: Text, u: int, v: int, time: int)
    requires MayGrow(h, r, x, phase, kind, u, v, time)
    ensures var e := Evolve(h, x, phase, kind, u, v);
            e.Some? && Good(h, e.value, v) && Later(e.value, r)
                && e.value == Grown(x, phase, kind, u, v).(runDigest := e.value.runDigest)
  {
    hide Good, MayGrow, Later, Normalized, Acceptable, Grown, SealRun;
    var g := Grown(x, phase, kind, u, v);
    GrownAcceptable(h, r, x, phase, kind, u, v, time);
    SealingBelieved(h, g);
    SealedIs(h, g);
    var e := Evolve(h, x, phase, kind, u, v).value;
    GrownGood(h, r, x, phase, kind, u, v, time, e);
    GrownLater(h, r, x, phase, kind, u, v, time, e);
  }

  // ---------- the records of each operation ----------

  lemma StoryStops(phase: Phase, es: seq<Event>, e: Event)
    requires Story(phase, es) && !Terminal(phase) && e.kind == StoppedKind()
    ensures Story(Cancelled, es + [e])
  {
    hide T, StepKind, StoppedKind, RestartedKind;
    var all := es + [e];
    assert all[..|all| - 1] == es;
    if phase.OutcomeUnknown? { assert all[..|all| - 2] == es[..|es| - 1]; }
  }

  lemma StopFits()
    ensures EventType(StoppedKind()) && OutcomeFits(Some(Outcome(Cancelled, StopReason(), None)), Cancelled)
  {
    KindsValid();
    StopReasonPlain();
  }

  lemma GoodApproval(h: Hash, r: Run, time: int)
    requires Good(h, r, time)
    ensures ValidApproval(r.approval)
  {
  }

  lemma MayGrowFrom(h: Hash, r: Run, x: Run, phase: Phase, kind: Text, u: int, v: int, time: int)
    requires Good(h, r, time) && x == r.(approval := x.approval, stopStatus := x.stopStatus, outcome := x.outcome)
    requires EventType(kind) && time <= u <= v && ValidStamp(u) && ValidStamp(v)
    requires ValidApproval(x.approval) && x.approval.digest == r.approval.digest
             && x.approval.expiresAt == r.approval.expiresAt
    requires Story(phase, Grown(x, phase, kind, u, v).events) && Standing(Grown(x, phase, kind, u, v))
    requires OutcomeFits(x.outcome, phase)
    ensures MayGrow(h, r, x, phase, kind, u, v, time)
  {
  }

  lemma StopStands(r: Run, reason: Text, kind: Text, u: int, v: int)
    ensures var x := Ended(r, Cancelled, reason, None).(stopStatus := StopConfirmed);
            Standing(Grown(x, Cancelled, kind, u, v))
                && x == r.(approval := x.approval, stopStatus := x.stopStatus, outcome := x.outcome)
  {
  }

  lemma StopGrows(h: Hash, r: Run, u: int, v: int, time: int)
    requires Good(h, r, time) && !Terminal(r.phase) && time <= u <= v && ValidStamp(u) && ValidStamp(v)
    ensures MayGrow(h, r, Stopped(r), Cancelled, StoppedKind(), u, v, time)
  {
    hide T, EventType, StopReason, StoppedKind, Story, Detail, OutcomeFits, ValidApproval, Normalized;
    assert ValidApproval(r.approval) && Story(r.phase, r.events) by { GoodApproval(h, r, time); }
    StoryStops(r.phase, r.events, Event(|r.events| + 1, StoppedKind(), v, Detail()));
    StopFits();
    StopStands(r, StopReason(), StoppedKind(), u, v);
    hide *;
    MayGrowFrom(h, r, Stopped(r), Cancelled, StoppedKind(), u, v, time);
  }

  lemma RestartFits()
    ensures EventType(RestartedKind())
            && OutcomeFits(Some(Outcome(OutcomeUnknown, RestartReason(), None)), OutcomeUnknown)
  {
    KindsValid();
    RestartReasonPlain();
  }

  lemma RestartGrows(h: Hash, r: Run, u: int, v: int, time: int)
    requires Good(h, r, time) && r.phase.Running? && time <= u <= v && ValidStamp(u) && ValidStamp(v)
    ensures MayGrow(h, r, Unknown(r), OutcomeUnknown, RestartedKind(), u, v, time)
  {
    RestartFits();
    hide T, EventType, Normalized, RestartReason, RestartedKind, Detail, Plain, OutcomeFits, StepKind;
    assert ValidApproval(r.approval) by { GoodApproval(h, r, time); }
    hide ValidApproval;
    var es := Grown(Unknown(r), OutcomeUnknown, RestartedKind(), u, v).events;
    assert es[..|es| - 1] == r.events;
  }

  lemma ApprovalGrows(h: Hash, r: Run, at: int, u: int, v: int, time: int)
    requires Good(h, r, time) && r.phase.WaitingForApproval? && at <= r.approval.expiresAt && ValidStamp(at)
    requires time <= u <= v && ValidStamp(u) && ValidStamp(v)
    ensures MayGrow(h, r, Approved(r, at), Running, StepKind(1), u, v, time)
  {
    KindsValid();
  }

  lemma StepGrows(h: Hash, r: Run, u: int, v: int, time: int)
    requires Good(h, r, time) && r.phase.Running? && |r.events| < 5
    requires time <= u <= v && ValidStamp(u) && ValidStamp(v)
    ensures MayGrow(h, r, r, Running, StepKind(|r.events|), u, v, time)
  {
    KindsValid();
  }

  lemma CheckGrows(h: Hash, r: Run, digest: Text, u: int, v: int, time: int)
    requires Good(h, r, time) && r.phase.Running? && |r.events| == 5 && Plain(digest)
    requires time <= u <= v && ValidStamp(u) && ValidStamp(v)
    ensures MayGrow(h, r, Ended(r, VerifiedSuccess, CheckReason(true), Some(digest)), VerifiedSuccess, StepKind(5), u,
                v, time)
  {
    KindsValid();
    CheckReasonPlain(true);
  }
}
