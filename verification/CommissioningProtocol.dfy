/**
 The commissioning controller as a state machine. Every await is a step boundary; an answer
 of None is a failed request. `recent` and `allowed` stand for the age of the last reading
 and for the host's permission to act.
 */
module CommissioningProtocol {
  import opened Options
  import opened Texts
  import opened Commissioning

  datatype Kind = Inspect | Prepare | Approve

  /** The request in flight, with the epoch it was issued in. */
  datatype Call =
    | Observe(revision: nat, expected: Status)
    | Recover(revision: nat, expected: Status)
    | Request(revision: nat, kind: Kind)

  datatype State = State(
    status: Option<Status>, available: bool, uncertain: bool,
    recoveryStatus: Option<Status>, recoveryAvailable: bool, requested: Option<Status>,
    approvals: set<Text>, recoveries: set<Text>, disposed: bool, epoch: nat,
    reading: Option<nat>, pending: Option<Call>, stop: Option<Status>)

  function Initial(status: Option<Status>): State {
    State(status, false, false, None, false, None, {}, {}, false, 0, None, None, None)
  }

  datatype Step =
    | StartRefresh
    | StatusArrives(next: Option<Status>, now: int)
    | StartStop(trialId: Text)
    | StopArrives(original: Option<Status>, cancelled: bool)
    | StartRecoveryInspect(trialId: Text, trialDigest: Text, allowed: bool)
    | ObservedArrives(next: Option<Status>, allowed: bool)
    | StartRecoveryConfirm(trialId: Text, trialDigest: Text, recoveryDigest: Text, confirmed: bool, recent: bool,
            allowed: bool, now: int)
    | RecoveryArrives(next: Option<Status>)
    | StartInspect(recent: bool, allowed: bool)
    | StartPrepare(ready: bool, recent: bool, allowed: bool)
    | StartApprove(trialId: Text, trialDigest: Text, approved: bool, recent: bool, allowed: bool, now: int)
    | RequestArrives(next: Option<Status>)
    | InvalidateRecovery
    | Dispose

  predicate Active(s: State) { s.status.Some? && Unresolved(s.status.value) }

  // ---------- taking responses in ----------

  /** An exact reading never clears an unknown trial and never takes a running one back to waiting. */
  predicate Downgrades(before: Trial, after: Trial) {
    (before.phase.Unknown? && !after.phase.Unknown?) || (before.phase.Moving? && after.phase.Waiting?)
  }

  predicate MayAccept(s: State, next: Status) {
    Active(s) ==> CheckBound(next, s.status.value) && !Downgrades(s.status.value.trial.value, next.trial.value)
  }

  function TrialName(v: Option<Status>): Option<(Text, Text)> {
    if v.Some? && v.value.trial.Some? then Some((v.value.trial.value.trialId, v.value.trial.value.digest)) else None
  }

  function Take(s: State, next: Status): State {
    var kept := if TrialName(s.status) != TrialName(Some(next)) then s.(recoveryStatus := None, requested := None,
            recoveryAvailable := false) else s;
    var cleared := Cleared(next, if s.status.Some? then s.status.value else next);
    var noted := if cleared then kept.(recoveryStatus := Some(next), recoveryAvailable := true) else kept;
    noted.(status := Some(next), available := true, uncertain := false)
  }

  function TakeRecovery(s: State, next: Status, expected: Status): State {
    var noted := s.(recoveryStatus := Some(next), recoveryAvailable := true);
    if Cleared(next, expected) then noted.(status := Some(next), available := true, uncertain := false) else noted
  }

  function ReadingFailed(s: State): State { s.(recoveryAvailable := false, available := false) }

  /** Renewing an inspected offer: None where it changed or expired. */
  function Renewed(s: State, next: Status, now: int): Option<bool> {
    if !s.recoveryAvailable || s.recoveryStatus.None? || s.recoveryStatus.value.recovery.None? then Some(false)
    else if s.status.None? || !RecoveryBound(next, s.status.value) then None
    else if next.nodeSessionId != s.recoveryStatus.value.nodeSessionId || next.recovery.None?
            || next.recovery.value.digest != s.recoveryStatus.value.recovery.value.digest
            || next.recovery.value.expiresAt <= now then None
    else Some(true)
  }

  function Read(s: State, next: Status, recoveryOnly: bool, now: int): State {
    var renewed := Renewed(s, next, now);
    if renewed.None? then ReadingFailed(s)
    else
      var t := if renewed.value then s.(recoveryStatus := Some(next)) else s;
      if recoveryOnly || (renewed.value && next.nodeSessionId != s.status.value.nodeSessionId) then t
      else if MayAccept(t, next) then Take(t, next) else ReadingFailed(t)
  }

  // ---------- steps ----------

  function Invalidated(s: State): State { s.(epoch := s.epoch + 1, recoveryAvailable := false) }

  function StopUnconfirmed(s: State): State { s.(uncertain := true, available := false) }

  function RequestFailed(s: State, kind: Kind): State { s.(uncertain := !kind.Inspect?, available := false) }

  predicate MayRecover(s: State, trialId: Text, trialDigest: Text, allowed: bool) {
    && !s.disposed && s.pending.None? && s.stop.None? && allowed && Active(s)
    && trialId == s.status.value.trial.value.trialId && trialDigest == s.status.value.trial.value.digest
  }

  predicate MayConfirm(s: State, recoveryDigest: Text, confirmed: bool, recent: bool, now: int)
    requires s.status.Some?
  {
    && s.recoveryAvailable && recent && s.recoveryStatus.Some? && confirmed
    && s.recoveryStatus.value.canConfirmRecovery && s.recoveryStatus.value.recovery.Some?
    && s.recoveryStatus.value.recovery.value.ready
    && s.recoveryStatus.value.recovery.value.expiresAt > now
    && recoveryDigest == s.recoveryStatus.value.recovery.value.digest
    && RecoveryBound(s.recoveryStatus.value, s.status.value)
    && RecoveryKey(s.recoveryStatus.value.nodeSessionId, s.recoveryStatus.value.trial.value.trialId,
            recoveryDigest) !in s.recoveries
  }

  predicate MayRequest(s: State, recent: bool, allowed: bool) {
    !s.disposed && s.pending.None? && s.stop.None? && s.available && recent && allowed && s.status.Some?
  }

  predicate MayApprove(s: State, trialId: Text, trialDigest: Text, approved: bool, now: int)
    requires s.status.Some?
  {
    var v := s.status.value;
    && v.canApprove && v.trial.Some? && v.trial.value.phase.Waiting? && v.trial.value.stopStatus.None?
    && !s.uncertain && approved && trialId == v.trial.value.trialId && trialDigest == v.trial.value.digest
    && v.trial.value.approvalExpiresAt > now && ApprovalKey(v.nodeSessionId, trialId) !in s.approvals
  }

  function Issue(s: State, kind: Kind): State { s.(epoch := s.epoch + 1, pending := Some(Request(s.epoch + 1, kind))) }

  function Observed(s: State, call: Call, next: Option<Status>, allowed: bool): State
    requires call.Observe?
  {
    var current := call.revision == s.epoch;
    if next.None? || !RecoveryBound(next.value, call.expected) then (if current then s.(recoveryAvailable := false)
                                                                     else s)
    else if s.disposed || !current || !allowed then s
    else
      var t := s.(requested := next);
      if Cleared(next.value, call.expected) then TakeRecovery(t, next.value, call.expected)
      else if !next.value.canInspectRecovery then t.(recoveryAvailable := false)
      else t.(pending := Some(Recover(call.revision, call.expected)))
  }

  function StatusAnswered(recoveryOnly: bool, s: State, next: Option<Status>, now: int): State {
    if s.reading.None? then s
    else
      var t := s.(reading := None);
      if s.disposed || s.reading.value != s.epoch then t
      else if next.None? then ReadingFailed(t) else Read(t, next.value, recoveryOnly, now)
  }

  /** The Stop answer carries no epoch: while a Stop is pending nothing else may change the status. */
  function StopAnswered(s: State, original: Option<Status>, cancelled: bool): State {
    if s.stop.None? then s
    else
      var t := s.(stop := None);
      if original.None? || !cancelled || Cleared(original.value, s.stop.value) || !MayAccept(t, original.value) then
        StopUnconfirmed(t)
      else Take(t, original.value)
  }

  function ObservedAnswered(s: State, next: Option<Status>, allowed: bool): State {
    if s.pending.None? || !s.pending.value.Observe? then s
    else Observed(s.(pending := None), s.pending.value, next, allowed)
  }

  function RecoveryAnswered(s: State, next: Option<Status>): State {
    if s.pending.None? || !s.pending.value.Recover? then s
    else
      var t, call := s.(pending := None), s.pending.value;
      if call.revision != s.epoch then t
      else if next.None? || (!s.disposed && !RecoveryBound(next.value, call.expected)) then
             t.(recoveryAvailable := false)
      else if s.disposed then t
      else TakeRecovery(t, next.value, call.expected)
  }

  function RequestAnswered(s: State, next: Option<Status>): State {
    if s.pending.None? || !s.pending.value.Request? then s
    else
      var t, call := s.(pending := None), s.pending.value;
      if call.revision != s.epoch then t
      else if next.None? then RequestFailed(t, call.kind)
      else if s.disposed then t
      else if MayAccept(t, next.value) then Take(t, next.value) else RequestFailed(t, call.kind)
  }

  /** A confirmation is sent and noted as attempted. */
  function Confirming(s: State, recoveryDigest: Text): State
    requires s.status.Some? && s.recoveryStatus.Some? && s.recoveryStatus.value.trial.Some?
  {
    var current := s.recoveryStatus.value;
    Invalidated(s).(pending := Some(Recover(s.epoch + 1, s.status.value)), requested := s.recoveryStatus,
      recoveries := s.recoveries
                    + {RecoveryKey(current.nodeSessionId, current.trial.value.trialId, recoveryDigest)})
  }

  function Next(recoveryOnly: bool, s: State, e: Step): State {
    match e
    case StartRefresh =>
      if s.disposed || s.reading.Some? || s.pending.Some? || s.stop.Some? then s else s.(reading := Some(s.epoch))
    case StatusArrives(next, now) => StatusAnswered(recoveryOnly, s, next, now)
    case StartStop(trialId) =>
      if s.disposed || !Active(s) || s.status.value.trial.value.trialId != trialId || s.stop.Some? then s
      else Invalidated(s).(stop := s.status)
    case StopArrives(original, cancelled) => StopAnswered(s, original, cancelled)
    case StartRecoveryInspect(trialId, trialDigest, allowed) =>
      if !MayRecover(s, trialId, trialDigest, allowed) then s
      else Invalidated(s).(pending := Some(Observe(s.epoch + 1, s.status.value)))
    case ObservedArrives(next, allowed) => ObservedAnswered(s, next, allowed)
    case StartRecoveryConfirm(trialId, trialDigest, recoveryDigest, confirmed, recent, allowed, now) =>
      if !MayRecover(s, trialId, trialDigest, allowed) || !MayConfirm(s, recoveryDigest, confirmed, recent, now) then s
      else Confirming(s, recoveryDigest)
    case RecoveryArrives(next) => RecoveryAnswered(s, next)
    case StartInspect(recent, allowed) =>
      if MayRequest(s, recent, allowed) && s.status.value.canInspect && !Active(s)
          && !s.uncertain then Issue(s, Inspect) else s
    case StartPrepare(ready, recent, allowed) =>
      if MayRequest(s, recent, allowed) && s.status.value.canPrepare && !Active(s) && !s.uncertain
          && ready then Issue(s, Prepare) else s
    case StartApprove(trialId, trialDigest, approved, recent, allowed, now) =>
      if MayRequest(s, recent, allowed) && MayApprove(s, trialId, trialDigest, approved, now) then
        Issue(s, Approve).(approvals := s.approvals + {ApprovalKey(s.status.value.nodeSessionId, trialId)})
      else s
    case RequestArrives(next) => RequestAnswered(s, next)
    case InvalidateRecovery => Invalidated(s)
    case Dispose => s.(disposed := true, epoch := s.epoch + 1)
  }

  // ---------- what every step keeps ----------

  /**
   A recovery call of the current epoch is about the current status, and a Stop outdates every
   request issued before it.
   */
  ghost predicate Inv(s: State) {
    && (s.available ==> s.status.Some?)
    && (s.reading.Some? ==> s.reading.value <= s.epoch)
    && (s.pending.Some? ==> s.pending.value.revision <= s.epoch)
    && (s.reading.Some? && s.pending.Some? ==> s.reading.value < s.pending.value.revision)
    && (s.pending.Some? && !s.pending.value.Request? ==> Unresolved(s.pending.value.expected))
    && (s.pending.Some? && !s.pending.value.Request? && s.pending.value.revision == s.epoch ==>
          s.status == Some(s.pending.value.expected))
    && (s.stop.Some? ==> s.status == s.stop && Active(s))
    && (s.stop.Some? && s.reading.Some? ==> s.reading.value < s.epoch)
    && (s.stop.Some? && s.pending.Some? ==> s.pending.value.revision < s.epoch)
  }

  /** Taking a response in concerns neither the requests in flight nor the epoch. */
  ghost predicate SameRequests(s: State, t: State) {
    && t.epoch == s.epoch && t.reading == s.reading && t.stop == s.stop && t.disposed == s.disposed
    && t.approvals == s.approvals && t.recoveries == s.recoveries
    && ((s.available ==> s.status.Some?) ==> (t.available ==> t.status.Some?))
  }

  /** Every status now held was held before or is the response. */
  ghost predicate From(s: State, t: State, next: Status) {
    && (t.status == s.status || t.status == Some(next))
    && (t.recoveryStatus == s.recoveryStatus || t.recoveryStatus == Some(next) || t.recoveryStatus == None)
  }

  lemma TakeFrame(s: State, next: Status)
    ensures SameRequests(s, Take(s, next)) && Take(s, next).pending == s.pending && From(s, Take(s, next), next)
  {
    hide Cleared;
  }

  lemma ReadFrame(s: State, next: Status, recoveryOnly: bool, now: int)
    ensures var t := Read(s, next, recoveryOnly, now); SameRequests(s, t) && t.pending == s.pending && From(s, t, next)
  {
    hide MayAccept, Cleared, RecoveryBound, Take;
    TakeFrame(s, next);
    TakeFrame(s.(recoveryStatus := Some(next)), next);
  }

  lemma RecoveryFrame(s: State, next: Status, expected: Status)
    ensures var t := TakeRecovery(s, next, expected); SameRequests(s, t) && t.pending == s.pending && From(s, t, next)
  {
    hide Cleared;
  }

  lemma ObservedFrame(s: State, call: Call, next: Option<Status>, allowed: bool)
    requires call.Observe?
    ensures var t := Observed(s, call, next, allowed);
            && SameRequests(s, t) && (t.pending == s.pending
                                      || t.pending == Some(Recover(call.revision, call.expected)))
            && (t.pending != s.pending || call.revision != s.epoch ==> t.status == s.status)
            && (next.None? ==> t.status == s.status && t.recoveryStatus == s.recoveryStatus)
            && (next.Some? ==> From(s, t, next.value))
  {
    hide Cleared, RecoveryBound, TakeRecovery;
    if next.Some? { RecoveryFrame(s.(requested := next), next.value, call.expected); }
  }

  predicate Response(e: Step) {
    e.StatusArrives? || e.StopArrives? || e.ObservedArrives? || e.RecoveryArrives? || e.RequestArrives?
  }

  function Answered(e: Step): Option<Status> {
    match e
    case StatusArrives(next, _) => next
    case StopArrives(original, _) => original
    case ObservedArrives(next, _) => next
    case RecoveryArrives(next) => next
    case RequestArrives(next) => next
    case _ => None
  }

  /** What a step may change of what is held and noted. */
  ghost predicate Changes(s: State, t: State, next: Option<Status>) {
    && (if next.Some? then From(s, t, next.value) else t.status == s.status && t.recoveryStatus == s.recoveryStatus)
    && t.approvals == s.approvals && t.recoveries == s.recoveries && t.epoch == s.epoch
  }

  lemma StatusAnsweredKeeps(recoveryOnly: bool, s: State, next: Option<Status>, now: int)
    requires Inv(s)
    ensures var t := StatusAnswered(recoveryOnly, s, next, now); Inv(t) && Changes(s, t, next)
  {
    hide Read, Unresolved;
    if next.Some? { ReadFrame(s.(reading := None), next.value, recoveryOnly, now); }
  }

  lemma StopAnsweredKeeps(s: State, original: Option<Status>, cancelled: bool)
    requires Inv(s)
    ensures var t := StopAnswered(s, original, cancelled); Inv(t) && Changes(s, t, original)
  {
    hide Take, Unresolved, MayAccept, Cleared;
    if original.Some? { TakeFrame(s.(stop := None), original.value); }
  }

  lemma ObservedAnsweredKeeps(s: State, next: Option<Status>, allowed: bool)
    requires Inv(s)
    ensures var t := ObservedAnswered(s, next, allowed); Inv(t) && Changes(s, t, next)
  {
    hide Observed, Unresolved;
    if s.pending.Some? && s.pending.value.Observe? {
      ObservedFrame(s.(pending := None), s.pending.value, next, allowed);
    }
  }

  lemma RecoveryAnsweredKeeps(s: State, next: Option<Status>)
    requires Inv(s)
    ensures var t := RecoveryAnswered(s, next); Inv(t) && Changes(s, t, next)
  {
    hide TakeRecovery, Unresolved, RecoveryBound;
    if next.Some? && s.pending.Some? && s.pending.value.Recover? {
      RecoveryFrame(s.(pending := None), next.value, s.pending.value.expected);
    }
  }

  lemma RequestAnsweredKeeps(s: State, next: Option<Status>)
    requires Inv(s)
    ensures var t := RequestAnswered(s, next); Inv(t) && Changes(s, t, next)
  {
    hide Take, Unresolved, MayAccept;
    if next.Some? { TakeFrame(s.(pending := None), next.value); }
  }

  lemma ResponseKeeps(recoveryOnly: bool, s: State, e: Step)
    requires Inv(s) && Response(e)
    ensures Inv(Next(recoveryOnly, s, e)) && Changes(s, Next(recoveryOnly, s, e), Answered(e))
  {
    hide Inv, Changes, StatusAnswered, StopAnswered, ObservedAnswered, RecoveryAnswered, RequestAnswered;
    match e
    case StatusArrives(next, now) => StatusAnsweredKeeps(recoveryOnly, s, next, now);
    case StopArrives(next, cancelled) => StopAnsweredKeeps(s, next, cancelled);
    case ObservedArrives(next, allowed) => ObservedAnsweredKeeps(s, next, allowed);
    case RecoveryArrives(next) => RecoveryAnsweredKeeps(s, next);
    case RequestArrives(next) => RequestAnsweredKeeps(s, next);
  }

  /** A request changes nothing that is held, and notes only what it sends. */
  lemma OtherKeeps(recoveryOnly: bool, s: State, e: Step)
    requires Inv(s) && !Response(e)
    ensures var t := Next(recoveryOnly, s, e);
            && Inv(t) && t.epoch >= s.epoch && t.status == s.status && t.recoveryStatus == s.recoveryStatus
            && s.approvals <= t.approvals && s.recoveries <= t.recoveries
  {
    hide Unresolved, MayConfirm, MayApprove, RecoveryKey, ApprovalKey, StatusAnswered, StopAnswered, ObservedAnswered,
         RecoveryAnswered, RequestAnswered;
  }

  lemma NextInv(recoveryOnly: bool, s: State, e: Step)
    requires Inv(s)
    ensures Inv(Next(recoveryOnly, s, e)) && Next(recoveryOnly, s, e).epoch >= s.epoch
  {
    hide Next, Inv;
    if Response(e) { ResponseKeeps(recoveryOnly, s, e); } else { OtherKeeps(recoveryOnly, s, e); }
  }

  /** Where a trial that is unresolved may go in one step: nowhere else, unless a receipt bound to it releases it. */
  predicate RetainedStep(a: Status, b: Status) {
    && Retains(b, a)
    && (b.nodeSessionId == a.nodeSessionId || Cleared(b, a))
    && (a.trial.value.phase.Unknown? ==> b.trial.value.phase.Unknown?)
    && (a.trial.value.phase.Moving? ==> !b.trial.value.phase.Waiting?)
  }

  lemma RetainedSelf(a: Status)
    requires Unresolved(a)
    ensures RetainedStep(a, a)
  {
  }

  lemma TakeRetains(s: State, next: Status)
    requires Active(s) && MayAccept(s, next)
    ensures RetainedStep(s.status.value, next)
  {
  }

  lemma RecoveryRetains(next: Status, expected: Status)
    requires Unresolved(expected) && RecoveryBound(next, expected) && Cleared(next, expected)
    ensures RetainedStep(expected, next)
  {
  }

  lemma OnlyAnswersSet(recoveryOnly: bool, s: State, e: Step)
    requires !Response(e)
    ensures Next(recoveryOnly, s, e).status == s.status
  {
    hide Unresolved, MayConfirm, MayRecover, RecoveryKey;
  }

  lemma AnswerRetains(recoveryOnly: bool, s: State, e: Step)
    requires Inv(s) && Active(s) && Response(e)
    ensures var t := Next(recoveryOnly, s, e); t.status.Some? && RetainedStep(s.status.value, t.status.value)
  {
    hide Unresolved, CheckBound, RecoveryBound, Cleared, Downgrades, RetainedStep;
    RetainedSelf(s.status.value);
    var t := Next(recoveryOnly, s, e);
    if t.status != s.status {
      if MayAccept(s, t.status.value) { TakeRetains(s, t.status.value); }
      if e.ObservedArrives? || e.RecoveryArrives? { RecoveryRetains(t.status.value, s.pending.value.expected); }
    }
  }

  /** While a trial is unresolved no step changes which trial it is or how it is bound. */
  lemma TrialRetained(recoveryOnly: bool, s: State, e: Step)
    requires Inv(s) && Active(s)
    ensures var t := Next(recoveryOnly, s, e); t.status.Some? && RetainedStep(s.status.value, t.status.value)
  {
    hide Unresolved, RetainedStep, Next, Inv;
    RetainedSelf(s.status.value);
    if Response(e) { AnswerRetains(recoveryOnly, s, e); } else { OnlyAnswersSet(recoveryOnly, s, e); }
  }

  /** The status clears an unknown outcome by a receipt for the trial and the configuration of the status before it. */
  predicate EndedBy(a: Status, b: Status) {
    && Cleared(b, b) && a.trial.Some? && b.recoveryClearance.value.trialId == a.trial.value.trialId
    && b.recoveryClearance.value.trialDigest == a.trial.value.digest
    && ConfigurationDigest(a) == Some(b.recoveryClearance.value.configurationDigest)
  }

  lemma RetainedEnds(a: Status, b: Status)
    requires Unresolved(a) && RetainedStep(a, b) && a.trial.value.phase.Unknown? && !Unresolved(b)
    ensures EndedBy(a, b)
  {
  }

  /** An unknown outcome ends only through a receipt for that trial and configuration. */
  lemma UnknownEndsByClearance(recoveryOnly: bool, s: State, e: Step)
    requires Inv(s) && Active(s) && s.status.value.trial.value.phase.Unknown? && !Active(Next(recoveryOnly, s, e))
    ensures var t := Next(recoveryOnly, s, e); t.status.Some? && EndedBy(s.status.value, t.status.value)
  {
    TrialRetained(recoveryOnly, s, e);
    hide Next, Inv, RetainedStep, EndedBy;
    RetainedEnds(s.status.value, Next(recoveryOnly, s, e).status.value);
  }

  /**
   A release by the recovery path always carries a receipt for the very trial, session, configuration
   and device that were retained.
   */
  lemma RecoveryReleaseMatches(recoveryOnly: bool, s: State, e: Step)
    requires Inv(s) && (e.ObservedArrives? || e.RecoveryArrives?)
    ensures var t := Next(recoveryOnly, s, e); Active(s) && !Active(t) ==> ReceiptFor(t.status, s.status)
  {
    hide RecoveryMatches, RecoveryBound, Unresolved;
  }

  /** What any one step does to a trial that is unresolved: it stays the same trial, or a receipt for it ends it. */
  ghost predicate Follows(s: State, t: State) {
    && Inv(t) && t.epoch >= s.epoch && s.approvals <= t.approvals && s.recoveries <= t.recoveries
    && (Active(s) ==> t.status.Some? && RetainedStep(s.status.value, t.status.value))
    && (Active(s) && s.status.value.trial.value.phase.Unknown? && !Active(t) ==>
          EndedBy(s.status.value, t.status.value))
  }

  lemma StepFollows(recoveryOnly: bool, s: State, e: Step)
    requires Inv(s)
    ensures Follows(s, Next(recoveryOnly, s, e))
  {
    hide Inv, Next, RetainedStep, EndedBy;
    NextInv(recoveryOnly, s, e);
    NotedGrows(recoveryOnly, s, e);
    if Active(s) {
      TrialRetained(recoveryOnly, s, e);
      if s.status.value.trial.value.phase.Unknown? && !Active(Next(recoveryOnly, s, e)) {
        UnknownEndsByClearance(recoveryOnly, s, e);
      }
    }
  }

  /** Every request in flight was issued in an earlier epoch. */
  predicate Outdated(s: State) {
    && (s.reading.Some? ==> s.reading.value < s.epoch)
    && (s.pending.Some? ==> s.pending.value.revision < s.epoch)
  }

  /** Once a Stop is pending every request in flight is outdated. */
  lemma StopOutdates(recoveryOnly: bool, s: State, trialId: Text)
    requires Inv(s)
    ensures var t := Next(recoveryOnly, s, StartStop(trialId)); t.stop.Some? ==> Outdated(t)
  {
    hide Unresolved;
  }

  /** The status carries a receipt for everything the earlier one names. */
  predicate ReceiptFor(later: Option<Status>, earlier: Option<Status>) {
    && later.Some? && earlier.Some? && later.value.recoveryClearance.Some?
    && RecoveryMatches(later.value.recoveryClearance.value, earlier.value)
  }

  /**
   With one exception the receipt also names the device and the session of that trial: it does so
   exactly when the response did.
   */
  lemma EndFullyBoundIff(a: Status, b: Status)
    requires Unresolved(a) && RetainedStep(a, b) && EndedBy(a, b)
    ensures RecoveryMatches(b.recoveryClearance.value, a)
       <==> b.configuration.value.deviceIdentity == a.configuration.value.deviceIdentity
            && OriginSession(b) == OriginSession(a)
  {
  }

  /** A stale answer, to a request issued in an earlier epoch, leaves the status alone. */
  lemma StaleAnswerIgnored(recoveryOnly: bool, s: State, e: Step)
    requires Inv(s)
    requires (e.StatusArrives? && s.reading.Some? && s.reading.value < s.epoch)
          || ((e.ObservedArrives? || e.RecoveryArrives? || e.RequestArrives?) && s.pending.Some?
              && s.pending.value.revision < s.epoch)
    ensures Next(recoveryOnly, s, e).status == s.status && Next(recoveryOnly, s, e).uncertain == s.uncertain
  {
    hide Cleared, RecoveryBound, Unresolved, CheckBound;
  }

  // ---------- what is sent ----------

  datatype Send = ApproveSent(session: Text, trial: Text) | ConfirmSent(session: Text, trial: Text, digest: Text)

  /** The authority a step sends to the Node, if any. */
  function Sends(s: State, e: Step): Option<Send> {
    match e
    case StartApprove(trialId, trialDigest, approved, recent, allowed, now) =>
      if MayRequest(s, recent, allowed) && MayApprove(s, trialId, trialDigest, approved, now) then
        Some(ApproveSent(s.status.value.nodeSessionId, trialId))
      else None
    case StartRecoveryConfirm(trialId, trialDigest, recoveryDigest, confirmed, recent, allowed, now) =>
      if MayRecover(s, trialId, trialDigest, allowed) && MayConfirm(s, recoveryDigest, confirmed, recent, now) then
        Some(ConfirmSent(s.recoveryStatus.value.nodeSessionId, trialId, recoveryDigest))
      else None
    case _ => None
  }

  predicate Noted(s: State, m: Send) {
    match m
    case ApproveSent(session, trial) => ApprovalKey(session, trial) in s.approvals
    case ConfirmSent(session, trial, digest) => RecoveryKey(session, trial, digest) in s.recoveries
  }

  lemma NotedGrows(recoveryOnly: bool, s: State, e: Step)
    requires Inv(s)
    ensures var t := Next(recoveryOnly, s, e); s.approvals <= t.approvals && s.recoveries <= t.recoveries
  {
    hide Next, Inv;
    if Response(e) { ResponseKeeps(recoveryOnly, s, e); } else { OtherKeeps(recoveryOnly, s, e); }
  }

  /** A send was not noted before, and is noted with it. */
  lemma SendNoted(recoveryOnly: bool, s: State, e: Step)
    requires Sends(s, e).Some?
    ensures !Noted(s, Sends(s, e).value) && Noted(Next(recoveryOnly, s, e), Sends(s, e).value)
  {
    hide Cleared, Unresolved, CheckBound, RecoveryKey, ApprovalKey;
  }

  /** What a step sends was not noted before and is noted now; a step that sends nothing notes nothing. */
  ghost predicate SendsOnce(s: State, t: State, e: Step) {
    match Sends(s, e)
    case Some(m) => !Noted(s, m) && Noted(t, m)
    case None => t.approvals == s.approvals && t.recoveries == s.recoveries
  }

  lemma StepSendsOnce(recoveryOnly: bool, s: State, e: Step)
    requires !Response(e)
    ensures SendsOnce(s, Next(recoveryOnly, s, e), e)
  {
    if Sends(s, e).Some? {
      SendNoted(recoveryOnly, s, e);
    } else {
      hide MayRequest, MayApprove, MayRecover, MayConfirm, RecoveryKey, ApprovalKey, Active;
    }
  }

  ghost predicate CleanStatus(v: Option<Status>) {
    v.Some? ==> NoColon(v.value.nodeSessionId) && (v.value.trial.Some? ==> NoColon(v.value.trial.value.trialId))
  }

  ghost predicate Clean(s: State) { CleanStatus(s.status) && CleanStatus(s.recoveryStatus) }

  lemma CleanKept(recoveryOnly: bool, s: State, e: Step)
    requires Inv(s) && Clean(s) && CleanStatus(Answered(e))
    ensures Clean(Next(recoveryOnly, s, e))
  {
    hide Next, Inv;
    if Response(e) { ResponseKeeps(recoveryOnly, s, e); } else { OtherKeeps(recoveryOnly, s, e); }
  }

  /** Only the very send it names is noted newly. */
  lemma NotedBySend(recoveryOnly: bool, s: State, e: Step, m: Send)
    requires Inv(s) && Clean(s) && NoColon(m.session) && NoColon(m.trial) && !Noted(s, m)
             && Noted(Next(recoveryOnly, s, e), m)
    ensures Sends(s, e) == Some(m)
  {
    if Response(e) {
      hide Next, Inv;
      ResponseKeeps(recoveryOnly, s, e);
    } else {
      hide Inv, Unresolved, NoColon, RecoveryKey, ApprovalKey, StatusAnswered, StopAnswered, ObservedAnswered,
           RecoveryAnswered, RequestAnswered;
      match e
      case StartApprove(trialId, _, _, _, _, _) =>
        if m.ApproveSent? { ApprovalKeyInjective(s.status.value.nodeSessionId, m.session, trialId, m.trial); }
      case StartRecoveryConfirm(trialId, _, recoveryDigest, _, _, _, _) =>
        if m.ConfirmSent? {
          RecoveryKeyInjective(s.recoveryStatus.value.nodeSessionId, trialId, recoveryDigest, m.session, m.trial,
                  m.digest);
        }
      case _ =>
    }
  }

  lemma ApprovalKeyInjective(a: Text, b: Text, x: Text, y: Text)
    requires NoColon(a) && NoColon(b)
    ensures ApprovalKey(a, x) == ApprovalKey(b, y) <==> a == b && x == y
  {
    KeyInjective(a, b, x, y);
  }
}
