/**
 What the gripper check controller sends and takes in, field by field: which requests become
 pending over whole runs, and what each answer leaves.
 */
module CommissioningRequests {
  import opened Options
  import opened Texts
  import opened Commissioning
  import opened CommissioningProtocol
  import opened CommissioningRuns

  // ---------- one response about another ----------

  /** The values that make a trial the trial it is. */
  function Identity(t: Trial): (Text, Text, real, real, real, int) {
    (t.trialId, t.digest, t.startPosition, t.targetPosition, t.maximumDurationSeconds, t.approvalExpiresAt)
  }

  function TrialSession(v: Status): Text {
    match v.trialNodeSessionId
    case Some(session) => session
    case None => v.nodeSessionId
  }

  /** The receipt that would clear the trial of a status, if it holds a trial and a configuration. */
  function ReceiptAbout(v: Status): Option<Binding> {
    match (v.trial, v.configuration)
    case (Some(t), Some(c)) => Some(Binding(t.trialId, t.digest, TrialSession(v), c.digest, c.deviceIdentity))
    case _ => None
  }

  /** The response reports an unknown outcome and carries the receipt for its own trial and for the expected one. */
  predicate Clears(v: Status, expected: Status) {
    && v.trial.Some? && v.trial.value.phase == Unknown && v.recoveryClearance.Some?
    && v.recoveryClearance == ReceiptAbout(v) && v.recoveryClearance == ReceiptAbout(expected)
  }

  lemma ClearedIff(v: Status, expected: Status)
    ensures Cleared(v, expected) <==> Clears(v, expected)
  {
  }

  /** The trial waits, moves or is unknown, or its Stop was not confirmed; no receipt clears it. */
  predicate StillOpen(v: Status) {
    && v.trial.Some? && !Clears(v, v)
    && (v.trial.value.phase in {Waiting, Moving, Unknown} || v.trial.value.stopStatus != Some(StopDone))
  }

  lemma UnresolvedIff(v: Status)
    ensures Unresolved(v) <==> StillOpen(v)
  {
    hide Cleared, Clears;
    ClearedIff(v, v);
  }

  /** A response about the retained trial: its session, its configuration and device, its values, outcome unknown. */
  predicate NamesRetained(v: Status, expected: Status) {
    && v.trial.Some? && v.trial.value.phase == Unknown && expected.trial.Some?
    && Identity(v.trial.value) == Identity(expected.trial.value)
    && v.configuration.Some? && v.configuration == expected.configuration
    && v.trialNodeSessionId == Some(TrialSession(expected))
  }

  lemma RecoveryBoundIff(v: Status, expected: Status)
    ensures RecoveryBound(v, expected) <==> NamesRetained(v, expected)
  {
  }

  /**
   A response that may replace the held status: anything where no trial is open; otherwise the same
   session, configuration digest and trial, an unknown outcome kept and a moving trial not waiting again.
   */
  predicate Replaces(next: Status, held: Option<Status>) {
    held.Some? && StillOpen(held.value) ==>
      && next.trial.Some? && Identity(next.trial.value) == Identity(held.value.trial.value)
      && next.nodeSessionId == held.value.nodeSessionId && next.configuration.Some? == held.value.configuration.Some?
      && (next.configuration.Some? ==> next.configuration.value.digest == held.value.configuration.value.digest)
      && (held.value.trial.value.phase == Unknown ==> next.trial.value.phase == Unknown)
      && (held.value.trial.value.phase == Moving ==> next.trial.value.phase != Waiting)
  }

  lemma MayAcceptIff(s: State, next: Status)
    ensures MayAccept(s, next) <==> Replaces(next, s.status)
  {
    hide Cleared, Clears;
    if s.status.Some? { UnresolvedIff(s.status.value); }
    hide Unresolved, StillOpen;
    assert Active(s) ==> s.status.value.trial.Some? by { if Active(s) { OpenHasTrial(s.status.value); } }
  }

  lemma OpenHasTrial(v: Status)
    requires Unresolved(v)
    ensures v.trial.Some?
  {
  }

  /** The keys of what was attempted join session, trial and digest by colons. */
  lemma KeysAre(session: Text, trial: Text, digest: Text)
    ensures ApprovalKey(session, trial) == session + T(":") + trial
    ensures RecoveryKey(session, trial, digest) == session + T(":") + trial + T(":") + digest
  {
    assert T(":") == [COLON];
  }

  // ---------- which requests are made ----------

  predicate Idle(s: State) { !s.disposed && s.pending.None? && s.stop.None? }

  /** The request names the open trial that the view holds. */
  predicate NamesOpen(s: State, trialId: Text, trialDigest: Text) {
    && s.status.Some? && StillOpen(s.status.value)
    && s.status.value.trial.value.trialId == trialId && s.status.value.trial.value.digest == trialDigest
  }

  /**
   The operator said yes to the trial on view: it waits without a Stop, may be approved and has not
   expired; the reading is available and recent, and nothing is uncertain.
   */
  predicate ApproveGiven(s: State, e: Step) {
    && e.StartApprove? && e.approved && e.recent && e.allowed && Idle(s) && s.available && !s.uncertain
    && s.status.Some? && s.status.value.canApprove
    && match s.status.value.trial
       case Some(t) => t.trialId == e.trialId && t.digest == e.trialDigest && t.phase == Waiting
                       && t.stopStatus == None && e.now < t.approvalExpiresAt
       case None => false
  }

  /**
   The operator confirmed the recovery inspection on view: ready, unexpired, of that digest, about
   the retained trial that the request names.
   */
  predicate ConfirmGiven(s: State, e: Step) {
    && e.StartRecoveryConfirm? && e.confirmed && e.recent && e.allowed && Idle(s)
    && NamesOpen(s, e.trialId, e.trialDigest)
    && s.recoveryAvailable && s.recoveryStatus.Some? && s.recoveryStatus.value.canConfirmRecovery
    && NamesRetained(s.recoveryStatus.value, s.status.value)
    && match s.recoveryStatus.value.recovery
       case Some(offer) => offer.ready && offer.digest == e.recoveryDigest && e.now < offer.expiresAt
       case None => false
  }

  predicate ObserveGiven(s: State, e: Step) {
    e.StartRecoveryInspect? && e.allowed && Idle(s) && NamesOpen(s, e.trialId, e.trialDigest)
  }

  /** Nothing open or uncertain, and a recent reading that says the request may be made. */
  predicate RequestGiven(s: State, e: Step, kind: Kind) {
    && Idle(s) && s.available && !s.uncertain && s.status.Some? && !StillOpen(s.status.value)
    && match kind
       case Inspect => e.StartInspect? && e.recent && e.allowed && s.status.value.canInspect
       case Prepare => e.StartPrepare? && e.recent && e.allowed && e.ready && s.status.value.canPrepare
       case Approve => false
  }

  predicate StopGiven(s: State, e: Step) {
    && e.StartStop? && !s.disposed && s.stop.None? && s.status.Some? && StillOpen(s.status.value)
    && s.status.value.trial.value.trialId == e.trialId
  }

  predicate ApprovalBegins(s: State, t: State) {
    s.pending.None? && t.pending.Some? && t.pending.value.Request? && t.pending.value.kind == Approve
  }

  predicate ConfirmationBegins(s: State, t: State) { s.pending.None? && t.pending.Some? && t.pending.value.Recover? }

  /** An answer sets nothing going where nothing was. */
  lemma AnswersBeginNothing(recoveryOnly: bool, s: State, e: Step)
    requires Response(e) && s.pending.None?
    ensures Next(recoveryOnly, s, e).pending.None?
  {
    hide MayAccept, Take, Read, Cleared;
    match e {
      case StatusArrives(next, now) =>
        if next.Some? { ReadFrame(s.(reading := None), next.value, recoveryOnly, now); }
      case StopArrives(next, _) => if next.Some? { TakeFrame(s.(stop := None), next.value); }
      case _ =>
    }
  }

  lemma ApprovalStep(recoveryOnly: bool, s: State, e: Step)
    ensures ApprovalBegins(s, Next(recoveryOnly, s, e)) <==>
              ApproveGiven(s, e) && ApprovalKey(s.status.value.nodeSessionId, e.trialId) !in s.approvals
  {
    hide Unresolved, ApprovalKey, MayConfirm, RecoveryKey, StatusAnswered, StopAnswered, ObservedAnswered,
         RecoveryAnswered, RequestAnswered;
    if Response(e) && s.pending.None? { AnswersBeginNothing(recoveryOnly, s, e); }
  }

  lemma RecoverGiven(s: State, trialId: Text, trialDigest: Text, allowed: bool)
    ensures MayRecover(s, trialId, trialDigest, allowed) <==> allowed && Idle(s) && NamesOpen(s, trialId, trialDigest)
  {
    if s.status.Some? { UnresolvedIff(s.status.value); }
    hide Unresolved, StillOpen;
    if Active(s) { OpenHasTrial(s.status.value); }
  }

  lemma ConfirmationStep(recoveryOnly: bool, s: State, e: Step)
    ensures ConfirmationBegins(s, Next(recoveryOnly, s, e)) <==>
              ConfirmGiven(s, e)
              && RecoveryKey(s.recoveryStatus.value.nodeSessionId, e.trialId, e.recoveryDigest) !in s.recoveries
  {
    hide MayApprove, MayRequest, ApprovalKey, RecoveryKey, StatusAnswered, StopAnswered, ObservedAnswered,
         RecoveryAnswered, RequestAnswered, Active, Unresolved, StillOpen, RecoveryBound;
    if Response(e) && s.pending.None? { AnswersBeginNothing(recoveryOnly, s, e); }
    if e.StartRecoveryConfirm? {
      RecoverGiven(s, e.trialId, e.trialDigest, e.allowed);
      if s.status.Some? && s.recoveryStatus.Some? { RecoveryBoundIff(s.recoveryStatus.value, s.status.value); }
    }
  }

  lemma OpenIff(s: State)
    ensures Active(s) <==> s.status.Some? && StillOpen(s.status.value)
    ensures Active(s) ==> s.status.value.trial.Some?
  {
    if s.status.Some? { UnresolvedIff(s.status.value); }
  }

  /** A request that begins is of a new epoch; one about recovery is about the held status. */
  predicate BegunAs(s: State, t: State) {
    && t.epoch == s.epoch + 1 && t.pending.Some? && t.pending.value.revision == t.epoch
    && (!t.pending.value.Request? ==> s.status == Some(t.pending.value.expected))
  }

  predicate RequestBegins(s: State, t: State, kind: Kind) {
    s.pending.None? && t.pending.Some? && t.pending.value.Request? && t.pending.value.kind == kind
  }

  predicate ObserveBegins(s: State, t: State) { s.pending.None? && t.pending.Some? && t.pending.value.Observe? }

  /** Inspecting, preparing and observing recovery each begin exactly when they are given. */
  lemma RequestsIff(recoveryOnly: bool, s: State, e: Step)
    ensures var t := Next(recoveryOnly, s, e);
            && (RequestBegins(s, t, Inspect) <==> RequestGiven(s, e, Inspect))
            && (RequestBegins(s, t, Prepare) <==> RequestGiven(s, e, Prepare))
            && (ObserveBegins(s, t) <==> ObserveGiven(s, e))
            && (s.pending.None? && t.pending.Some? ==> BegunAs(s, t))
  {
    hide StatusAnswered, StopAnswered, ObservedAnswered, RecoveryAnswered, RequestAnswered, Unresolved, StillOpen,
         MayApprove, MayConfirm, RecoveryBound, RecoveryKey, ApprovalKey;
    OpenIff(s);
    if Response(e) && s.pending.None? { AnswersBeginNothing(recoveryOnly, s, e); }
    if e.StartRecoveryConfirm? { RecoverGiven(s, e.trialId, e.trialDigest, e.allowed); }
    hide Active;
  }

  /** What a request step leaves of everything else. */
  ghost predicate RequestLeaves(s: State, t: State, e: Step) {
    var confirms := ConfirmationBegins(s, t);
    var drops := e.InvalidateRecovery? || StopGiven(s, e) || ObserveGiven(s, e) || confirms;
    && t.status == s.status && t.available == s.available && t.uncertain == s.uncertain
    && t.recoveryStatus == s.recoveryStatus && t.disposed == (s.disposed || e.Dispose?)
    && t.recoveryAvailable == (s.recoveryAvailable && !drops)
    && t.requested == (if confirms then s.recoveryStatus else s.requested)
    && t.epoch == (if drops || e.Dispose? || t.pending != s.pending then s.epoch + 1 else s.epoch)
    && t.stop == (if StopGiven(s, e) then s.status else s.stop)
    && t.reading == (if s.reading.None? && e.StartRefresh? && Idle(s) then Some(s.epoch) else s.reading)
    && (s.pending.Some? ==> t.pending == s.pending)
  }

  lemma RequestStep(recoveryOnly: bool, s: State, e: Step)
    requires !Response(e)
    ensures RequestLeaves(s, Next(recoveryOnly, s, e), e)
  {
    hide StatusAnswered, StopAnswered, ObservedAnswered, RecoveryAnswered, RequestAnswered, Unresolved, StillOpen,
         MayApprove, MayConfirm, RecoveryBound, RecoveryKey, ApprovalKey;
    match e {
      case StartRecoveryConfirm(trialId, trialDigest, _, _, _, allowed, _) =>
        RecoverGiven(s, trialId, trialDigest, allowed);
        hide NamesOpen, Active, MayRequest;
      case StartRecoveryInspect(trialId, trialDigest, allowed) =>
        RecoverGiven(s, trialId, trialDigest, allowed);
        hide NamesOpen, Active, MayRecover, MayRequest;
      case StartStop(_) =>
        OpenIff(s);
        hide Active, MayRecover, MayRequest;
      case _ => hide NamesOpen, MayRecover;
    }
  }

  // ---------- what answers leave ----------

  predicate SameName(held: Option<Status>, next: Status) {
    match (if held.Some? then held.value.trial else None, next.trial)
    case (Some(a), Some(b)) => a.trialId == b.trialId && a.digest == b.digest
    case (None, None) => true
    case _ => false
  }

  /** The reading is held; what was shown of recovery belongs to the trial, or the reading shows its clearance. */
  predicate Holds(u: State, t: State, next: Status) {
    var same := SameName(u.status, next);
    var clears := Clears(next, if u.status.Some? then u.status.value else next);
    && t.status == Some(next) && t.available && !t.uncertain
    && t.recoveryStatus == (if clears then Some(next) else if same then u.recoveryStatus else None)
    && t.recoveryAvailable == (clears || (same && u.recoveryAvailable))
    && t.requested == (if same then u.requested else None)
    && t == u.(status := t.status, available := true, uncertain := false, recoveryStatus := t.recoveryStatus,
               recoveryAvailable := t.recoveryAvailable, requested := t.requested)
  }

  lemma TakeHolds(u: State, next: Status)
    ensures Holds(u, Take(u, next), next)
  {
    hide Cleared, Clears;
    ClearedIff(next, if u.status.Some? then u.status.value else next);
  }

  /** The recovery reading is shown; where it clears the expected trial it is also the status. */
  predicate Shows(u: State, t: State, next: Status, expected: Status) {
    var shown := u.(recoveryStatus := Some(next), recoveryAvailable := true);
    t == if Clears(next, expected) then shown.(status := Some(next), available := true, uncertain := false) else shown
  }

  /** An inspected offer is on view. */
  predicate Offered(s: State) {
    s.recoveryAvailable && s.recoveryStatus.Some? && s.recoveryStatus.value.recovery.Some?
  }

  /** The reading is of the very offer on view, not expired, from the same session and about the retained trial. */
  predicate Renews(s: State, next: Status, now: int) {
    && Offered(s) && s.status.Some? && NamesRetained(next, s.status.value)
    && next.nodeSessionId == s.recoveryStatus.value.nodeSessionId && next.recovery.Some?
    && next.recovery.value.digest == s.recoveryStatus.value.recovery.value.digest
    && now < next.recovery.value.expiresAt
  }

  /** A reading of recovery from another session than the trial's is shown but is not the trial's status. */
  predicate OnlyShown(recoveryOnly: bool, s: State, next: Status) {
    recoveryOnly || (Offered(s) && s.status.Some? && next.nodeSessionId != s.status.value.nodeSessionId)
  }

  predicate ReadingFits(recoveryOnly: bool, s: State, next: Option<Status>, now: int) {
    && next.Some? && (Offered(s) ==> Renews(s, next.value, now))
    && (OnlyShown(recoveryOnly, s, next.value) || Replaces(next.value, s.status))
  }

  /** An answer to a reading: dropped when outdated, and otherwise taken in, shown, or counted as no reading. */
  predicate ReadingSettles(recoveryOnly: bool, s: State, t: State, next: Option<Status>, now: int) {
    var u := s.(reading := None);
    if s.reading.None? then t == s
    else if s.disposed || s.reading != Some(s.epoch) then t == u
    else if !ReadingFits(recoveryOnly, s, next, now) then t == u.(available := false, recoveryAvailable := false)
    else
      var shown := if Offered(s) then u.(recoveryStatus := next) else u;
      if OnlyShown(recoveryOnly, s, next.value) then t == shown else Holds(shown, t, next.value)
  }

  /** A Stop is confirmed exactly by a reading that may replace the status and is not a clearance. */
  predicate StopSettles(s: State, t: State, original: Option<Status>, cancelled: bool) {
    var u := s.(stop := None);
    if s.stop.None? then t == s
    else if original.Some? && cancelled && !Clears(original.value, s.stop.value) && Replaces(original.value, s.status)
         then Holds(u, t, original.value)
    else t == u.(uncertain := true, available := false)
  }

  predicate ObserveSettles(s: State, t: State, next: Option<Status>, allowed: bool) {
    if s.pending.None? || !s.pending.value.Observe? then t == s
    else
      var u, call := s.(pending := None), s.pending.value;
      var current := call.revision == s.epoch;
      if next.None? || !NamesRetained(next.value, call.expected) then
        t == if current then u.(recoveryAvailable := false) else u
      else if s.disposed || !current || !allowed then t == u
      else if Clears(next.value, call.expected) then Shows(u.(requested := next), t, next.value, call.expected)
      else if next.value.canInspectRecovery then
        t == u.(requested := next, pending := Some(Recover(s.epoch, call.expected)))
      else t == u.(requested := next, recoveryAvailable := false)
  }

  predicate RecoverySettles(s: State, t: State, next: Option<Status>) {
    if s.pending.None? || !s.pending.value.Recover? then t == s
    else
      var u, call := s.(pending := None), s.pending.value;
      if call.revision != s.epoch || (s.disposed && next.Some?) then t == u
      else if next.Some? && NamesRetained(next.value, call.expected) then Shows(u, t, next.value, call.expected)
      else t == u.(recoveryAvailable := false)
  }

  /** A request that was not answered well leaves its outcome uncertain, unless it only looked. */
  predicate RequestSettles(s: State, t: State, next: Option<Status>) {
    if s.pending.None? || !s.pending.value.Request? then t == s
    else
      var u, call := s.(pending := None), s.pending.value;
      if call.revision != s.epoch || (s.disposed && next.Some?) then t == u
      else if next.Some? && Replaces(next.value, s.status) then Holds(u, t, next.value)
      else t == u.(uncertain := call.kind in {Prepare, Approve}, available := false)
  }

  /** What each answer leaves, field by field. */
  predicate Settles(recoveryOnly: bool, s: State, t: State, e: Step) {
    match e
    case StatusArrives(next, now) => ReadingSettles(recoveryOnly, s, t, next, now)
    case StopArrives(original, cancelled) => StopSettles(s, t, original, cancelled)
    case ObservedArrives(next, allowed) => ObserveSettles(s, t, next, allowed)
    case RecoveryArrives(next) => RecoverySettles(s, t, next)
    case RequestArrives(next) => RequestSettles(s, t, next)
    case _ => true
  }

  lemma RenewedIff(s: State, next: Status, now: int)
    ensures Renewed(s, next, now) ==
              if !Offered(s) then Some(false) else if Renews(s, next, now) then Some(true) else None
  {
    if s.status.Some? { RecoveryBoundIff(next, s.status.value); }
    hide RecoveryBound, NamesRetained;
  }

  lemma ReadingAnswered(recoveryOnly: bool, s: State, next: Option<Status>, now: int)
    ensures ReadingSettles(recoveryOnly, s, StatusAnswered(recoveryOnly, s, next, now), next, now)
  {
    if s.reading.Some? && next.Some? {
      var u := s.(reading := None);
      var shown := if Offered(s) then u.(recoveryStatus := next) else u;
      RenewedIff(u, next.value, now);
      assert Renews(u, next.value, now) == Renews(s, next.value, now);
      MayAcceptIff(u, next.value);
      MayAcceptIff(shown, next.value);
      TakeHolds(shown, next.value);
    }
    hide Renewed, MayAccept, Take, Holds, Replaces, Renews;
  }

  lemma ShownIs(u: State, next: Status, expected: Status)
    ensures Shows(u, TakeRecovery(u, next, expected), next, expected)
  {
    ClearedIff(next, expected);
    hide Cleared, Clears;
  }

  lemma StopAnsweredIs(s: State, original: Option<Status>, cancelled: bool)
    ensures StopSettles(s, StopAnswered(s, original, cancelled), original, cancelled)
  {
    if s.stop.Some? && original.Some? {
      MayAcceptIff(s.(stop := None), original.value);
      ClearedIff(original.value, s.stop.value);
      TakeHolds(s.(stop := None), original.value);
    }
    hide MayAccept, Take, Holds, Replaces, Cleared, Clears;
  }

  lemma ObservedIs(s: State, next: Option<Status>, allowed: bool)
    ensures ObserveSettles(s, ObservedAnswered(s, next, allowed), next, allowed)
  {
    if s.pending.Some? && s.pending.value.Observe? && next.Some? {
      RecoveryBoundIff(next.value, s.pending.value.expected);
      ClearedIff(next.value, s.pending.value.expected);
      ShownIs(s.(pending := None, requested := next), next.value, s.pending.value.expected);
    }
    hide RecoveryBound, NamesRetained, Cleared, Clears, TakeRecovery, Shows;
  }

  lemma RecoveredIs(s: State, next: Option<Status>)
    ensures RecoverySettles(s, RecoveryAnswered(s, next), next)
  {
    if s.pending.Some? && s.pending.value.Recover? && next.Some? {
      RecoveryBoundIff(next.value, s.pending.value.expected);
      ShownIs(s.(pending := None), next.value, s.pending.value.expected);
    }
    hide RecoveryBound, NamesRetained, TakeRecovery, Shows;
  }

  lemma RequestedIs(s: State, next: Option<Status>)
    ensures RequestSettles(s, RequestAnswered(s, next), next)
  {
    if s.pending.Some? && s.pending.value.Request? && next.Some? {
      MayAcceptIff(s.(pending := None), next.value);
      TakeHolds(s.(pending := None), next.value);
    }
    hide MayAccept, Take, Holds, Replaces;
  }

  /** Every answer, outdated, failed or not, leaves exactly what the fields of the response say. */
  lemma AnswerSettles(recoveryOnly: bool, s: State, e: Step)
    requires Response(e)
    ensures Settles(recoveryOnly, s, Next(recoveryOnly, s, e), e)
  {
    match e
    case StatusArrives(next, now) => ReadingAnswered(recoveryOnly, s, next, now);
    case StopArrives(original, cancelled) => StopAnsweredIs(s, original, cancelled);
    case ObservedArrives(next, allowed) => ObservedIs(s, next, allowed);
    case RecoveryArrives(next) => RecoveredIs(s, next);
    case RequestArrives(next) => RequestedIs(s, next);
  }

  /** A Stop needs no reading and no permission, and nothing in flight holds it up. */
  lemma StopIff(recoveryOnly: bool, s: State, e: Step)
    ensures var t := Next(recoveryOnly, s, e);
            && (s.stop.None? && t.stop.Some? <==> StopGiven(s, e))
            && (s.reading.None? && t.reading.Some? <==> e.StartRefresh? && Idle(s) && s.reading.None?)
  {
    if Response(e) {
      AnswerSettles(recoveryOnly, s, e);
      hide StopGiven, Idle;
    } else {
      RequestStep(recoveryOnly, s, e);
      hide Settles;
    }
    hide Next, Clears, Replaces, NamesRetained, Renews, SameName, StillOpen, ConfirmationBegins, NamesOpen,
         ReadingFits, OnlyShown, Offered, ObserveGiven;
  }

  // ---------- over whole runs ----------

  /** At step i an approval of this trial of this session goes out. */
  ghost predicate ApprovalAt(recoveryOnly: bool, start: Option<Status>, steps: seq<Step>, i: nat, session: Text,
            trial: Text)
  {
    && i < |steps| && ApprovalBegins(After(recoveryOnly, start, steps, i), After(recoveryOnly, start, steps, i + 1))
    && var v := After(recoveryOnly, start, steps, i).status;
       v.Some? && v.value.nodeSessionId == session && v.value.trial.Some? && v.value.trial.value.trialId == trial
  }

  /** At step i a confirmation of this offer goes out to this session, about this trial. */
  ghost predicate ConfirmationAt(recoveryOnly: bool, start: Option<Status>, steps: seq<Step>, i: nat, session: Text,
            trial: Text, digest: Text)
  {
    && i < |steps|
    && ConfirmationBegins(After(recoveryOnly, start, steps, i), After(recoveryOnly, start, steps, i + 1))
    && var v := After(recoveryOnly, start, steps, i).recoveryStatus;
       && v.Some? && v.value.nodeSessionId == session && v.value.trial.Some? && v.value.trial.value.trialId == trial
       && v.value.recovery.Some? && v.value.recovery.value.digest == digest
  }

  lemma {:induction false} ApprovalIsSend(recoveryOnly: bool, start: Option<Status>, steps: seq<Step>, i: nat,
            session: Text, trial: Text)
    ensures ApprovalAt(recoveryOnly, start, steps, i, session, trial)
            <==> SentAt(recoveryOnly, start, steps, i, ApproveSent(session, trial))
  {
    if i < |steps| {
      var s := After(recoveryOnly, start, steps, i);
      assert After(recoveryOnly, start, steps, i + 1) == Next(recoveryOnly, s, steps[i]);
      ApprovalStep(recoveryOnly, s, steps[i]);
      hide Next, After, ApprovalKey, Unresolved, MayRecover, MayConfirm;
    }
  }

  lemma {:induction false} ConfirmationIsSend(recoveryOnly: bool, start: Option<Status>, steps: seq<Step>, i: nat,
            session: Text, trial: Text, digest: Text)
    ensures ConfirmationAt(recoveryOnly, start, steps, i, session, trial, digest)
            <==> SentAt(recoveryOnly, start, steps, i, ConfirmSent(session, trial, digest))
  {
    if i < |steps| {
      var s, e := After(recoveryOnly, start, steps, i), steps[i];
      assert After(recoveryOnly, start, steps, i + 1) == Next(recoveryOnly, s, e);
      ConfirmationStep(recoveryOnly, s, e);
      OpenIff(s);
      if e.StartRecoveryConfirm? && s.recoveryStatus.Some? && s.status.Some? {
        RecoveryBoundIff(s.recoveryStatus.value, s.status.value);
      }
      hide Next, After, RecoveryKey, Unresolved, RecoveryBound, StillOpen, MayApprove, MayRequest;
    }
  }

  /**
   In every run an approval goes out at a step exactly when the operator said yes to the very trial on
   view, as `ApproveGiven` spells out, and no approval of that trial in that session went out before.
   */
  lemma {:induction false} ApprovalIff(recoveryOnly: bool, start: Option<Status>, steps: seq<Step>, i: nat)
    requires i < |steps| && Decoded(start, steps)
    ensures ApprovalBegins(After(recoveryOnly, start, steps, i), After(recoveryOnly, start, steps, i + 1)) <==>
              && ApproveGiven(After(recoveryOnly, start, steps, i), steps[i])
              && forall k :: 0 <= k < i ==>
                   !ApprovalAt(recoveryOnly, start, steps, k,
                               After(recoveryOnly, start, steps, i).status.value.nodeSessionId, steps[i].trialId)
  {
    var s, e := After(recoveryOnly, start, steps, i), steps[i];
    assert After(recoveryOnly, start, steps, i + 1) == Next(recoveryOnly, s, e);
    ApprovalStep(recoveryOnly, s, e);
    ReachableClean(recoveryOnly, start, steps, i);
    hide Next, After, ApprovalKey;
    if ApproveGiven(s, e) {
      var m := ApproveSent(s.status.value.nodeSessionId, e.trialId);
      hide NoColon, ApproveGiven;
      NotedIffSent(recoveryOnly, start, steps, i, m);
      forall k ensures ApprovalAt(recoveryOnly, start, steps, k, m.session, m.trial)
                       <==> SentAt(recoveryOnly, start, steps, k, m)
      {
        if k >= 0 { ApprovalIsSend(recoveryOnly, start, steps, k, m.session, m.trial); }
      }
    }
  }

  /**
   In every run a confirmation goes out at a step exactly when the operator confirmed the very
   inspection on view, as `ConfirmGiven` spells out, and no confirmation of that offer went out to
   that session about that trial before.
   */
  lemma {:induction false} ConfirmationIff(recoveryOnly: bool, start: Option<Status>, steps: seq<Step>, i: nat)
    requires i < |steps| && Decoded(start, steps)
    ensures ConfirmationBegins(After(recoveryOnly, start, steps, i), After(recoveryOnly, start, steps, i + 1)) <==>
              && ConfirmGiven(After(recoveryOnly, start, steps, i), steps[i])
              && forall k :: 0 <= k < i ==>
                   !ConfirmationAt(recoveryOnly, start, steps, k,
                                   After(recoveryOnly, start, steps, i).recoveryStatus.value.nodeSessionId,
                                   steps[i].trialId, steps[i].recoveryDigest)
  {
    var s, e := After(recoveryOnly, start, steps, i), steps[i];
    assert After(recoveryOnly, start, steps, i + 1) == Next(recoveryOnly, s, e);
    ConfirmationStep(recoveryOnly, s, e);
    ReachableClean(recoveryOnly, start, steps, i);
    hide Next, After, RecoveryKey, StillOpen;
    if ConfirmGiven(s, e) {
      var m := ConfirmSent(s.recoveryStatus.value.nodeSessionId, e.trialId, e.recoveryDigest);
      hide NoColon, ConfirmGiven;
      NotedIffSent(recoveryOnly, start, steps, i, m);
      forall k ensures ConfirmationAt(recoveryOnly, start, steps, k, m.session, m.trial, m.digest)
                       <==> SentAt(recoveryOnly, start, steps, k, m)
      {
        if k >= 0 { ConfirmationIsSend(recoveryOnly, start, steps, k, m.session, m.trial, m.digest); }
      }
    }
  }
}
