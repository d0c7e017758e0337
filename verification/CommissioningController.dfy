/**
 The commissioning controller in its own form: fields that every response updates in place.
 Each public method is one step boundary and ends in the state `CommissioningProtocol` gives.
 */
module CommissioningControllers {
  import opened Options
  import opened Texts
  import opened Commissioning
  import opened CommissioningProtocol
  import CommissioningRequests

  class CommissioningController {
    const recoveryOnly: bool
    var status: Option<Status>
    var available: bool
    var uncertain: bool
    var recoveryStatus: Option<Status>
    var recoveryAvailable: bool
    var recoveryRequestStatus: Option<Status>
    var attemptedApprovals: set<Text>
    var attemptedRecoveries: set<Text>
    var disposed: bool
    var epoch: nat
    var reading: Option<nat>
    var pending: Option<Call>
    var stopPending: Option<Status>

    ghost function Model(): State
      reads this
    {
      State(status, available, uncertain, recoveryStatus, recoveryAvailable, recoveryRequestStatus,
            attemptedApprovals, attemptedRecoveries, disposed, epoch, reading, pending, stopPending)
    }

    /** What every reachable state satisfies. */
    ghost predicate Valid()
      reads this
    {
      Inv(Model())
    }

    constructor (initialStatus: Option<Status>, recoveryOnly: bool)
      ensures Model() == Initial(initialStatus) && this.recoveryOnly == recoveryOnly && Valid()
    {
      this.recoveryOnly := recoveryOnly;
      status, available, uncertain := initialStatus, false, false;
      recoveryStatus, recoveryAvailable, recoveryRequestStatus := None, false, None;
      attemptedApprovals, attemptedRecoveries, disposed, epoch := {}, {}, false, 0;
      reading, pending, stopPending := None, None, None;
    }

    /** Taking a reading in, or refusing it where it would lose or downgrade the retained trial. */
    method Accept(next: Status) returns (accepted: bool)
      modifies this
      ensures accepted <==> MayAccept(old(Model()), next)
      ensures Model() == if accepted then Take(old(Model()), next) else old(Model())
    {
      if status.Some? && Unresolved(status.value) {
        if !CheckBound(next, status.value) || Downgrades(status.value.trial.value, next.trial.value) { return false; }
      }
      if TrialName(status) != TrialName(Some(next)) {
        recoveryStatus, recoveryRequestStatus, recoveryAvailable := None, None, false;
      }
      if Cleared(next, if status.Some? then status.value else next) {
        recoveryStatus, recoveryAvailable := Some(next), true;
      }
      status, available, uncertain := Some(next), true, false;
      accepted := true;
    }

    method AcceptRecovery(next: Status, expected: Status)
      modifies this
      ensures Model() == TakeRecovery(old(Model()), next, expected)
    {
      recoveryStatus, recoveryAvailable := Some(next), true;
      if Cleared(next, expected) { status, available, uncertain := Some(next), true, false; }
    }

    /** Renewing an inspected offer with an exact reading of it. */
    method RefreshRecovery(next: Status, now: int) returns (ok: bool, matched: bool)
      modifies `recoveryStatus
      ensures ok <==> Renewed(old(Model()), next, now).Some?
      ensures ok ==> Renewed(old(Model()), next, now) == Some(matched) && (matched ==> status.Some?)
      ensures Model() == if ok && matched then old(Model()).(recoveryStatus := Some(next)) else old(Model())
    {
      if !recoveryAvailable || recoveryStatus.None? || recoveryStatus.value.recovery.None? { return true, false; }
      if status.None? || !RecoveryBound(next, status.value) { return false, false; }
      if next.nodeSessionId != recoveryStatus.value.nodeSessionId || next.recovery.None?
         || next.recovery.value.digest != recoveryStatus.value.recovery.value.digest
         || next.recovery.value.expiresAt <= now {
        return false, false;
      }
      recoveryStatus := Some(next);
      return true, true;
    }

    method StartRefresh()
      requires Valid()
      modifies `reading
      ensures Model() == Next(recoveryOnly, old(Model()), Step.StartRefresh)
      ensures Valid() && Follows(old(Model()), Model())
    {
      StepFollows(recoveryOnly, Model(), Step.StartRefresh);
      hide Inv, Follows;
      if disposed || reading.Some? || pending.Some? || stopPending.Some? { return; }
      reading := Some(epoch);
    }

    method StatusArrives(next: Option<Status>, now: int)
      requires Valid()
      modifies this
      ensures Model() == Next(recoveryOnly, old(Model()), Step.StatusArrives(next, now))
      ensures Valid() && Follows(old(Model()), Model())
      ensures old(reading).Some? && old(reading).value < old(epoch) ==> status == old(status)
    {
      StepFollows(recoveryOnly, Model(), Step.StatusArrives(next, now));
      if reading.Some? && reading.value < epoch {
        StaleAnswerIgnored(recoveryOnly, Model(), Step.StatusArrives(next, now));
      }
      hide Renewed, MayAccept, Take, Inv, Follows;
      if reading.None? { return; }
      var revision := reading.value;
      reading := None;
      if disposed || revision != epoch { return; }
      var ok := next.Some?;
      if ok {
        var renewed, matched := RefreshRecovery(next.value, now);
        ok := renewed;
        if ok && !recoveryOnly && !(matched && next.value.nodeSessionId != status.value.nodeSessionId) {
          ok := Accept(next.value);
        }
      }
      if !ok { recoveryAvailable, available := false, false; }
    }

    method InvalidateRecovery()
      requires Valid()
      modifies `epoch, `recoveryAvailable
      ensures Model() == Next(recoveryOnly, old(Model()), Step.InvalidateRecovery)
      ensures Valid() && Follows(old(Model()), Model())
    {
      StepFollows(recoveryOnly, Model(), Step.InvalidateRecovery);
      hide Inv, Follows;
      epoch, recoveryAvailable := epoch + 1, false;
    }

    /** Stop outdates every other request before its own is answered. */
    method StartStop(trialId: Text)
      requires Valid()
      modifies this
      ensures Model() == Next(recoveryOnly, old(Model()), Step.StartStop(trialId))
      ensures Valid() && Follows(old(Model()), Model())
      ensures stopPending.Some? ==> Outdated(Model())
      ensures old(stopPending).None? ==>
                (stopPending.Some? <==> CommissioningRequests.StopGiven(old(Model()), Step.StartStop(trialId)))
    {
      StepFollows(recoveryOnly, Model(), Step.StartStop(trialId));
      StopOutdates(recoveryOnly, Model(), trialId);
      CommissioningRequests.StopIff(recoveryOnly, Model(), Step.StartStop(trialId));
      hide Inv, Follows, CommissioningRequests.StopGiven;
      if disposed || !(status.Some? && Unresolved(status.value)) { return; }
      if status.value.trial.value.trialId != trialId || stopPending.Some? { return; }
      stopPending := status;
      epoch, recoveryAvailable := epoch + 1, false;
    }

    method TakeStop(original: Option<Status>, cancelled: bool)
      modifies this
      ensures Model() == StopAnswered(old(Model()), original, cancelled)
    {
      hide MayAccept, Take, Cleared;
      if stopPending.None? { return; }
      var expected := stopPending.value;
      stopPending := None;
      var confirmed := false;
      if original.Some? && cancelled && !Cleared(original.value, expected) {
        confirmed := Accept(original.value);
      }
      if !confirmed { uncertain, available := true, false; }
    }

    method StopArrives(original: Option<Status>, cancelled: bool)
      requires Valid()
      modifies this
      ensures Model() == Next(recoveryOnly, old(Model()), Step.StopArrives(original, cancelled))
      ensures Valid() && Follows(old(Model()), Model())
      ensures stopPending.None? && (old(stopPending).Some? ==> uncertain || status == original)
    {
      StepFollows(recoveryOnly, Model(), Step.StopArrives(original, cancelled));
      StopSettles(Model(), original, cancelled);
      hide Inv, Follows, StopAnswered;
      TakeStop(original, cancelled);
    }

    method StartRecoveryInspect(trialId: Text, trialDigest: Text, allowed: bool)
      requires Valid()
      modifies this
      ensures Model() == Next(recoveryOnly, old(Model()), Step.StartRecoveryInspect(trialId, trialDigest, allowed))
      ensures Valid() && Follows(old(Model()), Model())
    {
      StepFollows(recoveryOnly, Model(), Step.StartRecoveryInspect(trialId, trialDigest, allowed));
      hide Unresolved, Inv, Follows;
      if disposed || pending.Some? || stopPending.Some? || !allowed || !(status.Some? && Unresolved(status.value)) {
        return;
      }
      if TrialName(status) != Some((trialId, trialDigest)) { HasTrial(status.value); return; }
      epoch, recoveryAvailable := epoch + 1, false;
      pending := Some(Observe(epoch, status.value));
    }

    method TakeObserved(next: Option<Status>, allowed: bool)
      modifies this
      ensures Model() == ObservedAnswered(old(Model()), next, allowed)
    {
      hide RecoveryBound, Cleared;
      if pending.None? || !pending.value.Observe? { return; }
      var call := pending.value;
      pending := None;
      if next.None? || !RecoveryBound(next.value, call.expected) {
        if call.revision == epoch { recoveryAvailable := false; }
        return;
      }
      if disposed || call.revision != epoch || !allowed { return; }
      recoveryRequestStatus := next;
      if Cleared(next.value, call.expected) {
        AcceptRecovery(next.value, call.expected);
      } else if !next.value.canInspectRecovery {
        recoveryAvailable := false;
      } else {
        pending := Some(Recover(call.revision, call.expected));
      }
    }

    method ObservedArrives(next: Option<Status>, allowed: bool)
      requires Valid()
      modifies this
      ensures Model() == Next(recoveryOnly, old(Model()), Step.ObservedArrives(next, allowed))
      ensures Valid() && Follows(old(Model()), Model())
      ensures Active(old(Model())) && !Active(Model()) ==> ReceiptFor(status, old(status))
    {
      StepFollows(recoveryOnly, Model(), Step.ObservedArrives(next, allowed));
      RecoveryReleaseMatches(recoveryOnly, Model(), Step.ObservedArrives(next, allowed));
      hide Inv, Follows, ReceiptFor, Active, ObservedAnswered;
      TakeObserved(next, allowed);
    }

    method Confirmable(recoveryDigest: Text, confirmed: bool, recent: bool, now: int) returns (ok: bool)
      requires Active(Model())
      ensures ok <==> MayConfirm(Model(), recoveryDigest, confirmed, recent, now)
      ensures ok ==> recoveryStatus.Some? && recoveryStatus.value.trial.Some?
    {
      hide Unresolved, RecoveryBound, RecoveryKey;
      if !recoveryAvailable || !recent || recoveryStatus.None? || !confirmed { return false; }
      var current := recoveryStatus.value;
      if !current.canConfirmRecovery || current.recovery.None? || !current.recovery.value.ready
         || current.recovery.value.expiresAt <= now || recoveryDigest != current.recovery.value.digest
         || !RecoveryBound(current, status.value) { return false; }
      BoundHasTrial(current, status.value);
      var key := RecoveryKey(current.nodeSessionId, current.trial.value.trialId, recoveryDigest);
      ok := key !in attemptedRecoveries;
    }

    method SendConfirmation(recoveryDigest: Text)
      requires status.Some? && recoveryStatus.Some? && recoveryStatus.value.trial.Some?
      modifies this
      ensures Model() == Confirming(old(Model()), recoveryDigest)
    {
      hide RecoveryKey;
      var current := recoveryStatus.value;
      var key := RecoveryKey(current.nodeSessionId, current.trial.value.trialId, recoveryDigest);
      epoch, recoveryAvailable := epoch + 1, false;
      attemptedRecoveries := attemptedRecoveries + {key};
      recoveryRequestStatus := Some(current);
      pending := Some(Recover(epoch, status.value));
    }

    method ConfirmRecovery(trialId: Text, trialDigest: Text, recoveryDigest: Text, confirmed: bool, recent: bool,
                           allowed: bool, now: int)
      modifies this
      ensures Model() == Next(recoveryOnly, old(Model()),
                Step.StartRecoveryConfirm(trialId, trialDigest, recoveryDigest, confirmed, recent, allowed, now))
    {
      hide Unresolved, MayConfirm, Confirming, StatusAnswered, StopAnswered, ObservedAnswered, RecoveryAnswered;
      hide RequestAnswered, MayApprove, MayRequest, Cleared;
      if disposed || pending.Some? || stopPending.Some? || !allowed || !(status.Some? && Unresolved(status.value)) {
        return;
      }
      HasTrial(status.value);
      if TrialName(status) != Some((trialId, trialDigest)) { return; }
      var confirmable := Confirmable(recoveryDigest, confirmed, recent, now);
      if !confirmable { return; }
      SendConfirmation(recoveryDigest);
    }

    method StartRecoveryConfirm(trialId: Text, trialDigest: Text, recoveryDigest: Text, confirmed: bool, recent: bool,
                                allowed: bool, now: int)
      requires Valid()
      modifies this
      ensures Model() == Next(recoveryOnly, old(Model()),
                Step.StartRecoveryConfirm(trialId, trialDigest, recoveryDigest, confirmed, recent, allowed, now))
      ensures Valid() && Follows(old(Model()), Model())
      ensures SendsOnce(old(Model()), Model(),
                Step.StartRecoveryConfirm(trialId, trialDigest, recoveryDigest, confirmed, recent, allowed, now))
      ensures CommissioningRequests.ConfirmationBegins(old(Model()), Model()) ==>
                CommissioningRequests.ConfirmGiven(old(Model()),
                  Step.StartRecoveryConfirm(trialId, trialDigest, recoveryDigest, confirmed, recent, allowed, now))
    {
      ghost var step :=
        Step.StartRecoveryConfirm(trialId, trialDigest, recoveryDigest, confirmed, recent, allowed, now);
      CommissioningRequests.ConfirmationStep(recoveryOnly, Model(), step);
      StepFollows(recoveryOnly, Model(), step);
      StepSendsOnce(recoveryOnly, Model(), step);
      hide *;
      ConfirmRecovery(trialId, trialDigest, recoveryDigest, confirmed, recent, allowed, now);
    }

    method TakeRecovered(next: Option<Status>)
      modifies this
      ensures Model() == RecoveryAnswered(old(Model()), next)
    {
      hide RecoveryBound, Cleared;
      if pending.None? || !pending.value.Recover? { return; }
      var call := pending.value;
      pending := None;
      if call.revision != epoch || (disposed && next.Some?) { return; }
      if next.Some? && RecoveryBound(next.value, call.expected) {
        AcceptRecovery(next.value, call.expected);
      } else {
        recoveryAvailable := false;
      }
    }

    method RecoveryArrives(next: Option<Status>)
      requires Valid()
      modifies this
      ensures Model() == Next(recoveryOnly, old(Model()), Step.RecoveryArrives(next))
      ensures Valid() && Follows(old(Model()), Model())
      ensures Active(old(Model())) && !Active(Model()) ==> ReceiptFor(status, old(status))
    {
      StepFollows(recoveryOnly, Model(), Step.RecoveryArrives(next));
      RecoveryReleaseMatches(recoveryOnly, Model(), Step.RecoveryArrives(next));
      hide Inv, Follows, ReceiptFor, Active, RecoveryAnswered;
      TakeRecovered(next);
    }

    method IssueRequest(kind: Kind)
      modifies `epoch, `pending
      ensures Model() == Issue(old(Model()), kind)
    {
      epoch := epoch + 1;
      pending := Some(Request(epoch, kind));
    }

    method StartInspect(recent: bool, allowed: bool)
      requires Valid()
      modifies `epoch, `pending
      ensures Model() == Next(recoveryOnly, old(Model()), Step.StartInspect(recent, allowed))
      ensures Valid() && Follows(old(Model()), Model())
    {
      StepFollows(recoveryOnly, Model(), Step.StartInspect(recent, allowed));
      hide Unresolved, Inv, Follows;
      if disposed || pending.Some? || stopPending.Some? || !available || !recent || !allowed || status.None? { return; }
      if !status.value.canInspect || Unresolved(status.value) || uncertain { return; }
      IssueRequest(Inspect);
    }

    method StartPrepare(ready: bool, recent: bool, allowed: bool)
      requires Valid()
      modifies `epoch, `pending
      ensures Model() == Next(recoveryOnly, old(Model()), Step.StartPrepare(ready, recent, allowed))
      ensures Valid() && Follows(old(Model()), Model())
    {
      StepFollows(recoveryOnly, Model(), Step.StartPrepare(ready, recent, allowed));
      hide Unresolved, Inv, Follows;
      if disposed || pending.Some? || stopPending.Some? || !available || !recent || !allowed || status.None? { return; }
      if !status.value.canPrepare || Unresolved(status.value) || uncertain || !ready { return; }
      IssueRequest(Prepare);
    }

    method StartApprove(trialId: Text, trialDigest: Text, approved: bool, recent: bool, allowed: bool, now: int)
      requires Valid()
      modifies `epoch, `pending, `attemptedApprovals
      ensures Model() == Next(recoveryOnly, old(Model()),
                  Step.StartApprove(trialId, trialDigest, approved, recent, allowed, now))
      ensures Valid() && Follows(old(Model()), Model())
      ensures SendsOnce(old(Model()), Model(), Step.StartApprove(trialId, trialDigest, approved, recent, allowed, now))
      ensures CommissioningRequests.ApprovalBegins(old(Model()), Model()) <==>
                && CommissioningRequests.ApproveGiven(old(Model()),
                     Step.StartApprove(trialId, trialDigest, approved, recent, allowed, now))
                && ApprovalKey(status.value.nodeSessionId, trialId) !in old(attemptedApprovals)
    {
      ghost var step := Step.StartApprove(trialId, trialDigest, approved, recent, allowed, now);
      CommissioningRequests.ApprovalStep(recoveryOnly, Model(), step);
      StepFollows(recoveryOnly, Model(), step);
      StepSendsOnce(recoveryOnly, Model(), step);
      hide ApprovalKey, Inv, Follows, SendsOnce, CommissioningRequests.ApproveGiven,
           CommissioningRequests.ApprovalBegins;
      if disposed || pending.Some? || stopPending.Some? || !available || !recent || !allowed || status.None? { return; }
      var v := status.value;
      if !v.canApprove || v.trial.None? || !v.trial.value.phase.Waiting? || v.trial.value.stopStatus.Some? || uncertain
          || !approved
         || trialId != v.trial.value.trialId || trialDigest != v.trial.value.digest
         || v.trial.value.approvalExpiresAt <= now { return; }
      var key := ApprovalKey(v.nodeSessionId, trialId);
      if key in attemptedApprovals { return; }
      attemptedApprovals := attemptedApprovals + {key};
      IssueRequest(Approve);
    }

    method TakeRequest(next: Option<Status>)
      modifies this
      ensures Model() == RequestAnswered(old(Model()), next)
    {
      hide MayAccept, Take;
      if pending.None? || !pending.value.Request? { return; }
      var call := pending.value;
      pending := None;
      if call.revision != epoch || (disposed && next.Some?) { return; }
      var confirmed := false;
      if next.Some? { confirmed := Accept(next.value); }
      if !confirmed { uncertain, available := !call.kind.Inspect?, false; }
    }

    method RequestArrives(next: Option<Status>)
      requires Valid()
      modifies this
      ensures Model() == Next(recoveryOnly, old(Model()), Step.RequestArrives(next))
      ensures Valid() && Follows(old(Model()), Model())
      ensures old(pending).Some? && old(pending).value.revision < old(epoch) ==> status == old(status)
    {
      StepFollows(recoveryOnly, Model(), Step.RequestArrives(next));
      if pending.Some? && pending.value.revision < epoch {
        StaleAnswerIgnored(recoveryOnly, Model(), Step.RequestArrives(next));
      }
      hide Inv, Follows, RequestAnswered;
      TakeRequest(next);
    }

    method Dispose()
      requires Valid()
      modifies `disposed, `epoch
      ensures Model() == Next(recoveryOnly, old(Model()), Step.Dispose)
      ensures Valid() && Follows(old(Model()), Model())
    {
      StepFollows(recoveryOnly, Model(), Step.Dispose);
      hide Inv, Follows;
      disposed, epoch := true, epoch + 1;
    }
  }

  lemma StopSettles(s: State, original: Option<Status>, cancelled: bool)
    ensures var t := StopAnswered(s, original, cancelled);
            t.stop.None? && (s.stop.Some? ==> t.uncertain || t.status == original)
  {
    hide MayAccept, Cleared, Unresolved;
  }

  lemma HasTrial(v: Status)
    requires Unresolved(v)
    ensures v.trial.Some?
  {
  }

  lemma BoundHasTrial(v: Status, expected: Status)
    requires RecoveryBound(v, expected)
    ensures v.trial.Some?
  {
  }
}
