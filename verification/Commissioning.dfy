/**
 What the controller may conclude from one gripper check response about another: the
 predicates that bind a response to a trial, a recovery or a clearance receipt.
 */
module Commissioning {
  import opened Options
  import opened Texts

  datatype TrialPhase = Waiting | Moving | Completed | Halted | Broken | Unknown

  datatype TrialStop = Stopping | StopDone | StopUnsure

  datatype Trial = Trial(
    trialId: Text, digest: Text, phase: TrialPhase, approvalExpiresAt: int,
    startPosition: real, targetPosition: real, maximumDurationSeconds: real, stopStatus: Option<TrialStop>)

  datatype Configuration = Configuration(digest: Text, deviceIdentity: Text)

  /** The binding fields an offer and a clearance receipt share. */
  datatype Binding = Binding(trialId: Text, trialDigest: Text, trialNodeSessionId: Text, configurationDigest: Text,
          deviceIdentity: Text)

  datatype Offer = Offer(digest: Text, expiresAt: int, ready: bool)

  datatype Status = Status(
    nodeSessionId: Text, configuration: Option<Configuration>, trial: Option<Trial>,
    canInspect: bool, canPrepare: bool, canApprove: bool, trialNodeSessionId: Option<Text>,
    recovery: Option<Offer>, recoveryClearance: Option<Binding>, canInspectRecovery: bool, canConfirmRecovery: bool)

  function OriginSession(v: Status): Text {
    if v.trialNodeSessionId.Some? then v.trialNodeSessionId.value else v.nodeSessionId
  }

  predicate RecoveryMatches(b: Binding, expected: Status) {
    && expected.trial.Some? && expected.configuration.Some?
    && b.trialId == expected.trial.value.trialId && b.trialDigest == expected.trial.value.digest
    && b.trialNodeSessionId == OriginSession(expected)
    && b.configurationDigest == expected.configuration.value.digest
    && b.deviceIdentity == expected.configuration.value.deviceIdentity
  }

  predicate Cleared(v: Status, expected: Status) {
    && v.trial.Some? && v.trial.value.phase.Unknown? && v.recoveryClearance.Some?
    && RecoveryMatches(v.recoveryClearance.value, v) && RecoveryMatches(v.recoveryClearance.value, expected)
  }

  predicate SameTrial(a: Trial, b: Trial) {
    && a.trialId == b.trialId && a.digest == b.digest && a.startPosition == b.startPosition
    && a.targetPosition == b.targetPosition
    && a.maximumDurationSeconds == b.maximumDurationSeconds && a.approvalExpiresAt == b.approvalExpiresAt
  }

  /**
   A recovery response may come from a restarted responder, but it names the old trial, its session
   and its device.
   */
  predicate RecoveryBound(v: Status, expected: Status) {
    && v.trial.Some? && v.trial.value.phase.Unknown? && expected.trial.Some? && v.configuration.Some?
    && expected.configuration.Some?
    && v.trialNodeSessionId == Some(OriginSession(expected))
    && v.configuration.value.digest == expected.configuration.value.digest
    && v.configuration.value.deviceIdentity == expected.configuration.value.deviceIdentity
    && SameTrial(v.trial.value, expected.trial.value)
  }

  function ConfigurationDigest(v: Status): Option<Text> {
    match v.configuration case Some(c) => Some(c.digest) case None => None
  }

  predicate CheckBound(v: Status, expected: Status) {
    && v.nodeSessionId == expected.nodeSessionId && ConfigurationDigest(v) == ConfigurationDigest(expected)
    && v.trial.Some? && expected.trial.Some? && SameTrial(v.trial.value, expected.trial.value)
  }

  predicate Unresolved(v: Status) {
    && v.trial.Some? && !Cleared(v, v)
    && (!(v.trial.value.phase.Completed? || v.trial.value.phase.Halted? || v.trial.value.phase.Broken?)
        || v.trial.value.stopStatus != Some(StopDone))
  }

  // ---------- what a release is bound to ----------

  /** The trial of a later status is the trial of an earlier one, under one configuration. */
  predicate Retains(v: Status, prior: Status) {
    && v.trial.Some? && prior.trial.Some? && SameTrial(v.trial.value, prior.trial.value)
    && ConfigurationDigest(v) == ConfigurationDigest(prior)
  }

  // ---------- keys ----------

  const COLON: Unit := 0x3A

  /** Identifiers of sessions and trials hold no colon; digests may. */
  predicate NoColon(t: Text) { COLON !in t }

  function ApprovalKey(session: Text, trial: Text): Text { session + [COLON] + trial }

  function RecoveryKey(session: Text, trial: Text, digest: Text): Text {
    session + [COLON] + (trial + [COLON] + digest)
  }

  /** A joined key gives its first part back. */
  lemma {:induction false} KeyInjective(a: Text, b: Text, x: Text, y: Text)
    requires NoColon(a) && NoColon(b)
    ensures a + [COLON] + x == b + [COLON] + y <==> a == b && x == y
  {
    var p, q := a + [COLON] + x, b + [COLON] + y;
    assert p[|a|] == COLON && q[|b|] == COLON;
    assert |a| < |b| ==> q[|a|] == b[|a|];
    assert |b| < |a| ==> p[|b|] == a[|b|];
    if p == q {
      assert |a| == |b|;
      assert a == p[..|a|] && b == q[..|b|];
      assert x == p[|a| + 1..] && y == q[|b| + 1..];
    }
  }

  lemma {:induction false} RecoveryKeyInjective(a: Text, t: Text, d: Text, b: Text, u: Text, e: Text)
    requires NoColon(a) && NoColon(b) && NoColon(t) && NoColon(u)
    ensures RecoveryKey(a, t, d) == RecoveryKey(b, u, e) <==> a == b && t == u && d == e
  {
    KeyInjective(a, b, t + [COLON] + d, u + [COLON] + e);
    KeyInjective(t, u, d, e);
  }
}
